/** The token evaluator (`build`): the per-render class computation of a
    styled definition. A token list with no function is compiled once and
    remembered; otherwise every render classifies the tokens again over
    the render's props and compiles the result. */
module Build {
  import opened Values
  import opened Tokens
  import opened ContextCache

  /** The static path calls `tw(tokens)`: the token array is one argument. */
  function StaticArgs(tokens: seq<Token>): seq<Arg> {
    [Given(List(tokens))]
  }

  /** The dynamic path: the classified tokens, spread as arguments of the
      styling function, under the context in effect for this render. */
  function DynamicClass(tw: Styler, tokens: seq<Token>, view: Props, ctx: Option<Context>): Result<string> {
    match Interpolate(tokens, view, ctx)
    case Success(args) => Success(tw.compile(args))
    case Failure(e) => Failure(e)
  }

  /** What `evaluate(props)` returns, given the remembered class string
      and the context cache before the call. */
  function Expected(tw: Styler, tokens: seq<Token>, memo: string, entries: Entries, view: Props): (r: Result<string>)
    ensures !HasFunction(tokens) ==> r.Success?
    ensures !HasFunction(tokens) && memo != "" ==> r == Success(memo)
    ensures HasFunction(tokens) ==>
              (r.Success? <==> Interpolate(tokens, view, Fetch(entries, tw).ctx).Success?)
    ensures HasFunction(tokens) && r.Failure? ==> r.error == Interpolate(tokens, view, Fetch(entries, tw).ctx).error
  {
    if !HasFunction(tokens) then
      Success(if memo != "" then memo else tw.compile(StaticArgs(tokens)))
    else
      DynamicClass(tw, tokens, view, Fetch(entries, tw).ctx)
  }

  /** The closure `build(tw, tokens)` returns, with the variable `result`
      that its static path captures. */
  class Evaluator {
    const tw: Styler
    const tokens: seq<Token>
    /** The captured `result`; "" stands for both undefined and the empty
        string, which the source treats alike (`result || ...`). */
    var memo: string
    /** The argument lists this evaluator handed to the styling function,
        in order. */
    ghost var compiled: seq<seq<Arg>>

    /** On the static path, every compilation was of the whole token list,
        and a remembered class string is the one compilation there was. */
    ghost predicate Valid()
      reads this
    {
      !HasFunction(tokens) ==>
        && (forall i :: 0 <= i < |compiled| ==> compiled[i] == StaticArgs(tokens))
        && (memo != "" ==> memo == tw.compile(StaticArgs(tokens)) && |compiled| == 1)
        && (memo == "" && tw.compile(StaticArgs(tokens)) != "" ==> compiled == [])
    }

    constructor (tw: Styler, tokens: seq<Token>)
      ensures Valid()
      ensures this.tw == tw && this.tokens == tokens
      ensures memo == "" && compiled == []
    {
      this.tw := tw;
      this.tokens := tokens;
      memo := "";
      compiled := [];
    }

    /** `evaluate(props)`. */
    method Evaluate(cache: Cache, props: Props) returns (r: Result<string>)
      requires Valid()
      modifies this, cache
      ensures Valid()
      ensures r == Expected(tw, tokens, old(memo), old(cache.entries), props)
      ensures !HasFunction(tokens) ==>
                && r == Success(tw.compile(StaticArgs(tokens)))
                && cache.entries == old(cache.entries) && cache.probes == old(cache.probes)
                && memo == (if old(memo) != "" then old(memo) else tw.compile(StaticArgs(tokens)))
                && compiled == old(compiled) + (if old(memo) == "" then [StaticArgs(tokens)] else [])
                && (tw.compile(StaticArgs(tokens)) != "" ==> |compiled| <= 1)
      ensures !HasFunction(tokens) && tw.compile(StaticArgs(tokens)) == "" ==>
                compiled == old(compiled) + [StaticArgs(tokens)]
      ensures HasFunction(tokens) ==>
                && memo == old(memo)
                && cache.entries == Fetch(old(cache.entries), tw).entries
                && cache.probes == old(cache.probes) + (if Fetch(old(cache.entries), tw).probed then [tw.handle] else [])
                && compiled == old(compiled) +
                     (if r.Success? then [Interpolate(tokens, props, Fetch(old(cache.entries), tw).ctx).value] else [])
    {
      if exists i :: 0 <= i < |tokens| && tokens[i].Func? {
        // the guarded view is `props` itself: reading through it is modelled by Escapes
        var ctx := cache.Get(tw);
        var args := Interpolate(tokens, props, ctx);
        if args.Success? {
          compiled := compiled + [args.value];
          r := Success(tw.compile(args.value));
        } else {
          r := Failure(args.error);
        }
      } else {
        if memo == "" {
          memo := tw.compile(StaticArgs(tokens));
          compiled := compiled + [StaticArgs(tokens)];
        }
        r := Success(memo);
      }
    }
  }

  /** A two-parameter token reaches the styling function as a thunk over
      the props at its own position, and every non-function token reaches
      it unchanged: the argument list is the token list, position for
      position. */
  lemma DynamicArgsFollowTokens(tokens: seq<Token>, view: Props, ctx: Option<Context>, i: nat)
    requires Interpolate(tokens, view, ctx).Success? && i < |tokens|
    ensures |Interpolate(tokens, view, ctx).value| == |tokens|
    ensures !tokens[i].Func? ==> Interpolate(tokens, view, ctx).value[i] == Given(tokens[i])
    ensures tokens[i].Func? && tokens[i].f.arity > 1 ==>
              Interpolate(tokens, view, ctx).value[i] == Closure(tokens[i].f, view)
  {
  }
}
