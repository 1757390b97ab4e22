/** Style tokens, the styling function they are handed to, and the rule
    that decides, token by token, what the styling function receives:
    the token itself, the token's own result, or a deferred thunk. */
module Tokens {
  import opened Values

  /** The styling function's internal configuration; the core only passes
      it along and never looks inside. */
  datatype Context = Context(handle: nat)

  /** What one run of a token function did: the property names it read
      from its props argument, in order, and how it ended. */
  datatype Call = Call(touched: seq<string>, outcome: Outcome)

  datatype Outcome = Returned(token: Token) | Raised(error: Error)

  /** A token that is a function. `arity` is its declared parameter count
      (`token.length`); `body` says what it does when run with a props
      object and a styling context. */
  datatype TokenFn = TokenFn(info: FnInfo, arity: nat, body: (Props, Option<Context>) -> Call)

  /** A JavaScript value that is not a function nor an object. */
  type Primitive = v: Value | v.Undefined? || v.Null? || v.Bool? || v.Num? || v.Str?
    witness Undefined

  /** A style token: a primitive (usually a class string), an array of
      tokens, a plain style object, or a function. */
  datatype Token =
    | Lit(v: Primitive)
    | List(items: seq<Token>)
    | Record(members: seq<Member>)
    | Func(f: TokenFn)

  /** One own property of a plain style object, in insertion order. */
  datatype Member = Member(key: string, value: Token)

  /** One argument handed to the styling function: a token, or the arrow
      `(context) => token(props, context)` that the core builds over a
      two-parameter token function. The arrow closes over the guarded
      props view, not the plain props: `view` is the props that view
      wraps, and `RunThunk` says what reading through it does. */
  datatype Arg = Given(token: Token) | Closure(fn: TokenFn, view: Props)

  /** The styling function `tw`: its identity, the context it hands to a
      callback token it compiles (None if it never calls one), and the
      class string it returns for a list of arguments. Its parsing,
      compiling and stylesheet injection are not modelled. */
  datatype Styler = Styler(handle: nat, probe: Option<Context>, compile: seq<Arg> -> string)

  /** Property names that a styling-engine plugin reads from its first
      argument; reading one that the props lack marks the function as a
      plugin rather than a props callback. */
  const Reserved: set<string> := {"tw", "theme", "tag"}

  /** Reading `name` through the guarded props view aborts the run. */
  predicate Trips(view: Props, name: string)
    ensures Trips(view, name) ==> name == "tw" || name == "theme" || name == "tag"
    ensures name in view ==> !Trips(view, name)
  {
    name in Reserved && name !in view
  }

  /** The run reads a reserved name the props lack, so the guarded view
      raises the escape signal before the run can finish. */
  predicate Escapes(call: Call, view: Props)
    ensures call.touched == [] ==> !Escapes(call, view)
    ensures Reserved <= view.Keys ==> !Escapes(call, view)
  {
    exists i :: 0 <= i < |call.touched| && Trips(view, call.touched[i])
  }

  /** The classification of one token for one render. */
  datatype Resolution =
    | Literal(token: Token)   // a token, or the value a props callback returned
    | Defer(fn: TokenFn)      // a plugin-shaped function, passed on as it is
    | Thunk(fn: TokenFn)      // a two-parameter function, wrapped over the props

  /** The classification rule of `build`: non-functions pass through; a
      function of two or more parameters is never run here; any other
      function is run on the guarded props and either yields its result,
      is passed on itself when it escapes, or rethrows its error. */
  function Resolve(t: Token, view: Props, ctx: Option<Context>): (r: Result<Resolution>)
    ensures !t.Func? ==> r == Success(Literal(t))
    ensures r.Success? && r.value.Thunk? <==> t.Func? && t.f.arity > 1
    ensures r.Success? && r.value.Defer? <==>
              t.Func? && t.f.arity <= 1 && Escapes(t.f.body(view, ctx), view)
    ensures r.Failure? <==>
              t.Func? && t.f.arity <= 1 && !Escapes(t.f.body(view, ctx), view)
              && t.f.body(view, ctx).outcome.Raised?
    ensures r.Failure? ==> r.error == t.f.body(view, ctx).outcome.error
    ensures t.Func? && r.Success? && r.value.Literal? ==>
              r.value.token == t.f.body(view, ctx).outcome.token
    ensures r.Success? && !r.value.Literal? ==> t.Func? && r.value.fn == t.f
  {
    if !t.Func? then Success(Literal(t))
    else if t.f.arity > 1 then Success(Thunk(t.f))
    else
      var call := t.f.body(view, ctx);
      if Escapes(call, view) then Success(Defer(t.f))
      else match call.outcome
        case Returned(v) => Success(Literal(v))
        case Raised(e) => Failure(e)
  }

  /** The argument the styling function receives for a classified token. */
  function Submit(res: Resolution, view: Props): Arg {
    match res
    case Literal(t) => Given(t)
    case Defer(f) => Given(Func(f))
    case Thunk(f) => Closure(f, view)
  }

  /** How a thunk ends when the styling function calls it with a context:
      with the token's result, with the error it raised, or with the
      escape signal thrown out of the styling function. */
  datatype ThunkOutcome = ThunkReturned(token: Token) | ThunkRaised(error: Error) | EscapeThrown

  /** The styling function calling `(context) => token(props, context)`.
      The token runs on the guarded view outside the classification's
      try/catch, so a read of a reserved name the props lack throws the
      escape signal, uncaught, out of the styling function. */
  function RunThunk(a: Arg, ctx: Option<Context>): (r: ThunkOutcome)
    requires a.Closure?
    ensures r.EscapeThrown? <==> Escapes(a.fn.body(a.view, ctx), a.view)
    ensures r.ThunkReturned? <==>
              !Escapes(a.fn.body(a.view, ctx), a.view) && a.fn.body(a.view, ctx).outcome.Returned?
    ensures r.ThunkReturned? ==> r.token == a.fn.body(a.view, ctx).outcome.token
    ensures r.ThunkRaised? ==> r.error == a.fn.body(a.view, ctx).outcome.error
  {
    var call := a.fn.body(a.view, ctx);
    if Escapes(call, a.view) then EscapeThrown
    else match call.outcome
      case Returned(t) => ThunkReturned(t)
      case Raised(e) => ThunkRaised(e)
  }

  /** `tokens.map(...)` over the classification, left to right; the first
      error a token raises ends the map. */
  function Interpolate(tokens: seq<Token>, view: Props, ctx: Option<Context>): (r: Result<seq<Arg>>)
    ensures r.Success? ==> |r.value| == |tokens|
    ensures r.Success? ==> forall i :: 0 <= i < |tokens| ==>
              Resolve(tokens[i], view, ctx).Success?
              && r.value[i] == Submit(Resolve(tokens[i], view, ctx).value, view)
    ensures r.Success? ==> forall i :: 0 <= i < |tokens| && !tokens[i].Func? ==>
              r.value[i] == Given(tokens[i])
    ensures r.Failure? ==>
              exists i :: 0 <= i < |tokens|
                && (forall j :: 0 <= j < i ==> Resolve(tokens[j], view, ctx).Success?)
                && Resolve(tokens[i], view, ctx) == Failure(r.error)
    decreases |tokens|
  {
    if tokens == [] then Success([])
    else
      var head :- Resolve(tokens[0], view, ctx);
      var tail :- Interpolate(tokens[1..], view, ctx);
      Success([Submit(head, view)] + tail)
  }

  /** `tokens.some((token) => typeof token === 'function')`: only the top
      level is inspected, so a function inside an array is not seen. */
  predicate HasFunction(tokens: seq<Token>)
    ensures HasFunction(tokens) <==> exists t :: t in tokens && t.Func?
    ensures HasFunction(tokens) ==> tokens != []
  {
    exists i :: 0 <= i < |tokens| && tokens[i].Func?
  }

  /** A function of two or more parameters is never run by the
      classification: for every props object and context, whatever its
      body would do, it becomes a thunk over the props. */
  lemma FactoryNeverRun(f: TokenFn, view: Props, ctx: Option<Context>)
    requires f.arity > 1
    ensures Resolve(Func(f), view, ctx) == Success(Thunk(f))
    ensures Submit(Resolve(Func(f), view, ctx).value, view) == Closure(f, view)
  {
  }

  /** A two-parameter token that reads a reserved name the props lack is
      classified without complaint, yet when the styling function runs
      its thunk the escape signal leaves the styling function uncaught. */
  lemma ThunkEscapesUncaught(f: TokenFn, view: Props, ctx: Option<Context>, name: string, tctx: Option<Context>)
    requires f.arity > 1
    requires name in Reserved && name !in view
    requires name in f.body(view, tctx).touched
    ensures Resolve(Func(f), view, ctx) == Success(Thunk(f))
    ensures RunThunk(Submit(Thunk(f), view), tctx) == EscapeThrown
  {
  }

  /** A one-parameter function that reads no reserved name is always a
      props callback: on every render it yields its result or its error,
      and is never passed on as a plugin. */
  lemma CallbackNeverDeferred(f: TokenFn, view: Props, ctx: Option<Context>)
    requires f.arity <= 1
    requires forall i :: 0 <= i < |f.body(view, ctx).touched| ==> f.body(view, ctx).touched[i] !in Reserved
    ensures Resolve(Func(f), view, ctx).Success? ==> Resolve(Func(f), view, ctx).value.Literal?
  {
  }

  /** When the props carry every reserved name, as a component with a
      genuine `theme` or `tag` prop may, nothing escapes: a plugin-shaped
      function is then run as a props callback. */
  lemma ReservedPropsDisableDetection(f: TokenFn, view: Props, ctx: Option<Context>)
    requires f.arity <= 1 && Reserved <= view.Keys
    ensures !Resolve(Func(f), view, ctx).Success? || !Resolve(Func(f), view, ctx).value.Defer?
  {
  }
}
