/** The binding model: the process-wide default binding that `bind`
    layers partial bindings over, scoped bindings made by `styled.bind`,
    and the entry point `styled(tag, ...tokens)` with its curried form. */
module Binding {
  import opened Values
  import opened Tokens
  import opened ContextCache
  import opened Identity
  import opened Create

  /** What a binding call accepts: a bare rendering primitive, or a
      (partial) binding object. */
  datatype BindArg = Bare(pragma: Pragma) | Config(context: StyledContext)

  /** Reading a property: a present key keeps its value, an absent one
      reads as undefined. */
  function Read<T>(s: Slot<T>): (r: Slot<T>)
    ensures r != Missing
    ensures s != Missing ==> r == s
  {
    if s.Missing? then Empty else s
  }

  /** One key of `{ ...base, ...top }`: the top object's key when it has
      one, even holding undefined. */
  function Over<T>(top: Slot<T>, base: Slot<T>): (r: Slot<T>)
    ensures top != Missing ==> r == top
    ensures top == Missing ==> r == base
  {
    if top.Missing? then base else top
  }

  /** `{ ...base, ...top }` on bindings. */
  function Spread(top: StyledContext, base: StyledContext): (r: StyledContext)
    ensures top.createElement != Missing ==> r.createElement == top.createElement
    ensures top.createElement == Missing ==> r.createElement == base.createElement
    ensures top.forwardRef != Missing ==> r.forwardRef == top.forwardRef
    ensures top.forwardRef == Missing ==> r.forwardRef == base.forwardRef
    ensures top.tw != Missing ==> r.tw == top.tw
    ensures top.tw == Missing ==> r.tw == base.tw
  {
    StyledContext(Over(top.createElement, base.createElement),
                  Over(top.forwardRef, base.forwardRef),
                  Over(top.tw, base.tw))
  }

  /** `createStyledContext(context, tw)`: the given styling function, or
      the current default binding's when none is given, under the given
      binding object, or under `{ createElement }` for a bare primitive. */
  function CreateStyledContext(arg: BindArg, tw: Option<Styler>, current: StyledContext): (r: StyledContext)
    ensures r.tw != Missing
    ensures arg.Bare? ==> r.createElement == Has(arg.pragma) && r.forwardRef == Missing
    ensures arg.Bare? && tw.Some? ==> r.tw == Has(tw.value)
    ensures arg.Bare? && tw.None? ==> r.tw == Read(current.tw)
    ensures arg.Config? && arg.context.tw != Missing ==> r.tw == arg.context.tw
    ensures arg.Config? && arg.context.tw == Missing ==>
              r.tw == (if tw.Some? then Has(tw.value) else Read(current.tw))
    ensures arg.Config? ==> r.createElement == arg.context.createElement && r.forwardRef == arg.context.forwardRef
  {
    var fallback := StyledContext(Missing, Missing, if tw.Some? then Has(tw.value) else Read(current.tw));
    match arg
    case Bare(p) => Spread(StyledContext(Has(p), Missing, Missing), fallback)
    case Config(c) => Spread(c, fallback)
  }

  /** The default binding before any `bind`: the throwing stub and the
      library's default styling function. */
  function Initial(defaultTw: Styler): StyledContext {
    StyledContext(Has(Stub), Missing, Has(defaultTw))
  }

  /** Which function was invoked: the module's `styled`, or one made by
      `styled.bind` over the binding it fixed. */
  datatype EntryPoint = Unbound | Bound(bound: StyledContext)

  /** The binding a call uses: for `styled`, the receiver made into a
      binding when there is one, the default binding otherwise; for a
      bound function, its fixed binding made into a binding again (the
      receiver of the call is ignored). */
  function EntryContext(entry: EntryPoint, receiver: Option<BindArg>, current: StyledContext): (r: StyledContext)
    ensures entry.Unbound? && receiver.None? ==> r == current
    ensures entry.Unbound? && receiver.Some? && receiver.value.Bare? ==>
              r.createElement == Has(receiver.value.pragma) && r.forwardRef == Missing && r.tw == Read(current.tw)
    ensures entry.Bound? && entry.bound.tw != Missing ==> r == entry.bound
  {
    match entry
    case Unbound => if receiver.Some? then CreateStyledContext(receiver.value, None, current) else current
    case Bound(b) => CreateStyledContext(Config(b), None, current)
  }

  /** What the entry point returns: a definition, or, with no tokens, the
      function that will create one from the tokens it is given. */
  datatype Made = Component(s: StyledComponent) | Curried(context: StyledContext, tag: Host)

  /** The module's mutable state: the default binding and the context
      cache, with the library's default styling function and the
      collaborators of identity hashing. */
  class StyledModule {
    const defaultTw: Styler
    const hash: string -> string
    const stringify: Json -> string
    const cache: Cache
    var styledContext: StyledContext

    constructor (defaultTw: Styler, hash: string -> string, stringify: Json -> string)
      ensures this.defaultTw == defaultTw && this.hash == hash && this.stringify == stringify
      ensures styledContext == Initial(defaultTw)
      ensures fresh(cache) && cache.entries == map[]
    {
      this.defaultTw := defaultTw;
      this.hash := hash;
      this.stringify := stringify;
      cache := new Cache();
      styledContext := Initial(defaultTw);
    }

    /** `bind(context, tw)`: layer a binding over the default one. */
    method Bind(arg: BindArg, tw: Option<Styler>)
      modifies this
      ensures styledContext == Spread(CreateStyledContext(arg, tw, old(styledContext)), old(styledContext))
    {
      var layer := CreateStyledContext(arg, tw, styledContext);
      styledContext := StyledContext(
        if layer.createElement.Missing? then styledContext.createElement else layer.createElement,
        if layer.forwardRef.Missing? then styledContext.forwardRef else layer.forwardRef,
        layer.tw);
    }

    /** `styled.bind(context, tw)`: a bound entry point over a binding
        computed now, from the default binding as it is now. */
    method BindScoped(arg: BindArg, tw: Option<Styler>) returns (entry: EntryPoint)
      ensures entry == Bound(CreateStyledContext(arg, tw, styledContext))
    {
      entry := Bound(CreateStyledContext(arg, tw, styledContext));
    }

    /** A call of an entry point with a receiver, a host and tokens. */
    method Styled(entry: EntryPoint, receiver: Option<BindArg>, tag: Host, tokens: seq<Token>, handle: nat)
      returns (r: Made)
      ensures |tokens| == 0 ==> r == Curried(EntryContext(entry, receiver, styledContext), tag)
      ensures |tokens| > 0 ==>
                && r.Component? && fresh(r.s) && fresh(r.s.evaluate) && r.s.Valid()
                && r.s.context == EntryContext(entry, receiver, styledContext)
                && r.s.tag == tag && r.s.tokens == tokens
                && r.s.id == Identifier(hash, stringify, tag, tokens)
                && r.s.displayName == DisplayName(tag)
                && r.s.defaultProps == (if tag.Composite? then tag.c.defaultProps else Undefined)
                && r.s.evaluate.tw == EffectiveTw(r.s.context, defaultTw)
                && r.s.evaluate.memo == "" && r.s.evaluate.compiled == []
    {
      var context := EntryContext(entry, receiver, styledContext);
      if |tokens| > 0 {
        var s := new StyledComponent(context, defaultTw, hash, stringify, tag, tokens, handle);
        r := Component(s);
      } else {
        r := Curried(context, tag);
      }
    }

    /** Calling the curried function with the tokens: the binding was
        fixed by the first call. */
    method Complete(context: StyledContext, tag: Host, tokens: seq<Token>, handle: nat) returns (s: StyledComponent)
      ensures fresh(s) && fresh(s.evaluate) && s.Valid()
      ensures s.context == context && s.tag == tag && s.tokens == tokens
      ensures s.id == Identifier(hash, stringify, tag, tokens)
      ensures s.displayName == DisplayName(tag)
      ensures s.defaultProps == (if tag.Composite? then tag.c.defaultProps else Undefined)
      ensures s.evaluate.tw == EffectiveTw(context, defaultTw)
      ensures s.evaluate.memo == "" && s.evaluate.compiled == []
    {
      s := new StyledComponent(context, defaultTw, hash, stringify, tag, tokens, handle);
    }
  }

  /** `bind` is a shallow merge: the keys the new binding has win, the
      others keep their previous values. */
  lemma BindPrecedence(arg: BindArg, tw: Option<Styler>, current: StyledContext)
    ensures var next := Spread(CreateStyledContext(arg, tw, current), current);
            && next.tw != Missing
            && (arg.Bare? ==> next.createElement == Has(arg.pragma) && next.forwardRef == current.forwardRef)
            && (arg.Config? && arg.context.createElement == Missing ==> next.createElement == current.createElement)
            && (arg.Config? && arg.context.forwardRef == Missing ==> next.forwardRef == current.forwardRef)
            && (arg.Config? && arg.context.createElement != Missing ==> next.createElement == arg.context.createElement)
            && (arg.Config? && arg.context.forwardRef != Missing ==> next.forwardRef == arg.context.forwardRef)
            && next.tw == CreateStyledContext(arg, tw, current).tw
  {
  }

  /** A bare rendering primitive binds as `{ createElement }`. */
  lemma BarePragmaIsCreateElement(p: Pragma, tw: Option<Styler>, current: StyledContext)
    ensures CreateStyledContext(Bare(p), tw, current) ==
              CreateStyledContext(Config(StyledContext(Has(p), Missing, Missing)), tw, current)
  {
  }

  /** `bind` with a styling function and then without one keeps the
      first: the omitted styling function falls back to the default
      binding's. */
  lemma BindKeepsTw(p: Pragma, q: Pragma, tw: Styler, current: StyledContext)
    ensures var first := Spread(CreateStyledContext(Bare(p), Some(tw), current), current);
            var second := Spread(CreateStyledContext(Bare(q), None, first), first);
            second.tw == Has(tw) && second.createElement == Has(q)
  {
  }

  /** A scoped binding's styling function is fixed when `styled.bind` is
      called: every later call of the bound entry point uses that binding,
      whatever the default binding has become since. */
  lemma BoundKeepsContext(arg: BindArg, tw: Option<Styler>, atBind: StyledContext,
                          later: StyledContext, receiver: Option<BindArg>)
    ensures var b := CreateStyledContext(arg, tw, atBind);
            EntryContext(Bound(b), receiver, later) == b
  {
  }

  /** Without a receiver, `styled` uses the default binding as it is at
      the call. */
  lemma UnboundUsesDefault(current: StyledContext)
    ensures EntryContext(Unbound, None, current) == current
  {
  }

  /** The default binding, never rebound, renders nothing: every render
      whose class evaluation succeeds fails with the configuration
      message. */
  lemma DefaultBindingFails(defaultTw: Styler, tag: Host, id: string, props: Props, ref: Value, dynamic: string)
    ensures Rendered(EntryContext(Unbound, None, Initial(defaultTw)), tag, id, props, ref, Success(dynamic))
              == Failure(Error(MissingCreateElement))
  {
  }
}
