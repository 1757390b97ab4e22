/** The tag dispatch surface: property reads on an entry point are
    intercepted, and every string key other than `bind` yields a shorthand
    `(…args) => entry(key, …args)`. */
module Dispatch {
  import opened Values
  import opened Tokens
  import opened Identity
  import opened Create
  import opened Binding

  /** A property key: a string, or a symbol. */
  datatype Key = Name(s: string) | Symbol(id: nat)

  /** What a property read yields: a shorthand for a host tag, or the
      entry point's own property. */
  datatype Access = Shorthand(tag: string) | Property(key: Key)

  /** `tagHandler.get`: every string key except `bind` is a shorthand,
      whether or not it names a tag of the vocabulary. */
  function TagHandler(key: Key): (a: Access)
    ensures a.Shorthand? <==> key.Name? && key.s != "bind"
    ensures a.Shorthand? ==> a.tag == key.s
    ensures a.Property? ==> a.key == key
  {
    if key.Name? && key.s != "bind" then Shorthand(key.s) else Property(key)
  }

  /** The receiver the shorthand hands the entry point, as written: the
      shorthand's own receiver when there is one, otherwise the object the
      property was read from unless that is the entry point's target. The
      object read from is the intercepting wrapper, never its target, and
      the wrapper of `styled` is the entry point used as a function. */
  function ShorthandReceiver(callThis: Option<BindArg>, readFrom: BindArg, readFromTarget: bool): (r: Option<BindArg>)
    ensures callThis.Some? ==> r == callThis
    ensures callThis.None? ==> (r.None? <==> readFromTarget)
  {
    if callThis.Some? then callThis
    else if readFromTarget then None
    else Some(readFrom)
  }

  /** The binding a shorthand call uses, as written. */
  function ShorthandContext(entry: EntryPoint, callThis: Option<BindArg>, readFrom: BindArg, readFromTarget: bool,
                            current: StyledContext): (r: StyledContext)
    ensures entry.Unbound? && callThis.None? && !readFromTarget ==> r == CreateStyledContext(readFrom, None, current)
    ensures entry.Unbound? && callThis.Some? ==> r == CreateStyledContext(callThis.value, None, current)
    ensures entry.Bound? && entry.bound.tw != Missing ==> r == entry.bound
  {
    EntryContext(entry, ShorthandReceiver(callThis, readFrom, readFromTarget), current)
  }

  /** A receiver that is the entry point itself (the wrapper `styled`)
      carries no binding and is dropped. */
  function OwnReceiver(receiver: Option<BindArg>): (r: Option<BindArg>)
    ensures receiver == Some(Bare(Entry)) ==> r.None?
    ensures receiver != Some(Bare(Entry)) ==> r == receiver
  {
    if receiver == Some(Bare(Entry)) then None else receiver
  }

  /** The binding a shorthand call uses, corrected: the entry point used
      as a receiver is dropped before it becomes a binding. */
  function CorrectedShorthandContext(entry: EntryPoint, callThis: Option<BindArg>, readFrom: BindArg,
                                     readFromTarget: bool, current: StyledContext): StyledContext {
    EntryContext(entry, OwnReceiver(ShorthandReceiver(callThis, readFrom, readFromTarget)), current)
  }

  /** As written, `styled.h1` on the module's `styled`, called as a method
      or on its own, binds the entry point itself as rendering primitive
      in place of the default binding's, and drops the default binding's
      ref forwarding. */
  lemma ShorthandLeaksReceiver(callThis: Option<BindArg>, current: StyledContext)
    requires callThis == None || callThis == Some(Bare(Entry))
    ensures var used := ShorthandContext(Unbound, callThis, Bare(Entry), false, current);
            && used.createElement == Has(Entry)
            && used.forwardRef == Missing
            && (current.createElement != Has(Entry) ==> used != EntryContext(Unbound, None, current))
  {
  }

  /** Corrected, `styled.h1(…)` uses exactly the binding `styled('h1', …)`
      uses, however the shorthand is called, and a bound entry point's
      shorthand uses its fixed binding either way. */
  lemma ShorthandLikeCall(entry: EntryPoint, callThis: Option<BindArg>, current: StyledContext)
    requires callThis == None || callThis == Some(Bare(Entry))
    ensures CorrectedShorthandContext(entry, callThis, Bare(Entry), false, current) == EntryContext(entry, None, current)
  {
  }

  /** A bound entry point ignores the receiver, so its shorthands, as
      written, use the bound binding, as the project's tests observe. */
  lemma BoundShorthandLikeCall(b: StyledContext, callThis: Option<BindArg>, readFrom: BindArg,
                               readFromTarget: bool, current: StyledContext)
    requires b.tw != Missing
    ensures ShorthandContext(Bound(b), callThis, readFrom, readFromTarget, current) == b
    ensures ShorthandContext(Bound(b), callThis, readFrom, readFromTarget, current) == EntryContext(Bound(b), None, current)
  {
  }

  /** Keys that are not tags, such as `call` or `name`, are intercepted as
      well; `bind` and symbols are not. */
  lemma InterceptedKeys()
    ensures TagHandler(Name("call")) == Shorthand("call")
    ensures TagHandler(Name("name")) == Shorthand("name")
    ensures TagHandler(Name("bind")) == Property(Name("bind"))
    ensures forall n :: TagHandler(Symbol(n)) == Property(Symbol(n))
  {
  }

  /** A shorthand call: the entry point called with the key as host,
      under the corrected receiver. */
  method CallShorthand(m: StyledModule, entry: EntryPoint, key: Key, callThis: Option<BindArg>,
                       tokens: seq<Token>, handle: nat) returns (r: Made)
    requires TagHandler(key).Shorthand?
    ensures |tokens| == 0 ==>
              r == Curried(CorrectedShorthandContext(entry, callThis, Bare(Entry), false, m.styledContext), Intrinsic(key.s))
    ensures |tokens| > 0 ==>
              && r.Component? && fresh(r.s) && r.s.Valid()
              && r.s.context == CorrectedShorthandContext(entry, callThis, Bare(Entry), false, m.styledContext)
              && r.s.tag == Intrinsic(key.s) && r.s.tokens == tokens
              && r.s.id == Identifier(m.hash, m.stringify, Intrinsic(key.s), tokens)
              && r.s.displayName == DisplayName(Intrinsic(key.s))
              && r.s.defaultProps == Undefined
              && fresh(r.s.evaluate) && r.s.evaluate.tw == EffectiveTw(r.s.context, m.defaultTw)
              && r.s.evaluate.memo == "" && r.s.evaluate.compiled == []
  {
    var tag := TagHandler(key).tag;
    r := m.Styled(entry, OwnReceiver(ShorthandReceiver(callThis, Bare(Entry), false)), Intrinsic(tag), tokens, handle);
  }
}
