/** Assembly of a styled definition (`create`): its identifier, its
    display label, its inherited default props, its selector conversion,
    and the render wrapper that merges the class name, forwards the ref
    and resolves the `as` override before calling the rendering
    primitive. */
module Create {
  import opened Values
  import opened Tokens
  import opened ContextCache
  import opened Build
  import opened Identity
  import opened ClassNames

  /** A rendering primitive `createElement(type, props)`: the default stub
      that throws, a primitive supplied by the caller, or the entry point
      `styled` itself used as one (what a function receiver turns into). */
  datatype Pragma = Stub | Primitive(handle: nat) | Entry

  /** A ref-forwarding capability: what it makes of the render wrapper. */
  datatype ForwardRef = ForwardRef(handle: nat, wrap: FnInfo -> FnInfo)

  /** A binding: the rendering primitive, the optional ref forwarding and
      the optional styling function, each an own property that may be
      absent or hold undefined. */
  datatype StyledContext = StyledContext(createElement: Slot<Pragma>, forwardRef: Slot<ForwardRef>, tw: Slot<Styler>)

  /** The message of the default rendering primitive. */
  const MissingCreateElement: string := "Missing createElement. Call setup or bind before styled."

  /** The message of the error calling an undefined rendering primitive. */
  const NotAFunction: string := "createElement is not a function"

  /** The styling function `create` uses: the binding's, or the library's
      default when the binding holds none. */
  function EffectiveTw(context: StyledContext, defaultTw: Styler): (tw: Styler)
    ensures context.tw.Has? ==> tw == context.tw.value
    ensures !context.tw.Has? ==> tw == defaultTw
  {
    if context.tw.Has? then context.tw.value else defaultTw
  }

  /** What the rendering primitive was asked to make: the maker, the
      type and the props. */
  datatype Element = Element(maker: Pragma, kind: Value, props: Props)

  /** The `as` binding of the wrapper's parameter pattern: the prop when it
      is not undefined, the host otherwise. */
  function AsOrTag(props: Props, tag: Host): (v: Value)
    ensures "as" in props && props["as"] != Undefined ==> v == props["as"]
    ensures ("as" !in props || props["as"] == Undefined) ==> v == HostValue(tag)
  {
    if Get(props, "as") != Undefined then props["as"] else HostValue(tag)
  }

  /** The props the wrapper works on: everything but `as` and `class`. */
  function Rest(props: Props): (r: Props)
    ensures r.Keys == props.Keys - {"as", "class"}
    ensures forall k :: k in r ==> r[k] == props[k]
  {
    map k | k in props && k != "as" && k != "class" :: props[k]
  }

  /** The type handed to the rendering primitive: a host tag is replaced
      by the `as` override, a component host is always rendered itself. */
  function ElementType(tag: Host, props: Props): (v: Value)
    ensures tag.Composite? ==> v == Callable(tag.c)
    ensures tag.Intrinsic? && Get(props, "as") != Undefined ==> v == props["as"]
    ensures tag.Intrinsic? && Get(props, "as") == Undefined ==> v == Str(tag.name)
  {
    if tag.Composite? then HostValue(tag) else AsOrTag(props, tag)
  }

  /** The keys the wrapper itself writes. */
  function Written(tag: Host, forwarding: bool): set<string> {
    {"className"} + (if forwarding then {"ref"} else {}) + (if tag.Composite? then {"as"} else {})
  }

  /** The props handed to the rendering primitive, key by key: the merged
      class name, the ref when a forwarding capability is bound, the `as`
      override when the host is a component, and every other incoming prop
      except `class`. */
  function ElementProps(tag: Host, props: Props, ref: Value, forwarding: bool, className: string): (r: Props)
    ensures "class" !in r
    ensures "className" in r && r["className"] == Str(className)
    ensures forwarding ==> "ref" in r && r["ref"] == ref
    ensures !forwarding ==> ("ref" in r <==> "ref" in props)
    ensures "as" in r <==> tag.Composite?
    ensures tag.Composite? ==> r["as"] == AsOrTag(props, tag)
    ensures forall k :: k in props && k !in Written(tag, forwarding) && k != "as" && k != "class" ==>
              k in r && r[k] == props[k]
    ensures forall k :: k in r ==> k in props || k in Written(tag, forwarding)
  {
    map k | k in (props.Keys - {"as", "class"}) + Written(tag, forwarding) ::
      if k == "className" then Str(className)
      else if k == "ref" && forwarding then ref
      else if k == "as" then AsOrTag(props, tag)
      else props[k]
  }

  /** The wrapper's writes, one after the other, over the props without
      `as` and `class`, leave exactly the props `ElementProps` describes. */
  lemma StepwiseProps(tag: Host, props: Props, ref: Value, forwarding: bool, className: string)
    ensures var named := Rest(props)["className" := Str(className)];
            var referred := if forwarding then named["ref" := ref] else named;
            var overridden := if tag.Composite? then referred["as" := AsOrTag(props, tag)] else referred;
            overridden == ElementProps(tag, props, ref, forwarding, className)
  {
  }

  /** Calling the binding's rendering primitive. */
  function CreateElement(slot: Slot<Pragma>, kind: Value, props: Props): (r: Result<Element>)
    ensures slot == Has(Stub) ==> r == Failure(Error(MissingCreateElement))
    ensures !slot.Has? ==> r == Failure(Error(NotAFunction))
    ensures slot.Has? && slot.value != Stub ==> r == Success(Element(slot.value, kind, props))
  {
    match slot
    case Has(Stub) => Failure(Error(MissingCreateElement))
    case Has(p) => Success(Element(p, kind, props))
    case _ => Failure(Error(NotAFunction))
  }

  /** The outcome of one call of the render wrapper, given what the class
      evaluation returned for the props without `as` and `class`. */
  function Rendered(context: StyledContext, tag: Host, id: string, props: Props, ref: Value, evaluated: Result<string>): (r: Result<Element>)
    ensures evaluated.Failure? ==> r == Failure(evaluated.error)
    ensures evaluated.Success? && context.createElement == Has(Stub) ==> r == Failure(Error(MissingCreateElement))
    ensures evaluated.Success? && !context.createElement.Has? ==> r == Failure(Error(NotAFunction))
    ensures evaluated.Success? && context.createElement.Has? && context.createElement.value != Stub ==>
              && r.Success? && r.value.maker == context.createElement.value
              && r.value.kind == ElementType(tag, props)
              && "class" !in r.value.props
              && "className" in r.value.props
              && r.value.props["className"] == Str(ClassName(Get(props, "class"), Get(props, "className"), id, evaluated.value))
              && (context.forwardRef.Has? ==> "ref" in r.value.props && r.value.props["ref"] == ref)
  {
    match evaluated
    case Failure(e) => Failure(e)
    case Success(dynamic) =>
      var className := ClassName(Get(props, "class"), Get(props, "className"), id, dynamic);
      CreateElement(context.createElement, ElementType(tag, props),
                    ElementProps(tag, props, ref, context.forwardRef.Has?, className))
  }

  /** A styled definition: the function `create` returns, with the
      properties it attaches, and the class evaluator it closes over. */
  class StyledComponent {
    const context: StyledContext
    const tag: Host
    const tokens: seq<Token>
    /** `targetClassName`. */
    const id: string
    const displayName: string
    /** The component host's `defaultProps`, undefined for a host tag. */
    const defaultProps: Value
    /** The identity of the wrapper function. */
    const handle: nat
    const evaluate: Evaluator

    ghost predicate Valid()
      reads this, evaluate
    {
      evaluate.tokens == tokens && evaluate.Valid()
    }

    /** `create(context, tag, tokens)`. */
    constructor (context: StyledContext, defaultTw: Styler, hash: string -> string, stringify: Json -> string,
                 tag: Host, tokens: seq<Token>, handle: nat)
      ensures Valid() && fresh(evaluate)
      ensures this.context == context && this.tag == tag && this.tokens == tokens && this.handle == handle
      ensures id == Identifier(hash, stringify, tag, tokens)
      ensures displayName == DisplayName(tag)
      ensures defaultProps == (if tag.Composite? then tag.c.defaultProps else Undefined)
      ensures evaluate.tw == EffectiveTw(context, defaultTw) && evaluate.memo == "" && evaluate.compiled == []
    {
      this.context := context;
      this.tag := tag;
      this.tokens := tokens;
      this.handle := handle;
      id := hash(stringify(Serialise(tag, tokens)));
      displayName := DisplayName(tag);
      defaultProps := if tag.Composite? then tag.c.defaultProps else Undefined;
      evaluate := new Evaluator(EffectiveTw(context, defaultTw), tokens);
    }

    /** `toString()`: the marker class as a class selector. */
    function ToString(): (s: string)
      ensures |s| == |id| + 1 && s[0] == '.' && s[1..] == id
    {
      "." + id
    }

    /** `toJSON()`: the same selector, so that a definition serialises as
      its selector wherever it appears. */
    function ToJSON(): (j: Json)
      ensures j.JStr? && j.s == ToString()
    {
      JStr(ToString())
    }

    /** The function object `create` returns, as another definition or a
        serialisation sees it: named after the wrapper, labelled, carrying
        the inherited default props, wrapped by the ref-forwarding
        capability when one is bound, and converting to the selector. */
    function Info(): (f: FnInfo)
      ensures f.toJSON == Some(ToJSON()) && f.text == ToString()
      ensures !context.forwardRef.Has? ==>
                f.handle == handle && f.name == "Styled" && f.displayName == Some(displayName)
                && f.defaultProps == defaultProps
    {
      var inner := FnInfo(handle, "Styled", Some(displayName), None, "", defaultProps);
      var outer := if context.forwardRef.Has? then context.forwardRef.value.wrap(inner) else inner;
      outer.(toJSON := Some(ToJSON()), text := ToString())
    }

    /** One call of the render wrapper with `props` and `ref`. */
    method Render(cache: Cache, props: Props, ref: Value) returns (r: Result<Element>)
      requires Valid()
      modifies evaluate, cache
      ensures Valid()
      ensures r == Rendered(context, tag, id, props, ref,
                            Expected(evaluate.tw, tokens, old(evaluate.memo), old(cache.entries), Rest(props)))
      ensures !HasFunction(tokens) ==>
                && cache.entries == old(cache.entries) && cache.probes == old(cache.probes)
                && evaluate.memo == (if old(evaluate.memo) != "" then old(evaluate.memo)
                                     else evaluate.tw.compile(StaticArgs(tokens)))
                && evaluate.compiled == old(evaluate.compiled) +
                     (if old(evaluate.memo) == "" then [StaticArgs(tokens)] else [])
      ensures HasFunction(tokens) ==>
                && var fetched := Fetch(old(cache.entries), evaluate.tw);
                && cache.entries == fetched.entries
                && cache.probes == old(cache.probes) + (if fetched.probed then [evaluate.tw.handle] else [])
                && evaluate.memo == old(evaluate.memo)
                && evaluate.compiled == old(evaluate.compiled) +
                     (if Interpolate(tokens, Rest(props), fetched.ctx).Success?
                      then [Interpolate(tokens, Rest(props), fetched.ctx).value] else [])
    {
      var rest := Rest(props);
      var dynamic := evaluate.Evaluate(cache, rest);
      if dynamic.Failure? {
        return Failure(dynamic.error);
      }
      var className := ClassName(Get(props, "class"), Get(rest, "className"), id, dynamic.value);
      rest := rest["className" := Str(className)];
      if context.forwardRef.Has? {
        rest := rest["ref" := ref];
      }
      var kind := AsOrTag(props, tag);
      if tag.Composite? {
        rest := rest["as" := kind];
        kind := HostValue(tag);
      }
      StepwiseProps(tag, props, ref, context.forwardRef.Has?, className);
      r := CreateElement(context.createElement, kind, rest);
    }
  }

  /** On a host tag, `as` replaces the rendered type and is not passed on;
      the rest of the props, with the merged class name, are. */
  lemma AsOnIntrinsic(context: StyledContext, name: string, id: string, props: Props, ref: Value, dynamic: string)
    requires context.createElement.Has? && context.createElement.value != Stub
    requires Get(props, "as") != Undefined
    ensures var r := Rendered(context, Intrinsic(name), id, props, ref, Success(dynamic));
            && r.Success? && r.value.kind == props["as"] && "as" !in r.value.props
            && "class" !in r.value.props
  {
  }

  /** On a component host, the component itself is rendered and the `as`
      override travels to it as a prop. */
  lemma AsOnComposite(context: StyledContext, c: FnInfo, id: string, props: Props, ref: Value, dynamic: string)
    requires context.createElement.Has? && context.createElement.value != Stub
    requires Get(props, "as") != Undefined
    ensures var r := Rendered(context, Composite(c), id, props, ref, Success(dynamic));
            && r.Success? && r.value.kind == Callable(c)
            && "as" in r.value.props && r.value.props["as"] == props["as"]
  {
  }

  /** On a component host without an override, the prop `as` the
      component receives is the component itself. */
  lemma CompositeWithoutAs(context: StyledContext, c: FnInfo, id: string, props: Props, ref: Value, dynamic: string)
    requires context.createElement.Has? && context.createElement.value != Stub
    requires Get(props, "as") == Undefined
    ensures var r := Rendered(context, Composite(c), id, props, ref, Success(dynamic));
            && r.Success? && r.value.kind == Callable(c)
            && "as" in r.value.props && r.value.props["as"] == Callable(c)
  {
  }

  /** The ref is set exactly when a forwarding capability is bound. */
  lemma RefOnlyWithForwardRef(context: StyledContext, tag: Host, id: string, props: Props, ref: Value, dynamic: string)
    requires context.createElement.Has? && context.createElement.value != Stub
    requires "ref" !in props && ref != Undefined
    ensures var r := Rendered(context, tag, id, props, ref, Success(dynamic));
            && r.Success?
            && ("ref" in r.value.props <==> context.forwardRef.Has?)
            && ("ref" in r.value.props ==> r.value.props["ref"] == ref)
  {
  }

  /** With the default binding's stub, a render whose class evaluation
      succeeds fails with the configuration message; a failing class
      evaluation fails first with its own error. */
  lemma StubFails(context: StyledContext, tag: Host, id: string, props: Props, ref: Value, evaluated: Result<string>)
    requires context.createElement == Has(Stub)
    ensures Rendered(context, tag, id, props, ref, evaluated) ==
              Failure(if evaluated.Failure? then evaluated.error else Error(MissingCreateElement))
  {
  }

  /** The scenario of the project's tests: a component rendered with an
      `as` override and an `href` receives both, with the merged class
      name, and no `class`. */
  lemma ComponentAsExample(context: StyledContext, span: FnInfo, id: string, dynamic: string)
    requires context.createElement.Has? && context.createElement.value != Stub && !context.forwardRef.Has?
    requires id != "" && dynamic != ""
    ensures var props := map["as" := Str("button"), "href" := Str("https://github.com/tw-in-js/twind")];
            Rendered(context, Composite(span), id, props, Undefined, Success(dynamic))
              == Success(Element(context.createElement.value, Callable(span),
                                 map["as" := Str("button"), "href" := Str("https://github.com/tw-in-js/twind"),
                                     "className" := Str(id + " " + dynamic)]))
  {
    var props := map["as" := Str("button"), "href" := Str("https://github.com/tw-in-js/twind")];
    FalsyClassesIgnored(Undefined, Undefined, Undefined, Undefined, id, dynamic);
    var r := Rendered(context, Composite(span), id, props, Undefined, Success(dynamic));
    var expected := map["as" := Str("button"), "href" := Str("https://github.com/tw-in-js/twind"),
                        "className" := Str(id + " " + dynamic)];
    var className := ClassName(Undefined, Undefined, id, dynamic);
    assert className == id + " " + dynamic;
    var got := ElementProps(Composite(span), props, Undefined, false, className);
    assert Written(Composite(span), false) == {"className", "as"};
    assert got.Keys == expected.Keys;
    assert got["as"] == Str("button");
    assert got["href"] == expected["href"];
    assert got == expected;
  }
}
