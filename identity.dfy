/** Identity and display metadata of a styled definition: the canonical
    serialisation of the host and token list that is hashed into the
    marker class, and the `Styled(...)` display label. */
module Identity {
  import opened Values
  import opened Tokens

  /** What a definition renders: a host tag name, or a component (a
      function, possibly another styled definition). */
  datatype Host = Intrinsic(name: string) | Composite(c: FnInfo)

  /** The host as a value: the default of the `as` prop and the type the
      rendering primitive receives. */
  function HostValue(tag: Host): (v: Value)
    ensures tag.Intrinsic? <==> v.Str?
    ensures tag.Composite? <==> v.Callable?
  {
    match tag
    case Intrinsic(name) => Str(name)
    case Composite(c) => Callable(c)
  }

  /** The replacer `stringifyFunctions` applied to a function: a
      descriptor of its kind, name, display name, and `toJSON()` output
      or source text, instead of the function itself. */
  function StringifyFunctions(f: FnInfo): (j: Json)
    ensures j.JObj? && |j.members| == 4
    ensures j.members[0] == ("t", JStr("function")) && j.members[1] == ("n", JStr(f.name))
    ensures j.members[2].0 == "d" && j.members[3].0 == "s"
    ensures j.members[2].1 == JUndefined <==> f.displayName.None?
    ensures f.displayName.Some? ==> j.members[2].1 == JStr(f.displayName.value)
    ensures f.toJSON.None? ==> j.members[3].1 == JStr(f.text)
    ensures f.toJSON.Some? ==> j.members[3].1 == f.toJSON.value
  {
    JObj([
      ("t", JStr("function")),
      ("n", JStr(f.name)),
      ("d", if f.displayName.Some? then JStr(f.displayName.value) else JUndefined),
      ("s", if f.toJSON.Some? then f.toJSON.value else JStr(f.text))
    ])
  }

  /** What JSON.stringify makes of a function under that replacer: a
      function that has `toJSON` is replaced by its result before the
      replacer sees it (ECMAScript, SerializeJSONProperty); any other
      function becomes the replacer's descriptor. */
  function SerialiseFunction(f: FnInfo): Json {
    if f.toJSON.Some? then f.toJSON.value else StringifyFunctions(f)
  }

  function PrimitiveJson(v: Primitive): Json {
    match v
    case Undefined => JUndefined
    case Null => JNull
    case Bool(b) => JBool(b)
    case Num(n) => JNum(n)
    case Str(s) => JStr(s)
  }

  function SerialiseToken(t: Token): Json
    decreases t
  {
    match t
    case Lit(v) => PrimitiveJson(v)
    case List(items) => JArr(SerialiseTokens(items))
    case Record(members) => JObj(SerialiseMembers(members))
    case Func(f) => SerialiseFunction(f.info)
  }

  function SerialiseTokens(ts: seq<Token>): (r: seq<Json>)
    ensures |r| == |ts|
    ensures forall i :: 0 <= i < |ts| ==> r[i] == SerialiseToken(ts[i])
    decreases ts
  {
    if ts == [] then [] else [SerialiseToken(ts[0])] + SerialiseTokens(ts[1..])
  }

  function SerialiseMembers(ms: seq<Member>): (r: seq<(string, Json)>)
    ensures |r| == |ms|
    decreases ms
  {
    if ms == [] then [] else [(ms[0].key, SerialiseToken(ms[0].value))] + SerialiseMembers(ms[1..])
  }

  function HostJson(tag: Host): Json {
    match tag
    case Intrinsic(name) => JStr(name)
    case Composite(c) => SerialiseFunction(c)
  }

  /** The value `JSON.stringify([tag, tokens], stringifyFunctions)`
      renders as text. */
  function Serialise(tag: Host, tokens: seq<Token>): (j: Json)
    ensures j.JArr? && |j.items| == 2 && j.items[0] == HostJson(tag)
    ensures j.items[1].JArr? && |j.items[1].items| == |tokens|
    ensures forall i :: 0 <= i < |tokens| ==> j.items[1].items[i] == SerialiseToken(tokens[i])
  {
    JArr([HostJson(tag), JArr(SerialiseTokens(tokens))])
  }

  /** `targetClassName`: the hash of the serialised host and tokens. The
      text rendering of JSON and the hash are collaborators. */
  function Identifier(hash: string -> string, stringify: Json -> string, tag: Host, tokens: seq<Token>): string {
    hash(stringify(Serialise(tag, tokens)))
  }

  /** Two functions that JSON.stringify cannot tell apart: they may be
      distinct objects with distinct behaviour. */
  predicate SameText(a: FnInfo, b: FnInfo) {
    a.name == b.name && a.displayName == b.displayName && a.toJSON == b.toJSON && a.text == b.text
  }

  /** Two tokens equal up to the identity and behaviour of the functions
      in them: the same inline functions written twice. */
  predicate Alike(t: Token, u: Token)
    decreases t
  {
    match t
    case Lit(v) => u == Lit(v)
    case List(items) => u.List? && AlikeAll(items, u.items)
    case Record(members) => u.Record? && AlikeMembers(members, u.members)
    case Func(f) => u.Func? && SameText(f.info, u.f.info)
  }

  predicate AlikeAll(ts: seq<Token>, us: seq<Token>)
    decreases ts
  {
    |ts| == |us| && (ts == [] || (Alike(ts[0], us[0]) && AlikeAll(ts[1..], us[1..])))
  }

  predicate AlikeMembers(ms: seq<Member>, ns: seq<Member>)
    decreases ms
  {
    |ms| == |ns| &&
    (ms == [] || (ms[0].key == ns[0].key && Alike(ms[0].value, ns[0].value) && AlikeMembers(ms[1..], ns[1..])))
  }

  predicate AlikeHost(a: Host, b: Host) {
    match a
    case Intrinsic(n) => b == Intrinsic(n)
    case Composite(c) => b.Composite? && SameText(c, b.c)
  }

  lemma {:induction false} AlikeSerialiseSame(t: Token, u: Token)
    requires Alike(t, u)
    ensures SerialiseToken(t) == SerialiseToken(u)
    decreases t
  {
    match t
    case Lit(v) =>
    case List(items) => AlikeAllSerialiseSame(items, u.items);
    case Record(members) => AlikeMembersSerialiseSame(members, u.members);
    case Func(f) =>
  }

  lemma {:induction false} AlikeAllSerialiseSame(ts: seq<Token>, us: seq<Token>)
    requires AlikeAll(ts, us)
    ensures SerialiseTokens(ts) == SerialiseTokens(us)
    decreases ts
  {
    if ts != [] {
      AlikeSerialiseSame(ts[0], us[0]);
      AlikeAllSerialiseSame(ts[1..], us[1..]);
    }
  }

  lemma {:induction false} AlikeMembersSerialiseSame(ms: seq<Member>, ns: seq<Member>)
    requires AlikeMembers(ms, ns)
    ensures SerialiseMembers(ms) == SerialiseMembers(ns)
    decreases ms
  {
    if ms != [] {
      AlikeSerialiseSame(ms[0].value, ns[0].value);
      AlikeMembersSerialiseSame(ms[1..], ns[1..]);
    }
  }

  /** Determinism: declaring the same definition twice, with textually
      identical but distinct inline functions, yields the same marker
      class, whatever the hash. */
  lemma IdentifierDeterministic(hash: string -> string, stringify: Json -> string,
                                tag: Host, tag': Host, tokens: seq<Token>, tokens': seq<Token>)
    requires AlikeHost(tag, tag') && AlikeAll(tokens, tokens')
    ensures Identifier(hash, stringify, tag, tokens) == Identifier(hash, stringify, tag', tokens')
  {
    AlikeAllSerialiseSame(tokens, tokens');
  }

  /** A styled definition used as the host of another is serialised by
      its `toJSON`, the selector of its marker class: two hosts with the
      same selector give the same identifier, whatever else differs. */
  lemma HostBySelector(hash: string -> string, stringify: Json -> string,
                       a: FnInfo, b: FnInfo, selector: string, tokens: seq<Token>)
    requires a.toJSON == Some(JStr(selector)) && b.toJSON == Some(JStr(selector))
    ensures Identifier(hash, stringify, Composite(a), tokens) == Identifier(hash, stringify, Composite(b), tokens)
  {
  }

  /** `tag.displayName || tag.name` for a component, the tag name itself
      for a host tag. */
  function Label(tag: Host): string {
    match tag
    case Intrinsic(name) => name
    case Composite(c) =>
      if c.displayName.Some? && c.displayName.value != "" then c.displayName.value else c.name
  }

  /** The text between `Styled(` and `)` in a display label. */
  function Inner(display: string): string
    requires |display| >= 8
  {
    display[7..|display| - 1]
  }

  /** `Styled.displayName`: `Styled(<label>)`, with `Component` standing
      in for an empty label. */
  function DisplayName(tag: Host): (r: string)
    ensures |r| > 8 && r[..7] == "Styled(" && r[|r| - 1] == ')'
    ensures Inner(r) != ""
    ensures tag.Intrinsic? && tag.name != "" ==> Inner(r) == tag.name
    ensures tag.Composite? && tag.c.displayName.Some? && tag.c.displayName.value != "" ==>
              Inner(r) == tag.c.displayName.value
    ensures tag.Composite? && (tag.c.displayName.None? || tag.c.displayName.value == "") && tag.c.name != "" ==>
              Inner(r) == tag.c.name
    ensures Label(tag) == "" ==> r == "Styled(Component)"
  {
    var inner := if Label(tag) != "" then Label(tag) else "Component";
    var r := "Styled(" + inner + ")";
    assert Inner(r) == inner;
    r
  }

  /** The label of a definition over the host tag `h1`, as the project's
      tests read it. */
  lemma DisplayNameH1()
    ensures DisplayName(Intrinsic("h1")) == "Styled(h1)"
  {
  }
}
