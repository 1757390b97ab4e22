/** The class-name merge of the render wrapper: the incoming `class`,
    the incoming `className`, the marker class and the evaluated class
    string, falsy ones dropped, joined with single spaces. */
module ClassNames {
  import opened Values

  /** `parts.join(' ')`. */
  function Join(parts: seq<string>): string
    decreases |parts|
  {
    if |parts| == 0 then ""
    else if |parts| == 1 then parts[0]
    else parts[0] + " " + Join(parts[1..])
  }

  /** `s.split(' ')`: the pieces between spaces, empty pieces included. */
  function Split(s: string): (r: seq<string>)
    ensures |r| > 0
    decreases |s|
  {
    if s == [] then [""]
    else if s[0] == ' ' then [""] + Split(s[1..])
    else
      var rest := Split(s[1..]);
      [[s[0]] + rest[0]] + rest[1..]
  }

  /** The pieces of every part, in order. */
  function SplitAll(parts: seq<string>): seq<string>
    decreases |parts|
  {
    if parts == [] then [] else Split(parts[0]) + SplitAll(parts[1..])
  }

  /** `values.filter(Boolean)`. */
  function KeepTruthy(values: seq<Value>): (r: seq<Value>)
    ensures |r| <= |values|
    ensures forall i :: 0 <= i < |r| ==> Truthy(r[i])
    decreases |values|
  {
    if values == [] then []
    else if Truthy(values[0]) then [values[0]] + KeepTruthy(values[1..])
    else KeepTruthy(values[1..])
  }

  /** `filter(Boolean)` keeps exactly the truthy elements. */
  lemma {:induction false} KeptExactly(values: seq<Value>, v: Value)
    ensures v in KeepTruthy(values) <==> v in values && Truthy(v)
    decreases |values|
  {
    if values != [] {
      KeptExactly(values[1..], v);
      assert values == [values[0]] + values[1..];
    }
  }

  /** `filter(Boolean)` of one value: the value when truthy, nothing
      otherwise. */
  lemma KeepTruthySingle(v: Value)
    ensures KeepTruthy([v]) == if Truthy(v) then [v] else []
  {
    assert [v][1..] == [];
  }

  /** `filter(Boolean)` works element by element: it keeps the order and
      the multiplicity of the values it keeps. */
  lemma {:induction false} KeepTruthyAppend(a: seq<Value>, b: seq<Value>)
    ensures KeepTruthy(a + b) == KeepTruthy(a) + KeepTruthy(b)
    decreases |a|
  {
    if a == [] {
      assert a + b == b;
    } else {
      assert (a + b)[0] == a[0];
      assert (a + b)[1..] == a[1..] + b;
      KeepTruthyAppend(a[1..], b);
    }
  }

  /** `String` of every element, as `join` converts them. */
  function Texts(values: seq<Value>): (r: seq<string>)
    ensures |r| == |values|
    ensures forall i :: 0 <= i < |values| ==> r[i] == ToText(values[i])
    decreases |values|
  {
    if values == [] then [] else [ToText(values[0])] + Texts(values[1..])
  }

  /** The four candidates of the merged class name, in order. */
  function Segments(cls: Value, className: Value, id: string, dynamic: string): seq<Value> {
    [cls, className, Str(id), Str(dynamic)]
  }

  /** `[className, props.className, targetClassName, evaluate(props)]
      .filter(Boolean).join(' ')`, where `className` is the `class` prop.
      With no `class`, no `className` and an empty evaluated class string,
      the marker class stands alone. */
  function ClassName(cls: Value, className: Value, id: string, dynamic: string): (r: string)
    ensures !Truthy(cls) && !Truthy(className) && dynamic == "" ==> r == id
  {
    KeepFalsyPrefix(cls, className, id);
    Join(Texts(KeepTruthy(Segments(cls, className, id, dynamic))))
  }

  /** Only the marker survives the filter when the other three are falsy. */
  lemma KeepFalsyPrefix(cls: Value, className: Value, id: string)
    ensures !Truthy(cls) && !Truthy(className) ==> Join(Texts(KeepTruthy(Segments(cls, className, id, "")))) == id
  {
    if Truthy(cls) || Truthy(className) {
      return;
    }
    var all := Segments(cls, className, id, "");
    assert all == [cls] + [className] + [Str(id)] + [Str("")];
    KeepTruthyAppend([cls] + [className] + [Str(id)], [Str("")]);
    KeepTruthyAppend([cls] + [className], [Str(id)]);
    KeepTruthyAppend([cls], [className]);
    KeepTruthySingle(cls);
    KeepTruthySingle(className);
    KeepTruthySingle(Str(id));
    KeepTruthySingle(Str(""));
    if id != "" {
      assert KeepTruthy(all) == [Str(id)];
      assert Texts([Str(id)]) == [id];
    } else {
      assert KeepTruthy(all) == [];
    }
  }

  /** The merge in general: each candidate is kept or dropped on its own,
      and the kept ones appear in the order `class`, `className`, marker,
      evaluated classes. */
  lemma {:induction false} ClassNameInOrder(cls: Value, className: Value, id: string, dynamic: string)
    ensures ClassName(cls, className, id, dynamic) ==
              Join(Texts(KeepTruthy([cls]) + KeepTruthy([className]) + KeepTruthy([Str(id)]) + KeepTruthy([Str(dynamic)])))
  {
    var all := Segments(cls, className, id, dynamic);
    assert all == [cls] + [className] + [Str(id)] + [Str(dynamic)];
    KeepTruthyAppend([cls] + [className] + [Str(id)], [Str(dynamic)]);
    KeepTruthyAppend([cls] + [className], [Str(id)]);
    KeepTruthyAppend([cls], [className]);
  }

  lemma {:induction false} SplitNoSpace(s: string)
    requires ' ' !in s
    ensures Split(s) == [s]
    decreases |s|
  {
    if s != [] {
      SplitNoSpace(s[1..]);
      assert [s[0]] + s[1..] == s;
    }
  }

  /** Splitting undoes one joining space. */
  lemma {:induction false} SplitAtSpace(a: string, b: string)
    ensures Split(a + " " + b) == Split(a) + Split(b)
    decreases |a|
  {
    if a == [] {
      assert a + " " + b == [' '] + b;
      assert (a + " " + b)[1..] == b;
    } else {
      var s := a + " " + b;
      assert s[0] == a[0];
      assert s[1..] == a[1..] + " " + b;
      SplitAtSpace(a[1..], b);
    }
  }

  /** `split(' ')` inverts `join(' ')` piece by piece. */
  lemma {:induction false} SplitJoin(parts: seq<string>)
    requires parts != []
    ensures Split(Join(parts)) == SplitAll(parts)
    decreases |parts|
  {
    if |parts| == 1 {
      assert SplitAll(parts[1..]) == [];
    } else {
      SplitAtSpace(parts[0], Join(parts[1..]));
      SplitJoin(parts[1..]);
    }
  }

  /** Round trip: joining words that hold no space, then splitting,
      gives the words back. */
  lemma {:induction false} SplitJoinWords(words: seq<string>)
    requires words != []
    requires forall i :: 0 <= i < |words| ==> ' ' !in words[i]
    ensures Split(Join(words)) == words
  {
    SplitJoin(words);
    SplitAllWords(words);
  }

  lemma {:induction false} SplitAllWords(words: seq<string>)
    requires forall i :: 0 <= i < |words| ==> ' ' !in words[i]
    ensures SplitAll(words) == words
    decreases |words|
  {
    if words != [] {
      SplitNoSpace(words[0]);
      SplitAllWords(words[1..]);
    }
  }

  /** A part that is a single word is one of the pieces. */
  lemma {:induction false} WordInSplitAll(parts: seq<string>, i: nat)
    requires i < |parts| && ' ' !in parts[i]
    ensures parts[i] in SplitAll(parts)
    decreases |parts|
  {
    if i == 0 {
      SplitNoSpace(parts[0]);
    } else {
      WordInSplitAll(parts[1..], i - 1);
    }
  }

  /** The marker class is always one of the classes of the merged class
      name, so the definition can be targeted by its selector. */
  lemma MarkerClassPresent(cls: Value, className: Value, id: string, dynamic: string)
    requires id != "" && ' ' !in id
    ensures id in Split(ClassName(cls, className, id, dynamic))
  {
    var kept := KeepTruthy(Segments(cls, className, id, dynamic));
    assert Str(id) in Segments(cls, className, id, dynamic);
    KeptExactly(Segments(cls, className, id, dynamic), Str(id));
    var k :| 0 <= k < |kept| && kept[k] == Str(id);
    var texts := Texts(kept);
    assert texts[k] == id;
    SplitJoin(texts);
    WordInSplitAll(texts, k);
  }

  /** Every falsy `class` or `className` (absent, undefined, null,
      false, 0, "") is simply left out. */
  lemma FalsyClassesIgnored(cls: Value, cls': Value, className: Value, className': Value, id: string, dynamic: string)
    requires !Truthy(cls) && !Truthy(cls') && !Truthy(className) && !Truthy(className')
    ensures ClassName(cls, className, id, dynamic) == ClassName(cls', className', id, dynamic)
    ensures id != "" && dynamic != "" ==> ClassName(cls, className, id, dynamic) == id + " " + dynamic
  {
    var segments := Segments(cls, className, id, dynamic);
    assert KeepTruthy(segments) == KeepTruthy(segments[2..]);
    assert KeepTruthy(segments) == KeepTruthy(Segments(cls', className', id, dynamic));
    if id != "" && dynamic != "" {
      assert KeepTruthy(segments[2..]) == [Str(id), Str(dynamic)];
      assert Texts([Str(id), Str(dynamic)]) == [id, dynamic];
      assert Join([id, dynamic]) == id + " " + Join([dynamic]);
    }
  }

  /** `join` of several parts puts one space after each but the last. */
  lemma JoinCons(p: string, rest: seq<string>)
    requires rest != []
    ensures Join([p] + rest) == p + " " + Join(rest)
  {
  }

  lemma {:induction false} KeepAllTruthy(values: seq<Value>)
    requires forall i :: 0 <= i < |values| ==> Truthy(values[i])
    ensures KeepTruthy(values) == values
    decreases |values|
  {
    if values != [] {
      KeepAllTruthy(values[1..]);
    }
  }

  /** With every candidate present, the merge keeps the order `class`,
      `className`, marker class, evaluated classes. */
  lemma ClassNameAllPresent(a: string, b: string, id: string, dynamic: string)
    requires a != "" && b != "" && id != "" && dynamic != ""
    ensures ClassName(Str(a), Str(b), id, dynamic) == a + " " + (b + " " + (id + " " + dynamic))
  {
    var all := Segments(Str(a), Str(b), id, dynamic);
    KeepAllTruthy(all);
    assert Texts(all) == [a, b, id, dynamic];
    JoinCons(id, [dynamic]);
    JoinCons(b, [id, dynamic]);
    JoinCons(a, [b, id, dynamic]);
  }

  /** An absent `class` is skipped, the rest keep their order. */
  lemma ClassNameWithoutClass(b: string, id: string, dynamic: string)
    requires b != "" && id != "" && dynamic != ""
    ensures ClassName(Undefined, Str(b), id, dynamic) == b + " " + (id + " " + dynamic)
  {
    var all := Segments(Undefined, Str(b), id, dynamic);
    KeepAllTruthy(all[1..]);
    assert KeepTruthy(all) == all[1..];
    assert Texts(all[1..]) == [b, id, dynamic];
    JoinCons(id, [dynamic]);
    JoinCons(b, [id, dynamic]);
  }

  /** An absent `className` is skipped, the rest keep their order. */
  lemma ClassNameWithoutClassName(a: string, id: string, dynamic: string)
    requires a != "" && id != "" && dynamic != ""
    ensures ClassName(Str(a), Undefined, id, dynamic) == a + " " + (id + " " + dynamic)
  {
    var all := Segments(Str(a), Undefined, id, dynamic);
    KeepAllTruthy(all[2..]);
    assert KeepTruthy(all[1..]) == all[2..];
    assert KeepTruthy(all) == [Str(a)] + all[2..];
    assert Texts([Str(a)] + all[2..]) == [a, id, dynamic];
    JoinCons(id, [dynamic]);
    JoinCons(a, [id, dynamic]);
  }

  /** An empty evaluated class string is dropped like a falsy `class`:
      the marker class stands alone. */
  lemma ClassNameEmptyEvaluation(id: string)
    ensures ClassName(Undefined, Undefined, id, "") == id
  {
  }

  /** The merge of `class` "a", `className` "b", marker "X" and
      evaluated "c". */
  lemma ClassNameExampleFull()
    ensures ClassName(Str("a"), Str("b"), "X", "c") == "a b X c"
  {
    ClassNameAllPresent("a", "b", "X", "c");
    assert "a" + " " + ("b" + " " + ("X" + " " + "c")) == "a b X c";
  }

  /** The merges of the tests: a `className` prop, or a `class` prop,
      before the marker "tw-oog4p9" and the evaluated "text-sm". */
  lemma ClassNameTestExamples(given: string, id: string, dynamic: string)
    requires id == "tw-oog4p9" && dynamic == "text-sm"
    ensures given == "rounded-md" ==> ClassName(Undefined, Str(given), id, dynamic) == "rounded-md tw-oog4p9 text-sm"
    ensures given == "hero" ==> ClassName(Str(given), Undefined, id, dynamic) == "hero tw-oog4p9 text-sm"
  {
    if given == "rounded-md" {
      ClassNameWithoutClass(given, id, dynamic);
      assert given + " " + (id + " " + dynamic) == "rounded-md tw-oog4p9 text-sm";
    }
    if given == "hero" {
      ClassNameWithoutClassName(given, id, dynamic);
      assert given + " " + (id + " " + dynamic) == "hero tw-oog4p9 text-sm";
    }
  }
}
