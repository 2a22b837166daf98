/** The signed text stands for the value: equal texts exactly for equal values,
    whatever the order of object members. */
module JsonCanonical {
  import opened Prelude
  import opened Order
  import opened Json
  import opened JsonRoundTrip

  lemma FindAt(ms: Members, i: nat)
    requires DistinctKeys(ms) && i < |ms|
    ensures Find(ms, ms[i].0) == i
  {
  }

  lemma KeysOfSorted(ms: Members, n: Members)
    requires |n| == |Sorted(Keys(ms))| && forall i :: 0 <= i < |n| ==> n[i].0 == Sorted(Keys(ms))[i]
    ensures DistinctKeys(n) && Keys(n) == Keys(ms)
  {
    hide Sorted, Below;
    var ks := Sorted(Keys(ms));
    forall i, j | 0 <= i < j < |n| ensures n[i].0 != n[j].0 {
      Asymmetric(ks[i], ks[j]);
    }
    forall k ensures k in Keys(n) <==> k in Keys(ms) {
      if k in Keys(ms) {
        assert k in ks;
        var i :| 0 <= i < |ks| && ks[i] == k;
        assert n[i].0 == k;
      }
    }
  }

  /** What sorting does to an object: the same keys, in order, with sorted values. */
  lemma SortedObject(v: Json)
    requires v.Obj? && DistinctKeys(v.members)
    ensures var n := SortKeys(v);
      && n.Obj? && DistinctKeys(n.members) && Keys(n.members) == Keys(v.members)
      && (forall i :: 0 <= i < |n.members| ==>
            Find(v.members, n.members[i].0) < |v.members|
            && n.members[i].1 == SortKeys(v.members[Find(v.members, n.members[i].0)].1))
      && (forall i :: 0 <= i < |n.members| ==> n.members[i].0 == Sorted(Keys(v.members))[i])
      && |n.members| == |Sorted(Keys(v.members))|
  {
    hide Sorted, Keys, DistinctKeys;
    KeysOfSorted(v.members, SortKeys(v).members);
  }

  lemma {:induction false} SortingKeepsShape(v: Json)
    requires WellFormed(v)
    ensures WellFormed(SortKeys(v))
    decreases v
  {
    hide Sorted, Find, Keys;
    match v
    case Arr(items) =>
      forall i | 0 <= i < |items| ensures WellFormed(SortKeys(v).items[i]) {
        SortingKeepsShape(items[i]);
      }
    case Obj(ms) =>
      SortedObject(v);
      var n := SortKeys(v);
      forall i | 0 <= i < |n.members| ensures WellFormed(n.members[i].1) {
        SortingKeepsShape(ms[Find(ms, n.members[i].0)].1);
      }
    case _ =>
  }

  /** In every object of the value the keys come in Python's order of strings. */
  predicate KeysInOrder(v: Json) {
    match v
    case Arr(items) => forall i :: 0 <= i < |items| ==> KeysInOrder(items[i])
    case Obj(ms) =>
      && (forall i, j :: 0 <= i < j < |ms| ==> Precedes(ms[i].0, ms[j].0))
      && (forall i :: 0 <= i < |ms| ==> KeysInOrder(ms[i].1))
    case _ => true
  }

  /** The signed value has its keys in order, at every depth. */
  lemma {:induction false} SignedKeysInOrder(v: Json)
    requires WellFormed(v)
    ensures KeysInOrder(SortKeys(v))
    decreases v
  {
    hide Sorted, Find, Keys, Precedes;
    match v
    case Arr(items) =>
      forall i | 0 <= i < |items| ensures KeysInOrder(SortKeys(v).items[i]) {
        SignedKeysInOrder(items[i]);
      }
    case Obj(ms) =>
      SortedObject(v);
      var n := SortKeys(v);
      SortedPrecedes(Sorted(Keys(ms)));
      forall i | 0 <= i < |n.members| ensures KeysInOrder(n.members[i].1) {
        SignedKeysInOrder(ms[Find(ms, n.members[i].0)].1);
      }
    case _ =>
  }

  /** Sorting forgets exactly the order of members. */
  lemma {:induction false} SortedEqualIffSame(v: Json, w: Json)
    requires WellFormed(v) && WellFormed(w)
    ensures SortKeys(v) == SortKeys(w) <==> Same(v, w)
    decreases v
  {
    if v.Arr? && w.Arr? {
      ArraysEqualIffSame(v, w);
    } else if v.Obj? && w.Obj? {
      ObjectsEqualIffSame(v, w);
    }
  }

  lemma {:induction false} ArraysEqualIffSame(v: Json, w: Json)
    requires WellFormed(v) && WellFormed(w) && v.Arr? && w.Arr?
    ensures SortKeys(v) == SortKeys(w) <==> Same(v, w)
    decreases v, 0
  {
    if |v.items| == |w.items| {
      forall i | 0 <= i < |v.items|
        ensures SortKeys(v).items[i] == SortKeys(w).items[i] <==> Same(v.items[i], w.items[i])
      {
        SortedEqualIffSame(v.items[i], w.items[i]);
      }
      if Same(v, w) {
        assert SortKeys(v).items == SortKeys(w).items;
      }
    } else {
      assert |SortKeys(v).items| == |v.items| && |SortKeys(w).items| == |w.items|;
    }
  }

  lemma {:induction false} ObjectsEqualIffSame(v: Json, w: Json)
    requires WellFormed(v) && WellFormed(w) && v.Obj? && w.Obj?
    ensures SortKeys(v) == SortKeys(w) <==> Same(v, w)
    decreases v, 0
  {
    hide Sorted, Find, Keys, SortKeys;
    SortedObject(v);
    SortedObject(w);
    var ms, ns := v.members, w.members;
    if Same(v, w) {
      var n, m := SortKeys(v).members, SortKeys(w).members;
      forall i | 0 <= i < |n| ensures n[i] == m[i] {
        var a, b := Find(ms, n[i].0), Find(ns, n[i].0);
        SortedEqualIffSame(ms[a].1, ns[b].1);
      }
      assert n == m;
    }
    if SortKeys(v) == SortKeys(w) {
      forall i | 0 <= i < |ms| ensures Find(ns, ms[i].0) < |ns| && Same(ms[i].1, ns[Find(ns, ms[i].0)].1) {
        MemberAgrees(v, w, i);
        SortedEqualIffSame(ms[i].1, ns[Find(ns, ms[i].0)].1);
      }
    }
  }

  lemma MemberAgrees(v: Json, w: Json, i: nat)
    requires v.Obj? && w.Obj? && DistinctKeys(v.members) && DistinctKeys(w.members)
    requires SortKeys(v) == SortKeys(w) && i < |v.members|
    ensures var k := v.members[i].0;
      Find(w.members, k) < |w.members|
      && SortKeys(v.members[i].1) == SortKeys(w.members[Find(w.members, k)].1)
  {
    hide Sorted, SortKeys;
    SortedObject(v);
    SortedObject(w);
    FindAt(v.members, i);
    var n := SortKeys(v).members;
    var k := v.members[i].0;
    assert k in Keys(n);
    var j := Find(n, k);
    assert n[j].0 == k;
  }

  /** The signing text is injective and blind to member order: two values have
      the same text iff they are equal up to member order. */
  lemma CanonicalIffSame(v: Json, w: Json)
    requires WellFormed(v) && WellFormed(w)
    ensures Canonical(v) == Canonical(w) <==> Same(v, w)
  {
    hide SortKeys, Text, WellFormed, Same, Loads;
    SortedEqualIffSame(v, w);
    SortingKeepsShape(v);
    SortingKeepsShape(w);
    LoadsText(SortKeys(v), COMPACT, "");
    LoadsText(SortKeys(w), COMPACT, "");
    assert Canonical(v) + "" == Canonical(v) && Canonical(w) + "" == Canonical(w);
  }

  /** A receiver that decodes the sent text and serialises it again for checking
      gets the text the sender signed. */
  lemma ResignsTheSame(v: Json, blanks: string)
    requires WellFormed(v) && Skip(blanks) == [] && Ends(blanks)
    ensures Loads(Dumps(v) + blanks) == Some(v)
    ensures Canonical(Loads(Dumps(v) + blanks).value) == Canonical(v)
  {
    LoadsText(v, SPACED, blanks);
  }

  // ---- characters on the wire

  predicate Printable(s: string) {
    forall i :: 0 <= i < |s| ==> ' ' <= s[i] <= '~'
  }

  lemma Hex4Printable(n: nat)
    requires n < 0x10000
    ensures Printable(Hex4(n))
  {
  }

  lemma EscapePrintable(c: char)
    ensures Printable(Escape(c))
  {
    hide Hex4;
    var n := c as int;
    if n < 0x10000 {
      Hex4Printable(n);
    } else {
      Hex4Printable(0xd800 + (n - 0x10000) / 1024);
      Hex4Printable(0xdc00 + (n - 0x10000) % 1024);
    }
  }

  lemma {:induction false} EscapeAllPrintable(s: string)
    ensures Printable(EscapeAll(s))
  {
    hide Escape;
    if s != [] {
      EscapePrintable(s[0]);
      EscapeAllPrintable(s[1..]);
    }
  }

  lemma {:induction false} DigitsPrintable(n: nat)
    ensures Printable(Digits(n))
  {
    if n >= 10 {
      DigitsPrintable(n / 10);
    }
  }

  /** Serialised text is printable ASCII; in particular it holds no newline. */
  lemma {:induction false} TextPrintable(v: Json, st: Style)
    requires Usual(st)
    ensures Printable(Text(v, st))
    decreases v, 1, 0
  {
    hide EscapeAll, Digits, ItemsText, MembersText;
    match v
    case Int(n) => DigitsPrintable(if n < 0 then -n else n);
    case Str(s) => EscapeAllPrintable(s);
    case Arr(_) => ItemsPrintable(v, 0, st);
    case Obj(_) => MembersPrintable(v, 0, st);
    case _ =>
  }

  lemma {:induction false} ItemsPrintable(v: Json, i: nat, st: Style)
    requires Usual(st) && v.Arr? && i <= |v.items|
    ensures Printable(ItemsText(v, i, st))
    decreases v, 0, |v.items| - i
  {
    hide Text;
    if i < |v.items| {
      TextPrintable(v.items[i], st);
      if i + 1 < |v.items| {
        ItemsPrintable(v, i + 1, st);
      }
    }
  }

  lemma {:induction false} MembersPrintable(v: Json, i: nat, st: Style)
    requires Usual(st) && v.Obj? && i <= |v.members|
    ensures Printable(MembersText(v, i, st))
    decreases v, 0, |v.members| - i
  {
    hide Text, EscapeAll;
    if i < |v.members| {
      EscapeAllPrintable(v.members[i].0);
      TextPrintable(v.members[i].1, st);
      if i + 1 < |v.members| {
        MembersPrintable(v, i + 1, st);
      }
    }
  }

  // ---- the form of the text

  predicate IsLowerHex(c: char) {
    '0' <= c <= '9' || 'a' <= c <= 'f'
  }

  /** The four digits after a `\u` are lower-case. */
  lemma HexIsLower(n: nat)
    requires n < 0x10000
    ensures |Hex4(n)| == 4 && forall i :: 0 <= i < 4 ==> IsLowerHex(Hex4(n)[i])
  {
  }

  /** Which characters are escaped, and how: printable ASCII stands for itself but
      for the quote and the backslash, seven characters have a letter of their own,
      and every other one takes one or two units of four lower-case digits. */
  lemma EscapeForm(c: char)
    ensures ' ' <= c <= '~' && c != '\"' && c != '\\' ==> Escape(c) == [c]
    ensures Escape('\"') == "\\\"" && Escape('\\') == "\\\\"
    ensures Escape('\n') == "\\n" && Escape('\r') == "\\r" && Escape('\t') == "\\t"
    ensures Escape('\U{08}') == "\\b" && Escape('\U{0c}') == "\\f"
    ensures !(' ' <= c <= '~') && c !in "\n\r\t\U{08}\U{0c}" && c as int < 0x10000 ==>
      |Escape(c)| == 6 && Escape(c)[..2] == "\\u" && forall i :: 2 <= i < 6 ==> IsLowerHex(Escape(c)[i])
    ensures c as int >= 0x10000 ==>
      |Escape(c)| == 12 && Escape(c)[..2] == "\\u" && Escape(c)[6..8] == "\\u"
      && forall i :: 2 <= i < 6 || 8 <= i < 12 ==> IsLowerHex(Escape(c)[i])
  {
    hide Hex4, HexDigit;
    var n := c as int;
    if n < 0x10000 {
      HexIsLower(n);
    } else {
      HexIsLower(0xd800 + (n - 0x10000) / 1024);
      HexIsLower(0xdc00 + (n - 0x10000) % 1024);
    }
  }

  /** The two layouts, on a value with every punctuation mark: no blanks in the
      signed text, one after each comma and colon in the sent one. */
  lemma Layouts()
    ensures var v := Obj([("a", Arr([Null, Bool(true), Bool(false)])), ("b", Int(-12))]);
      && Text(v, COMPACT) == "{\"a\":[null,true,false],\"b\":-12}"
      && Text(v, SPACED) == "{\"a\": [null, true, false], \"b\": -12}"
  {
    hide Text;
    ObjectLayout(COMPACT);
    CompactPieces();
    ObjectLayout(SPACED);
    SpacedPieces();
  }

  lemma CompactPieces()
    ensures "{\"a\"" + ":" + ("[null" + ("," + ("true" + ("," + "false"))) + "]") + ("," + ("\"b\"" + ":" + "-12")) + "}"
            == "{\"a\":[null,true,false],\"b\":-12}"
  {
    var list := "[null" + ("," + ("true" + ("," + "false"))) + "]";
    assert list == "[null,true,false]";
    var rest := "," + ("\"b\"" + ":" + "-12");
    assert rest == ",\"b\":-12";
    assert "{\"a\"" + ":" == "{\"a\":";
  }

  lemma SpacedPieces()
    ensures "{\"a\"" + ": " + ("[null" + (", " + ("true" + (", " + "false"))) + "]") + (", " + ("\"b\"" + ": " + "-12")) + "}"
            == "{\"a\": [null, true, false], \"b\": -12}"
  {
    var list := "[null" + (", " + ("true" + (", " + "false"))) + "]";
    assert list == "[null, true, false]";
    var rest := ", " + ("\"b\"" + ": " + "-12");
    assert rest == ", \"b\": -12";
    assert "{\"a\"" + ": " == "{\"a\": ";
  }

  lemma ArrayLayout(st: Style)
    ensures Text(Arr([Null, Bool(true), Bool(false)]), st) == "[null" + (st.comma + ("true" + (st.comma + "false"))) + "]"
  {
    var v := Arr([Null, Bool(true), Bool(false)]);
    assert ItemsText(v, 2, st) == "false";
    assert ItemsText(v, 1, st) == "true" + (st.comma + "false");
    assert ItemsText(v, 0, st) == "null" + (st.comma + ("true" + (st.comma + "false")));
  }

  lemma ObjectLayout(st: Style)
    ensures var v := Obj([("a", Arr([Null, Bool(true), Bool(false)])), ("b", Int(-12))]);
      Text(v, st) == "{\"a\"" + st.colon + ("[null" + (st.comma + ("true" + (st.comma + "false"))) + "]")
                     + (st.comma + ("\"b\"" + st.colon + "-12")) + "}"
  {
    var v := Obj([("a", Arr([Null, Bool(true), Bool(false)])), ("b", Int(-12))]);
    ArrayLayout(st);
    ShortTexts(st);
    hide Text, Quoted;
    assert MembersText(v, 1, st) == Quoted("b") + st.colon + Text(Int(-12), st);
    assert MembersText(v, 0, st) == Quoted("a") + st.colon + Text(v.members[0].1, st) + (st.comma + MembersText(v, 1, st));
    ObjectText(v, st);
  }

  lemma ShortTexts(st: Style)
    ensures Quoted("a") == "\"a\"" && Quoted("b") == "\"b\"" && Text(Int(-12), st) == "-12"
  {
    assert EscapeAll("a") == "a" && EscapeAll("b") == "b";
    assert Digits(12) == "12";
  }

  lemma ObjectText(v: Json, st: Style)
    requires v.Obj?
    ensures Text(v, st) == "{" + MembersText(v, 0, st) + "}"
  {
  }

  /** Decoding reads one value and nothing after it but blanks. */
  lemma ObjectThenBlanks(v: Json, st: Style, rest: string)
    requires Usual(st) && WellFormed(v) && v.Obj?
    ensures Loads(Text(v, st) + rest) == if Skip(rest) == [] then Some(v) else None
  {
    hide Parse, Text;
    TextStarts(v, st);
    SkipNone(Text(v, st) + rest);
    ObjectRound(v, st, rest);
  }

  /** A key that comes twice has the value that came last. */
  lemma LastDuplicateWins(k: string, v: Json, w: Json)
    requires WellFormed(v) && WellFormed(w)
    ensures Loads("{" + (Quoted(k) + (":" + (Text(v, COMPACT) + ("," + (Quoted(k) + (":" + (Text(w, COMPACT) + "}"))))))))
            == Some(Obj([(k, w)]))
  {
    hide Text, Quoted, ParseMembers;
    var second := Quoted(k) + (":" + (Text(w, COMPACT) + "}"));
    var after := "," + second;
    var first := Quoted(k) + (":" + (Text(v, COMPACT) + after));
    var s := "{" + first;
    QuotedStarts(k);
    ParseRound(v, COMPACT, after);
    ParseRound(w, COMPACT, "}");
    MemberStep(k, v, COMPACT, after, []);
    MemberStep(k, w, COMPACT, "}", [(k, v)]);
    assert after[1..] == second && s[1..] == first;
    SkipNone(s);
    SkipNone(first);
    SkipNone(second);
    assert Put([], k, v) == [(k, v)];
    assert Put([(k, v)], k, w) == [(k, w)];
    assert ("}")[1..] == "";
  }
}
