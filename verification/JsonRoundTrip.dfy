/** Decoding undoes both serialisations. */
module JsonRoundTrip {
  import opened Prelude
  import opened Json

  // ---- strings

  lemma HexRound(n: nat)
    requires n < 16
    ensures HexValue(HexDigit(n)) == Some(n)
  {
  }

  lemma FourDigits(n: nat)
    requires n < 0x10000
    ensures 4096 * (n / 4096) + 256 * (n / 256 % 16) + 16 * (n / 16 % 16) + n % 16 == n
  {
    assert n / 256 == n / 4096 * 16 + n / 256 % 16;
    assert n / 16 == n / 256 * 16 + n / 16 % 16;
  }

  lemma CodeRound(n: nat, rest: string)
    requires n < 0x10000
    ensures Code(Hex4(n) + rest) == Some(n)
  {
    hide HexDigit, HexValue;
    HexRound(n / 4096);
    HexRound(n / 256 % 16);
    HexRound(n / 16 % 16);
    HexRound(n % 16);
    FourDigits(n);
    var h := Hex4(n);
    assert (h + rest)[0] == h[0] && (h + rest)[1] == h[1] && (h + rest)[2] == h[2] && (h + rest)[3] == h[3];
  }

  lemma OneCharRound(c: char, rest: string)
    ensures OneChar(Escape(c) + rest) == Some((c, rest))
  {
    hide Code, Hex4, HexDigit, HexValue;
    var s := Escape(c) + rest;
    if ShortEscape(c).Some? {
      assert s[2..] == rest;
    } else if ' ' <= c <= '~' {
      assert s[1..] == rest;
    } else if c as int < 0x10000 {
      OneUnit(c as int, rest, s);
    } else {
      TwoUnits(c, rest, s);
    }
  }

  lemma OneUnit(n: nat, rest: string, s: string)
    requires n < 0xd800 || 0xe000 <= n < 0x10000
    requires s == "\\u" + Hex4(n) + rest
    ensures OneChar(s) == Some((n as char, rest))
  {
    hide Code, HexDigit, HexValue;
    CodeRound(n, rest);
    assert s[2..] == Hex4(n) + rest && s[6..] == rest;
  }

  /** A surrogate pair at the front of `s`. */
  lemma PairRead(hi: nat, lo: nat, rest: string, s: string)
    requires 0xd800 <= hi < 0xdc00 <= lo < 0xe000
    requires s == "\\u" + Hex4(hi) + ("\\u" + Hex4(lo) + rest)
    ensures OneChar(s) == Some(((0x10000 + (hi - 0xd800) * 1024 + (lo - 0xdc00)) as char, rest))
  {
    hide Code, HexDigit, HexValue, Hex4, Unescape;
    var tail := "\\u" + Hex4(lo) + rest;
    Hex4Length(hi);
    Hex4Length(lo);
    CodeRound(hi, tail);
    CodeRound(lo, rest);
    assert s[2..] == Hex4(hi) + tail;
    assert s[6..] == tail;
    assert s[8..] == Hex4(lo) + rest;
    assert s[12..] == rest;
  }

  lemma TwoUnits(c: char, rest: string, s: string)
    requires c as int >= 0x10000
    requires s == Escape(c) + rest
    ensures OneChar(s) == Some((c, rest))
  {
    hide OneChar, Hex4;
    var n := c as int - 0x10000;
    var hi, lo := 0xd800 + n / 1024, 0xdc00 + n % 1024;
    assert s == "\\u" + Hex4(hi) + ("\\u" + Hex4(lo) + rest);
    PairRead(hi, lo, rest, s);
    assert 0x10000 + (hi - 0xd800) * 1024 + (lo - 0xdc00) == c as int;
  }

  lemma Hex4Length(n: nat)
    requires n < 0x10000
    ensures |Hex4(n)| == 4
  {
  }

  lemma EscapeStarts(c: char)
    ensures Escape(c) != [] && Escape(c)[0] != '\"'
  {
    hide Hex4;
  }

  lemma {:induction false} BodyRound(t: string, rest: string)
    ensures Body(EscapeAll(t) + "\"" + rest) == Some((t, rest))
  {
    hide OneChar, Escape;
    var s := EscapeAll(t) + "\"" + rest;
    if t == [] {
      assert s[1..] == rest;
    } else {
      var more := EscapeAll(t[1..]) + "\"" + rest;
      assert s == Escape(t[0]) + more;
      EscapeStarts(t[0]);
      OneCharRound(t[0], more);
      BodyRound(t[1..], rest);
      assert t == [t[0]] + t[1..];
    }
  }

  // ---- numbers

  lemma {:induction false} DigitsRound(n: nat)
    ensures Digits(n) != [] && (forall i :: 0 <= i < |Digits(n)| ==> IsDigit(Digits(n)[i]))
    ensures Value(Digits(n)) == n
    ensures Digits(n)[0] == '0' <==> n == 0
  {
    HexRound(n % 10);
    if n >= 10 {
      DigitsRound(n / 10);
      var ds := Digits(n);
      assert ds[..|ds| - 1] == Digits(n / 10);
    } else {
      assert Digits(n)[..0] == [];
    }
  }

  lemma {:induction false} RunStops(ds: string, rest: string)
    requires forall i :: 0 <= i < |ds| ==> IsDigit(ds[i])
    requires rest == [] || !IsDigit(rest[0])
    ensures DigitRun(ds + rest) == |ds|
  {
    if ds == [] {
      assert ds + rest == rest;
    } else {
      RunStops(ds[1..], rest);
      assert (ds + rest)[1..] == ds[1..] + rest;
    }
  }

  /** No digit, point or exponent follows, so a number ends here. */
  predicate Ends(rest: string) {
    rest == [] || (!IsDigit(rest[0]) && rest[0] != '.' && rest[0] != 'e' && rest[0] != 'E')
  }

  lemma NaturalRound(n: nat, rest: string)
    requires Ends(rest)
    ensures Natural(Digits(n) + rest) == Some((n, rest))
  {
    hide Value, DigitRun, Digits;
    DigitsRound(n);
    var ds := Digits(n);
    var s := ds + rest;
    RunStops(ds, rest);
    assert s[..|ds|] == ds && s[|ds|..] == rest;
    if n == 0 {
      ZeroDigits();
    }
  }

  lemma ZeroDigits()
    ensures Digits(0) == "0"
  {
  }

  lemma NumberRound(n: int, rest: string)
    requires Ends(rest)
    ensures Number(IntText(n) + rest) == Some((n, rest))
  {
    hide Natural, Digits, Value;
    if n < 0 {
      NaturalRound(-n, rest);
      assert (IntText(n) + rest)[1..] == Digits(-n) + rest;
    } else {
      NaturalRound(n, rest);
      DigitsRound(n);
      assert IsDigit(Digits(n)[0]);
      assert (Digits(n) + rest)[0] == Digits(n)[0];
    }
  }

  // ---- values

  predicate Usual(st: Style) {
    st == COMPACT || st == SPACED
  }

  /** The first character of a value's text tells its kind and is no blank. */
  lemma TextStarts(v: Json, st: Style)
    ensures Text(v, st) != [] && !IsBlank(Text(v, st)[0])
    ensures v.Str? || v.Arr? || v.Obj? || v.Int? ==> Text(v, st)[0] != 'n' && Text(v, st)[0] != 't' && Text(v, st)[0] != 'f'
    ensures Text(v, st)[0] == '\"' <==> v.Str?
    ensures Text(v, st)[0] == '[' <==> v.Arr?
    ensures Text(v, st)[0] == '{' <==> v.Obj?
    ensures Text(v, st)[0] != ']' && Text(v, st)[0] != '}'
  {
    hide EscapeAll, ItemsText, MembersText, Digits;
    if v.Int? {
      DigitsRound(if v.n < 0 then -v.n else v.n);
      assert v.n >= 0 ==> IsDigit(Digits(v.n)[0]);
    }
  }

  lemma SkipNone(s: string)
    requires s == [] || !IsBlank(s[0])
    ensures Skip(s) == s
  {
  }

  /** After a comma or a colon the next text follows, with or without a blank. */
  lemma SkipAfter(st: Style, s: string)
    requires Usual(st) && s != [] && !IsBlank(s[0])
    ensures (st.comma + s)[0] == ',' && Skip((st.comma + s)[1..]) == s
    ensures (st.colon + s)[0] == ':' && Skip((st.colon + s)[1..]) == s
  {
    if st == COMPACT {
      assert (st.comma + s)[1..] == s && (st.colon + s)[1..] == s;
    } else {
      assert (st.comma + s)[1..] == " " + s && (st.colon + s)[1..] == " " + s;
      assert (" " + s)[1..] == s;
    }
  }

  lemma {:induction false} ParseRound(v: Json, st: Style, rest: string)
    requires Usual(st) && WellFormed(v) && Ends(rest)
    ensures Parse(Text(v, st) + rest) == Some((v, rest))
    decreases v, 1, 0
  {
    hide Body, Number, Natural, EscapeAll, IntText, ParseItems, ParseMembers, ItemsText, MembersText;
    var s := Text(v, st) + rest;
    TextStarts(v, st);
    match v
    case Null => assert s[4..] == rest && s[..4] == "null";
    case Bool(b) =>
      if b {
        assert s[4..] == rest && s[..4] == "true";
      } else {
        assert s[5..] == rest && s[..5] == "false" && s[..4] == "fals";
      }
    case Int(n) =>
      NumberRound(n, rest);
    case Str(t) =>
      BodyRound(t, rest);
      assert s[1..] == EscapeAll(t) + "\"" + rest;
    case Arr(items) => ArrayRound(v, st, rest);
    case Obj(ms) => ObjectRound(v, st, rest);
  }

  lemma {:induction false} ArrayRound(v: Json, st: Style, rest: string)
    requires Usual(st) && WellFormed(v) && v.Arr?
    ensures Parse(Text(v, st) + rest) == Some((v, rest))
    decreases v, 0, |v.items| + 1
  {
    hide ParseItems, Body;
    var s := Text(v, st) + rest;
    assert s[1..] == ItemsText(v, 0, st) + "]" + rest;
    if v.items == [] {
      assert s[1..] == "]" + rest;
      assert ("]" + rest)[1..] == rest;
    } else {
      TextStarts(v.items[0], st);
      hide Text;
      SkipNone(s[1..]);
      ItemsRound(v, 0, st, rest);
    }
  }

  lemma {:induction false} ItemsRound(v: Json, i: nat, st: Style, rest: string)
    requires Usual(st) && WellFormed(v) && v.Arr? && i < |v.items|
    ensures ParseItems(ItemsText(v, i, st) + "]" + rest, v.items[..i]) == Some((v, rest))
    decreases v, 0, |v.items| - i
  {
    hide Parse, Text;
    var s := ItemsText(v, i, st) + "]" + rest;
    var first := Text(v.items[i], st);
    assert v.items[..i] + [v.items[i]] == v.items[..i + 1];
    if i + 1 == |v.items| {
      var after := "]" + rest;
      assert s == first + after;
      ParseRound(v.items[i], st, after);
      assert after[1..] == rest;
      assert v.items[..i + 1] == v.items;
    } else {
      var next := ItemsText(v, i + 1, st) + "]" + rest;
      var after := st.comma + next;
      assert s == first + after;
      TextStarts(v.items[i + 1], st);
      SkipAfter(st, next);
      ParseRound(v.items[i], st, after);
      SkipNone(after);
      ItemsRound(v, i + 1, st, rest);
    }
  }

  lemma {:induction false} ObjectRound(v: Json, st: Style, rest: string)
    requires Usual(st) && WellFormed(v) && v.Obj?
    ensures Parse(Text(v, st) + rest) == Some((v, rest))
    decreases v, 0, |v.members| + 1
  {
    hide ParseMembers, Body, EscapeAll;
    var s := Text(v, st) + rest;
    assert s[1..] == MembersText(v, 0, st) + "}" + rest;
    if v.members == [] {
      assert s[1..] == "}" + rest;
      assert ("}" + rest)[1..] == rest;
    } else {
      hide Text;
      assert s[1..][0] == '\"';
      SkipNone(s[1..]);
      MembersRound(v, 0, st, rest);
    }
  }

  lemma PutNew(ms: Members, i: nat)
    requires DistinctKeys(ms) && i < |ms|
    ensures Put(ms[..i], ms[i].0, ms[i].1) == ms[..i + 1]
  {
    var p := Find(ms[..i], ms[i].0);
    assert p == i;
    assert ms[..i] + [ms[i]] == ms[..i + 1];
  }

  /** One key and value, up to the brace or comma that follows. */
  lemma MemberStep(k: string, w: Json, st: Style, after: string, done: Members)
    requires Usual(st) && Parse(Text(w, st) + after) == Some((w, after))
    requires after != [] && (after[0] == '}' || after[0] == ',')
    ensures ParseMembers(Quoted(k) + (st.colon + (Text(w, st) + after)), done)
            == if after[0] == '}' then Some((Obj(Put(done, k, w)), after[1..]))
               else ParseMembers(Skip(after[1..]), Put(done, k, w))
  {
    hide Parse, Text, Body, EscapeAll, Put;
    var value := Text(w, st) + after;
    var s := Quoted(k) + (st.colon + value);
    assert s[1..] == EscapeAll(k) + "\"" + (st.colon + value);
    BodyRound(k, st.colon + value);
    TextStarts(w, st);
    SkipAfter(st, value);
    SkipNone(st.colon + value);
    SkipNone(after);
  }

  lemma {:induction false} MembersRound(v: Json, i: nat, st: Style, rest: string)
    requires Usual(st) && WellFormed(v) && v.Obj? && i < |v.members|
    ensures ParseMembers(MembersText(v, i, st) + "}" + rest, v.members[..i]) == Some((v, rest))
    decreases v, 0, |v.members| - i
  {
    hide Parse, Text, Quoted, Put, ParseMembers;
    var (k, w) := v.members[i];
    PutNew(v.members, i);
    if i + 1 == |v.members| {
      var after := "}" + rest;
      assert MembersText(v, i, st) + "}" + rest == Quoted(k) + (st.colon + (Text(w, st) + after));
      ParseRound(w, st, after);
      MemberStep(k, w, st, after, v.members[..i]);
      assert after[1..] == rest;
      assert v.members[..i + 1] == v.members;
    } else {
      var next := MembersText(v, i + 1, st) + "}" + rest;
      var after := st.comma + next;
      assert MembersText(v, i, st) + "}" + rest == Quoted(k) + (st.colon + (Text(w, st) + after));
      QuotedStarts(v.members[i + 1].0);
      SkipAfter(st, next);
      ParseRound(w, st, after);
      MemberStep(k, w, st, after, v.members[..i]);
      MembersRound(v, i + 1, st, rest);
    }
  }

  lemma QuotedStarts(k: string)
    ensures Quoted(k) != [] && Quoted(k)[0] == '\"'
  {
  }

  /** Decoding gives back the value that was serialised, whichever way. */
  lemma LoadsText(v: Json, st: Style, blanks: string)
    requires Usual(st) && WellFormed(v) && Skip(blanks) == [] && Ends(blanks)
    ensures Loads(Text(v, st) + blanks) == Some(v)
  {
    hide Parse, Text;
    TextStarts(v, st);
    SkipNone(Text(v, st) + blanks);
    ParseRound(v, st, blanks);
  }
}
