/** A strict prefix of an encoded object is never accepted. */
module JsonPrefix {
  import opened Prelude
  import opened Json
  import opened JsonRoundTrip

  /** Skipping blanks does not look past the first other character. */
  lemma {:induction false} SkipExtends(s: string, x: string)
    requires Skip(s) != []
    ensures Skip(s + x) == Skip(s) + x
  {
    if s != [] && IsBlank(s[0]) {
      SkipExtends(s[1..], x);
      assert (s + x)[1..] == s[1..] + x;
    }
  }

  lemma OneCharExtends(s: string, x: string)
    requires OneChar(s).Some?
    ensures OneChar(s + x) == Some((OneChar(s).value.0, OneChar(s).value.1 + x))
  {
    hide HexValue, Unescape;
    var t := s + x;
    assert t[1..] == s[1..] + x;
    if s[0] == '\\' {
      assert t[1] == s[1] && t[2..] == s[2..] + x;
      if s[1] == 'u' {
        CodeExtends(s[2..], x);
        var n := Code(s[2..]).value;
        assert t[6..] == s[6..] + x;
        if 0xd800 <= n < 0xdc00 {
          assert s[6..][..2] == t[6..][..2];
          CodeExtends(s[8..], x);
          assert t[8..] == s[8..] + x && t[12..] == s[12..] + x;
        }
      }
    }
  }

  lemma CodeExtends(s: string, x: string)
    ensures Code(s).Some? ==> |s| >= 4 && Code(s + x) == Code(s)
  {
    hide HexValue;
    if |s| >= 4 {
      assert (s + x)[0] == s[0] && (s + x)[1] == s[1] && (s + x)[2] == s[2] && (s + x)[3] == s[3];
    }
  }

  lemma {:induction false} BodyExtends(s: string, x: string)
    requires Body(s).Some?
    ensures Body(s + x) == Some((Body(s).value.0, Body(s).value.1 + x))
    decreases |s|
  {
    hide OneChar;
    if s != [] && s[0] == '\"' {
      assert (s + x)[1..] == s[1..] + x;
    } else {
      OneCharExtends(s, x);
      BodyExtends(OneChar(s).value.1, x);
      NotEmpty(s);
    }
  }

  lemma NotEmpty(s: string)
    ensures OneChar(s).Some? ==> s != []
  {
  }

  /** A number that is followed by something is not changed by what comes later. */
  lemma NumberExtends(s: string, x: string)
    requires Number(s).Some? && Number(s).value.1 != []
    ensures Number(s + x) == Some((Number(s).value.0, Number(s).value.1 + x))
  {
    hide Natural;
    NaturalNotEmpty(s);
    if s[0] == '-' {
      assert (s + x)[1..] == s[1..] + x;
      NaturalExtends(s[1..], x);
    } else {
      NaturalExtends(s, x);
    }
  }

  lemma NaturalNotEmpty(s: string)
    ensures Number(s).Some? ==> s != []
  {
  }

  lemma NaturalExtends(s: string, x: string)
    requires Natural(s).Some? && Natural(s).value.1 != []
    ensures Natural(s + x) == Some((Natural(s).value.0, Natural(s).value.1 + x))
  {
    hide Value;
    var t := s + x;
    var k := if s[0] == '0' then 1 else DigitRun(s);
    assert s[k..] != [] && k < |s|;
    assert t[..k] == s[..k] && t[k..] == s[k..] + x && t[k] == s[k] && t[0] == s[0];
    if s[0] != '0' {
      RunStops(s[..k], s[k..] + x);
      assert t == s[..k] + (s[k..] + x);
      assert (s[k..] + x)[0] == s[k];
    }
  }

  /** A parse that does not stop at the end of a number is not changed by what
      comes after it. */
  lemma {:induction false} ParseExtends(s: string, x: string)
    requires Parse(s).Some? && (Parse(s).value.1 != [] || !Parse(s).value.0.Int?)
    ensures Parse(s + x) == Some((Parse(s).value.0, Parse(s).value.1 + x))
    decreases |s|, 0
  {
    hide Body, Number, ParseItems, ParseMembers;
    ParseNeedsText(s);
    var t := s + x;
    assert t[0] == s[0] && t[1..] == s[1..] + x;
    if s[0] == '\"' {
      BodyExtends(s[1..], x);
    } else if s[0] == '{' {
      ObjectExtends(s, x);
    } else if s[0] == '[' {
      ArrayExtends(s, x);
    } else {
      StartsExtends(s, "null", x);
      StartsExtends(s, "true", x);
      StartsExtends(s, "false", x);
      if !Starts(s, "null") && !Starts(s, "true") && !Starts(s, "false") {
        NumberExtends(s, x);
        NumberIsNoWord(s, x);
      }
    }
  }

  lemma ParseNeedsText(s: string)
    ensures Parse(s).Some? ==> s != []
  {
  }

  lemma StartsExtends(s: string, w: string, x: string)
    ensures Starts(s, w) ==> Starts(s + x, w) && (s + x)[|w|..] == s[|w|..] + x
  {
    if Starts(s, w) {
      assert (s + x)[..|w|] == s[..|w|];
    }
  }

  lemma NumberIsNoWord(s: string, x: string)
    requires Number(s).Some?
    ensures s != [] && !Starts(s + x, "null") && !Starts(s + x, "true") && !Starts(s + x, "false")
  {
    assert (s + x)[0] == s[0];
    FirstOfWord(s + x, "null");
    FirstOfWord(s + x, "true");
    FirstOfWord(s + x, "false");
  }

  lemma FirstOfWord(s: string, w: string)
    requires w != []
    ensures Starts(s, w) ==> s != [] && s[0] == w[0]
  {
    if Starts(s, w) {
      assert s[..|w|][0] == s[0];
    }
  }

  lemma {:induction false} ArrayExtends(s: string, x: string)
    requires Parse(s).Some? && s != [] && s[0] == '['
    ensures Parse(s + x) == Some((Parse(s).value.0, Parse(s).value.1 + x))
    decreases |s|, 0, 0
  {
    hide Body, ParseMembers, ParseItems;
    var t := Skip(s[1..]);
    assert (s + x)[1..] == s[1..] + x;
    ItemsNeedText(t, []);
    SkipExtends(s[1..], x);
    if t[0] == ']' {
      assert (t + x)[1..] == t[1..] + x;
    } else {
      ItemsExtend(t, [], x);
    }
  }

  lemma ItemsNeedText(s: string, done: seq<Json>)
    ensures ParseItems(s, done).Some? ==> s != []
  {
  }

  lemma {:induction false} ItemsExtend(s: string, done: seq<Json>, x: string)
    requires ParseItems(s, done).Some?
    ensures ParseItems(s + x, done) == Some((ParseItems(s, done).value.0, ParseItems(s, done).value.1 + x))
    decreases |s|, 1
  {
    hide Parse;
    var (v, rest) := Parse(s).value;
    ParseExtends(s, x);
    var t := Skip(rest);
    SkipExtends(rest, x);
    assert (t + x)[1..] == t[1..] + x;
    if t[0] == ',' {
      ItemsNeedText(Skip(t[1..]), done + [v]);
      SkipExtends(t[1..], x);
      ItemsExtend(Skip(t[1..]), done + [v], x);
    }
  }

  lemma {:induction false} ObjectExtends(s: string, x: string)
    requires Parse(s).Some? && s != [] && s[0] == '{'
    ensures Parse(s + x) == Some((Parse(s).value.0, Parse(s).value.1 + x))
    decreases |s|, 0, 0
  {
    hide Body, ParseItems, ParseMembers;
    var t := Skip(s[1..]);
    assert (s + x)[1..] == s[1..] + x;
    MembersNeedText(t, []);
    SkipExtends(s[1..], x);
    if t[0] == '}' {
      assert (t + x)[1..] == t[1..] + x;
    } else {
      MembersExtend(t, [], x);
    }
  }

  lemma MembersNeedText(s: string, done: Members)
    ensures ParseMembers(s, done).Some? ==> s != [] && s[0] == '\"'
  {
  }

  lemma {:induction false} MembersExtend(s: string, done: Members, x: string)
    requires ParseMembers(s, done).Some?
    ensures ParseMembers(s + x, done) == Some((ParseMembers(s, done).value.0, ParseMembers(s, done).value.1 + x))
    decreases |s|, 1
  {
    hide Parse, Body, Put;
    assert (s + x)[1..] == s[1..] + x;
    var (k, rest) := Body(s[1..]).value;
    BodyExtends(s[1..], x);
    var t := Skip(rest);
    SkipExtends(rest, x);
    assert (t + x)[1..] == t[1..] + x;
    var w := Skip(t[1..]);
    ParseNeedsText(w);
    SkipExtends(t[1..], x);
    var (v, rest') := Parse(w).value;
    ParseExtends(w, x);
    var u := Skip(rest');
    SkipExtends(rest', x);
    assert (u + x)[1..] == u[1..] + x;
    if u[0] == ',' {
      MembersNeedText(Skip(u[1..]), Put(done, k, v));
      SkipExtends(u[1..], x);
      MembersExtend(Skip(u[1..]), Put(done, k, v), x);
    }
  }

  lemma ObjectsParseToObjects(s: string)
    requires s != [] && s[0] == '{' && Parse(s).Some?
    ensures !Parse(s).value.0.Int?
  {
    hide ParseItems, Body;
    var t := Skip(s[1..]);
    if !(t != [] && t[0] == '}') {
      MembersGiveObject(t, []);
    }
  }

  lemma {:induction false} MembersGiveObject(s: string, done: Members)
    ensures ParseMembers(s, done).Some? ==> ParseMembers(s, done).value.0.Obj?
    decreases |s|
  {
    hide Parse, Body, Put;
    if ParseMembers(s, done).Some? {
      var (k, rest) := Body(s[1..]).value;
      var (v, rest') := Parse(Skip(Skip(rest)[1..])).value;
      var u := Skip(rest');
      if u[0] == ',' {
        MembersGiveObject(Skip(u[1..]), Put(done, k, v));
      }
    }
  }

  /** No strict prefix of an encoded object decodes to anything. */
  lemma PrefixIsRejected(v: Json, st: Style, p: string)
    requires Usual(st) && WellFormed(v) && v.Obj?
    requires p <= Text(v, st) && p != Text(v, st)
    ensures Loads(p) == None
  {
    hide Parse, Text, ParseMembers;
    var s := Text(v, st);
    TextStarts(v, st);
    ParseRound(v, st, "");
    assert s + "" == s;
    if p == [] {
      NoParse();
    } else {
      assert p[0] == s[0];
      SkipNone(p);
      var x := s[|p|..];
      assert s == p + x;
      if Parse(p).Some? {
        ObjectsParseToObjects(p);
        ParseExtends(p, x);
      }
    }
  }

  lemma NoParse()
    ensures Parse([]) == None
  {
  }
}
