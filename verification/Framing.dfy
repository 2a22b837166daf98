/** One envelope a line over a byte stream. */
module Framing {
  import opened Prelude
  import opened Json
  import opened JsonRoundTrip
  import opened JsonCanonical
  import opened JsonPrefix
  import opened Identity

  const NEWLINE: byte := 10
  const MAX_LINE_BYTES := 4 * 1024 * 1024

  /** `str.encode` on ASCII text. */
  function Encode(s: string): Bytes
    requires Printable(s)
  {
    seq(|s|, i requires 0 <= i < |s| => s[i] as int as byte)
  }

  /** `bytes.decode`; bytes outside ASCII are refused, no peer sends any. */
  function Decode(b: Bytes): Option<string> {
    if forall i :: 0 <= i < |b| ==> b[i] < 128 then Some(seq(|b|, i requires 0 <= i < |b| => b[i] as int as char))
    else None
  }

  /** The line `send` writes. */
  function Frame(env: Json): Bytes {
    TextPrintable(env, SPACED);
    Encode(Dumps(env)) + [NEWLINE]
  }

  /** The message in a line, before its signature is checked. */
  function Unframe(line: Bytes): Option<Json> {
    match Decode(line)
    case None => None
    case Some(s) => Loads(s)
  }

  function NewlineAt(s: Bytes): (i: nat)
    ensures i <= |s| && (i < |s| ==> s[i] == NEWLINE) && forall j :: 0 <= j < i ==> s[j] != NEWLINE
  {
    if s == [] || s[0] == NEWLINE then 0
    else
      var i := NewlineAt(s[1..]);
      assert forall j :: 0 < j < |s| ==> s[j] == s[1..][j - 1];
      1 + i
  }

  /** The first line of a stream: through the first newline, at most `limit` bytes. */
  function LineOf(s: Bytes, limit: nat): (line: Bytes)
    ensures line <= s && |line| <= limit
    ensures s != [] && limit > 0 ==> line != []
  {
    var n := if |s| < limit then |s| else limit;
    var i := NewlineAt(s[..n]);
    if i < n then s[..i + 1] else s[..n]
  }

  function Flat(chunks: seq<Bytes>): Bytes {
    if chunks == [] then [] else chunks[0] + Flat(chunks[1..])
  }

  /** The reader has all it needs in its buffer. */
  predicate Enough(buffer: Bytes, limit: nat) {
    |buffer| >= limit || NewlineAt(buffer) < |buffer|
  }

  lemma MoreChangesNothing(buffer: Bytes, more: Bytes, limit: nat)
    requires Enough(buffer, limit)
    ensures LineOf(buffer + more, limit) == LineOf(buffer, limit)
  {
    var s := buffer + more;
    var n, m := if |s| < limit then |s| else limit, if |buffer| < limit then |buffer| else limit;
    var i, k := NewlineAt(s[..n]), NewlineAt(buffer[..m]);
    assert s[..m] == buffer[..m] && m <= n;
    if k < m {
      assert s[k] == buffer[k];
      assert s[..n][k] == NEWLINE;
      assert i < |s[..n]| && s[..n][i] == s[i];
      assert i <= k;
      assert buffer[..m][i] == s[i];
      assert s[..i + 1] == buffer[..i + 1];
    } else {
      var at := NewlineAt(buffer);
      assert at < m ==> buffer[..m][at] == NEWLINE;
      assert n == m == limit;
    }
  }

  /** A buffered reader over what TCP delivers, chunk by chunk, until end of stream. */
  class LineReader {
    var buffer: Bytes
    var chunks: seq<Bytes>

    constructor (chunks: seq<Bytes>)
      ensures Stream() == Flat(chunks)
    {
      buffer := [];
      this.chunks := chunks;
    }

    function Stream(): Bytes
      reads this
    {
      buffer + Flat(chunks)
    }

    /** The line read and what remains depend on the bytes alone, not on how they
        were cut into chunks. */
    method ReadLine(limit: nat) returns (line: Bytes)
      modifies this
      ensures line == LineOf(old(Stream()), limit)
      ensures Stream() == old(Stream())[|line|..]
    {
      while !Enough(buffer, limit) && chunks != []
        invariant Stream() == old(Stream())
        decreases |chunks|
      {
        assert (buffer + chunks[0]) + Flat(chunks[1..]) == buffer + (chunks[0] + Flat(chunks[1..]));
        buffer := buffer + chunks[0];
        chunks := chunks[1..];
      }
      line := LineOf(buffer, limit);
      if Enough(buffer, limit) {
        MoreChangesNothing(buffer, Flat(chunks), limit);
      } else {
        assert buffer + Flat([]) == buffer;
      }
      assert old(Stream())[|line|..] == buffer[|line|..] + Flat(chunks);
      buffer := buffer[|line|..];
    }
  }

  // ---- round trip

  lemma DecodeEncode(s: string, end: bool)
    requires Printable(s)
    ensures Decode(Encode(s) + if end then [NEWLINE] else []) == Some(s + if end then "\n" else "")
  {
    var b := Encode(s) + if end then [NEWLINE] else [];
    var t := s + if end then "\n" else "";
    forall i | 0 <= i < |b| ensures b[i] < 128 && b[i] as int as char == t[i] {
    }
    assert Decode(b).value == t;
  }

  /** A frame carries its one newline at its end, and decodes to its envelope,
      with or without that newline. */
  lemma FrameRound(env: Json)
    requires WellFormed(env)
    ensures NewlineAt(Frame(env)) == |Frame(env)| - 1
    ensures Unframe(Frame(env)) == Some(env)
    ensures Unframe(Frame(env)[..|Frame(env)| - 1]) == Some(env)
  {
    hide Text, Loads;
    TextPrintable(env, SPACED);
    var s := Dumps(env);
    var b := Encode(s);
    DecodeEncode(s, true);
    DecodeEncode(s, false);
    assert b + [] == b && s + "" == s;
    assert Frame(env)[..|Frame(env)| - 1] == b;
    LoadsText(env, SPACED, "\n");
    LoadsText(env, SPACED, "");
    var frame := Frame(env);
    forall i | 0 <= i < |b| ensures frame[i] != NEWLINE {
      assert frame[i] == b[i] && b[i] as int == s[i] as int;
    }
    assert frame[|b|] == NEWLINE;
  }

  /** The whole stream cut into lines. */
  function Lines(s: Bytes, limit: nat): seq<Bytes>
    requires limit > 0
    decreases |s|
  {
    if s == [] then [] else [LineOf(s, limit)] + Lines(s[|LineOf(s, limit)|..], limit)
  }

  function StreamOf(envs: seq<Json>): Bytes {
    if envs == [] then [] else Frame(envs[0]) + StreamOf(envs[1..])
  }

  lemma FirstLine(env: Json, rest: Bytes, limit: nat)
    requires WellFormed(env) && |Frame(env)| <= limit
    ensures LineOf(Frame(env) + rest, limit) == Frame(env)
  {
    hide Frame;
    FrameRound(env);
    MoreChangesNothing(Frame(env), rest, limit);
    assert Frame(env)[..|Frame(env)|] == Frame(env);
  }

  /** Framing round trip: envelopes whose lines fit the cap arrive one by one, in
      order and unchanged, and nothing else does. */
  lemma {:induction false} StreamRoundTrip(envs: seq<Json>, limit: nat)
    requires limit > 0
    requires forall i :: 0 <= i < |envs| ==> WellFormed(envs[i]) && |Frame(envs[i])| <= limit
    ensures var lines := Lines(StreamOf(envs), limit);
      |lines| == |envs| && forall i :: 0 <= i < |envs| ==> Unframe(lines[i]) == Some(envs[i])
  {
    hide Frame, Unframe;
    if envs != [] {
      var frame, rest := Frame(envs[0]), StreamOf(envs[1..]);
      FrameRound(envs[0]);
      FirstLine(envs[0], rest, limit);
      assert (frame + rest)[|frame|..] == rest;
      StreamRoundTrip(envs[1..], limit);
      assert Lines(StreamOf(envs), limit) == [frame] + Lines(rest, limit);
    }
  }

  /** Exactly when one envelope gets through the cap: iff its text without the
      newline fits.  A longer one is cut and the piece is refused. */
  lemma CapIsExact(env: Json, rest: Bytes, limit: nat)
    requires WellFormed(env) && env.Obj? && limit > 0
    ensures Unframe(LineOf(Frame(env) + rest, limit)) == if |Dumps(env)| <= limit then Some(env) else None
  {
    hide Text, Loads;
    var frame := Frame(env);
    var n := |frame| - 1;
    TextPrintable(env, SPACED);
    FrameRound(env);
    if |frame| <= limit {
      FirstLine(env, rest, limit);
    } else {
      MoreChangesNothing(frame, rest, limit);
      NoNewlineInPart(frame, limit);
      assert LineOf(frame, limit) == frame[..limit];
      if limit < n {
        CutIsRefused(env, limit);
      }
    }
  }

  lemma NoNewlineInPart(frame: Bytes, limit: nat)
    requires limit < |frame| && NewlineAt(frame) == |frame| - 1
    ensures NewlineAt(frame[..limit]) == limit
  {
  }

  lemma CutIsRefused(env: Json, limit: nat)
    requires WellFormed(env) && env.Obj? && limit < |Dumps(env)|
    ensures Unframe(Frame(env)[..limit]) == None
  {
    hide Text, Loads;
    TextPrintable(env, SPACED);
    var s := Dumps(env);
    var p := s[..limit];
    assert Frame(env)[..limit] == Encode(p);
    DecodeEncode(p, false);
    assert Encode(p) + [] == Encode(p) && p + "" == p;
    PrefixIsRejected(env, SPACED, p);
  }
}
