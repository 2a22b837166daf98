/** Receiving on a connection: one line, verified, from the pinned peer, of an
    expected type. */
module Protocol {
  import opened Prelude
  import opened Json
  import opened JsonRoundTrip
  import opened JsonCanonical
  import opened Identity
  import opened Framing

  /** Why nothing is received; `Uncaught` is an exception other than ProtocolError. */
  datatype RecvError = Closed | Unverifiable | SenderChanged | UnexpectedType | Uncaught

  /** The body, if there is one, is an object.  Logging a message relies on it. */
  predicate BodyIsObject(payload: Json) {
    Get(payload, "body").Some? ==> Get(payload, "body").value.Obj?
  }

  /** A line decoded, its signature checked, and logged. */
  function Verify(c: Platform, line: Bytes): Result<(string, Json), RecvError> {
    if line == [] then Failure(Closed)
    else if c.overflows(line) then Failure(Uncaught)
    else
      match Unframe(line)
      case None => Failure(Unverifiable)
      case Some(env) =>
        match Open(c, env)
        case Failure(_) => Failure(Unverifiable)
        case Success(m) => if BodyIsObject(m.1) then Success(m) else Failure(Uncaught)
  }

  /** What `recv` makes of a line. */
  function Inspect(c: Platform, remote: Option<string>, expected: set<string>, line: Bytes)
    : Result<(string, Json), RecvError>
  {
    var r := Verify(c, line);
    if r.Failure? then r
    else if remote.Some? && r.value.0 != remote.value then Failure(SenderChanged)
    else if Get(r.value.1, "type").value.s !in expected then Failure(UnexpectedType)
    else r
  }

  class Connection {
    const platform: Platform
    const reader: LineReader
    var remote: Option<string>

    constructor (platform: Platform, reader: LineReader)
      ensures this.platform == platform && this.reader == reader && remote == None
    {
      this.platform := platform;
      this.reader := reader;
      remote := None;
    }

    method Recv(expected: set<string>) returns (r: Result<(string, Json), RecvError>)
      modifies reader
      ensures var line := LineOf(old(reader.Stream()), MAX_LINE_BYTES);
        r == Inspect(platform, remote, expected, line) && reader.Stream() == old(reader.Stream())[|line|..]
    {
      var line := reader.ReadLine(MAX_LINE_BYTES);
      if line == [] {
        return Failure(Closed);
      }
      if platform.overflows(line) {
        return Failure(Uncaught);
      }
      var env := Unframe(line);
      if env == None {
        return Failure(Unverifiable);
      }
      var verified := Open(platform, env.value);
      if verified.Failure? {
        return Failure(Unverifiable);
      }
      var (sender, payload) := verified.value;
      if !BodyIsObject(payload) {
        return Failure(Uncaught);
      }
      if remote.Some? && sender != remote.value {
        return Failure(SenderChanged);
      }
      if Get(payload, "type").value.s !in expected {
        return Failure(UnexpectedType);
      }
      r := Success((sender, payload));
    }
  }

  /** A message received on a pinned connection comes from the pinned peer, is of
      an expected type, and was sealed under that peer's key with that type. */
  lemma ReceivedIsAuthentic(c: Platform, key: Bytes, sealed: iset<Json>, traffic: iset<Json>,
                            expected: set<string>, line: Bytes)
    requires NoForgery(c, key, sealed, traffic) && (Unframe(line).Some? ==> Unframe(line).value in traffic)
    requires Inspect(c, Some(PeerIdOf(c, key)), expected, line).Success?
    ensures var (sender, payload) := Inspect(c, Some(PeerIdOf(c, key)), expected, line).value;
      && sender == PeerIdOf(c, key)
      && exists p :: p in sealed && Same(p, payload)
           && Get(p, "sender") == Some(Str(sender))
           && Get(p, "type").Some? && Get(p, "type").value.Str? && Get(p, "type").value.s in expected
  {
    hide Same, Loads, Get;
    var (sender, payload) := Inspect(c, Some(PeerIdOf(c, key)), expected, line).value;
    LoadsIsWellFormed(Decode(line).value);
    OpenedWasSealed(c, key, sealed, traffic, Unframe(line).value, sender, payload);
  }

  /** Conversely a sealed message whose text fits the cap is verified, whatever
      follows it on the stream; if its body is no object, logging it raises. */
  lemma SealedIsVerified(c: Platform, key: Bytes, msgType: string, ts: int, body: Json, rest: Bytes)
    requires Correct(c) && WellFormed(body)
    requires var env := Seal(c, key, msgType, ts, body);
      |Dumps(env)| <= 4194304 && !c.overflows(LineOf(Frame(env) + rest, MAX_LINE_BYTES))
    ensures Verify(c, LineOf(Frame(Seal(c, key, msgType, ts, body)) + rest, MAX_LINE_BYTES))
            == if body.Obj? then Success((PeerIdOf(c, key), Payload(msgType, PeerIdOf(c, key), ts, body)))
               else Failure(Uncaught)
  {
    hide Loads, Text, Get, LineOf, Frame, Unframe, Seal, Payload, Canonical;
    var env := Seal(c, key, msgType, ts, body);
    SealShape(c, key, msgType, ts, body);
    CapIsExact(env, rest, MAX_LINE_BYTES);
    FrameRound(env);
    SealedOpens(c, key, msgType, ts, body, "");
    LoadsText(env, SPACED, "");
    EmptyLineIsNothing();
  }

  /** So it is received where its type is expected and its sender is not excluded. */
  lemma SealedIsReceived(c: Platform, key: Bytes, msgType: string, ts: int, body: Json,
                         remote: Option<string>, expected: set<string>, rest: Bytes)
    requires Correct(c) && WellFormed(body) && body.Obj? && msgType in expected
    requires remote == None || remote == Some(PeerIdOf(c, key))
    requires var env := Seal(c, key, msgType, ts, body);
      |Dumps(env)| <= 4194304 && !c.overflows(LineOf(Frame(env) + rest, MAX_LINE_BYTES))
    ensures var env := Seal(c, key, msgType, ts, body);
      Inspect(c, remote, expected, LineOf(Frame(env) + rest, MAX_LINE_BYTES))
      == Success((PeerIdOf(c, key), Payload(msgType, PeerIdOf(c, key), ts, body)))
  {
    hide Dumps, Get, LineOf, Frame, Verify, Seal, Payload, WellFormed;
    SealShape(c, key, msgType, ts, body);
    SealedIsVerified(c, key, msgType, ts, body, rest);
  }

  lemma EmptyLineIsNothing()
    ensures Unframe([]) == None
  {
    assert Skip("") == "";
  }
}
