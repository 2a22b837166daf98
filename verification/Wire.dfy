/** What the two roles take a payload to be, and the envelopes they make.  This
    joins the codec to the machines: a line on a connection is an arrival. */
module Wire {
  import opened Prelude
  import LedgerLog
  import Admission
  import opened Roles
  import opened Json
  import opened JsonCanonical
  import opened Identity
  import opened Framing
  import opened Protocol

  function TypeName(t: MsgType): string {
    match t
    case HANDSHAKE => "HANDSHAKE"
    case TASK_OFFER => "TASK_OFFER"
    case TASK_ACCEPT => "TASK_ACCEPT"
    case TASK_REJECT => "TASK_REJECT"
    case TASK_RESULT => "TASK_RESULT"
    case OTHER => "CONTROL"
  }

  function TypeNamed(s: string): MsgType {
    if s == "HANDSHAKE" then HANDSHAKE
    else if s == "TASK_OFFER" then TASK_OFFER
    else if s == "TASK_ACCEPT" then TASK_ACCEPT
    else if s == "TASK_REJECT" then TASK_REJECT
    else if s == "TASK_RESULT" then TASK_RESULT
    else OTHER
  }

  function Names(ts: set<MsgType>): set<string> {
    set t | t in ts :: TypeName(t)
  }

  lemma NamesAreApart(t: MsgType)
    ensures TypeNamed(TypeName(t)) == t
  {
    assert "TASK_ACCEPT"[5] == 'A' && "TASK_REJECT"[7] == 'J' && "TASK_RESULT"[7] == 'S';
  }

  lemma NamedIn(s: string, ts: set<MsgType>)
    requires OTHER !in ts
    ensures s in Names(ts) <==> TypeNamed(s) in ts
  {
    if s in Names(ts) {
      var t :| t in ts && TypeName(t) == s;
      NamesAreApart(t);
    }
    if TypeNamed(s) in ts {
      assert TypeName(TypeNamed(s)) == s;
    }
  }

  function Field(v: Option<Json>, k: string): Option<Json> {
    if v.Some? then Get(v.value, k) else None
  }

  function TextIn(v: Option<Json>): Option<string> {
    if v.Some? && v.value.Str? then Some(v.value.s) else None
  }

  function IdOr(v: Option<Json>): LedgerLog.JobId {
    if TextIn(v).Some? then TextIn(v).value else ""
  }

  /** What `delegate` reads from the body of a TASK_RESULT. */
  function ResultIn(body: Option<Json>): JobResult {
    var result := Field(body, "result");
    if body == None || (result.Some? && !result.value.Obj?) then Unreadable
    else JobResult(TextIn(Field(result, "job_id")), TextIn(Field(result, "status")) == Some("ok"))
  }

  /** The message a payload stands for, by the fields the two roles read. */
  function MsgOf(payload: Json): Msg {
    var body := Get(payload, "body");
    var name := TextIn(Get(payload, "type"));
    if name == None then OtherType
    else
      match TypeNamed(name.value)
      case HANDSHAKE => Handshake
      case TASK_OFFER => Offer(IdOr(Field(Field(body, "job"), "job_id")))
      case TASK_ACCEPT => Accept(IdOr(Field(body, "job_id")))
      case TASK_REJECT => Reject(body.Some?)
      case TASK_RESULT =>
        TaskResult(ResultIn(body))
      case OTHER => OtherType
  }

  function NumberIn(v: Option<Json>): Option<int> {
    if v.Some? && v.value.Int? then Some(v.value.n) else None
  }

  /** The job in an offer. */
  function JobIn(payload: Json): Admission.RawJob {
    var job := Field(Get(payload, "body"), "job");
    var id, text := TextIn(Field(job, "job_id")), TextIn(Field(job, "task_text"));
    var required, expected := TextIn(Field(job, "required_harness")), TextIn(Field(job, "expected_output"));
    var tokens, runtime := NumberIn(Field(job, "max_tokens")), NumberIn(Field(job, "max_runtime_seconds"));
    if id == None || text == None || required == None || tokens == None || runtime == None || expected == None
    then Admission.BadShape
    else Admission.WellShaped(
           Admission.Job(id.value, text.value, required.value, tokens.value, runtime.value, expected.value))
  }

  lemma OfferNamesJob(payload: Json)
    ensures MsgOf(payload).Offer? && JobIn(payload).WellShaped? ==> JobIn(payload).job.id == MsgOf(payload).job
  {
    hide Get, Field;
  }

  /** What a line brings to the machine that waits on the connection. */
  function ArrivalOf(c: Platform, line: Bytes): Arrival {
    var r := Verify(c, line);
    match r
    case Success(m) => Arrived(m.0, MsgOf(m.1))
    case Failure(e) => if e == Uncaught then Raises else Lost
  }

  /** Receiving bytes refines receiving messages: `recv` on a line yields exactly
      what the machines are given for the arrival the line stands for. */
  lemma InspectIsReceived(c: Platform, remote: Option<PeerId>, ts: set<MsgType>, line: Bytes)
    requires OTHER !in ts
    ensures Received(remote, ts, ArrivalOf(c, line))
            == match Inspect(c, remote, Names(ts), line)
               case Success(m) => Arrived(m.0, MsgOf(m.1))
               case Failure(e) => if e == Uncaught then Raises else Lost
  {
    hide Verify, Get, Names, TypeNamed, Field, TextIn;
    VerifiedHasType(c, line);
    if ArrivalOf(c, line).Arrived? {
      var payload := Verify(c, line).value.1;
      NamedIn(Get(payload, "type").value.s, ts);
      TypeOfMsgOf(payload);
    }
  }

  lemma VerifiedHasType(c: Platform, line: Bytes)
    ensures Verify(c, line).Success? ==> HasType(Verify(c, line).value.1)
  {
    hide Unframe, Get;
  }

  predicate HasType(payload: Json) {
    Get(payload, "type").Some? && Get(payload, "type").value.Str?
  }

  lemma TypeOfMsgOf(payload: Json)
    requires HasType(payload)
    ensures TypeOf(MsgOf(payload)) == TypeNamed(Get(payload, "type").value.s)
  {
    hide Get, Field, TypeNamed;
  }

  // ---- what a payment rests on

  lemma SameField(v: Option<Json>, w: Option<Json>, k: string)
    requires SameOption(v, w)
    ensures SameOption(Field(v, k), Field(w, k))
    ensures TextIn(v) == TextIn(w)
    ensures v.Some? ==> (v.value.Obj? <==> w.value.Obj?)
  {
    hide Same, Get, WellFormed;
    if v.Some? {
      SameShape(v.value, w.value);
      if v.value.Obj? {
        ObjectKeys(v.value);
        SameFields(v.value, w.value, k);
        PartsAreWellFormed(v.value, k);
        PartsAreWellFormed(w.value, k);
      } else {
        NoFields(v.value, k);
        NoFields(w.value, k);
      }
    }
  }

  predicate SameOption(v: Option<Json>, w: Option<Json>) {
    (v == None && w == None) || (v.Some? && w.Some? && WellFormed(v.value) && WellFormed(w.value) && Same(v.value, w.value))
  }

  lemma SameShape(v: Json, w: Json)
    requires Same(v, w)
    ensures (v.Obj? <==> w.Obj?) && (v.Str? <==> w.Str?) && (v.Str? ==> v == w)
  {
  }

  lemma ObjectKeys(v: Json)
    requires WellFormed(v) && v.Obj?
    ensures DistinctKeys(v.members)
  {
  }

  lemma NoFields(v: Json, k: string)
    requires !v.Obj?
    ensures Get(v, k) == None
  {
  }

  /** Payloads equal up to member order are the same message. */
  lemma SameMsg(p: Json, q: Json)
    requires WellFormed(p) && WellFormed(q) && Same(p, q)
    ensures MsgOf(p) == MsgOf(q)
  {
    hide Same, WellFormed, Get, TypeNamed;
    var v, w := Some(p), Some(q);
    SameField(v, w, "type");
    SameField(Get(p, "type"), Get(q, "type"), "");
    SameField(v, w, "body");
    var body, body' := Get(p, "body"), Get(q, "body");
    SameField(body, body', "job_id");
    SameField(Field(body, "job_id"), Field(body', "job_id"), "");
    SameField(body, body', "job");
    SameField(Field(body, "job"), Field(body', "job"), "job_id");
    SameField(Field(Field(body, "job"), "job_id"), Field(Field(body', "job"), "job_id"), "");
    SameField(body, body', "result");
    var result, result' := Field(body, "result"), Field(body', "result");
    SameField(result, result', "job_id");
    SameField(Field(result, "job_id"), Field(result', "job_id"), "");
    SameField(result, result', "status");
    SameField(Field(result, "status"), Field(result', "status"), "");
  }

  /** A message that arrives under the id of `key` was sealed under that key. */
  lemma ArrivedWasSealed(c: Platform, key: Bytes, sealed: iset<Json>, traffic: iset<Json>, line: Bytes)
    requires NoForgery(c, key, sealed, traffic) && (Unframe(line).Some? ==> Unframe(line).value in traffic)
    requires ArrivalOf(c, line).Arrived? && ArrivalOf(c, line).sender == PeerIdOf(c, key)
    ensures exists p :: p in sealed && MsgOf(p) == ArrivalOf(c, line).msg && Get(p, "sender") == Some(Str(PeerIdOf(c, key)))
  {
    hide Same, Get, MsgOf, Unframe, WellFormed, BodyIsObject;
    var (sender, payload) := Verify(c, line).value;
    UnframedIsWellFormed(line);
    var env := Unframe(line).value;
    OpenedWasSealed(c, key, sealed, traffic, env, sender, payload);
    var p :| p in sealed && WellFormed(p) && Same(p, payload) && Get(p, "sender") == Some(Str(sender));
    PartsAreWellFormed(env, "payload");
    SameMsg(p, payload);
  }

  /** The requester's end of the chain: `delegate` decides to pay only on a line
      that carries a payload sealed under the worker's own key, a TASK_RESULT whose
      inner result names this job with status ok. */
  lemma PaidOnSealedResult(c: Platform, key: Bytes, sealed: iset<Json>, traffic: iset<Json>,
                           job: LedgerLog.JobId, worker: PeerId, log: LedgerLog.Log, line: Bytes)
    requires NoForgery(c, key, sealed, traffic) && (Unframe(line).Some? ==> Unframe(line).value in traffic)
    requires Request(job, worker, Accepted(PeerIdOf(c, key)), log, AsInput(ArrivalOf(c, line))).phase == Settling
    ensures exists p :: p in sealed && MsgOf(p) == TaskResult(JobResult(Some(job), true))
                        && Get(p, "sender") == Some(Str(PeerIdOf(c, key)))
  {
    hide ArrivalOf, MsgOf, Get, NoForgery;
    ArrivedWasSealed(c, key, sealed, traffic, line);
  }

  /** The worker's end: it considers a job only on a line that carries an offer of
      it sealed under the key of the peer it will charge. */
  lemma DecidesOnSealedOffer(c: Platform, key: Bytes, sealed: iset<Json>, traffic: iset<Json>,
                             me: PeerId, requester: PeerId, job: LedgerLog.JobId, log: LedgerLog.Log, line: Bytes)
    requires NoForgery(c, key, sealed, traffic) && (Unframe(line).Some? ==> Unframe(line).value in traffic)
    requires Serve(me, AwaitOffer(PeerIdOf(c, key)), log, AsWorkerInput(ArrivalOf(c, line))).phase == Deciding(requester, job)
    ensures requester == PeerIdOf(c, key)
    ensures exists p :: p in sealed && MsgOf(p) == Offer(job) && Get(p, "sender") == Some(Str(requester))
  {
    hide ArrivalOf, MsgOf, Get, NoForgery;
    ArrivedWasSealed(c, key, sealed, traffic, line);
  }

  lemma UnframedIsWellFormed(line: Bytes)
    ensures Unframe(line).Some? ==> WellFormed(Unframe(line).value)
  {
    hide Loads, WellFormed;
    if Decode(line).Some? {
      LoadsIsWellFormed(Decode(line).value);
    }
  }

  // ---- what the roles send

  /** The messages a role sends: readable ones. */
  predicate Sendable(m: Msg) {
    (m.Reject? ==> m.explained) && (m.TaskResult? ==> m.result.JobResult?)
  }

  /** The body of a message, as far as the other role reads it. */
  function BodyOf(m: Msg): Json {
    match m
    case Offer(job) => Obj([("job", Obj([("job_id", Str(job))]))])
    case Accept(job) => Obj([("job_id", Str(job))])
    case TaskResult(JobResult(job, ok)) =>
      Obj([("result", Obj([("job_id", if job.Some? then Str(job.value) else Null),
                           ("status", Str(if ok then "ok" else "error"))]))])
    case _ => Obj([])
  }

  lemma BodyReads(m: Msg)
    ensures WellFormed(BodyOf(m)) && BodyOf(m).Obj?
    ensures m.Offer? ==> Field(Get(BodyOf(m), "job"), "job_id") == Some(Str(m.job))
    ensures m.Accept? ==> Get(BodyOf(m), "job_id") == Some(Str(m.job))
    ensures m.TaskResult? && m.result.JobResult? ==>
      var result := Get(BodyOf(m), "result");
      && result.Some? && result.value.Obj?
      && TextIn(Field(result, "job_id")) == m.result.job
      && (TextIn(Field(result, "status")) == Some("ok") <==> m.result.ok)
  {
    assert "job_id"[0] != "status"[0] && |"ok"| != |"error"|;
    if m.TaskResult? && m.result.JobResult? {
      var fields := Get(BodyOf(m), "result").value.members;
      FieldAt(fields, 0);
      FieldAt(fields, 1);
    }
  }

  lemma BodyRoundTrip(m: Msg, sender: string, ts: int, payload: Json)
    requires Sendable(m) && payload == Payload(TypeName(TypeOf(m)), sender, ts, BodyOf(m))
    requires Get(payload, "type") == Some(Str(TypeName(TypeOf(m)))) && Get(payload, "body") == Some(BodyOf(m))
    ensures MsgOf(payload) == m
  {
    hide Get, WellFormed, TypeName, TypeNamed, BodyOf;
    NamesAreApart(TypeOf(m));
    BodyReads(m);
  }

  /** Every message a role seals and sends, if it fits the cap, arrives as that
      message from that peer, whatever follows it on the stream. */
  lemma SentArrives(c: Platform, key: Bytes, m: Msg, ts: int, rest: Bytes)
    requires Correct(c) && Sendable(m)
    requires var env := Seal(c, key, TypeName(TypeOf(m)), ts, BodyOf(m));
      |Dumps(env)| <= 4194304 && !c.overflows(LineOf(Frame(env) + rest, MAX_LINE_BYTES))
    ensures var env := Seal(c, key, TypeName(TypeOf(m)), ts, BodyOf(m));
      ArrivalOf(c, LineOf(Frame(env) + rest, MAX_LINE_BYTES)) == Arrived(PeerIdOf(c, key), m)
  {
    hide Get, WellFormed, TypeName, TypeNamed, BodyOf, MsgOf, Seal, Payload, Canonical, LineOf, Frame, Unframe, Dumps;
    BodyReads(m);
    var name, id := TypeName(TypeOf(m)), PeerIdOf(c, key);
    SealShape(c, key, name, ts, BodyOf(m));
    var line := LineOf(Frame(Seal(c, key, name, ts, BodyOf(m))) + rest, MAX_LINE_BYTES);
    SealedIsReceived(c, key, name, ts, BodyOf(m), None, {name}, rest);
    BodyRoundTrip(m, id, ts, Payload(name, id, ts, BodyOf(m)));
  }

  /** A message whose body is no object ends the receiving call with an exception
      that is no ProtocolError, whoever sent it. */
  lemma BadBodyRaises(c: Platform, key: Bytes, msgType: string, ts: int, body: Json, rest: Bytes)
    requires Correct(c) && WellFormed(body) && !body.Obj?
    requires var env := Seal(c, key, msgType, ts, body);
      |Dumps(env)| <= 4194304 && !c.overflows(LineOf(Frame(env) + rest, MAX_LINE_BYTES))
    ensures ArrivalOf(c, LineOf(Frame(Seal(c, key, msgType, ts, body)) + rest, MAX_LINE_BYTES)) == Raises
  {
    hide LineOf, Frame, Verify, Seal, Dumps, MsgOf;
    SealedIsVerified(c, key, msgType, ts, body, rest);
  }

  /** So does a TASK_RESULT whose `result` is no object, once `delegate` reads it. */
  lemma BadResultIsUnreadable(c: Platform, key: Bytes, ts: int, result: Json, rest: Bytes)
    requires Correct(c) && WellFormed(result) && !result.Obj?
    requires var env := Seal(c, key, "TASK_RESULT", ts, Obj([("result", result)]));
      |Dumps(env)| <= 4194304 && !c.overflows(LineOf(Frame(env) + rest, MAX_LINE_BYTES))
    ensures var env := Seal(c, key, "TASK_RESULT", ts, Obj([("result", result)]));
      ArrivalOf(c, LineOf(Frame(env) + rest, MAX_LINE_BYTES)) == Arrived(PeerIdOf(c, key), TaskResult(Unreadable))
  {
    hide LineOf, Frame, Verify, Seal, Dumps, Payload, Get, TypeNamed;
    var body := Obj([("result", result)]);
    FieldAt(body.members, 0);
    SealShape(c, key, "TASK_RESULT", ts, body);
    SealedIsVerified(c, key, "TASK_RESULT", ts, body, rest);
    NamesAreApart(TASK_RESULT);
  }

  /** The body of an offer, as `delegate` sends it. */
  function OfferBody(job: Admission.Job): Json {
    Obj([("job", Obj(JobMembers(job)))])
  }

  function JobMembers(job: Admission.Job): Members {
    [("job_id", Str(job.id)), ("task_text", Str(job.text)), ("required_harness", Str(job.required)),
     ("max_tokens", Int(job.maxTokens)), ("max_runtime_seconds", Int(job.maxRuntime)),
     ("expected_output", Str(job.expected))]
  }

  lemma JobKeysDiffer(job: Admission.Job)
    ensures DistinctKeys(JobMembers(job)) && |JobMembers(job)| == 6
  {
    assert |"job_id"| == 6 && |"task_text"| == 9 && |"required_harness"| == 16;
    assert |"max_tokens"| == 10 && |"max_runtime_seconds"| == 19 && |"expected_output"| == 15;
  }

  /** The worker reads the job that the requester wrote. */
  lemma JobRoundTrip(job: Admission.Job, sender: string, ts: int)
    ensures JobIn(Payload("TASK_OFFER", sender, ts, OfferBody(job))) == Admission.WellShaped(job)
  {
    hide Get, DistinctKeys, JobMembers;
    var payload := Payload("TASK_OFFER", sender, ts, OfferBody(job));
    PayloadBody(sender, ts, OfferBody(job));
    JobFields(job);
  }

  lemma PayloadBody(sender: string, ts: int, body: Json)
    ensures Get(Payload("TASK_OFFER", sender, ts, body), "body") == Some(body)
  {
    var ms := Payload("TASK_OFFER", sender, ts, body).members;
    assert "type"[0] == 't' && "sender"[0] == 's' && |"ts"| == 2 && "body"[0] == 'b';
    FieldAt(ms, 3);
  }

  lemma JobFields(job: Admission.Job)
    ensures Get(OfferBody(job), "job") == Some(Obj(JobMembers(job)))
    ensures var v := Obj(JobMembers(job));
      && Get(v, "job_id") == Some(Str(job.id)) && Get(v, "task_text") == Some(Str(job.text))
      && Get(v, "required_harness") == Some(Str(job.required)) && Get(v, "expected_output") == Some(Str(job.expected))
      && Get(v, "max_tokens") == Some(Int(job.maxTokens)) && Get(v, "max_runtime_seconds") == Some(Int(job.maxRuntime))
  {
    hide Get, DistinctKeys;
    JobKeysDiffer(job);
    var ms := JobMembers(job);
    OneField("job", Obj(ms));
    FieldAt(ms, 0);
    FieldAt(ms, 1);
    FieldAt(ms, 2);
    FieldAt(ms, 3);
    FieldAt(ms, 4);
    FieldAt(ms, 5);
  }

  lemma OneField(k: string, v: Json)
    ensures Get(Obj([(k, v)]), k) == Some(v)
  {
  }
}
