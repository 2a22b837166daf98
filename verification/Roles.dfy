/** The two ends of a delegation as machines that take one atomic step at a
    time: the requester thread of `delegate` and the worker thread of
    `_serve_connection`.  Both the swarm and the session are built from them. */
module Roles {
  import opened Prelude
  import opened LedgerLog

  type PeerId = Account

  /** A peer id is the SHA-1 hex digest of a public key. */
  predicate IsDigest(p: PeerId) {
    |p| == 40 && forall c :: c in p ==> c in "0123456789abcdef"
  }

  /** So no peer can be mistaken for one of the ledger's own accounts. */
  lemma DigestsAreUnreserved(p: PeerId)
    requires IsDigest(p)
    ensures !Reserved(p)
  {
    assert |SELF| == 4 && |ESCROW| == 6 && |GENESIS| == 7;
  }

  /** The `result` object of a TASK_RESULT; a missing id is `None`.  Reading the
      result raises if there is no body or the result is no object. */
  datatype JobResult = JobResult(job: Option<JobId>, ok: bool) | Unreadable

  /** A rejection without a body is not `explained`. */
  datatype Msg =
    | Handshake
    | Offer(job: JobId)
    | Accept(job: JobId)
    | Reject(explained: bool)
    | TaskResult(result: JobResult)
    | OtherType

  datatype MsgType = HANDSHAKE | TASK_OFFER | TASK_ACCEPT | TASK_REJECT | TASK_RESULT | OTHER

  function TypeOf(m: Msg): MsgType {
    match m
    case Handshake => HANDSHAKE
    case Offer(_) => TASK_OFFER
    case Accept(_) => TASK_ACCEPT
    case Reject(_) => TASK_REJECT
    case TaskResult(_) => TASK_RESULT
    case OtherType => OTHER
  }

  /** The checks `recv` makes on a verified message. */
  predicate Admitted(pinned: Option<PeerId>, expected: set<MsgType>, sender: PeerId, m: Msg) {
    && (pinned == None || pinned == Some(sender))
    && TypeOf(m) in expected
  }

  /** What one receive meets: a ProtocolError (timeout, end of stream, an
      unverifiable line), another exception, or a verified message. */
  datatype Arrival = Lost | Raises | Arrived(sender: PeerId, msg: Msg)

  /** What `recv` gives its caller: a message that is not admitted is a ProtocolError. */
  function Received(pinned: Option<PeerId>, expected: set<MsgType>, a: Arrival): Arrival {
    if a.Arrived? && !Admitted(pinned, expected, a.sender, a.msg) then Lost else a
  }

  // ---- requester

  /** How a closed call ends; `StatusRaised` is a KeyError after the refund. */
  datatype Status = StatusOk | StatusRejected | StatusFailed | StatusRaised

  /** Where a `delegate` call is.  `remote` is the id the handshake pinned.
      `Refused` and `CloseRaised` are the two places where a LedgerError would
      leave the call, `Escaped` is an exception that is no ProtocolError and passes
      the refund by; `Refunding` is a refund that is due, with what follows it. */
  datatype RPhase =
    | Checked | Refused
    | Escrowed | HelloSent | Pinned(remote: PeerId) | Offered(remote: PeerId) | Accepted(remote: PeerId)
    | Settling | Refunding(due: Status)
    | Done(status: Status) | CloseRaised | Escaped

  /** `Go` runs the thread to its next effect, `Fail` is a ProtocolError there,
      `Raise` any other exception. */
  datatype RInput = Go | Recv(sender: PeerId, msg: Msg) | Fail | Raise

  datatype RStep = RStep(phase: RPhase, log: Log, out: Option<Msg>)

  predicate InTry(p: RPhase) {
    p.Escrowed? || p.HelloSent? || p.Pinned? || p.Offered? || p.Accepted?
  }

  /** The peer the call's connection is pinned to. */
  function PinOf(p: RPhase): Option<PeerId> {
    if p.Pinned? || p.Offered? || p.Accepted? then Some(p.remote) else None
  }

  /** The step lets an exception other than ProtocolError out of the `try`. */
  predicate Escapes(p: RPhase, i: RInput) {
    || (InTry(p) && i.Raise?)
    || (p.Accepted? && i.Recv? && Admitted(PinOf(p), {TASK_RESULT}, i.sender, i.msg) && i.msg.result.Unreadable?)
  }

  /** One step of `delegate` for `job`, aimed at `worker`, on the requester's ledger. */
  function Request(job: JobId, worker: PeerId, phase: RPhase, log: Log, i: RInput): RStep {
    match (phase, i)
    case (Checked, Go) =>
      (match Perform(log, EscrowFor(job, worker))
       case Success(log') => RStep(Escrowed, log', None)
       case Failure(_) => RStep(Refused, log, None))
    case (Escrowed, Go) => RStep(HelloSent, log, Some(Handshake))
    case (HelloSent, Recv(sender, m)) =>
      if Admitted(None, {HANDSHAKE}, sender, m) && sender == worker
      then RStep(Pinned(sender), log, None) else RStep(Refunding(StatusFailed), log, None)
    case (Pinned(remote), Go) => RStep(Offered(remote), log, Some(Offer(job)))
    case (Offered(remote), Recv(sender, m)) =>
      if !Admitted(Some(remote), {TASK_ACCEPT, TASK_REJECT}, sender, m) then RStep(Refunding(StatusFailed), log, None)
      else if m.Reject? then RStep(Refunding(if m.explained then StatusRejected else StatusRaised), log, None)
      else RStep(Accepted(remote), log, None)
    case (Accepted(remote), Recv(sender, m)) =>
      if !Admitted(Some(remote), {TASK_RESULT}, sender, m) then RStep(Refunding(StatusFailed), log, None)
      else if m.result.Unreadable? then RStep(Escaped, log, None)
      else if m.result == JobResult(Some(job), true) then RStep(Settling, log, None)
      else RStep(Refunding(StatusFailed), log, None)
    case (Settling, Go) =>
      (match Perform(log, SettleTo(job, worker))
       case Success(log') => RStep(Done(StatusOk), log', None)
       case Failure(_) => RStep(CloseRaised, log, None))
    case (Refunding(due), Go) =>
      (match Perform(log, RefundOf(job))
       case Success(log') => RStep(Done(due), log', None)
       case Failure(_) => RStep(CloseRaised, log, None))
    case (_, Fail) => if InTry(phase) then RStep(Refunding(StatusFailed), log, None) else RStep(phase, log, None)
    case (_, Raise) => if InTry(phase) then RStep(Escaped, log, None) else RStep(phase, log, None)
    case _ => RStep(phase, log, None)
  }

  function AsInput(a: Arrival): RInput {
    match a
    case Lost => Fail
    case Raises => Raise
    case Arrived(sender, m) => Recv(sender, m)
  }

  predicate RFinished(p: RPhase) {
    p.Refused? || p.Done? || p.CloseRaised? || p.Escaped?
  }

  /** The phases of a call whose escrow succeeded. */
  predicate PastEscrow(p: RPhase) {
    !p.Checked? && !p.Refused?
  }

  predicate OfferSent(p: RPhase) {
    || p.Offered? || p.Accepted? || p.Settling? || p == Done(StatusOk)
    || p == Refunding(StatusRejected) || p == Done(StatusRejected)
    || p == Refunding(StatusRaised) || p == Done(StatusRaised)
  }

  // ---- worker

  datatype WPhase =
    | AwaitHello | Greeting(remote: PeerId) | AwaitOffer(remote: PeerId)
    | Deciding(remote: PeerId, job: JobId)
    | Executing(remote: PeerId, job: JobId)
    | Executed(remote: PeerId, job: JobId, ok: bool)
    | Crediting(remote: PeerId, job: JobId)
    | Ended

  /** `WGo(yes)` carries the outcome of the step: accept or reject, ok or error. */
  datatype WInput = WGo(yes: bool) | WRecv(sender: PeerId, msg: Msg) | WFail

  datatype WStep = WStep(phase: WPhase, log: Log, out: Option<Msg>)

  /** One step of the worker `me` serving one inbound connection. */
  function Serve(me: PeerId, phase: WPhase, log: Log, i: WInput): WStep {
    match (phase, i)
    case (AwaitHello, WRecv(sender, m)) =>
      WStep(if Admitted(None, {HANDSHAKE}, sender, m) then Greeting(sender) else Ended, log, None)
    case (Greeting(remote), WGo(_)) => WStep(AwaitOffer(remote), log, Some(Handshake))
    case (AwaitOffer(remote), WRecv(sender, m)) =>
      WStep(if Admitted(Some(remote), {TASK_OFFER}, sender, m) then Deciding(remote, m.job) else Ended, log, None)
    case (Deciding(remote, job), WGo(yes)) =>
      if remote == me || !yes then WStep(Ended, log, Some(Reject(true)))
      else WStep(Executing(remote, job), log, Some(Accept(job)))
    case (Executing(remote, job), WGo(ok)) => WStep(Executed(remote, job, ok), log, None)
    case (Executed(remote, job, ok), WGo(_)) =>
      WStep(if ok then Crediting(remote, job) else Ended, log, Some(TaskResult(JobResult(Some(job), ok))))
    case (Crediting(remote, job), WGo(_)) =>
      (match Perform(log, WorkFor(job, remote))
       case Success(log') => WStep(Ended, log', None)
       case Failure(_) => WStep(Ended, log, None))
    case (Executing(_, _), WFail) => WStep(phase, log, None)
    case (Crediting(_, _), WFail) => WStep(phase, log, None)
    case (_, WFail) => WStep(Ended, log, None)
    case _ => WStep(phase, log, None)
  }

  function AsWorkerInput(a: Arrival): WInput {
    match a
    case Arrived(sender, m) => WRecv(sender, m)
    case _ => WFail
  }

  // ---- runs of one machine, on a ledger that other threads may change between steps

  function Follow(job: JobId, worker: PeerId, phase: RPhase, steps: seq<(Log, RInput)>): RPhase {
    if steps == [] then phase
    else
      var last := steps[|steps| - 1];
      Request(job, worker, Follow(job, worker, phase, steps[..|steps| - 1]), last.0, last.1).phase
  }

  function FollowWorker(me: PeerId, phase: WPhase, steps: seq<(Log, WInput)>): WPhase {
    if steps == [] then phase
    else
      var last := steps[|steps| - 1];
      Serve(me, FollowWorker(me, phase, steps[..|steps| - 1]), last.0, last.1).phase
  }

  function AsList(out: Option<Msg>): seq<Msg> {
    if out == None then [] else [out.value]
  }

  /** The messages a run of the requester sends. */
  function Said(job: JobId, worker: PeerId, phase: RPhase, steps: seq<(Log, RInput)>): seq<Msg> {
    if steps == [] then []
    else
      var front, last := steps[..|steps| - 1], steps[|steps| - 1];
      Said(job, worker, phase, front) + AsList(Request(job, worker, Follow(job, worker, phase, front), last.0, last.1).out)
  }

  /** The messages a run of the worker sends. */
  function WorkerSaid(me: PeerId, phase: WPhase, steps: seq<(Log, WInput)>): seq<Msg> {
    if steps == [] then []
    else
      var front, last := steps[..|steps| - 1], steps[|steps| - 1];
      WorkerSaid(me, phase, front) + AsList(Serve(me, FollowWorker(me, phase, front), last.0, last.1).out)
  }

  lemma FollowOne(job: JobId, worker: PeerId, phase: RPhase, steps: seq<(Log, RInput)>, log: Log, i: RInput)
    ensures var r := Request(job, worker, Follow(job, worker, phase, steps), log, i);
      && Follow(job, worker, phase, steps + [(log, i)]) == r.phase
      && Said(job, worker, phase, steps + [(log, i)]) == Said(job, worker, phase, steps) + AsList(r.out)
  {
    assert (steps + [(log, i)])[..|steps|] == steps;
  }

  lemma FollowWorkerOne(me: PeerId, phase: WPhase, steps: seq<(Log, WInput)>, log: Log, i: WInput)
    ensures var r := Serve(me, FollowWorker(me, phase, steps), log, i);
      && FollowWorker(me, phase, steps + [(log, i)]) == r.phase
      && WorkerSaid(me, phase, steps + [(log, i)]) == WorkerSaid(me, phase, steps) + AsList(r.out)
  {
    assert (steps + [(log, i)])[..|steps|] == steps;
  }

  lemma {:induction false} FollowThen(job: JobId, worker: PeerId, phase: RPhase, s: seq<(Log, RInput)>, t: seq<(Log, RInput)>)
    ensures var mid := Follow(job, worker, phase, s);
      && Follow(job, worker, phase, s + t) == Follow(job, worker, mid, t)
      && Said(job, worker, phase, s + t) == Said(job, worker, phase, s) + Said(job, worker, mid, t)
  {
    hide Request;
    if t == [] {
      assert s + t == s;
    } else {
      assert (s + t)[..|s + t| - 1] == s + t[..|t| - 1];
      FollowThen(job, worker, phase, s, t[..|t| - 1]);
    }
  }

  lemma {:induction false} FollowWorkerThen(me: PeerId, phase: WPhase, s: seq<(Log, WInput)>, t: seq<(Log, WInput)>)
    ensures var mid := FollowWorker(me, phase, s);
      && FollowWorker(me, phase, s + t) == FollowWorker(me, mid, t)
      && WorkerSaid(me, phase, s + t) == WorkerSaid(me, phase, s) + WorkerSaid(me, mid, t)
  {
    hide Serve;
    if t == [] {
      assert s + t == s;
    } else {
      assert (s + t)[..|s + t| - 1] == s + t[..|t| - 1];
      FollowWorkerThen(me, phase, s, t[..|t| - 1]);
    }
  }

  /** Some step of the run lets an exception other than ProtocolError out. */
  ghost predicate SomeEscape(job: JobId, worker: PeerId, phase: RPhase, steps: seq<(Log, RInput)>) {
    exists n :: 0 <= n < |steps| && Escapes(Follow(job, worker, phase, steps[..n]), steps[n].1)
  }

  lemma SomeEscapeAfter(job: JobId, worker: PeerId, phase: RPhase, steps: seq<(Log, RInput)>)
    requires steps != []
    ensures var front := steps[..|steps| - 1];
      SomeEscape(job, worker, phase, steps)
      <==> SomeEscape(job, worker, phase, front) || Escapes(Follow(job, worker, phase, front), steps[|steps| - 1].1)
  {
    hide Follow, Escapes;
    var front := steps[..|steps| - 1];
    assert forall n :: 0 <= n <= |front| ==> front[..n] == steps[..n];
  }

  /** A run ends in `Escaped` iff some step of it let such an exception out. */
  lemma {:induction false} FollowEscaped(job: JobId, worker: PeerId, phase: RPhase, steps: seq<(Log, RInput)>)
    requires phase != Escaped
    ensures Follow(job, worker, phase, steps) == Escaped <==> SomeEscape(job, worker, phase, steps)
  {
    hide Request, Escapes, SomeEscape;
    if steps == [] {
      NoEscape(job, worker, phase);
    } else {
      var front, last := steps[..|steps| - 1], steps[|steps| - 1];
      FollowEscaped(job, worker, phase, front);
      SomeEscapeAfter(job, worker, phase, steps);
      EscapeIsStep(job, worker, Follow(job, worker, phase, front), last.0, last.1);
    }
  }

  lemma NoEscape(job: JobId, worker: PeerId, phase: RPhase)
    ensures !SomeEscape(job, worker, phase, [])
  {
  }

  lemma EscapeIsStep(job: JobId, worker: PeerId, phase: RPhase, log: Log, i: RInput)
    ensures Request(job, worker, phase, log, i).phase == Escaped <==> phase == Escaped || Escapes(phase, i)
  {
    hide Perform;
  }

  lemma FollowNone(job: JobId, worker: PeerId, phase: RPhase)
    ensures Follow(job, worker, phase, []) == phase && Said(job, worker, phase, []) == []
  {
  }

  lemma FollowWorkerNone(me: PeerId, phase: WPhase)
    ensures FollowWorker(me, phase, []) == phase && WorkerSaid(me, phase, []) == []
  {
  }
}
