/** `delegate` and `_handle_task_offer` step by step, with other threads using
    the ledger between any two steps and a network that may fail at each. */
module Peer {
  import opened Prelude
  import opened LedgerLog
  import opened LedgerLaws
  import opened LedgerFile
  import opened Roles
  import opened SwarmInvariant
  import opened Order
  import opened Discovery
  import opened Admission
  import opened Links
  import Wire
  import Json

  /** The id in a job, for what it is worth. */
  function IdIn(raw: RawJob): JobId {
    if raw.WellShaped? then raw.job.id else ""
  }

  /** The other threads of the peer: any ledger calls at all, except that only
      the delegation of `job` itself escrows, settles or refunds it. */
  method Interfere(ledger: Ledger, job: JobId)
    requires ledger.Valid()
    modifies ledger
    ensures OnlyOthers(ledger, job)
  {
    hide JobKinds, Legal;
    var calls: nat :| 0 <= calls;
    for i := 0 to calls
      invariant OnlyOthers(ledger, job)
    {
      var op: Op := *;
      if op.WorkFor? || op.job != job {
        var e := AnyCall(ledger, op);
      }
    }
  }

  method AnyCall(ledger: Ledger, op: Op) returns (e: Option<LedgerError>)
    requires ledger.Valid()
    modifies ledger
    ensures ledger.Valid() && old(ledger.records) <= ledger.records
    ensures forall j, k :: j != op.job || k != RecordOf(op).kind ==>
      (k in JobKinds(ledger.records, j) <==> k in JobKinds(old(ledger.records), j))
  {
    hide JobKinds;
    if Perform(ledger.records, op).Success? {
      CallEffect(ledger.records, op);
    }
    match op {
      case EscrowFor(job, worker) => e := ledger.Escrow(job, worker);
      case SettleTo(job, worker) => e := ledger.Settle(job, worker);
      case RefundOf(job) => e := ledger.Refund(job);
      case WorkFor(job, requester) => e := ledger.CreditForWork(job, requester);
    }
  }

  // ---- requester

  /** How the body of the `try` ends: with an exception, or with a decision. */
  datatype TryEnd = ProtocolError | OtherException | Rejected(explained: bool) | BadStatus | GoodStatus

  function DuePhase(end: TryEnd): RPhase {
    match end
    case ProtocolError => Refunding(StatusFailed)
    case OtherException => Escaped
    case Rejected(explained) => Refunding(if explained then StatusRejected else StatusRaised)
    case BadStatus => Refunding(StatusFailed)
    case GoodStatus => Settling
  }

  /** The exception that a receive without a message ends in. */
  function Trouble(a: Arrival): TryEnd {
    if a.Raises? then OtherException else ProtocolError
  }

  /** Other threads left the job's escrow and close as they were. */
  twostate predicate OnlyOthers(ledger: Ledger, job: JobId)
    reads ledger
  {
    && ledger.Valid() && old(ledger.records) <= ledger.records
    && forall k :: k != Work ==> (k in JobKinds(ledger.records, job) <==> k in JobKinds(old(ledger.records), job))
  }

  // ---- what the network lets the requester meet

  /** The worker is reached and greets back. */
  predicate Greets(net: Network, worker: PeerId) {
    net.connect.Connected? && net.sends(0) && ArrivalAt(net, 0) == Arrived(worker, Handshake)
  }

  predicate OfferGoes(net: Network, worker: PeerId) {
    Greets(net, worker) && net.sends(1)
  }

  predicate Agrees(net: Network, worker: PeerId) {
    OfferGoes(net, worker) && IsAcceptance(ArrivalAt(net, 1), worker)
  }

  predicate IsAcceptance(a: Arrival, worker: PeerId) {
    a.Arrived? && a.sender == worker && a.msg.Accept?
  }

  predicate Declines(net: Network, worker: PeerId, explained: bool) {
    OfferGoes(net, worker) && ArrivalAt(net, 1) == Arrived(worker, Reject(explained))
  }

  predicate Answers(net: Network, worker: PeerId, result: JobResult) {
    Agrees(net, worker) && ArrivalAt(net, 2) == Arrived(worker, TaskResult(result))
  }

  /** An exception other than ProtocolError is met before the offer. */
  predicate BreaksEarly(net: Network) {
    net.connect.NoPeerName? || (net.connect.Connected? && net.sends(0) && ArrivalAt(net, 0).Raises?)
  }

  /** Such an exception is met at all. */
  predicate Breaks(net: Network, worker: PeerId) {
    || BreaksEarly(net)
    || (OfferGoes(net, worker) && ArrivalAt(net, 1).Raises?)
    || (Agrees(net, worker) && ArrivalAt(net, 2).Raises?)
    || Answers(net, worker, Unreadable)
  }

  /** The messages that leave the requester. */
  function Leaves(net: Network, worker: PeerId, job: JobId): seq<Msg> {
    (if net.connect.Connected? && net.sends(0) then [Handshake] else [])
    + (if OfferGoes(net, worker) then [Offer(job)] else [])
  }

  /** Connecting and offering; no `end` means that the offer was made.  It leaves
      only on a connection pinned to the worker. */
  method OfferJob(ledger: Ledger, link: Link, job: JobId, worker: PeerId)
    returns (end: Option<TryEnd>, ghost steps: seq<(Log, RInput)>)
    requires ledger.Valid() && link.Unused()
    modifies ledger, link, link.conn`remote, link.conn.reader
    ensures OnlyOthers(ledger, job)
    ensures Follow(job, worker, Escrowed, steps) == if end == None then Offered(worker) else DuePhase(end.value)
    ensures end == None <==> OfferGoes(link.net, worker)
    ensures end.Some? ==> end.value == if BreaksEarly(link.net) then OtherException else ProtocolError
    ensures link.sent == Said(job, worker, Escrowed, steps) && link.sent == Leaves(link.net, worker, job)
    ensures end == None ==> link.conn.remote == Some(worker) && link.waits == 1 && link.Aligned()
  {
    hide JobKinds, Perform, Legal, Follow, Said, ArrivalAt, StreamAt;
    FollowNone(job, worker, Escrowed);
    steps := [];
    if !link.net.connect.Connected? {
      ghost var i := if link.net.connect.NoPeerName? then Raise else Fail;
      FollowOne(job, worker, Escrowed, steps, ledger.records, i);
      steps := steps + [(ledger.records, i)];
      return Some(if link.net.connect.NoPeerName? then OtherException else ProtocolError), steps;
    }
    ghost var greeted, met := link.net.sends(0), ArrivalAt(link.net, 0);
    var hello := link.HandshakeOutbound();
    FollowOne(job, worker, Escrowed, steps, ledger.records, if greeted then Go else Fail);
    steps := steps + [(ledger.records, if greeted then Go else Fail)];
    if greeted {
      FollowOne(job, worker, Escrowed, steps, ledger.records, AsInput(met));
      steps := steps + [(ledger.records, AsInput(met))];
    }
    if !hello.Arrived? {
      return Some(Trouble(hello)), steps;
    }
    if link.conn.remote != Some(worker) {
      return Some(ProtocolError), steps;
    }
    Interfere(ledger, job);
    var offered := link.Send(Offer(job));
    FollowOne(job, worker, Escrowed, steps, ledger.records, if offered then Go else Fail);
    steps := steps + [(ledger.records, if offered then Go else Fail)];
    end := if offered then None else Some(ProtocolError);
  }

  /** Waiting for the reply; no `end` means that the worker accepted. */
  method AwaitReply(link: Link, job: JobId, worker: PeerId, ghost log: Log) returns (end: Option<TryEnd>)
    requires link.conn.remote == Some(worker) && link.Aligned()
    modifies link`waits, link.conn.reader
    ensures var reply := ArrivalAt(link.net, old(link.waits));
      && Request(job, worker, Offered(worker), log, AsInput(reply))
         == RStep(if end == None then Accepted(worker) else DuePhase(end.value), log, None)
      && (end == None <==> IsAcceptance(reply, worker))
      && (forall e :: end == Some(Rejected(e)) <==> reply == Arrived(worker, Reject(e)))
      && (end == Some(OtherException) <==> reply.Raises?)
      && end != Some(GoodStatus) && end != Some(BadStatus)
    ensures end == None ==> link.waits == old(link.waits) + 1 && link.Aligned()
  {
    hide Perform, ArrivalAt, StreamAt;
    var reply, payload := link.Recv({TASK_ACCEPT, TASK_REJECT});
    if !reply.Arrived? {
      return Some(Trouble(reply));
    }
    end := if reply.msg.Reject? then Some(Rejected(reply.msg.explained)) else None;
  }

  /** Waiting for the result, and judging it. */
  method AwaitResult(link: Link, job: JobId, worker: PeerId, ghost log: Log) returns (end: TryEnd)
    requires link.conn.remote == Some(worker) && link.Aligned()
    modifies link`waits, link.conn.reader
    ensures var answer := ArrivalAt(link.net, old(link.waits));
      && Request(job, worker, Accepted(worker), log, AsInput(answer)) == RStep(DuePhase(end), log, None)
      && (end == GoodStatus <==> answer == Arrived(worker, TaskResult(JobResult(Some(job), true))))
      && (end == BadStatus <==> answer == Arrived(worker, TaskResult(JobResult(Some(job), false))))
      && (end == OtherException <==> answer.Raises? || answer == Arrived(worker, TaskResult(Unreadable)))
      && !end.Rejected?
  {
    hide Perform, ArrivalAt, StreamAt;
    var answer, payload := link.Recv({TASK_RESULT});
    if !answer.Arrived? {
      return Trouble(answer);
    }
    var result := answer.msg.result;
    if result.Unreadable? {
      return OtherException;
    }
    if result.job != Some(job) {
      return ProtocolError;
    }
    end := if result.ok then GoodStatus else BadStatus;
  }

  method AwaitAnswer(ledger: Ledger, link: Link, job: JobId, worker: PeerId)
    returns (end: TryEnd, ghost steps: seq<(Log, RInput)>)
    requires ledger.Valid() && link.conn.remote == Some(worker) && link.Aligned() && link.waits == 1
    requires OfferGoes(link.net, worker)
    modifies ledger, link`waits, link.conn.reader
    ensures OnlyOthers(ledger, job)
    ensures Follow(job, worker, Offered(worker), steps) == DuePhase(end)
    ensures Said(job, worker, Offered(worker), steps) == []
    ensures EndsAs(end, link.net, job, worker)
  {
    hide JobKinds, Perform, Legal, Follow, Said, Request, DuePhase, ArrivalAt, StreamAt, OfferGoes, EndsAs, IsAcceptance;
    FollowNone(job, worker, Offered(worker));
    ghost var i := AsInput(ArrivalAt(link.net, 1));
    var declined := AwaitReply(link, job, worker, ledger.records);
    FollowOne(job, worker, Offered(worker), [], ledger.records, i);
    steps := [] + [(ledger.records, i)];
    if declined.Some? {
      EndsAtReply(declined.value, link.net, job, worker);
      return declined.value, steps;
    }
    Interfere(ledger, job);
    i := AsInput(ArrivalAt(link.net, 2));
    end := AwaitResult(link, job, worker, ledger.records);
    EndsAtResult(end, link.net, job, worker);
    FollowOne(job, worker, Offered(worker), steps, ledger.records, i);
    steps := steps + [(ledger.records, i)];
  }

  /** How the `try` ends, by what the network did: only a ProtocolError is left
      when nothing else fits. */
  ghost predicate EndsAs(end: TryEnd, net: Network, job: JobId, worker: PeerId) {
    && (end == GoodStatus <==> Answers(net, worker, JobResult(Some(job), true)))
    && (end == BadStatus <==> Answers(net, worker, JobResult(Some(job), false)))
    && (forall e :: end == Rejected(e) <==> Declines(net, worker, e))
    && (end == OtherException <==> Breaks(net, worker))
  }

  lemma EndsAtReply(end: TryEnd, net: Network, job: JobId, worker: PeerId)
    requires OfferGoes(net, worker) && !IsAcceptance(ArrivalAt(net, 1), worker)
    requires forall e :: end == Rejected(e) <==> ArrivalAt(net, 1) == Arrived(worker, Reject(e))
    requires end == OtherException <==> ArrivalAt(net, 1).Raises?
    requires end != GoodStatus && end != BadStatus
    ensures EndsAs(end, net, job, worker)
  {
    hide ArrivalAt, StreamAt;
  }

  lemma EndsAtResult(end: TryEnd, net: Network, job: JobId, worker: PeerId)
    requires OfferGoes(net, worker) && IsAcceptance(ArrivalAt(net, 1), worker) && !end.Rejected?
    requires end == GoodStatus <==> ArrivalAt(net, 2) == Arrived(worker, TaskResult(JobResult(Some(job), true)))
    requires end == BadStatus <==> ArrivalAt(net, 2) == Arrived(worker, TaskResult(JobResult(Some(job), false)))
    requires end == OtherException <==> ArrivalAt(net, 2).Raises? || ArrivalAt(net, 2) == Arrived(worker, TaskResult(Unreadable))
    ensures EndsAs(end, net, job, worker)
  {
    hide ArrivalAt, StreamAt;
  }

  /** The body of the `try`, up to the close: a run of the requester machine that
      sends exactly what that run sends, and ends as the network has it. */
  method Converse(ledger: Ledger, link: Link, job: JobId, worker: PeerId)
    returns (end: TryEnd, ghost steps: seq<(Log, RInput)>)
    requires ledger.Valid() && link.Unused()
    modifies ledger, link, link.conn`remote, link.conn.reader
    ensures OnlyOthers(ledger, job)
    ensures Follow(job, worker, Escrowed, steps) == DuePhase(end)
    ensures link.sent == Said(job, worker, Escrowed, steps) && link.sent == Leaves(link.net, worker, job)
    ensures Offer(job) in link.sent ==> link.conn.remote == Some(worker)
    ensures EndsAs(end, link.net, job, worker)
  {
    hide JobKinds, Legal, Follow, Said, ArrivalAt, StreamAt;
    var failed;
    failed, steps := OfferJob(ledger, link, job, worker);
    if failed.Some? {
      return failed.value, steps;
    }
    Interfere(ledger, job);
    ghost var wait;
    end, wait := AwaitAnswer(ledger, link, job, worker);
    FollowThen(job, worker, Escrowed, steps, wait);
    steps := steps + wait;
  }

  /** How `delegate` ends.  The middle three are exceptions: a LedgerError from the
      escrow, a KeyError after the refund, and one that passes the refund by. */
  datatype Reply =
    | NotStarted
    | Raised(error: LedgerError)
    | RaisedAfterRefund
    | RaisedPastRefund
    | Returned(status: Status, refunded: bool)

  /** The job's records say the call closed its escrow with `status`. */
  ghost predicate ClosedWith(log: Log, job: JobId, status: Status) {
    var w := JobKinds(log, job);
    && Times(w, LedgerLog.Escrow) == 1
    && Times(w, LedgerLog.Settle) == (if status == StatusOk then 1 else 0)
    && Times(w, LedgerLog.Refund) == (if status == StatusOk then 0 else 1)
  }

  /** What a call that got past its escrow leaves behind, by how it ends: closed
      exactly once, by a settle iff it reports ok and by a refund iff it reports
      `refunded`, or open iff the exception passed the refund by. */
  ghost predicate LeftBehind(r: Reply, log: Log, job: JobId, phase: RPhase) {
    match r
    case Returned(status, refunded) =>
      && status != StatusRaised && (refunded <==> status != StatusOk)
      && ClosedWith(log, job, status) && phase == Done(status)
    case RaisedAfterRefund => ClosedWith(log, job, StatusRaised) && phase == Done(StatusRaised)
    case RaisedPastRefund => Open(log, job) && phase == Escaped
    case _ => false
  }

  /** What the caller of `delegate` gets, by what the network did. */
  ghost predicate RepliesAs(r: Reply, net: Network, job: JobId, worker: PeerId) {
    && (r == Returned(StatusOk, false) <==> Answers(net, worker, JobResult(Some(job), true)))
    && (r == Returned(StatusRejected, true) <==> Declines(net, worker, true))
    && (r == RaisedAfterRefund <==> Declines(net, worker, false))
    && (r == RaisedPastRefund <==> Breaks(net, worker))
    && (r == Returned(StatusFailed, true) <==>
          && !Answers(net, worker, JobResult(Some(job), true))
          && !Declines(net, worker, true) && !Declines(net, worker, false) && !Breaks(net, worker))
  }

  /** The settle or refund that ends the call; on an open escrow neither raises. */
  method Close(ledger: Ledger, job: JobId, worker: PeerId, end: TryEnd) returns (r: Reply)
    requires ledger.Valid() && Open(ledger.records, job) && end != OtherException
    modifies ledger
    ensures ledger.Valid() && old(ledger.records) <= ledger.records
    ensures var q := Request(job, worker, DuePhase(end), old(ledger.records), Go);
      q.log == ledger.records && LeftBehind(r, ledger.records, job, q.phase)
    ensures r == match end
                 case GoodStatus => Returned(StatusOk, false)
                 case Rejected(explained) => if explained then Returned(StatusRejected, true) else RaisedAfterRefund
                 case _ => Returned(StatusFailed, true)
  {
    hide JobKinds, Legal, Open, ClosedWith;
    OpenCloses(ledger.records, job, worker);
    if end == GoodStatus {
      CloseCounts(ledger.records, SettleTo(job, worker));
      var e := ledger.Settle(job, worker);
      assert e == None;
      r := Returned(StatusOk, false);
    } else {
      CloseCounts(ledger.records, RefundOf(job));
      var e := ledger.Refund(job);
      assert e == None;
      match end
      case Rejected(explained) => r := if explained then Returned(StatusRejected, true) else RaisedAfterRefund;
      case _ => r := Returned(StatusFailed, true);
    }
  }

  /** `delegate` from the connection attempt on. */
  method ConverseAndClose(ledger: Ledger, net: Network, job: JobId, worker: PeerId)
    returns (r: Reply, ghost steps: seq<(Log, RInput)>)
    requires ledger.Valid() && Open(ledger.records, job)
    modifies ledger
    ensures ledger.Valid() && old(ledger.records) <= ledger.records
    ensures LeftBehind(r, ledger.records, job, Follow(job, worker, Escrowed, steps))
    ensures RepliesAs(r, net, job, worker)
    ensures Said(job, worker, Escrowed, steps) == Leaves(net, worker, job)
  {
    hide JobKinds, Perform, Legal, ClosedWith, Follow, Said, Request, ArrivalAt, StreamAt, Leaves;
    Interfere(ledger, job);
    var link := new Link(net);
    var end;
    end, steps := Converse(ledger, link, job, worker);
    Interfere(ledger, job);
    if end == OtherException {
      return RaisedPastRefund, steps;
    }
    SilentClose(job, worker, end, ledger.records);
    FollowOne(job, worker, Escrowed, steps, ledger.records, Go);
    steps := steps + [(ledger.records, Go)];
    r := Close(ledger, job, worker, end);
  }

  lemma SilentClose(job: JobId, worker: PeerId, end: TryEnd, log: Log)
    ensures Request(job, worker, DuePhase(end), log, Go).out == None
  {
    hide Perform;
  }

  /** `delegate` from the escrow on. */
  method EscrowAndConverse(ledger: Ledger, net: Network, job: JobId, worker: PeerId)
    returns (r: Reply, ghost steps: seq<(Log, RInput)>)
    requires ledger.Valid()
    modifies ledger
    ensures ledger.Valid() && old(ledger.records) <= ledger.records
    ensures r.Raised? <==> Refusal(old(ledger.records), EscrowFor(job, worker)).Some?
    ensures r.Raised? ==> ledger.records == old(ledger.records)
    ensures !r.Raised? ==>
      && LeftBehind(r, ledger.records, job, Follow(job, worker, Checked, steps))
      && RepliesAs(r, net, job, worker)
    ensures r.RaisedPastRefund? <==> SomeEscape(job, worker, Checked, steps)
    ensures Said(job, worker, Checked, steps) == if r.Raised? then [] else Leaves(net, worker, job)
  {
    hide JobKinds, Legal, ClosedWith, Follow, Said, SomeEscape, Escapes, RepliesAs, Leaves;
    ghost var start := ledger.records;
    EscrowOpens(start, job, worker);
    FollowNone(job, worker, Checked);
    FollowOne(job, worker, Checked, [], start, Go);
    steps := [] + [(start, Go)];
    FollowEscaped(job, worker, Checked, steps);
    var refused := ledger.Escrow(job, worker);
    if refused != None {
      return Raised(refused.value), steps;
    }
    ghost var talk;
    r, talk := ConverseAndClose(ledger, net, job, worker);
    FollowThen(job, worker, Checked, steps, talk);
    steps := steps + talk;
    FollowEscaped(job, worker, Checked, steps);
  }

  /** `delegate`.  It asks the eligible live peer seen last, never itself.  A call
      that gets past its escrow is a run of the requester machine, ends as the
      network has it (`RepliesAs`) and leaves the ledger as `LeftBehind` says.  Any
      other call leaves no escrow, settle or refund of the job; it raises iff the
      escrow is refused, which after the check of the balance only other threads
      can bring about. */
  method Delegate(ledger: Ledger, discovery: Discovery, net: Network, raw: RawJob, now: int)
    returns (r: Reply, worker: Option<PeerInfo>, ghost atEscrow: Log, ghost steps: seq<(Log, RInput)>)
    requires ledger.Valid() && discovery.Valid() && discovery.clock <= now
    requires forall k :: k in JobKinds(ledger.records, IdIn(raw)) ==> k == Work
    modifies ledger, discovery
    ensures ledger.Valid() && old(ledger.records) <= atEscrow <= ledger.records
    ensures discovery.Valid() && discovery.receptions == old(discovery.receptions)
    ensures r.NotStarted? <==> !CanOffer(old(ledger.records)) || !ValidJob(raw) || worker == None
    ensures worker.Some? ==>
      && worker.value.peerId != discovery.me && Candidate(discovery, now, raw, worker.value)
      && forall row :: Candidate(discovery, now, raw, row) ==> row.lastSeen <= worker.value.lastSeen
    ensures worker == None && CanOffer(old(ledger.records)) && ValidJob(raw) ==>
      forall row :: !Candidate(discovery, now, raw, row)
    ensures r.NotStarted? || r.Raised? ==>
      ledger.records == atEscrow && forall k :: k in JobKinds(ledger.records, IdIn(raw)) ==> k == Work
    ensures !r.NotStarted? ==>
      && worker.Some?
      && (r.Raised? <==> !CanOffer(atEscrow) || Work in JobKinds(atEscrow, IdIn(raw)))
      && (!r.Raised? ==>
            && LeftBehind(r, ledger.records, IdIn(raw), Follow(IdIn(raw), worker.value.peerId, Checked, steps))
            && RepliesAs(r, net, IdIn(raw), worker.value.peerId)
            && Said(IdIn(raw), worker.value.peerId, Checked, steps) == Leaves(net, worker.value.peerId, IdIn(raw)))
      && (r.RaisedPastRefund? <==> SomeEscape(IdIn(raw), worker.value.peerId, Checked, steps))
  {
    hide JobKinds, Perform, Legal, ClosedWith, Follow, Said, Blank, Latest, Refines, Recorded, SomeEscape, LeftBehind;
    hide RepliesAs, Leaves, Shown;
    steps, atEscrow := [], ledger.records;
    worker := None;
    var may := ledger.MayOffer();
    if !may || !ValidJob(raw) {
      return NotStarted, worker, atEscrow, steps;
    }
    worker := PickWorker(discovery, raw, now);
    if worker == None {
      return NotStarted, worker, atEscrow, steps;
    }
    Interfere(ledger, raw.job.id);
    atEscrow := ledger.records;
    assert raw.job.id == IdIn(raw) && forall k :: k in JobKinds(atEscrow, IdIn(raw)) ==> k == Work;
    RefusedForWork(atEscrow, raw.job.id, worker.value.peerId);
    r, steps := EscrowAndConverse(ledger, net, raw.job.id, worker.value.peerId);
    PastTheEscrow(r, ledger.records, raw.job.id, worker.value.peerId, steps);
  }

  lemma PastTheEscrow(r: Reply, log: Log, job: JobId, worker: PeerId, steps: seq<(Log, RInput)>)
    ensures LeftBehind(r, log, job, Follow(job, worker, Checked, steps)) ==> !r.NotStarted? && !r.Raised?
  {
  }

  /** When only other threads have touched the job, it can only be a work record
      that refuses the escrow. */
  lemma RefusedForWork(log: Log, job: JobId, worker: PeerId)
    requires forall k :: k in JobKinds(log, job) ==> k == Work
    ensures Refusal(log, EscrowFor(job, worker)).Some? <==> !CanOffer(log) || Work in JobKinds(log, job)
  {
    var w := JobKinds(log, job);
    if w != [] {
      assert w[0] in w;
    }
  }

  /** A peer the requester may offer the job to: it is listed, accepts tasks, and
      has the harness the job names, if it names one. */
  ghost predicate Candidate(discovery: Discovery, t: int, raw: RawJob, row: PeerInfo)
    reads discovery
  {
    && raw.WellShaped? && Shown(discovery.receptions, discovery.me, row, t)
    && row.manifest.acceptsTasks && (raw.job.required == "any" || raw.job.required in row.manifest.harnesses)
  }

  method PickWorker(discovery: Discovery, raw: RawJob, now: int) returns (worker: Option<PeerInfo>)
    requires discovery.Valid() && discovery.clock <= now && raw.WellShaped?
    modifies discovery
    ensures discovery.Valid() && discovery.receptions == old(discovery.receptions)
    ensures worker.Some? ==>
      && worker.value.peerId != discovery.me && Candidate(discovery, now, raw, worker.value)
      && forall row :: Candidate(discovery, now, raw, row) ==> row.lastSeen <= worker.value.lastSeen
    ensures worker == None ==> forall row :: !Candidate(discovery, now, raw, row)
  {
    hide Latest, Refines, Ids, Recorded, Shown, Precedes, DiffersDownAt;
    var rows := discovery.Peers(now);
    worker := ChooseWorker(rows, raw.job.required);
    if worker.Some? {
      assert worker.value in rows;
      LatestIsRecorded(discovery.history, worker.value.peerId);
    }
  }

  lemma EscrowOpens(log: Log, job: JobId, worker: PeerId)
    requires Legal(log)
    ensures Perform(log, EscrowFor(job, worker)).Success? ==>
      log <= Perform(log, EscrowFor(job, worker)).value && Open(Perform(log, EscrowFor(job, worker)).value, job)
  {
    if Perform(log, EscrowFor(job, worker)).Success? {
      PerformEffect(log, EscrowFor(job, worker));
    }
  }

  lemma CloseCounts(log: Log, op: Op)
    requires Legal(log) && Open(log, op.job) && (op.SettleTo? || op.RefundOf?) && Perform(log, op).Success?
    ensures forall status :: (status == StatusOk <==> op.SettleTo?) ==> ClosedWith(Perform(log, op).value, op.job, status)
  {
    AtMostOnce(log, op.job);
    PerformEffect(log, op);
  }

  // ---- worker

  /** How long a run of the job may take. */
  function Limit(raw: RawJob): nat {
    if raw.WellShaped? && raw.job.maxRuntime > 0 then raw.job.maxRuntime else 0
  }

  /** What a worker is: its id, configuration and harnesses, and what the process of
      each job it runs will do. */
  datatype Host = Host(
    me: PeerId, config: Config, harnesses: set<string>, onPath: set<string>, process: RawJob -> (ProcessEnd, nat))

  ghost predicate KeepsTimeouts(host: Host) {
    forall raw :: WithinTimeout(host.process(raw).0, host.process(raw).1, Limit(raw))
  }

  /** The run of a valid job at a worker. */
  function RunAt(host: Host, raw: RawJob): Execution
    requires ValidJob(raw)
  {
    Outcome(raw.job, Choice(raw.job.required, host.harnesses, host.onPath, host.config.forceSimulate),
            host.config.simulateDelay, host.process(raw).0, host.process(raw).1)
  }

  /** The worker takes the offer. */
  predicate Takes(host: Host, requester: PeerId, raw: RawJob) {
    && requester != host.me && ValidJob(raw) && host.config.acceptsTasks
    && (raw.job.required == "any" || raw.job.required in host.harnesses || host.config.forceSimulate)
    && raw.job.maxRuntime <= host.config.maxRuntime
  }

  /** The reply to an offer of `job`, when the next send is the `k`th: a rejection,
      or an acceptance and a result, each if it can be sent. */
  function ReplyTo(host: Host, requester: PeerId, raw: RawJob, job: JobId, net: Network, k: nat): seq<Msg> {
    if !net.sends(k) then []
    else if !Takes(host, requester, raw) then [Reject(true)]
    else if !net.sends(k + 1) then [Accept(job)]
    else [Accept(job), TaskResult(JobResult(Some(job), RunAt(host, raw).ok))]
  }

  /** The worker is owed a credit: it took the offer, said so, ran the job to a
      good result and sent that. */
  predicate Earns(host: Host, requester: PeerId, raw: RawJob, net: Network, k: nat) {
    Takes(host, requester, raw) && net.sends(k) && net.sends(k + 1) && RunAt(host, raw).ok
  }

  /** What a served offer leaves in the ledger: a work record iff one is owed and
      the job was not credited before. */
  function Credited(before: Log, requester: PeerId, job: JobId, owed: bool): Log {
    before + if owed && Work !in JobKinds(before, job) then [RecordOf(WorkFor(job, requester))] else []
  }

  /** The reply to an offer of `job` from `requester`, whose content is `raw`. */
  method HandleTaskOffer(ledger: Ledger, link: Link, host: Host, requester: PeerId, raw: RawJob, job: JobId)
    returns (ghost steps: seq<(Log, WInput)>, ghost before: Log)
    requires ledger.Valid() && KeepsTimeouts(host) && (raw.WellShaped? ==> raw.job.id == job)
    modifies ledger, link`sent, link`tries
    ensures ledger.Valid() && old(ledger.records) <= before <= ledger.records
    ensures FollowWorker(host.me, Deciding(requester, job), steps) == Ended
    ensures link.sent == old(link.sent) + WorkerSaid(host.me, Deciding(requester, job), steps)
    ensures link.sent == old(link.sent) + ReplyTo(host, requester, raw, job, link.net, old(link.tries))
    ensures ledger.records == Credited(before, requester, job, Earns(host, requester, raw, link.net, old(link.tries)))
  {
    hide JobKinds, Legal, FollowWorker, WorkerSaid, Serve, Blank, RunAt;
    before, steps := ledger.records, [];
    if requester == host.me {
      steps := RejectOffer(ledger, link, host.me, requester, job);
      return;
    }
    if !ValidJob(raw) {
      steps := RejectOffer(ledger, link, host.me, requester, job);
      return;
    }
    if !host.config.acceptsTasks {
      steps := RejectOffer(ledger, link, host.me, requester, job);
      return;
    }
    if raw.job.required != ANY && raw.job.required !in host.harnesses && !host.config.forceSimulate {
      steps := RejectOffer(ledger, link, host.me, requester, job);
      return;
    }
    if raw.job.maxRuntime > host.config.maxRuntime {
      steps := RejectOffer(ledger, link, host.me, requester, job);
      return;
    }
    steps, before := RunAccepted(ledger, link, host, requester, raw);
  }

  method RejectOffer(ledger: Ledger, link: Link, me: PeerId, requester: PeerId, job: JobId)
    returns (ghost steps: seq<(Log, WInput)>)
    modifies link`sent, link`tries
    ensures FollowWorker(me, Deciding(requester, job), steps) == Ended
    ensures link.sent == old(link.sent) + WorkerSaid(me, Deciding(requester, job), steps)
    ensures link.sent == old(link.sent) + if link.net.sends(old(link.tries)) then [Reject(true)] else []
  {
    hide FollowWorker, WorkerSaid;
    FollowWorkerNone(me, Deciding(requester, job));
    var went := link.Send(Reject(true));
    FollowWorkerOne(me, Deciding(requester, job), [], ledger.records, if went then WGo(false) else WFail);
    steps := [] + [(ledger.records, if went then WGo(false) else WFail)];
  }

  /** An accepted offer: acceptance, run, result, credit. */
  method RunAccepted(ledger: Ledger, link: Link, host: Host, requester: PeerId, raw: RawJob)
    returns (ghost steps: seq<(Log, WInput)>, ghost before: Log)
    requires ledger.Valid() && Takes(host, requester, raw) && KeepsTimeouts(host)
    modifies ledger, link`sent, link`tries
    ensures ledger.Valid() && old(ledger.records) <= before <= ledger.records
    ensures FollowWorker(host.me, Deciding(requester, raw.job.id), steps) == Ended
    ensures link.sent == old(link.sent) + WorkerSaid(host.me, Deciding(requester, raw.job.id), steps)
    ensures link.sent == old(link.sent) + ReplyTo(host, requester, raw, raw.job.id, link.net, old(link.tries))
    ensures ledger.records
            == Credited(before, requester, raw.job.id, Earns(host, requester, raw, link.net, old(link.tries)))
  {
    hide JobKinds, Legal, FollowWorker, WorkerSaid, Blank, RunAt;
    var earned;
    earned, steps := RunAndReply(ledger, link, host, requester, raw);
    before := ledger.records;
    if !earned {
      return;
    }
    var job := raw.job.id;
    Interfere(ledger, job);
    before := ledger.records;
    FollowWorkerOne(host.me, Deciding(requester, job), steps, before, WGo(true));
    steps := steps + [(before, WGo(true))];
    var e := ledger.CreditForWork(job, requester);
  }

  /** Acceptance, run and result; `earned` says that a good result went out. */
  method RunAndReply(ledger: Ledger, link: Link, host: Host, requester: PeerId, raw: RawJob)
    returns (earned: bool, ghost steps: seq<(Log, WInput)>)
    requires Takes(host, requester, raw) && KeepsTimeouts(host)
    modifies link`sent, link`tries
    ensures earned <==> Earns(host, requester, raw, link.net, old(link.tries))
    ensures link.sent == old(link.sent) + ReplyTo(host, requester, raw, raw.job.id, link.net, old(link.tries))
    ensures FollowWorker(host.me, Deciding(requester, raw.job.id), steps)
            == if earned then Crediting(requester, raw.job.id) else Ended
    ensures link.sent == old(link.sent) + WorkerSaid(host.me, Deciding(requester, raw.job.id), steps)
  {
    hide FollowWorker, WorkerSaid, Blank, Usable, Perform, Choice;
    var job := raw.job.id;
    ghost var start, log := Deciding(requester, job), ledger.records;
    FollowWorkerNone(host.me, start);
    var went := link.Send(Accept(job));
    FollowWorkerOne(host.me, start, [], log, if went then WGo(true) else WFail);
    steps := [] + [(log, if went then WGo(true) else WFail)];
    if !went {
      return false, steps;
    }
    var (end, took) := host.process(raw);
    var result := ExecuteJob(raw, host.harnesses, host.onPath, host.config.forceSimulate, host.config.simulateDelay, end, took);
    FollowWorkerOne(host.me, start, steps, log, WGo(result.value.ok));
    steps := steps + [(log, WGo(result.value.ok))];
    went := link.Send(TaskResult(JobResult(Some(result.value.job), result.value.ok)));
    FollowWorkerOne(host.me, start, steps, log, if went then WGo(true) else WFail);
    steps := steps + [(log, if went then WGo(true) else WFail)];
    earned := went && result.value.ok;
  }

  /** The inbound connection brings an offer: a greeting that can be answered, and a
      TASK_OFFER from the peer that greeted. */
  predicate Brings(net: Network, requester: PeerId, job: JobId) {
    net.sends(0) && ArrivalAt(net, 0) == Arrived(requester, Handshake) && ArrivalAt(net, 1) == Arrived(requester, Offer(job))
  }

  /** One inbound connection, from the greeting to the end: a complete run of the
      worker machine.  If the network brings an offer, it is answered as its content
      asks for and credited if a credit is earned; else nothing is booked and at
      most the greeting is answered. */
  method ServeConnection(ledger: Ledger, link: Link, host: Host) returns (ghost steps: seq<(Log, WInput)>, ghost before: Log)
    requires ledger.Valid() && link.Unused() && KeepsTimeouts(host)
    modifies ledger, link, link.conn`remote, link.conn.reader
    ensures ledger.Valid() && old(ledger.records) <= before <= ledger.records
    ensures FollowWorker(host.me, AwaitHello, steps) == Ended && link.sent == WorkerSaid(host.me, AwaitHello, steps)
    ensures forall requester, job :: Brings(link.net, requester, job) ==>
      var raw := Wire.JobIn(PayloadAt(link.net, 1));
      && link.sent == [Handshake] + ReplyTo(host, requester, raw, job, link.net, 1)
      && ledger.records == Credited(before, requester, job, Earns(host, requester, raw, link.net, 1))
    ensures !(exists requester, job :: Brings(link.net, requester, job)) ==>
      link.sent <= [Handshake] && ledger.records == before
  {
    hide JobKinds, Legal, FollowWorker, WorkerSaid, Credited, ArrivalAt, StreamAt, PayloadAt, Takes, ReplyTo, Earns;
    before := ledger.records;
    var offer, payload;
    offer, payload, steps := ReceiveOffer(ledger, link, host.me);
    if offer == None {
      return;
    }
    var (requester, job) := offer.value;
    Interfere(ledger, job);
    OfferContent(link.net, requester, job);
    ghost var rest;
    rest, before := HandleTaskOffer(ledger, link, host, requester, Wire.JobIn(payload), job);
    FollowWorkerThen(host.me, AwaitHello, steps, rest);
    steps := steps + rest;
  }

  /** The content of an offer bears the id of its message. */
  lemma OfferContent(net: Network, requester: PeerId, job: JobId)
    requires ArrivalAt(net, 1) == Arrived(requester, Offer(job))
    ensures var raw := Wire.JobIn(PayloadAt(net, 1)); raw.WellShaped? ==> raw.job.id == job
  {
    hide Wire.MsgOf, Wire.JobIn, LineAt;
    Wire.OfferNamesJob(PayloadAt(net, 1));
  }

  /** The greeting and the wait for the offer, from the peer that greeted. */
  method ReceiveOffer(ledger: Ledger, link: Link, me: PeerId)
    returns (offer: Option<(PeerId, JobId)>, payload: Json.Json, ghost steps: seq<(Log, WInput)>)
    requires link.Unused()
    modifies link, link.conn`remote, link.conn.reader
    ensures link.sent == WorkerSaid(me, AwaitHello, steps)
    ensures offer == None ==>
      && FollowWorker(me, AwaitHello, steps) == Ended && link.sent <= [Handshake]
      && forall requester, job :: !Brings(link.net, requester, job)
    ensures offer.Some? ==>
      && Brings(link.net, offer.value.0, offer.value.1) && payload == PayloadAt(link.net, 1)
      && FollowWorker(me, AwaitHello, steps) == Deciding(offer.value.0, offer.value.1)
      && link.conn.remote == Some(offer.value.0) && link.sent == [Handshake] && link.tries == 1
  {
    hide FollowWorker, WorkerSaid, Perform, ArrivalAt, StreamAt, PayloadAt;
    ghost var log := ledger.records;
    FollowWorkerNone(me, AwaitHello);
    ghost var met := ArrivalAt(link.net, 0);
    var remote := link.HandshakeInbound();
    FollowWorkerOne(me, AwaitHello, [], log, AsWorkerInput(met));
    steps := [] + [(log, AsWorkerInput(met))];
    payload := Json.Null;
    if Received(None, {HANDSHAKE}, met).Arrived? {
      FollowWorkerOne(me, AwaitHello, steps, log, if remote == None then WFail else WGo(true));
      steps := steps + [(log, if remote == None then WFail else WGo(true))];
    }
    if remote == None {
      return None, payload, steps;
    }
    met := ArrivalAt(link.net, 1);
    var m;
    m, payload := link.Recv({TASK_OFFER});
    FollowWorkerOne(me, AwaitHello, steps, log, AsWorkerInput(met));
    steps := steps + [(log, AsWorkerInput(met))];
    offer := if m.Arrived? then Some((m.sender, m.msg.job)) else None;
  }
}
