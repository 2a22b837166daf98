/** The invariant of the swarm and its preservation by every event. */
module SwarmInvariant {
  import opened Prelude
  import opened LedgerLog
  import opened LedgerLaws
  import opened Roles
  import opened Swarm

  /** What a delegation's phase says about its job in the requester's ledger, and
      that a connection it goes on with is pinned to the worker. */
  ghost predicate PhaseFits(job: JobId, worker: PeerId, phase: RPhase, log: Log) {
    match phase
    case Checked => Escrow !in JobKinds(log, job)
    case Refused => Escrow !in JobKinds(log, job)
    case CloseRaised => false
    case Done(status) =>
      var kinds := JobKinds(log, job);
      && Escrow in kinds
      && (Settle in kinds <==> status == StatusOk)
      && (Refund in kinds <==> status != StatusOk)
      && (status == StatusOk ==> RecordOf(SettleTo(job, worker)) in log)
    case Refunding(due) => Open(log, job) && due != StatusOk
    case Pinned(remote) => Open(log, job) && remote == worker
    case Offered(remote) => Open(log, job) && remote == worker
    case Accepted(remote) => Open(log, job) && remote == worker
    case _ => Open(log, job)
  }

  ghost predicate Shape(s: State) {
    && s.ledgers.Keys == s.honest && s.up <= s.honest
    && (forall p :: p in s.ledgers ==> Legal(s.ledgers[p]))
    && (forall j :: j in s.delegations ==> s.delegations[j].requester in s.honest)
    && (forall t :: t in s.services ==> s.services[t].worker in s.honest)
  }

  ghost predicate PhasesFit(s: State)
    requires Shape(s)
  {
    forall j :: j in s.delegations ==>
      var d := s.delegations[j]; PhaseFits(j, d.worker, d.phase, s.ledgers[d.requester])
  }

  /** Only the delegation of a job escrows it, on its requester's ledger. */
  ghost predicate EscrowsAreDelegated(s: State) {
    forall p, j :: p in s.ledgers && Escrow in JobKinds(s.ledgers[p], j) ==>
      j in s.delegations && s.delegations[j].requester == p
  }

  /** An offer on the wire from an honest peer follows its own escrow. */
  ghost predicate OffersAreBacked(s: State) {
    forall e :: e in s.wire && e.sender in s.honest && e.msg.Offer? ==>
      var j := e.msg.job;
      j in s.delegations && s.delegations[j].requester == e.sender && PastEscrow(s.delegations[j].phase)
  }

  ghost predicate OffersArePinned(s: State) {
    && (forall o :: o in s.offers ==> o.0 in s.delegations && o.1 == Some(s.delegations[o.0].worker))
    && (forall j :: j in s.delegations && OfferSent(s.delegations[j].phase) ==> (j, Some(s.delegations[j].worker)) in s.offers)
  }

  function GoodResult(worker: PeerId, job: JobId): Envelope {
    Envelope(worker, TaskResult(JobResult(Some(job), true)))
  }

  ghost predicate SettlesAreEarned(s: State) {
    forall j :: j in s.delegations && (s.delegations[j].phase == Settling || s.delegations[j].phase == Done(StatusOk)) ==>
      GoodResult(s.delegations[j].worker, j) in s.wire
  }

  /** A service works only on offers its remote sealed, never on its own. */
  ghost predicate ServiceFits(wire: set<Envelope>, v: Service) {
    match v.phase
    case Deciding(q, j) => Envelope(q, Offer(j)) in wire
    case Executing(q, j) => Envelope(q, Offer(j)) in wire && q != v.worker
    case Executed(q, j, _) => Envelope(q, Offer(j)) in wire && q != v.worker
    case Crediting(q, j) => Envelope(q, Offer(j)) in wire && q != v.worker
    case _ => true
  }

  ghost predicate ServicesFit(s: State) {
    forall t :: t in s.services ==> ServiceFits(s.wire, s.services[t])
  }

  ghost predicate WorkWasOffered(s: State) {
    forall p, j, q: PeerId :: p in s.ledgers && RecordOf(WorkFor(j, q)) in s.ledgers[p] ==>
      Envelope(q, Offer(j)) in s.wire && q != p
  }

  /** The service is between sending its good result for `j` and crediting itself. */
  predicate InWindow(v: Service, p: PeerId, j: JobId) {
    v.worker == p && v.phase.Crediting? && v.phase.job == j
  }

  ghost predicate SomeInWindow(s: State, p: PeerId, j: JobId) {
    exists t :: t in s.services && InWindow(s.services[t], p, j)
  }

  ghost predicate ResultsAreCredited(s: State) {
    forall p, j :: p in s.ledgers && GoodResult(p, j) in s.wire ==>
      Work in JobKinds(s.ledgers[p], j) || SomeInWindow(s, p, j)
  }

  ghost predicate Inv(s: State) {
    && Shape(s) && PhasesFit(s) && EscrowsAreDelegated(s) && OffersAreBacked(s) && OffersArePinned(s)
    && SettlesAreEarned(s) && ServicesFit(s) && WorkWasOffered(s) && ResultsAreCredited(s)
  }

  // ---- local effects

  /** What one ledger call does to the facts the invariant speaks of. */
  lemma CallEffect(log: Log, op: Op)
    requires Legal(log) && Perform(log, op).Success?
    ensures var log' := Perform(log, op).value;
      && Legal(log') && log <= log'
      && (forall j :: j != op.job ==> JobKinds(log', j) == JobKinds(log, j))
      && (forall k :: k in JobKinds(log', op.job) <==> k in JobKinds(log, op.job) || k == RecordOf(op).kind)
      && (forall r :: r in log' <==> r in log || r == RecordOf(op))
  {
    PerformEffect(log, op);
    PerformLegal(log, op);
  }

  /** The part of a requester step that its own ledger call makes. */
  lemma RequestFits(job: JobId, worker: PeerId, phase: RPhase, log: Log, i: RInput)
    requires Legal(log) && PhaseFits(job, worker, phase, log)
    ensures var r := Request(job, worker, phase, log, i); PhaseFits(job, worker, r.phase, r.log)
  {
    hide IsDigest, JobKinds, Legal, Admitted;
    match (phase, i) {
      case (Checked, Go) =>
        if Perform(log, EscrowFor(job, worker)).Success? {
          CallEffect(log, EscrowFor(job, worker));
        }
      case (Settling, Go) => CallEffect(log, SettleTo(job, worker));
      case (Refunding(_), Go) => CallEffect(log, RefundOf(job));
      case _ =>
    }
  }

  /** A requester step keeps the fit of its own phase, touches no other job, and
      leaves work records alone. */
  lemma RequestEffect(job: JobId, worker: PeerId, phase: RPhase, log: Log, i: RInput)
    requires Legal(log) && PhaseFits(job, worker, phase, log)
    ensures var r := Request(job, worker, phase, log, i);
      && Legal(r.log) && log <= r.log
      && PhaseFits(job, worker, r.phase, r.log)
      && (forall j :: j != job ==> JobKinds(r.log, j) == JobKinds(log, j))
      && (forall j :: Work in JobKinds(r.log, j) <==> Work in JobKinds(log, j))
      && (forall j, q: PeerId :: RecordOf(WorkFor(j, q)) in r.log <==> RecordOf(WorkFor(j, q)) in log)
  {
    RequestFits(job, worker, phase, log, i);
    var op := RequestCalls(job, worker, phase, log, i);
    hide IsDigest, JobKinds, Legal, Request, PhaseFits, Perform;
    if Request(job, worker, phase, log, i).log != log {
      CallEffect(log, op);
    }
  }

  /** A requester step writes at most one record, of its own job and never work. */
  lemma RequestCalls(job: JobId, worker: PeerId, phase: RPhase, log: Log, i: RInput) returns (op: Op)
    ensures op.job == job && !op.WorkFor?
    ensures var r := Request(job, worker, phase, log, i); r.log == log || Perform(log, op) == Success(r.log)
  {
    hide Perform;
    op := if phase.Checked? then EscrowFor(job, worker) else if phase.Settling? then SettleTo(job, worker) else RefundOf(job);
  }

  /** What a requester step sends, and on what evidence it decides to pay. */
  lemma RequestOutput(job: JobId, worker: PeerId, phase: RPhase, log: Log, i: RInput)
    requires PhaseFits(job, worker, phase, log)
    ensures var r := Request(job, worker, phase, log, i);
      && (PastEscrow(phase) ==> PastEscrow(r.phase))
      && (r.out == None || r.out == Some(Handshake)
          || (r.out == Some(Offer(job)) && PastEscrow(r.phase) && PinOf(phase) == Some(worker)))
      && (OfferSent(r.phase) ==> OfferSent(phase) || r.out == Some(Offer(job)))
      && (r.phase == Settling || r.phase == Done(StatusOk) ==>
            || phase == Settling || phase == Done(StatusOk)
            || (i.Recv? && Envelope(i.sender, i.msg) == GoodResult(worker, job)))
  {
    hide IsDigest, JobKinds, Perform;
  }

  /** A worker step writes at most the work record it is crediting. */
  lemma ServeCalls(me: PeerId, phase: WPhase, log: Log, i: WInput)
    ensures var r := Serve(me, phase, log, i);
      if phase.Crediting? && i.WGo? && Perform(log, WorkFor(phase.job, phase.remote)).Success?
      then r.log == Perform(log, WorkFor(phase.job, phase.remote)).value
      else r.log == log
  {
    hide Perform;
  }

  lemma CreditRefused(log: Log, job: JobId, requester: PeerId)
    ensures Perform(log, WorkFor(job, requester)).Failure? <==> Work in JobKinds(log, job)
  {
    hide JobKinds;
  }

  /** A worker step adds at most a work record for the job it served. */
  lemma ServeEffect(me: PeerId, phase: WPhase, log: Log, i: WInput)
    requires Legal(log)
    ensures var r := Serve(me, phase, log, i);
      && Legal(r.log) && log <= r.log
      && (forall j, k :: k != Work ==> (k in JobKinds(r.log, j) <==> k in JobKinds(log, j)))
      && (forall j :: Work in JobKinds(log, j) ==> Work in JobKinds(r.log, j))
      && (forall j, q: PeerId :: RecordOf(WorkFor(j, q)) in r.log && RecordOf(WorkFor(j, q)) !in log ==>
            phase == Crediting(q, j))
      && (phase.Crediting? && i.WGo? ==> Work in JobKinds(r.log, phase.job))
      && (forall w, j :: RecordOf(SettleTo(j, w)) in log ==> RecordOf(SettleTo(j, w)) in r.log)
  {
    ServeCalls(me, phase, log, i);
    hide IsDigest, JobKinds, Legal, Serve, Perform;
    if phase.Crediting? {
      CreditRefused(log, phase.job, phase.remote);
    }
    if phase.Crediting? && i.WGo? && Perform(log, WorkFor(phase.job, phase.remote)).Success? {
      CallEffect(log, WorkFor(phase.job, phase.remote));
    }
  }

  // ---- requester steps

  lemma RequesterKeepsLedgerFacts(s: State, job: JobId, input: RInput)
    requires Inv(s) && Enabled(s, RequesterStep(job, input))
    ensures var s' := AfterRequester(s, job, input);
      Shape(s') && PhasesFit(s') && EscrowsAreDelegated(s')
  {
    hide IsDigest, JobKinds, Legal, RecordOf, Perform, Request, PhaseFits;
    var d := s.delegations[job];
    var log := s.ledgers[d.requester];
    assert PhaseFits(job, d.worker, d.phase, log);
    RequestEffect(job, d.worker, d.phase, log, input);
    var r := Request(job, d.worker, d.phase, log, input);
    var s' := AfterRequester(s, job, input);
    forall j | j in s'.delegations && j != job
      ensures var e := s'.delegations[j]; PhaseFits(j, e.worker, e.phase, s'.ledgers[e.requester])
    {
      var e := s.delegations[j];
      if e.requester == d.requester {
        OtherJobKept(j, e.worker, e.phase, log, r.log);
      }
    }
  }

  /** The fit of a phase depends only on the job's own kinds and the records kept. */
  lemma OtherJobKept(job: JobId, worker: PeerId, phase: RPhase, log: Log, log': Log)
    requires PhaseFits(job, worker, phase, log) && log <= log'
    requires forall k :: k != Work ==> (k in JobKinds(log', job) <==> k in JobKinds(log, job))
    ensures PhaseFits(job, worker, phase, log')
  {
    hide IsDigest, JobKinds, RecordOf;
    assert forall r :: r in log ==> r in log';
  }

  lemma RequesterKeepsOffersBacked(s: State, job: JobId, input: RInput)
    requires Inv(s) && Enabled(s, RequesterStep(job, input))
    ensures OffersAreBacked(AfterRequester(s, job, input))
  {
    hide IsDigest, JobKinds, Legal, RecordOf, Perform, Request, PhaseFits;
    var d := s.delegations[job];
    assert PhaseFits(job, d.worker, d.phase, s.ledgers[d.requester]);
    RequestOutput(job, d.worker, d.phase, s.ledgers[d.requester], input);
  }

  lemma RequesterKeepsOffersPinned(s: State, job: JobId, input: RInput)
    requires Inv(s) && Enabled(s, RequesterStep(job, input))
    ensures OffersArePinned(AfterRequester(s, job, input))
  {
    hide IsDigest, JobKinds, Legal, RecordOf, Perform, Request, PhaseFits;
    hide EscrowsAreDelegated, OffersAreBacked, SettlesAreEarned, ServicesFit, WorkWasOffered, ResultsAreCredited;
    var d := s.delegations[job];
    assert PhaseFits(job, d.worker, d.phase, s.ledgers[d.requester]);
    RequestOutput(job, d.worker, d.phase, s.ledgers[d.requester], input);
  }

  lemma RequesterKeepsSettles(s: State, job: JobId, input: RInput)
    requires Inv(s) && Enabled(s, RequesterStep(job, input))
    ensures SettlesAreEarned(AfterRequester(s, job, input))
  {
    hide IsDigest, JobKinds, Legal, RecordOf, Perform, Request, PhaseFits;
    var d := s.delegations[job];
    assert PhaseFits(job, d.worker, d.phase, s.ledgers[d.requester]);
    RequestOutput(job, d.worker, d.phase, s.ledgers[d.requester], input);
  }

  lemma RequesterKeepsServices(s: State, job: JobId, input: RInput)
    requires Inv(s) && Enabled(s, RequesterStep(job, input))
    ensures var s' := AfterRequester(s, job, input);
      ServicesFit(s') && WorkWasOffered(s')
  {
    hide IsDigest, JobKinds, Legal, RecordOf, Perform, Request, PhaseFits;
    var d := s.delegations[job];
    assert PhaseFits(job, d.worker, d.phase, s.ledgers[d.requester]);
    RequestEffect(job, d.worker, d.phase, s.ledgers[d.requester], input);
  }

  lemma RequesterKeepsResults(s: State, job: JobId, input: RInput)
    requires Inv(s) && Enabled(s, RequesterStep(job, input))
    ensures ResultsAreCredited(AfterRequester(s, job, input))
  {
    hide IsDigest, JobKinds, Legal, RecordOf, Perform, Request, PhaseFits;
    var d := s.delegations[job];
    assert PhaseFits(job, d.worker, d.phase, s.ledgers[d.requester]);
    RequestEffect(job, d.worker, d.phase, s.ledgers[d.requester], input);
    RequestOutput(job, d.worker, d.phase, s.ledgers[d.requester], input);
    var s' := AfterRequester(s, job, input);
    forall p, j | p in s'.ledgers && GoodResult(p, j) in s'.wire && Work !in JobKinds(s'.ledgers[p], j)
      ensures SomeInWindow(s', p, j)
    {
      assert GoodResult(p, j) in s.wire;
      var t :| t in s.services && InWindow(s.services[t], p, j);
      assert InWindow(s'.services[t], p, j);
    }
  }

  // ---- worker steps

  lemma WorkerKeepsLedgerFacts(s: State, tid: nat, input: WInput)
    requires Inv(s) && Enabled(s, WorkerStep(tid, input))
    ensures var s' := AfterWorker(s, tid, input);
      Shape(s') && PhasesFit(s') && EscrowsAreDelegated(s')
  {
    hide IsDigest, JobKinds, Legal, RecordOf, Perform, PhaseFits, Serve;
    hide OffersAreBacked, OffersArePinned, SettlesAreEarned, ServicesFit, WorkWasOffered, ResultsAreCredited;
    var v := s.services[tid];
    var log := s.ledgers[v.worker];
    ServeEffect(v.worker, v.phase, log, input);
    var log' := Serve(v.worker, v.phase, log, input).log;
    forall j | j in s.delegations
      ensures var d := s.delegations[j]; PhaseFits(j, d.worker, d.phase, AfterWorker(s, tid, input).ledgers[d.requester])
    {
      var d := s.delegations[j];
      if d.requester == v.worker {
        OtherJobKept(j, d.worker, d.phase, log, log');
      }
    }
  }

  lemma WorkerKeepsWireFacts(s: State, tid: nat, input: WInput)
    requires Inv(s) && Enabled(s, WorkerStep(tid, input))
    ensures var s' := AfterWorker(s, tid, input);
      OffersAreBacked(s') && OffersArePinned(s') && SettlesAreEarned(s') && ServicesFit(s')
  {
    hide IsDigest, JobKinds, Legal, RecordOf, Perform;
    hide PhasesFit, EscrowsAreDelegated, WorkWasOffered, ResultsAreCredited;
  }

  lemma WorkerKeepsWorkFacts(s: State, tid: nat, input: WInput)
    requires Inv(s) && Enabled(s, WorkerStep(tid, input))
    ensures var s' := AfterWorker(s, tid, input);
      WorkWasOffered(s') && ResultsAreCredited(s')
  {
    hide IsDigest, JobKinds, Legal, RecordOf, Perform;
    var v := s.services[tid];
    ServeEffect(v.worker, v.phase, s.ledgers[v.worker], input);
    var s' := AfterWorker(s, tid, input);
    assert ServiceFits(s.wire, v);
    forall p, j | p in s'.ledgers && GoodResult(p, j) in s'.wire
      ensures Work in JobKinds(s'.ledgers[p], j) || SomeInWindow(s', p, j)
    {
      if GoodResult(p, j) !in s.wire {
        assert InWindow(s'.services[tid], p, j);
      } else if SomeInWindow(s, p, j) {
        var t :| t in s.services && InWindow(s.services[t], p, j);
        if t != tid {
          assert InWindow(s'.services[t], p, j);
        } else if !input.WGo? {
          assert InWindow(s'.services[tid], p, j);
        }
      }
    }
  }

  // ---- the other events

  /** No ledger, phase or honest message changes; new calls are at their start. */
  ghost predicate Quiet(s: State, s': State) {
    && s'.honest == s.honest && s'.ledgers == s.ledgers && s'.offers == s.offers
    && s'.up <= s.honest && s.wire <= s'.wire
    && (forall e :: e in s'.wire && e !in s.wire ==> e.sender !in s.honest)
    && (forall j :: j in s.delegations ==> j in s'.delegations)
    && (forall j :: j in s'.delegations ==>
          var d' := s'.delegations[j];
          if j in s.delegations
          then d' == s.delegations[j].(alive := d'.alive)
          else d'.phase == Checked && d'.requester in s.honest)
    && (forall t :: t in s.services ==> t in s'.services)
    && (forall t :: t in s'.services ==>
          var v' := s'.services[t];
          if t in s.services
          then v' == s.services[t].(alive := v'.alive)
          else v'.phase == AwaitHello && v'.worker in s.honest)
  }

  lemma QuietKeepsLedgerFacts(s: State, s': State)
    requires Inv(s) && Quiet(s, s')
    ensures Shape(s') && PhasesFit(s') && EscrowsAreDelegated(s')
  {
    hide IsDigest, JobKinds, Legal, RecordOf, PhaseFits;
    hide OffersAreBacked, OffersArePinned, SettlesAreEarned, ServicesFit, WorkWasOffered, ResultsAreCredited;
    forall j | j in s'.delegations
      ensures var d := s'.delegations[j]; PhaseFits(j, d.worker, d.phase, s'.ledgers[d.requester])
    {
      var d := s'.delegations[j];
      if j !in s.delegations {
        NewCallFits(j, d.worker, s.ledgers[d.requester]);
      }
    }
  }

  lemma NewCallFits(job: JobId, worker: PeerId, log: Log)
    ensures Escrow !in JobKinds(log, job) ==> PhaseFits(job, worker, Checked, log)
  {
    hide JobKinds;
  }

  lemma QuietKeepsWireFacts(s: State, s': State)
    requires Inv(s) && Quiet(s, s')
    ensures OffersAreBacked(s') && OffersArePinned(s') && SettlesAreEarned(s')
  {
    hide IsDigest, JobKinds, Legal, RecordOf, PhaseFits;
  }

  lemma QuietKeepsWorkFacts(s: State, s': State)
    requires Inv(s) && Quiet(s, s')
    ensures ServicesFit(s') && WorkWasOffered(s') && ResultsAreCredited(s')
  {
    hide IsDigest, JobKinds, Legal, RecordOf, PhaseFits;
    forall p, j | p in s'.ledgers && GoodResult(p, j) in s'.wire && Work !in JobKinds(s'.ledgers[p], j)
      ensures SomeInWindow(s', p, j)
    {
      var t :| t in s.services && InWindow(s.services[t], p, j);
      assert InWindow(s'.services[t], p, j);
    }
  }

  lemma OthersAreQuiet(s: State, ev: Event)
    requires Shape(s) && Enabled(s, ev) && !ev.RequesterStep? && !ev.WorkerStep?
    ensures Quiet(s, Next(s, ev))
  {
    hide IsDigest, Legal, CanOffer;
  }

  lemma StepKeeps(s: State, ev: Event)
    requires Inv(s)
    ensures Inv(Next(s, ev)) && Next(s, ev).honest == s.honest
  {
    hide Inv;
    if Enabled(s, ev) {
      match ev
      case RequesterStep(job, input) =>
        RequesterKeepsLedgerFacts(s, job, input);
        RequesterKeepsOffersBacked(s, job, input);
        RequesterKeepsOffersPinned(s, job, input);
        RequesterKeepsSettles(s, job, input);
        RequesterKeepsServices(s, job, input);
        RequesterKeepsResults(s, job, input);
        InvParts(AfterRequester(s, job, input));
      case WorkerStep(tid, input) =>
        WorkerKeepsLedgerFacts(s, tid, input);
        WorkerKeepsWireFacts(s, tid, input);
        WorkerKeepsWorkFacts(s, tid, input);
        InvParts(AfterWorker(s, tid, input));
      case _ =>
        InvHasShape(s);
        OthersAreQuiet(s, ev);
        QuietKeepsLedgerFacts(s, Next(s, ev));
        QuietKeepsWireFacts(s, Next(s, ev));
        QuietKeepsWorkFacts(s, Next(s, ev));
        InvParts(Next(s, ev));
    }
  }

  lemma InvHasShape(s: State)
    requires Inv(s)
    ensures Shape(s)
  {
  }

  lemma InvParts(s: State)
    requires Shape(s)
    requires PhasesFit(s) && EscrowsAreDelegated(s) && OffersAreBacked(s) && OffersArePinned(s)
    requires SettlesAreEarned(s) && ServicesFit(s) && WorkWasOffered(s) && ResultsAreCredited(s)
    ensures Inv(s)
  {
    hide Shape, PhasesFit, EscrowsAreDelegated, OffersAreBacked, OffersArePinned, SettlesAreEarned, ServicesFit;
  }

  lemma InitHolds(honest: set<PeerId>)
    ensures Inv(Init(honest))
  {
    var s := Init(honest);
    forall j ensures JobKinds([OPENING], j) == [] {
      NewLedger(j);
    }
    hide IsDigest, JobKinds;
    assert Legal([OPENING]);
    assert forall j, q: PeerId :: RecordOf(WorkFor(j, q)) != OPENING;
  }

  /** The invariant holds in every state of every run. */
  lemma {:induction false} RunKeeps(honest: set<PeerId>, evs: seq<Event>)
    ensures Inv(Run(Init(honest), evs))
    ensures Run(Init(honest), evs).honest == honest
  {
    hide Inv;
    if evs == [] {
      InitHolds(honest);
    } else {
      RunKeeps(honest, evs[..|evs| - 1]);
      StepKeeps(Run(Init(honest), evs[..|evs| - 1]), evs[|evs| - 1]);
    }
  }
}
