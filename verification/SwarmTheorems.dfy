/** What the swarm guarantees in every state of every run. */
module SwarmTheorems {
  import opened Prelude
  import opened LedgerLog
  import opened LedgerLaws
  import opened Roles
  import opened Swarm
  import opened SwarmInvariant

  // ---- one job

  /** Every work record that names an honest requester is backed by an escrow
      already in that requester's ledger, in every run and whatever crashed. */
  lemma WriteAheadBacking(honest: set<PeerId>, evs: seq<Event>, worker: PeerId, requester: PeerId, job: JobId)
    requires worker in honest && requester in honest
    requires var s := Run(Init(honest), evs);
      worker in s.ledgers && RecordOf(WorkFor(job, requester)) in s.ledgers[worker]
    ensures var s := Run(Init(honest), evs);
      && worker != requester && requester in s.ledgers
      && Escrow in JobKinds(s.ledgers[requester], job)
      && job in s.delegations && s.delegations[job].requester == requester
  {
    hide JobKinds, Legal, RecordOf;
    RunKeeps(honest, evs);
    var s := Run(Init(honest), evs);
    assert Envelope(requester, Offer(job)) in s.wire;
    var d := s.delegations[job];
    assert PhaseFits(job, d.worker, d.phase, s.ledgers[requester]);
  }

  /** A call past its escrow holds exactly one escrow and no close until it
      returns; when it returns it has appended exactly one close, a settle iff it
      reports ok and a refund iff it does not; and no close is ever refused. */
  lemma ExactlyOneClose(honest: set<PeerId>, evs: seq<Event>, job: JobId)
    requires job in Run(Init(honest), evs).delegations
    ensures var s := Run(Init(honest), evs);
      var d := s.delegations[job];
      && d.phase != CloseRaised
      && d.requester in s.ledgers
      && var w := JobKinds(s.ledgers[d.requester], job);
      && (PastEscrow(d.phase) <==> Times(w, Escrow) == 1)
      && (d.phase.Done? <==> Times(w, Settle) + Times(w, Refund) == 1)
      && (d.phase == Done(StatusOk) <==> Times(w, Settle) == 1)
      && (d.phase.Done? && d.phase != Done(StatusOk) <==> Times(w, Refund) == 1)
  {
    hide JobKinds, Legal, RecordOf;
    RunKeeps(honest, evs);
    var s := Run(Init(honest), evs);
    var d := s.delegations[job];
    var log := s.ledgers[d.requester];
    assert PhaseFits(job, d.worker, d.phase, log);
    AtMostOnce(log, job);
  }

  /** An escrow is open exactly while its call is past the escrow and has not
      ended, or has ended in an exception that passes the refund by. */
  lemma OpenExactly(honest: set<PeerId>, evs: seq<Event>, p: PeerId, job: JobId)
    requires p in Run(Init(honest), evs).ledgers
    ensures var s := Run(Init(honest), evs);
      Open(s.ledgers[p], job)
      <==> (job in s.delegations && s.delegations[job].requester == p
            && PastEscrow(s.delegations[job].phase)
            && (!RFinished(s.delegations[job].phase) || s.delegations[job].phase == Escaped))
  {
    hide JobKinds, Legal, RecordOf;
    RunKeeps(honest, evs);
    var s := Run(Init(honest), evs);
    if job in s.delegations && s.delegations[job].requester == p {
      var d := s.delegations[job];
      assert PhaseFits(job, d.worker, d.phase, s.ledgers[p]);
    }
  }

  /** A live call closes its escrow by at most two of its own steps, from
      wherever it is, without any message. */
  lemma LiveEscrowCanClose(s: State, job: JobId)
    requires Inv(s) && job in s.delegations
    requires var d := s.delegations[job]; d.alive && PastEscrow(d.phase) && !RFinished(d.phase)
    ensures var s' := Next(Next(s, RequesterStep(job, Fail)), RequesterStep(job, Go));
      s'.delegations[job].phase.Done?
  {
    hide JobKinds, Legal, RecordOf, Request, PhaseFits, OfferSent;
    var d := s.delegations[job];
    assert PhaseFits(job, d.worker, d.phase, s.ledgers[d.requester]);
    CloseInTwo(job, d.worker, d.phase, s.ledgers[d.requester]);
  }

  lemma CloseInTwo(job: JobId, worker: PeerId, phase: RPhase, log: Log)
    requires PhaseFits(job, worker, phase, log) && PastEscrow(phase) && !RFinished(phase)
    ensures var r := Request(job, worker, phase, log, Fail);
      r.log == log && Request(job, worker, r.phase, log, Go).phase.Done?
  {
    hide JobKinds;
  }

  /** The call for `job` meets an exception that is no ProtocolError. */
  ghost predicate MeetsEscape(s: State, ev: Event, job: JobId) {
    Enabled(s, ev) && ev.RequesterStep? && ev.job == job && Escapes(s.delegations[job].phase, ev.input)
  }

  ghost predicate MetEscape(honest: set<PeerId>, evs: seq<Event>, job: JobId) {
    exists n :: 0 <= n < |evs| && MeetsEscape(Run(Init(honest), evs[..n]), evs[n], job)
  }

  lemma MetEscapeAfter(honest: set<PeerId>, evs: seq<Event>, job: JobId)
    requires evs != []
    ensures MetEscape(honest, evs, job)
            <==> MetEscape(honest, evs[..|evs| - 1], job)
                 || MeetsEscape(Run(Init(honest), evs[..|evs| - 1]), evs[|evs| - 1], job)
  {
    hide Run, MeetsEscape;
    var front := evs[..|evs| - 1];
    if MetEscape(honest, front, job) {
      var n :| 0 <= n < |front| && MeetsEscape(Run(Init(honest), front[..n]), front[n], job);
      assert front[..n] == evs[..n] && front[n] == evs[n];
    }
    if MetEscape(honest, evs, job) {
      var n :| 0 <= n < |evs| && MeetsEscape(Run(Init(honest), evs[..n]), evs[n], job);
      if n < |front| {
        assert front[..n] == evs[..n] && front[n] == evs[n];
      }
    }
  }

  lemma EscapeStep(s: State, ev: Event, job: JobId)
    requires job in Next(s, ev).delegations
    ensures Next(s, ev).delegations[job].phase == Escaped
            <==> (job in s.delegations && s.delegations[job].phase == Escaped) || MeetsEscape(s, ev, job)
  {
    hide Perform, IsDigest, CanOffer;
  }

  lemma {:induction false} EscapedMetOne(honest: set<PeerId>, evs: seq<Event>, job: JobId)
    ensures var s := Run(Init(honest), evs);
      job in s.delegations && s.delegations[job].phase == Escaped <==> MetEscape(honest, evs, job)
  {
    hide MetEscape, MeetsEscape, Next;
    if evs == [] {
      NothingMet(honest, job);
    } else {
      var front := evs[..|evs| - 1];
      EscapedMetOne(honest, front, job);
      MetEscapeAfter(honest, evs, job);
      CallsStay(Run(Init(honest), front), evs[|evs| - 1], job);
      if job in Run(Init(honest), evs).delegations {
        EscapeStep(Run(Init(honest), front), evs[|evs| - 1], job);
      }
    }
  }

  lemma NothingMet(honest: set<PeerId>, job: JobId)
    ensures !MetEscape(honest, [], job)
  {
  }

  lemma CallsStay(s: State, ev: Event, job: JobId)
    ensures job in s.delegations ==> job in Next(s, ev).delegations
    ensures MeetsEscape(s, ev, job) ==> job in s.delegations
  {
    hide Request, IsDigest;
  }

  /** What "always refunded" comes to: a call that got past its escrow and has
      ended, by returning or by raising, has left it open iff it met an exception
      that is no ProtocolError, and otherwise closed it exactly once. */
  lemma EndedCallLeavesOpen(honest: set<PeerId>, evs: seq<Event>, job: JobId)
    requires var s := Run(Init(honest), evs);
      job in s.delegations && PastEscrow(s.delegations[job].phase) && RFinished(s.delegations[job].phase)
    ensures var s := Run(Init(honest), evs);
      var d := s.delegations[job];
      && d.requester in s.ledgers
      && var w := JobKinds(s.ledgers[d.requester], job);
      && (Open(s.ledgers[d.requester], job) <==> MetEscape(honest, evs, job))
      && (MetEscape(honest, evs, job) || Times(w, Settle) + Times(w, Refund) == 1)
  {
    hide JobKinds, Open, Run, MetEscape, Times;
    ExactlyOneClose(honest, evs, job);
    EscapedMetOne(honest, evs, job);
    var d := Run(Init(honest), evs).delegations[job];
    OpenExactly(honest, evs, d.requester, job);
  }

  /** A call that was killed by a crash, or ended in such an exception, never
      moves again: nothing recovers its escrow. */
  predicate Stuck(d: Delegation) {
    PastEscrow(d.phase) && ((!d.alive && !RFinished(d.phase)) || d.phase == Escaped)
  }

  lemma {:induction false} StuckCallStays(s: State, evs: seq<Event>, job: JobId)
    requires job in s.delegations && Stuck(s.delegations[job])
    ensures var s' := Run(s, evs);
      job in s'.delegations && s'.delegations[job] == s.delegations[job]
  {
    hide Perform, IsDigest, CanOffer;
    if evs != [] {
      StuckCallStays(s, evs[..|evs| - 1], job);
    }
  }

  lemma {:induction false} RunConcat(s: State, evs: seq<Event>, more: seq<Event>)
    ensures Run(s, evs + more) == Run(Run(s, evs), more)
  {
    if more == [] {
      assert evs + more == evs;
    } else {
      var all := evs + more;
      assert all[..|all| - 1] == evs + more[..|more| - 1];
      RunConcat(s, evs, more[..|more| - 1]);
    }
  }

  /** So the credit is stranded: in every continuation the escrow is still open. */
  lemma StuckEscrowStaysOpen(honest: set<PeerId>, evs: seq<Event>, more: seq<Event>, job: JobId)
    requires job in Run(Init(honest), evs).delegations && Stuck(Run(Init(honest), evs).delegations[job])
    ensures var d := Run(Init(honest), evs).delegations[job];
      var later := Run(Init(honest), evs + more);
      d.requester in later.ledgers && Open(later.ledgers[d.requester], job)
  {
    hide Inv, Open;
    var s := Run(Init(honest), evs);
    RunConcat(Init(honest), evs, more);
    StuckCallStays(s, more, job);
    RunKeeps(honest, evs + more);
    RequesterHasLedger(Run(Init(honest), evs + more), job);
    OpenExactly(honest, evs + more, s.delegations[job].requester, job);
  }

  lemma RequesterHasLedger(s: State, job: JobId)
    requires Inv(s) && job in s.delegations
    ensures s.delegations[job].requester in s.ledgers
  {
  }

  /** Ledgers only grow, across every crash and restart. */
  lemma {:induction false} LedgersGrow(s: State, evs: seq<Event>, p: PeerId)
    requires Inv(s) && p in s.ledgers
    ensures var s' := Run(s, evs);
      Inv(s') && s'.honest == s.honest && p in s'.ledgers && s.ledgers[p] <= s'.ledgers[p]
  {
    hide JobKinds, Legal, RecordOf, Inv, Request, Serve, Enabled;
    if evs != [] {
      LedgersGrow(s, evs[..|evs| - 1], p);
      var t := Run(s, evs[..|evs| - 1]);
      StepKeeps(t, evs[|evs| - 1]);
      StepGrows(t, evs[|evs| - 1], p);
    }
  }

  lemma StepGrows(s: State, ev: Event, p: PeerId)
    requires Inv(s) && p in s.ledgers
    ensures p in Next(s, ev).ledgers && s.ledgers[p] <= Next(s, ev).ledgers[p]
  {
    hide JobKinds, Legal, RecordOf, Request, Serve, PhaseFits;
    if Enabled(s, ev) {
      match ev
      case RequesterStep(job, input) =>
        var d := s.delegations[job];
        assert PhaseFits(job, d.worker, d.phase, s.ledgers[d.requester]);
        RequestEffect(job, d.worker, d.phase, s.ledgers[d.requester], input);
      case WorkerStep(tid, input) =>
        var v := s.services[tid];
        ServeEffect(v.worker, v.phase, s.ledgers[v.worker], input);
      case _ =>
    }
  }

  // ---- authenticity

  /** The call behind a settle record. */
  lemma SettleHasCall(s: State, p: PeerId, job: JobId, w: Account)
    requires Inv(s) && p in s.ledgers && RecordOf(SettleTo(job, w)) in s.ledgers[p]
    ensures job in s.delegations
    ensures var d := s.delegations[job]; d.requester == p && d.worker == w && d.phase == Done(StatusOk)
  {
    hide Legal, Party;
    var log := s.ledgers[p];
    SettleMeansEscrow(log, job, w);
    hide JobKinds;
    var d := s.delegations[job];
    assert PhaseFits(job, d.worker, d.phase, log);
    RecordIsUnique(log, RecordOf(SettleTo(job, w)), RecordOf(SettleTo(job, d.worker)));
  }

  lemma SettleMeansEscrow(log: Log, job: JobId, w: Account)
    requires Legal(log) && RecordOf(SettleTo(job, w)) in log
    ensures Escrow in JobKinds(log, job) && Settle in JobKinds(log, job)
  {
    RecordHasKind(log, RecordOf(SettleTo(job, w)));
    JobLanguage(log, job);
    ClosesExclude(JobKinds(log, job));
  }

  /** If a settle to `w` for a job is on record, then `w` itself sealed a
      TASK_RESULT whose inner result names that job with status ok, and the job
      was offered only on connections pinned to `w`. */
  lemma Authenticity(honest: set<PeerId>, evs: seq<Event>, p: PeerId, job: JobId, w: Account)
    requires var s := Run(Init(honest), evs);
      p in s.ledgers && RecordOf(SettleTo(job, w)) in s.ledgers[p]
    ensures var s := Run(Init(honest), evs);
      && GoodResult(w, job) in s.wire
      && (job, Some(w)) in s.offers
      && (forall o :: o in s.offers && o.0 == job ==> o.1 == Some(w))
  {
    hide RecordOf, Legal, JobKinds;
    RunKeeps(honest, evs);
    SettleHasCall(Run(Init(honest), evs), p, job, w);
  }

  // ---- accounting

  /** Some job `p` worked on and credited to itself, without being paid for it. */
  ghost function UnpaidWork(s: State): set<(PeerId, JobId)> {
    set p, j | p in s.ledgers && j in JobsWith(s.ledgers[p], Work) && !Paid(s, p, j) :: (p, j)
  }

  predicate Paid(s: State, p: PeerId, j: JobId) {
    j in s.delegations && s.delegations[j].worker == p && s.delegations[j].phase == Done(StatusOk)
  }

  ghost function PaidJobs(s: State): set<(PeerId, JobId)> {
    set j | j in s.delegations && s.delegations[j].phase == Done(StatusOk) :: (s.delegations[j].worker, j)
  }

  ghost function CreditedJobs(s: State): set<(PeerId, JobId)> {
    set p, j | p in s.ledgers && j in JobsWith(s.ledgers[p], Work) :: (p, j)
  }

  /** A payment whose worker has no work record for it. */
  ghost function UncreditedPay(s: State): set<(PeerId, JobId)> {
    PaidJobs(s) - CreditedJobs(s)
  }

  function Holdings(log: Log): int {
    Balance(log, SELF) + Balance(log, ESCROW)
  }

  ghost predicate Enumerates(peers: seq<PeerId>, s: State) {
    Distinct(peers) && forall p :: p in peers <==> p in s.ledgers
  }

  ghost function HoldingsOf(s: State): PeerId -> int {
    p => if p in s.ledgers then Holdings(s.ledgers[p]) else 0
  }

  ghost function CountOf(s: State, k: Kind): PeerId -> int {
    p => if p in s.ledgers then Count(s.ledgers[p], k) else 0
  }

  /** The credits all peers hold, spendable or in escrow. */
  ghost function TotalHoldings(peers: seq<PeerId>, s: State): int {
    SumOf(peers, HoldingsOf(s))
  }

  /** Counterparty names are real in every ledger. */
  ghost predicate NamesAreReal(s: State) {
    && (forall p :: p in s.ledgers ==> PartiesAreUnreserved(s.ledgers[p]))
    && (forall j :: j in s.delegations ==> !Reserved(s.delegations[j].worker))
    && (forall e :: e in s.wire ==> !Reserved(e.sender))
  }

  lemma PartiesAfter(log: Log, op: Op)
    requires PartiesAreUnreserved(log) && (op.SettleTo? ==> !Reserved(op.worker)) && (op.WorkFor? ==> !Reserved(op.requester))
    ensures PartiesAreUnreserved(log + [RecordOf(op)])
  {
    hide Reserved;
  }

  lemma NamesStayReal(s: State, ev: Event)
    requires Inv(s) && NamesAreReal(s) && forall p :: p in s.honest ==> IsDigest(p)
    ensures NamesAreReal(Next(s, ev))
  {
    hide IsDigest, Reserved, JobKinds, Legal, Perform, RecordOf, PartiesAreUnreserved;
    forall p | IsDigest(p) ensures !Reserved(p) {
      DigestsAreUnreserved(p);
    }
    if Enabled(s, ev) {
      match ev
      case RequesterStep(job, input) =>
        var d := s.delegations[job];
        RequestNames(job, d.worker, d.phase, s.ledgers[d.requester], input);
      case WorkerStep(tid, input) =>
        var v := s.services[tid];
        assert ServiceFits(s.wire, v);
        ServeNames(v.worker, v.phase, s.ledgers[v.worker], input);
      case _ =>
    }
  }

  lemma RequestNames(job: JobId, worker: PeerId, phase: RPhase, log: Log, i: RInput)
    requires PartiesAreUnreserved(log) && !Reserved(worker)
    ensures PartiesAreUnreserved(Request(job, worker, phase, log, i).log)
  {
    hide Reserved, JobKinds, PartiesAreUnreserved, Refusal, RecordOf;
    PartiesAfter(log, EscrowFor(job, worker));
    PartiesAfter(log, SettleTo(job, worker));
    PartiesAfter(log, RefundOf(job));
  }

  lemma ServeNames(me: PeerId, phase: WPhase, log: Log, i: WInput)
    requires PartiesAreUnreserved(log) && (phase.Crediting? ==> !Reserved(phase.remote))
    ensures PartiesAreUnreserved(Serve(me, phase, log, i).log)
  {
    hide Reserved, JobKinds, PartiesAreUnreserved, Refusal, RecordOf;
    if phase.Crediting? {
      PartiesAfter(log, WorkFor(phase.job, phase.remote));
    }
  }

  lemma {:induction false} RunKeepsNames(honest: set<PeerId>, evs: seq<Event>)
    requires forall p :: p in honest ==> IsDigest(p)
    ensures NamesAreReal(Run(Init(honest), evs))
  {
    hide IsDigest, Inv, NamesAreReal;
    if evs == [] {
      InitNames(honest);
    } else {
      RunKeepsNames(honest, evs[..|evs| - 1]);
      RunKeeps(honest, evs[..|evs| - 1]);
      NamesStayReal(Run(Init(honest), evs[..|evs| - 1]), evs[|evs| - 1]);
    }
  }

  lemma InitNames(honest: set<PeerId>)
    ensures NamesAreReal(Init(honest))
  {
  }

  /** In every reachable state every peer is solvent: its spendable balance is
      not negative, its escrow account is the number of its open jobs, and those
      are bounded by what it earned and has not paid out. */
  lemma EveryPeerIsSolvent(honest: set<PeerId>, evs: seq<Event>, p: PeerId)
    requires p in honest && forall q :: q in honest ==> IsDigest(q)
    ensures var s := Run(Init(honest), evs);
      && p in s.ledgers
      && var log := s.ledgers[p];
      && Balance(log, SELF) >= 0
      && Balance(log, ESCROW) == |OpenJobs(log)|
      && |OpenJobs(log)| <= OPENING_BALANCE + Count(log, Work) - Count(log, Settle)
  {
    hide IsDigest, JobKinds, Legal, OpenJobs;
    RunKeeps(honest, evs);
    RunKeepsNames(honest, evs);
    Solvency(Run(Init(honest), evs).ledgers[p]);
  }

  lemma {:induction false} HoldingsAddUp(peers: seq<PeerId>, s: State)
    requires Inv(s) && NamesAreReal(s) && forall p :: p in peers ==> p in s.ledgers
    ensures TotalHoldings(peers, s)
            == OPENING_BALANCE * |peers| + SumOf(peers, CountOf(s, Work)) - SumOf(peers, CountOf(s, Settle))
  {
    hide Inv;
    if peers != [] {
      var front, last := peers[..|peers| - 1], peers[|peers| - 1];
      assert last in peers && forall p :: p in front ==> p in peers;
      HoldingsAddUp(front, s);
      PeerHoldings(s, last);
    }
  }

  lemma PeerHoldings(s: State, p: PeerId)
    requires Inv(s) && NamesAreReal(s) && p in s.ledgers
    ensures Holdings(s.ledgers[p]) == OPENING_BALANCE + Count(s.ledgers[p], Work) - Count(s.ledgers[p], Settle)
  {
    hide Legal, Balance, Count;
    assert !Reserved("");
    AccountBalances(s.ledgers[p], "");
  }

  // ---- counting credited and paid jobs over all peers

  ghost function CreditedAt(s: State): PeerId -> set<(PeerId, JobId)> {
    p => if p in s.ledgers then set j | j in JobsWith(s.ledgers[p], Work) :: (p, j) else {}
  }

  ghost function PaidBy(s: State): PeerId -> set<(PeerId, JobId)> {
    p => set j | j in s.delegations && s.delegations[j].requester == p && s.delegations[j].phase == Done(StatusOk)
           :: (s.delegations[j].worker, j)
  }

  lemma CreditedSize(s: State, p: PeerId)
    requires Inv(s) && p in s.ledgers
    ensures |CreditedAt(s)(p)| == CountOf(s, Work)(p)
  {
    hide JobsWith, Count, JobKinds, Legal;
    var key := (q: (PeerId, JobId)) => q.1;
    forall j | j in JobsWith(s.ledgers[p], Work) ensures exists q :: q in CreditedAt(s)(p) && key(q) == j {
      assert (p, j) in CreditedAt(s)(p) && key((p, j)) == j;
    }
    KeyedSize(JobsWith(s.ledgers[p], Work), CreditedAt(s)(p), key);
    CountIsJobs(s.ledgers[p], Work);
  }

  ghost function JobsPaidBy(s: State, p: PeerId): set<JobId> {
    set j | j in s.delegations && s.delegations[j].requester == p && s.delegations[j].phase == Done(StatusOk)
  }

  lemma PaidSize(s: State, p: PeerId)
    requires Inv(s) && p in s.ledgers
    ensures |PaidBy(s)(p)| == CountOf(s, Settle)(p)
  {
    hide JobKinds, Inv, Count, JobsWith;
    forall j ensures j in JobsWith(s.ledgers[p], Settle) <==> j in JobsPaidBy(s, p) {
      SettledMeansPaid(s, p, j);
    }
    assert JobsPaidBy(s, p) == JobsWith(s.ledgers[p], Settle);
    LedgerIsLegal(s, p);
    CountIsJobs(s.ledgers[p], Settle);
    var key := (q: (PeerId, JobId)) => q.1;
    forall j | j in JobsPaidBy(s, p) ensures exists q :: q in PaidBy(s)(p) && key(q) == j {
      var q := (s.delegations[j].worker, j);
      assert q in PaidBy(s)(p) && key(q) == j;
    }
    KeyedSize(JobsPaidBy(s, p), PaidBy(s)(p), key);
  }

  lemma LedgerIsLegal(s: State, p: PeerId)
    requires Inv(s) && p in s.ledgers
    ensures Legal(s.ledgers[p])
  {
  }

  lemma SettledMeansPaid(s: State, p: PeerId, j: JobId)
    requires Inv(s) && p in s.ledgers
    ensures j in JobsWith(s.ledgers[p], Settle)
            <==> j in s.delegations && s.delegations[j].requester == p && s.delegations[j].phase == Done(StatusOk)
  {
    hide JobKinds, Legal, JobsWith, RecordOf;
    LedgerIsLegal(s, p);
    SettleKinds(s.ledgers[p], j);
    hide OffersAreBacked, OffersArePinned, SettlesAreEarned, ServicesFit, WorkWasOffered, ResultsAreCredited;
    if j in s.delegations && s.delegations[j].requester == p {
      var d := s.delegations[j];
      assert PhaseFits(j, d.worker, d.phase, s.ledgers[p]);
    }
  }

  lemma SettleKinds(log: Log, j: JobId)
    requires Legal(log)
    ensures j in JobsWith(log, Settle) <==> Settle in JobKinds(log, j)
    ensures Settle in JobKinds(log, j) ==> Escrow in JobKinds(log, j)
  {
    InOpenJobs(log, j);
    JobLanguage(log, j);
    ClosesExclude(JobKinds(log, j));
  }

  lemma CountsOverPeers(peers: seq<PeerId>, s: State)
    requires Inv(s) && Enumerates(peers, s)
    ensures SumOf(peers, CountOf(s, Work)) == |CreditedJobs(s)|
    ensures SumOf(peers, CountOf(s, Settle)) == |PaidJobs(s)|
  {
    hide Inv, CountOf, CreditedAt, PaidBy, CreditedJobs, PaidJobs;
    forall p | p in peers ensures |CreditedAt(s)(p)| == CountOf(s, Work)(p) && |PaidBy(s)(p)| == CountOf(s, Settle)(p) {
      CreditedSize(s, p);
      PaidSize(s, p);
    }
    UnionIsCredited(peers, s);
    UnionIsPaid(peers, s);
    DisjointPairs(peers, s);
    DisjointUnionSize(peers, CreditedAt(s));
    DisjointUnionSize(peers, PaidBy(s));
    SumOfEqual(peers, SizesOf(CreditedAt(s)), CountOf(s, Work));
    SumOfEqual(peers, SizesOf(PaidBy(s)), CountOf(s, Settle));
  }

  lemma DisjointPairs(peers: seq<PeerId>, s: State)
    requires Distinct(peers)
    ensures forall i, j :: 0 <= i < j < |peers| ==> CreditedAt(s)(peers[i]) !! CreditedAt(s)(peers[j])
    ensures forall i, j :: 0 <= i < j < |peers| ==> PaidBy(s)(peers[i]) !! PaidBy(s)(peers[j])
  {
    hide JobsWith;
  }

  lemma UnionIsCredited(peers: seq<PeerId>, s: State)
    requires Enumerates(peers, s)
    ensures UnionOf(peers, CreditedAt(s)) == CreditedJobs(s)
  {
    hide JobsWith;
    forall x ensures x in UnionOf(peers, CreditedAt(s)) <==> x in CreditedJobs(s) {
      InUnionOf(peers, CreditedAt(s), x);
      if x in CreditedJobs(s) {
        var i :| 0 <= i < |peers| && peers[i] == x.0;
        assert x in CreditedAt(s)(peers[i]);
      }
    }
  }

  lemma UnionIsPaid(peers: seq<PeerId>, s: State)
    requires Inv(s) && Enumerates(peers, s)
    ensures UnionOf(peers, PaidBy(s)) == PaidJobs(s)
  {
    hide JobsWith, Legal, JobKinds;
    forall x ensures x in UnionOf(peers, PaidBy(s)) <==> x in PaidJobs(s) {
      InUnionOf(peers, PaidBy(s), x);
      if x in PaidJobs(s) {
        var i :| 0 <= i < |peers| && peers[i] == s.delegations[x.1].requester;
        assert x in PaidBy(s)(peers[i]);
      }
    }
  }

  /** The conservation law of the swarm: in every reachable state, whatever was
      lost, replayed or crashed, the credits held are ten per peer, plus one for
      each job credited by a worker that was not paid for it, minus one for each
      payment whose worker has not credited it. */
  lemma Conservation(honest: set<PeerId>, evs: seq<Event>, peers: seq<PeerId>)
    requires forall p :: p in honest ==> IsDigest(p)
    requires Enumerates(peers, Run(Init(honest), evs))
    ensures var s := Run(Init(honest), evs);
      TotalHoldings(peers, s) == OPENING_BALANCE * |peers| + |UnpaidWork(s)| - |UncreditedPay(s)|
  {
    hide IsDigest, Inv, NamesAreReal, CreditedJobs, PaidJobs, UnpaidWork, HoldingsOf;
    var s := Run(Init(honest), evs);
    RunKeeps(honest, evs);
    RunKeepsNames(honest, evs);
    HoldingsAddUp(peers, s);
    CountsOverPeers(peers, s);
    UnpaidIsDifference(s);
    DifferenceSizes(CreditedJobs(s), PaidJobs(s));
  }

  lemma UnpaidIsDifference(s: State)
    ensures UnpaidWork(s) == CreditedJobs(s) - PaidJobs(s)
  {
    hide JobsWith;
  }

  /** A payment to an honest worker is matched by its work record for the job,
      unless that worker is, or was killed, between sending and crediting. */
  lemma PaymentsAreMatched(honest: set<PeerId>, evs: seq<Event>, w: PeerId, job: JobId)
    requires w in honest && (w, job) in UncreditedPay(Run(Init(honest), evs))
    ensures SomeInWindow(Run(Init(honest), evs), w, job)
  {
    hide JobKinds, Legal, RecordOf, PhaseFits;
    var s := Run(Init(honest), evs);
    RunKeeps(honest, evs);
    InOpenJobs(s.ledgers[w], job);
    assert GoodResult(w, job) in s.wire;
  }

  // ---- two honest peers

  /** Every message on the wire was sealed by an honest peer. */
  predicate Closed(s: State) {
    forall e :: e in s.wire ==> e.sender in s.honest
  }

  predicate NobodyInWindow(s: State) {
    forall t :: t in s.services ==> !s.services[t].phase.Crediting?
  }

  /** In a closed swarm the work record of a job names the requester that delegated it. */
  lemma WorkRecordOf(s: State, w: PeerId, job: JobId)
    requires Inv(s) && Closed(s) && w in s.ledgers && job in JobsWith(s.ledgers[w], Work)
    ensures job in s.delegations && PastEscrow(s.delegations[job].phase) && s.delegations[job].requester != w
    ensures RecordOf(WorkFor(job, s.delegations[job].requester)) in s.ledgers[w]
  {
    var log := s.ledgers[w];
    InOpenJobs(log, job);
    KindHasRecord(log, Work, job);
    var r :| r in log && r.kind == Work && r.job == Some(job);
    RecordShape(log, r);
    var op :| r == RecordOf(op);
    hide JobKinds, Legal, JobsWith, PhaseFits;
    assert r == RecordOf(WorkFor(job, op.requester));
    assert Envelope(op.requester, Offer(job)) in s.wire;
  }

  /** Every call was refused its escrow or has closed it. */
  predicate AllClosed(s: State) {
    forall j :: j in s.delegations ==> s.delegations[j].phase == Refused || s.delegations[j].phase.Done?
  }

  /** By the ledgers alone: `w` booked work on `j` for `q`, and the ledger of `q`
      shows the credit for `j` back with itself, paid to another worker, or still
      in escrow. */
  ghost predicate CreditKept(s: State, w: PeerId, j: JobId, q: PeerId) {
    && w in s.ledgers && q in s.ledgers
    && RecordOf(WorkFor(j, q)) in s.ledgers[w]
    && (Refund in JobKinds(s.ledgers[q], j) || PaidElsewhere(s.ledgers[q], w, j) || Open(s.ledgers[q], j))
  }

  ghost predicate PaidElsewhere(log: Log, w: PeerId, j: JobId) {
    exists v: PeerId :: v != w && RecordOf(SettleTo(j, v)) in log
  }

  /** In a closed swarm, unpaid work is what the two ledgers show as such. */
  lemma UnpaidInLedgerTerms(honest: set<PeerId>, evs: seq<Event>, w: PeerId, job: JobId)
    requires Closed(Run(Init(honest), evs))
    ensures var s := Run(Init(honest), evs);
      (w, job) in UnpaidWork(s) <==> exists q :: CreditKept(s, w, job, q)
  {
    var s := Run(Init(honest), evs);
    RunKeeps(honest, evs);
    hide Inv, Closed, JobKinds, JobsWith, CreditKept, Open, Legal;
    if (w, job) in UnpaidWork(s) {
      WorkRecordOf(s, w, job);
      UnpaidIsKept(s, w, job);
    }
    if q :| CreditKept(s, w, job, q) {
      KeptIsUnpaid(s, w, job, q);
    }
  }

  lemma UnpaidIsKept(s: State, w: PeerId, job: JobId)
    requires Inv(s) && job in s.delegations && !Paid(s, w, job) && w in s.ledgers
    requires var d := s.delegations[job]; PastEscrow(d.phase) && RecordOf(WorkFor(job, d.requester)) in s.ledgers[w]
    ensures CreditKept(s, w, job, s.delegations[job].requester)
  {
    hide JobKinds, Legal, RecordOf;
    var d := s.delegations[job];
    assert PhaseFits(job, d.worker, d.phase, s.ledgers[d.requester]);
    if d.phase == Done(StatusOk) {
      assert d.worker != w;
    }
  }

  lemma KeptIsUnpaid(s: State, w: PeerId, job: JobId, q: PeerId)
    requires Inv(s) && Closed(s) && CreditKept(s, w, job, q)
    ensures (w, job) in UnpaidWork(s)
  {
    WorkIsListed(s, w, job, q);
    LedgerIsLegal(s, q);
    if Paid(s, w, job) {
      PaidIsSettled(s, w, job, q);
      hide Inv, Closed, Legal, JobKinds, RecordOf;
      if v: PeerId :| v != w && RecordOf(SettleTo(job, v)) in s.ledgers[q] {
        SettleHasCall(s, q, job, v);
      }
    }
  }

  /** A paid job is settled, not refunded and not open, at the requester its work record names. */
  lemma PaidIsSettled(s: State, w: PeerId, job: JobId, q: PeerId)
    requires Inv(s) && Closed(s) && Paid(s, w, job) && w in s.ledgers && q in s.ledgers
    requires RecordOf(WorkFor(job, q)) in s.ledgers[w]
    ensures var kinds := JobKinds(s.ledgers[q], job); Settle in kinds && Refund !in kinds && !Open(s.ledgers[q], job)
  {
    hide JobKinds, Legal, RecordOf;
    var d := s.delegations[job];
    assert Envelope(q, Offer(job)) in s.wire;
    assert d.requester == q;
    assert PhaseFits(job, d.worker, d.phase, s.ledgers[q]);
  }

  lemma WorkIsListed(s: State, w: PeerId, job: JobId, q: PeerId)
    requires w in s.ledgers && RecordOf(WorkFor(job, q)) in s.ledgers[w]
    ensures job in JobsWith(s.ledgers[w], Work)
  {
    RecordHasKind(s.ledgers[w], RecordOf(WorkFor(job, q)));
    InOpenJobs(s.ledgers[w], job);
  }

  /** In a closed swarm with nobody between sending and crediting, every payment
      has been credited, so credits are never short. */
  lemma NothingUncredited(honest: set<PeerId>, evs: seq<Event>)
    requires Closed(Run(Init(honest), evs)) && NobodyInWindow(Run(Init(honest), evs))
    ensures UncreditedPay(Run(Init(honest), evs)) == {}
  {
    hide JobKinds, Legal, JobsWith;
    var s := Run(Init(honest), evs);
    RunKeeps(honest, evs);
    forall x ensures x !in UncreditedPay(s) {
      if x in UncreditedPay(s) {
        assert GoodResult(x.0, x.1) in s.wire;
        PaymentsAreMatched(honest, evs, x.0, x.1);
      }
    }
  }

  /** `w` booked `j` for a requester that refunded the credit or paid it to another worker. */
  ghost predicate RefundedOrElsewhere(s: State, w: PeerId, j: JobId) {
    exists q :: q in s.ledgers && w in s.ledgers && RecordOf(WorkFor(j, q)) in s.ledgers[w]
      && (Refund in JobKinds(s.ledgers[q], j) || PaidElsewhere(s.ledgers[q], w, j))
  }

  /** The excess credits, by the ledgers alone. */
  ghost function Excess(s: State): set<(PeerId, JobId)> {
    set w, j | w in s.ledgers && j in JobsWith(s.ledgers[w], Work) && RefundedOrElsewhere(s, w, j) :: (w, j)
  }

  lemma NoEscrowOpen(s: State, q: PeerId, j: JobId)
    requires Inv(s) && AllClosed(s) && q in s.ledgers
    ensures !Open(s.ledgers[q], j)
  {
    hide JobKinds, Legal, RecordOf;
    if Escrow in JobKinds(s.ledgers[q], j) {
      var d := s.delegations[j];
      assert PhaseFits(j, d.worker, d.phase, s.ledgers[q]);
    }
  }

  /** At quiescence among honest peers the total exceeds ten per peer by exactly
      the number of jobs that a worker booked and whose requester refunded them or
      paid another worker for them: so it is exact iff there is no such job. */
  lemma QuiescentTotal(honest: set<PeerId>, evs: seq<Event>, peers: seq<PeerId>)
    requires forall p :: p in honest ==> IsDigest(p)
    requires var s := Run(Init(honest), evs);
      Enumerates(peers, s) && Closed(s) && NobodyInWindow(s) && AllClosed(s)
    ensures var s := Run(Init(honest), evs);
      && TotalHoldings(peers, s) == OPENING_BALANCE * |peers| + |Excess(s)|
      && (TotalHoldings(peers, s) == OPENING_BALANCE * |peers| <==> Excess(s) == {})
  {
    hide IsDigest, TotalHoldings, UnpaidWork, JobsWith, UncreditedPay, Closed, NobodyInWindow, AllClosed, Excess, Inv;
    var s := Run(Init(honest), evs);
    Conservation(honest, evs, peers);
    NothingUncredited(honest, evs);
    ExcessIsUnpaid(honest, evs);
  }

  lemma ExcessIsUnpaid(honest: set<PeerId>, evs: seq<Event>)
    requires Closed(Run(Init(honest), evs)) && AllClosed(Run(Init(honest), evs))
    ensures Excess(Run(Init(honest), evs)) == UnpaidWork(Run(Init(honest), evs))
  {
    hide Inv, Closed, AllClosed, JobsWith, Run, CreditKept, RefundedOrElsewhere;
    var s := Run(Init(honest), evs);
    RunKeeps(honest, evs);
    forall w, j | w in s.ledgers ensures RefundedOrElsewhere(s, w, j) <==> (w, j) in UnpaidWork(s) {
      UnpaidInLedgerTerms(honest, evs, w, j);
      KeptWhenClosed(s, w, j);
    }
  }

  lemma KeptWhenClosed(s: State, w: PeerId, j: JobId)
    requires Inv(s) && AllClosed(s)
    ensures RefundedOrElsewhere(s, w, j) <==> exists q :: CreditKept(s, w, j, q)
  {
    hide Inv, AllClosed, Open, JobKinds, RecordOf, PaidElsewhere;
    if q :| CreditKept(s, w, j, q) {
      NoEscrowOpen(s, q, j);
    }
    if RefundedOrElsewhere(s, w, j) {
      var q :| q in s.ledgers && w in s.ledgers && RecordOf(WorkFor(j, q)) in s.ledgers[w]
               && (Refund in JobKinds(s.ledgers[q], j) || PaidElsewhere(s.ledgers[q], w, j));
      assert CreditKept(s, w, j, q);
    }
  }

  /** In a closed swarm with nobody in the window, whatever `a` settled to `b`
      is among what `b` recorded as work for `a`. */
  lemma SettledWasWorked(s: State, a: PeerId, b: PeerId)
    requires Inv(s) && Closed(s) && NobodyInWindow(s) && a in s.ledgers && b in s.ledgers
    ensures PartyJobs(s.ledgers[a], Settle, b) <= PartyJobs(s.ledgers[b], Work, a)
  {
    hide Inv, Closed, NobodyInWindow, JobKinds;
    forall j | j in PartyJobs(s.ledgers[a], Settle, b) ensures j in PartyJobs(s.ledgers[b], Work, a) {
      SettledJobWasWorked(s, a, b, j);
    }
  }

  lemma SettledJobWasWorked(s: State, a: PeerId, b: PeerId, j: JobId)
    requires Inv(s) && Closed(s) && NobodyInWindow(s) && a in s.ledgers && b in s.ledgers
    requires j in PartyJobs(s.ledgers[a], Settle, b)
    ensures RecordOf(WorkFor(j, a)) in s.ledgers[b]
  {
    hide Inv, Closed, NobodyInWindow, RecordOf, PartyJobs, JobsWith;
    LedgerIsLegal(s, a);
    SettledTo(s.ledgers[a], b, j);
    SettleHasCall(s, a, j, b);
    PaidWasCredited(s, b, j);
    WorkRecordOf(s, b, j);
  }

  /** The settle behind an entry of the party jobs. */
  lemma SettledTo(log: Log, b: PeerId, j: JobId)
    requires Legal(log) && j in PartyJobs(log, Settle, b)
    ensures RecordOf(SettleTo(j, b)) in log
  {
    hide Legal, JobKinds;
    var r :| r in log && r.kind == Settle && Party(r) == Some(b) && r.job == Some(j);
    RecordShape(log, r);
  }

  lemma PaidWasCredited(s: State, b: PeerId, j: JobId)
    requires Inv(s) && NobodyInWindow(s) && b in s.ledgers
    requires j in s.delegations && s.delegations[j].worker == b && s.delegations[j].phase == Done(StatusOk)
    ensures j in JobsWith(s.ledgers[b], Work)
  {
    hide JobKinds, Legal, PhaseFits, JobsWith, RecordOf;
    assert GoodResult(b, j) in s.wire;
    InOpenJobs(s.ledgers[b], j);
  }

  /** The bilateral mirror: in a closed swarm with nobody in the window, what two
      peers hold on each other sums to at most zero, and to zero exactly if every
      job credited between them was also settled. */
  lemma BilateralMirror(honest: set<PeerId>, evs: seq<Event>, a: PeerId, b: PeerId)
    requires a in honest && b in honest && forall p :: p in honest ==> IsDigest(p)
    requires Closed(Run(Init(honest), evs)) && NobodyInWindow(Run(Init(honest), evs))
    ensures var s := Run(Init(honest), evs);
      && a in s.ledgers && b in s.ledgers
      && Balance(s.ledgers[a], b) + Balance(s.ledgers[b], a) <= 0
      && (Balance(s.ledgers[a], b) + Balance(s.ledgers[b], a) == 0
          <==> PartyJobs(s.ledgers[b], Work, a) == PartyJobs(s.ledgers[a], Settle, b)
               && PartyJobs(s.ledgers[a], Work, b) == PartyJobs(s.ledgers[b], Settle, a))
  {
    hide IsDigest, PartyJobs, Closed, NobodyInWindow, Balance, JobKinds, CountWith, PartiesAreUnreserved;
    var s := Run(Init(honest), evs);
    RunKeeps(honest, evs);
    RunKeepsNames(honest, evs);
    MirrorTerm(s, a, b);
    MirrorTerm(s, b, a);
    DigestsAreUnreserved(a);
    DigestsAreUnreserved(b);
    AccountBalances(s.ledgers[a], b);
    AccountBalances(s.ledgers[b], a);
  }

  lemma MirrorTerm(s: State, a: PeerId, b: PeerId)
    requires Inv(s) && Closed(s) && NobodyInWindow(s) && a in s.ledgers && b in s.ledgers
    ensures var settled, worked := CountWith(s.ledgers[a], Settle, b), CountWith(s.ledgers[b], Work, a);
      settled <= worked
      && (settled == worked <==> PartyJobs(s.ledgers[b], Work, a) == PartyJobs(s.ledgers[a], Settle, b))
  {
    hide PartyJobs, Inv, CountWith, Closed, NobodyInWindow;
    LedgerIsLegal(s, a);
    LedgerIsLegal(s, b);
    PartyCountIsJobs(s.ledgers[a], Settle, b);
    PartyCountIsJobs(s.ledgers[b], Work, a);
    SettledWasWorked(s, a, b);
    SubsetSize(PartyJobs(s.ledgers[a], Settle, b), PartyJobs(s.ledgers[b], Work, a));
  }
}
