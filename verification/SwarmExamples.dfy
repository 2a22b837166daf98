/** Runs that show what the program does not promise: an escrow stranded by a
    crash, one stranded by an exception, and a credit held twice. */
module SwarmExamples {
  import opened Prelude
  import opened LedgerLog
  import opened LedgerLaws
  import opened Roles
  import opened Swarm
  import opened SwarmInvariant
  import opened SwarmTheorems

  /** Two peers, one delegation from `a` to `b`, one connection at `b`. */
  predicate At(s: State, a: PeerId, b: PeerId, j: JobId, la: Log, lb: Log, r: RPhase, w: WPhase, wire: set<Envelope>) {
    && s.honest == {a, b} && s.up == {a, b}
    && s.ledgers == map[a := la, b := lb]
    && s.delegations == map[j := Delegation(a, b, r, true)]
    && s.services == map[0 := Service(b, w, true)]
    && s.wire == wire
  }

  /** A run so far and the state it reached. */
  datatype Story = Story(evs: seq<Event>, s: State)

  ghost predicate Told(st: Story, honest: set<PeerId>) {
    st.s == Run(Init(honest), st.evs)
  }

  function Tell(st: Story, ev: Event): Story {
    Story(st.evs + [ev], Next(st.s, ev))
  }

  lemma TellRuns(st: Story, ev: Event, honest: set<PeerId>)
    requires Told(st, honest)
    ensures Told(Tell(st, ev), honest)
  {
    assert (st.evs + [ev])[..|st.evs|] == st.evs;
  }

  lemma RequesterMoves(st: Story, a: PeerId, b: PeerId, j: JobId, la: Log, lb: Log,
                       r: RPhase, w: WPhase, wire: set<Envelope>, i: RInput, wire': set<Envelope>) returns (st': Story)
    requires Told(st, {a, b}) && a != b && At(st.s, a, b, j, la, lb, r, w, wire)
    requires i.Recv? ==> Envelope(i.sender, i.msg) in wire
    requires wire' == wire + Sent(a, Request(j, b, r, la, i).out)
    ensures Told(st', {a, b})
    ensures var q := Request(j, b, r, la, i);
      At(st'.s, a, b, j, q.log, lb, q.phase, w, wire')
  {
    hide Request;
    TellRuns(st, RequesterStep(j, i), {a, b});
    st' := Tell(st, RequesterStep(j, i));
  }

  lemma WorkerMoves(st: Story, a: PeerId, b: PeerId, j: JobId, la: Log, lb: Log,
                    r: RPhase, w: WPhase, wire: set<Envelope>, i: WInput, wire': set<Envelope>) returns (st': Story)
    requires Told(st, {a, b}) && a != b && At(st.s, a, b, j, la, lb, r, w, wire)
    requires i.WRecv? ==> Envelope(i.sender, i.msg) in wire
    requires wire' == wire + Sent(b, Serve(b, w, lb, i).out)
    ensures Told(st', {a, b})
    ensures var q := Serve(b, w, lb, i);
      At(st'.s, a, b, j, la, q.log, r, q.phase, wire')
  {
    hide Serve;
    TellRuns(st, WorkerStep(0, i), {a, b});
    st' := Tell(st, WorkerStep(0, i));
  }

  lemma Opening(a: PeerId, b: PeerId, j: JobId) returns (st: Story)
    requires a != b && IsDigest(b)
    ensures Told(st, {a, b}) && At(st.s, a, b, j, [OPENING], [OPENING], Checked, AwaitHello, {})
  {
    hide IsDigest;
    NewLedger(j);
    st := Story([], Init({a, b}));
    TellRuns(st, Begin(a, j, b), {a, b});
    st := Tell(st, Begin(a, j, b));
    TellRuns(st, Connect(b, 0), {a, b});
    st := Tell(st, Connect(b, 0));
  }

  /** A call right after its escrow. */
  lemma Escrowing(a: PeerId, b: PeerId, j: JobId) returns (st: Story)
    requires IsDigest(b)
    ensures Told(st, {a}) && st.s.up == {a} && a in st.s.ledgers
    ensures st.s.delegations == map[j := Delegation(a, b, Escrowed, true)]
  {
    hide IsDigest, RecordOf, JobKinds;
    NewLedger(j);
    PerformEffect([OPENING], EscrowFor(j, b));
    st := Story([], Init({a}));
    TellRuns(st, Begin(a, j, b), {a});
    st := Tell(st, Begin(a, j, b));
    TellRuns(st, RequesterStep(j, Go), {a});
    st := Tell(st, RequesterStep(j, Go));
  }

  /** `p` still holds the credit for `j` in escrow. */
  predicate HeldAt(s: State, p: PeerId, j: JobId) {
    p in s.ledgers && Open(s.ledgers[p], j)
  }

  /** The requester crashes right after its escrow: the credit is never seen again. */
  lemma CrashAfterEscrow(a: PeerId, b: PeerId, j: JobId) returns (evs: seq<Event>)
    requires IsDigest(b)
    ensures j in Run(Init({a}), evs).delegations && !Run(Init({a}), evs).delegations[j].alive
    ensures forall more :: HeldAt(Run(Init({a}), evs + more), a, j)
  {
    hide IsDigest, Open, Run;
    var st := Escrowing(a, b, j);
    TellRuns(st, Crash(a), {a});
    st := Tell(st, Crash(a));
    evs := st.evs;
    ToldIs(st, {a});
    forall more ensures HeldAt(Run(Init({a}), evs + more), a, j) {
      StuckEscrowStaysOpen({a}, evs, more, j);
    }
  }

  /** An exception that is no ProtocolError does the same to a peer that is up. */
  lemma ExceptionAfterEscrow(a: PeerId, b: PeerId, j: JobId) returns (evs: seq<Event>)
    requires IsDigest(b)
    ensures a in Run(Init({a}), evs).up && j in Run(Init({a}), evs).delegations
    ensures forall more :: HeldAt(Run(Init({a}), evs + more), a, j)
  {
    hide IsDigest, Open, Run;
    var st := Escrowing(a, b, j);
    TellRuns(st, RequesterStep(j, Raise), {a});
    st := Tell(st, RequesterStep(j, Raise));
    evs := st.evs;
    ToldIs(st, {a});
    forall more ensures HeldAt(Run(Init({a}), evs + more), a, j) {
      StuckEscrowStaysOpen({a}, evs, more, j);
    }
  }

  /** The ledgers after the lost result. */
  function Held(j: JobId, b: PeerId): Log { [OPENING, RecordOf(EscrowFor(j, b))] }
  function Refunded(j: JobId, b: PeerId): Log { Held(j, b) + [RecordOf(RefundOf(j))] }
  function Earned(j: JobId, a: PeerId): Log { [OPENING, RecordOf(WorkFor(j, a))] }

  lemma LedgerSteps(a: PeerId, b: PeerId, j: JobId)
    ensures Perform([OPENING], EscrowFor(j, b)) == Success(Held(j, b))
    ensures Perform(Held(j, b), RefundOf(j)) == Success(Refunded(j, b))
    ensures Perform([OPENING], WorkFor(j, a)) == Success(Earned(j, a))
  {
    NewLedger(j);
    assert [OPENING] + [RecordOf(EscrowFor(j, b))] == Held(j, b);
    assert [OPENING] + [RecordOf(WorkFor(j, a))] == Earned(j, a);
    PerformEffect([OPENING], EscrowFor(j, b));
  }

  /** The offer has reached the worker. */
  lemma Offering(a: PeerId, b: PeerId, j: JobId) returns (st: Story)
    requires a != b && IsDigest(a) && IsDigest(b)
    ensures Told(st, {a, b})
    ensures At(st.s, a, b, j, Held(j, b), [OPENING], Offered(b), Deciding(a, j),
               {Envelope(a, Handshake), Envelope(b, Handshake), Envelope(a, Offer(j))})
  {
    hide IsDigest, JobKinds, Balance, RecordOf, Perform, Told, At, Held, Refunded, Earned;
    LedgerSteps(a, b, j);
    var o, h := [OPENING], Held(j, b);
    var ha, hb, of := Envelope(a, Handshake), Envelope(b, Handshake), Envelope(a, Offer(j));
    var w1, w2, w3 := {ha}, {ha, hb}, {ha, hb, of};
    st := Opening(a, b, j);
    st := RequesterMoves(st, a, b, j, o, o, Checked, AwaitHello, {}, Go, {});
    st := RequesterMoves(st, a, b, j, h, o, Escrowed, AwaitHello, {}, Go, w1);
    st := WorkerMoves(st, a, b, j, h, o, HelloSent, AwaitHello, w1, WRecv(a, Handshake), w1);
    st := WorkerMoves(st, a, b, j, h, o, HelloSent, Greeting(a), w1, WGo(true), w2);
    st := RequesterMoves(st, a, b, j, h, o, HelloSent, AwaitOffer(a), w2, Recv(b, Handshake), w2);
    st := RequesterMoves(st, a, b, j, h, o, Pinned(b), AwaitOffer(a), w2, Go, w3);
    st := WorkerMoves(st, a, b, j, h, o, Offered(b), AwaitOffer(a), w3, WRecv(a, Offer(j)), w3);
  }

  /** The credit exists twice: the requester has its credit back and the worker
      keeps the one it booked, so two peers hold twenty-one credits. */
  lemma LostResult(a: PeerId, b: PeerId, j: JobId) returns (evs: seq<Event>)
    requires a != b && IsDigest(a) && IsDigest(b)
    ensures var s := Run(Init({a, b}), evs);
      && Closed(s) && NobodyInWindow(s)
      && j in s.delegations && s.delegations[j].phase == Done(StatusFailed)
      && AllClosed(s) && Excess(s) == {(b, j)}
      && TotalHoldings([a, b], s) == 21
  {
    hide IsDigest, JobKinds, Balance, RecordOf, Perform, Told, At, Held, Refunded, Earned;
    LedgerSteps(a, b, j);
    var o, h := [OPENING], Held(j, b);
    var ha, hb := Envelope(a, Handshake), Envelope(b, Handshake);
    var of, ac, re := Envelope(a, Offer(j)), Envelope(b, Accept(j)), GoodResult(b, j);
    var w3, w4, w5 := {ha, hb, of}, {ha, hb, of, ac}, {ha, hb, of, ac, re};
    var st := Offering(a, b, j);
    st := WorkerMoves(st, a, b, j, h, o, Offered(b), Deciding(a, j), w3, WGo(true), w4);
    st := RequesterMoves(st, a, b, j, h, o, Offered(b), Executing(a, j), w4, Recv(b, Accept(j)), w4);
    st := WorkerMoves(st, a, b, j, h, o, Accepted(b), Executing(a, j), w4, WGo(true), w4);
    st := WorkerMoves(st, a, b, j, h, o, Accepted(b), Executed(a, j, true), w4, WGo(true), w5);
    st := WorkerMoves(st, a, b, j, h, o, Accepted(b), Crediting(a, j), w5, WGo(true), w5);
    st := RequesterMoves(st, a, b, j, h, Earned(j, a), Accepted(b), Ended, w5, Fail, w5);
    st := RequesterMoves(st, a, b, j, h, Earned(j, a), Refunding(StatusFailed), Ended, w5, Go, w5);
    evs := st.evs;
    ToldIs(st, {a, b});
    LostResultState(st.s, a, b, j, w5);
    QuiescentAt({a, b}, evs, a, b, j);
  }

  lemma ToldIs(st: Story, honest: set<PeerId>)
    requires Told(st, honest)
    ensures st.s == Run(Init(honest), st.evs)
  {
  }

  lemma LostResultState(s: State, a: PeerId, b: PeerId, j: JobId, wire: set<Envelope>)
    requires a != b && (forall e :: e in wire ==> e.sender == a || e.sender == b)
    requires At(s, a, b, j, Refunded(j, b), Earned(j, a), Done(StatusFailed), Ended, wire)
    ensures Closed(s) && NobodyInWindow(s) && AllClosed(s)
    ensures j in s.delegations && s.delegations[j].phase == Done(StatusFailed)
    ensures UnpaidWork(s) == {(b, j)}
    ensures Enumerates([a, b], s)
  {
    hide JobKinds, JobsWith;
    forall k ensures k in JobsWith(s.ledgers[b], Work) <==> k == j {
      WorkedExactly(j, a, k);
    }
    forall k ensures k !in JobsWith(s.ledgers[a], Work) {
      NeverWorked(j, b, k);
    }
  }

  lemma WorkedExactly(j: JobId, a: PeerId, k: JobId)
    ensures k in JobsWith(Earned(j, a), Work) <==> k == j
  {
    NewLedger(k);
    InOpenJobs(Earned(j, a), k);
    assert Earned(j, a)[..1] == [OPENING];
  }

  lemma NeverWorked(j: JobId, b: PeerId, k: JobId)
    ensures k !in JobsWith(Refunded(j, b), Work)
  {
    NewLedger(k);
    InOpenJobs(Refunded(j, b), k);
    assert Held(j, b)[..1] == [OPENING];
    assert Work !in JobKinds(Held(j, b), k);
    assert Refunded(j, b)[..2] == Held(j, b);
  }

  lemma QuiescentAt(honest: set<PeerId>, evs: seq<Event>, a: PeerId, b: PeerId, j: JobId)
    requires forall p :: p in honest ==> IsDigest(p)
    requires var s := Run(Init(honest), evs);
      Enumerates([a, b], s) && Closed(s) && NobodyInWindow(s) && AllClosed(s) && UnpaidWork(s) == {(b, j)}
    ensures Excess(Run(Init(honest), evs)) == {(b, j)}
    ensures TotalHoldings([a, b], Run(Init(honest), evs)) == 21
  {
    hide IsDigest, UnpaidWork, Excess, TotalHoldings, Closed, NobodyInWindow, AllClosed, Enumerates;
    ExcessIsUnpaid(honest, evs);
    QuiescentTotal(honest, evs, [a, b]);
  }
}
