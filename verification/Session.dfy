/** One requester and one worker over a connection that keeps order and loses
    nothing: the two roles are duals. */
module Session {
  import opened Prelude
  import opened LedgerLog
  import opened LedgerLaws
  import opened Roles
  import opened SwarmInvariant

  datatype Pair = Pair(
    r: RPhase, rlog: Log,
    w: WPhase, wlog: Log,
    toWorker: seq<Msg>, toRequester: seq<Msg>,
    transcript: seq<MsgType>)

  /** A step of either side, or a ledger call by another thread of that side's peer. */
  datatype Move = RequesterMove | WorkerMove(yes: bool) | RequesterOthers(op: Op) | WorkerOthers(op: Op)

  predicate RWaits(r: RPhase) {
    r.HelloSent? || r.Offered? || r.Accepted?
  }

  predicate WWaits(w: WPhase) {
    w.AwaitHello? || w.AwaitOffer?
  }

  /** A side can move unless it has finished or waits on an empty channel.  Only
      the call itself escrows, settles or refunds its job. */
  predicate CanMove(p: Pair, m: Move, job: JobId) {
    match m
    case RequesterMove => !RFinished(p.r) && (RWaits(p.r) ==> p.toRequester != [])
    case WorkerMove(_) => !p.w.Ended? && (WWaits(p.w) ==> p.toWorker != [])
    case RequesterOthers(op) => (op.WorkFor? || op.job != job) && Perform(p.rlog, op).Success?
    case WorkerOthers(op) => Perform(p.wlog, op).Success?
  }

  function Queue(q: seq<Msg>, out: Option<Msg>): seq<Msg> {
    if out == None then q else q + [out.value]
  }

  function Note(t: seq<MsgType>, out: Option<Msg>): seq<MsgType> {
    if out == None then t else t + [TypeOf(out.value)]
  }

  /** `a` delegates `job` to `b`. */
  function Do(a: PeerId, b: PeerId, job: JobId, p: Pair, m: Move): Pair {
    if !CanMove(p, m, job) then p else
    match m
    case RequesterMove =>
      var i := if RWaits(p.r) then Recv(b, p.toRequester[0]) else Go;
      var s := Request(job, b, p.r, p.rlog, i);
      p.(r := s.phase, rlog := s.log, toWorker := Queue(p.toWorker, s.out), transcript := Note(p.transcript, s.out),
         toRequester := if RWaits(p.r) then p.toRequester[1..] else p.toRequester)
    case WorkerMove(yes) =>
      var i := if WWaits(p.w) then WRecv(a, p.toWorker[0]) else WGo(yes);
      var s := Serve(b, p.w, p.wlog, i);
      p.(w := s.phase, wlog := s.log, toRequester := Queue(p.toRequester, s.out), transcript := Note(p.transcript, s.out),
         toWorker := if WWaits(p.w) then p.toWorker[1..] else p.toWorker)
    case RequesterOthers(op) => p.(rlog := Perform(p.rlog, op).value)
    case WorkerOthers(op) => p.(wlog := Perform(p.wlog, op).value)
  }

  function Play(a: PeerId, b: PeerId, job: JobId, p: Pair, moves: seq<Move>): Pair {
    if moves == [] then p else Do(a, b, job, Play(a, b, job, p, moves[..|moves| - 1]), moves[|moves| - 1])
  }

  /** The connection attempt right after the escrow. */
  ghost predicate Start(p: Pair, job: JobId) {
    && p.r == Escrowed && p.w == AwaitHello
    && p.toWorker == [] && p.toRequester == [] && p.transcript == []
    && Legal(p.rlog) && Legal(p.wlog) && Open(p.rlog, job)
  }

  // ---- the joint states

  function Greeted(): seq<MsgType> { [HANDSHAKE] }
  function Met(): seq<MsgType> { [HANDSHAKE, HANDSHAKE] }
  function Asked(): seq<MsgType> { [HANDSHAKE, HANDSHAKE, TASK_OFFER] }
  function Declined(): seq<MsgType> { [HANDSHAKE, HANDSHAKE, TASK_OFFER, TASK_REJECT] }
  function Agreed(): seq<MsgType> { [HANDSHAKE, HANDSHAKE, TASK_OFFER, TASK_ACCEPT] }
  function Served(): seq<MsgType> { [HANDSHAKE, HANDSHAKE, TASK_OFFER, TASK_ACCEPT, TASK_RESULT] }

  /** The worker has sent its result with this status and has not, or has, booked it. */
  predicate Answered(w: WPhase, a: PeerId, job: JobId, ok: bool) {
    w == Ended || (ok && w == Crediting(a, job))
  }

  function ResultMsg(job: JobId, ok: bool): Msg {
    TaskResult(JobResult(Some(job), ok))
  }

  /** Which phases meet which channel contents. */
  predicate Joint(p: Pair, a: PeerId, job: JobId) {
    var state := (p.toWorker, p.toRequester, p.transcript);
    match p.r
    case Escrowed => p.w == AwaitHello && state == ([], [], [])
    case HelloSent =>
      || (p.w == AwaitHello && state == ([Handshake], [], Greeted()))
      || (p.w == Greeting(a) && state == ([], [], Greeted()))
      || (p.w == AwaitOffer(a) && state == ([], [Handshake], Met()))
    case Pinned(_) => p.w == AwaitOffer(a) && state == ([], [], Met())
    case Offered(_) =>
      || (p.w == AwaitOffer(a) && state == ([Offer(job)], [], Asked()))
      || (p.w == Deciding(a, job) && state == ([], [], Asked()))
      || (p.w == Ended && state == ([], [Reject(true)], Declined()))
      || ((p.w == Executing(a, job) || p.w == Executed(a, job, true) || p.w == Executed(a, job, false))
          && state == ([], [Accept(job)], Agreed()))
      || (Answered(p.w, a, job, true) && state == ([], [Accept(job), ResultMsg(job, true)], Served()))
      || (Answered(p.w, a, job, false) && state == ([], [Accept(job), ResultMsg(job, false)], Served()))
    case Accepted(_) =>
      || ((p.w == Executing(a, job) || p.w == Executed(a, job, true) || p.w == Executed(a, job, false))
          && state == ([], [], Agreed()))
      || (Answered(p.w, a, job, true) && state == ([], [ResultMsg(job, true)], Served()))
      || (Answered(p.w, a, job, false) && state == ([], [ResultMsg(job, false)], Served()))
    case Settling => Answered(p.w, a, job, true) && state == ([], [], Served())
    case Refunding(due) =>
      || (due == StatusRejected && p.w == Ended && state == ([], [], Declined()))
      || (due == StatusFailed && p.w == Ended && state == ([], [], Served()))
    case Done(status) =>
      || (status == StatusOk && Answered(p.w, a, job, true) && state == ([], [], Served()))
      || (status == StatusRejected && p.w == Ended && state == ([], [], Declined()))
      || (status == StatusFailed && p.w == Ended && state == ([], [], Served()))
    case _ => false
  }

  /** A good result is under way to the requester or has reached it. */
  predicate OkSent(p: Pair, job: JobId) {
    ResultMsg(job, true) in p.toRequester || p.r == Settling || p.r == Done(StatusOk)
  }

  ghost predicate Good(p: Pair, a: PeerId, b: PeerId, job: JobId) {
    && Legal(p.rlog) && Legal(p.wlog)
    && PhaseFits(job, b, p.r, p.rlog)
    && Joint(p, a, job)
    && (p.w == Ended && OkSent(p, job) ==> Work in JobKinds(p.wlog, job))
  }

  /** No credit for the job but the one this session earned. */
  predicate NoOtherCredit(p: Pair, job: JobId) {
    Work in JobKinds(p.wlog, job) ==> p.w == Ended && OkSent(p, job)
  }

  /** No other thread of the worker credits the job. */
  predicate CreditedHereOnly(moves: seq<Move>, job: JobId) {
    forall m :: m in moves && m.WorkerOthers? && m.op.WorkFor? ==> m.op.job != job
  }

  lemma Displays()
    ensures forall q: seq<Msg> :: Queue(q, None) == q
    ensures forall t: seq<MsgType> :: Note(t, None) == t
    ensures forall x: Msg :: [x][1..] == [] && Queue([], Some(x)) == [x]
    ensures forall x: Msg, y: Msg :: [x, y][1..] == [y] && Queue([x], Some(y)) == [x, y]
    ensures Note([], Some(Handshake)) == Greeted() && Note(Greeted(), Some(Handshake)) == Met()
    ensures forall j :: Note(Met(), Some(Offer(j))) == Asked() && Note(Asked(), Some(Accept(j))) == Agreed()
    ensures Note(Asked(), Some(Reject(true))) == Declined()
    ensures forall j, ok :: Note(Agreed(), Some(ResultMsg(j, ok))) == Served()
  {
  }

  lemma RequesterMoveKeepsJoint(p: Pair, a: PeerId, b: PeerId, job: JobId)
    requires Good(p, a, b, job) && CanMove(p, RequesterMove, job)
    ensures Joint(Do(a, b, job, p, RequesterMove), a, job)
  {
    hide JobKinds, Legal, Perform, Open, Queue, Note, Greeted, Met, Asked, Declined, Agreed, Served;
    Displays();
    OpenCloses(p.rlog, job, b);
  }

  lemma RequesterMoveKeepsOk(p: Pair, a: PeerId, b: PeerId, job: JobId)
    requires Good(p, a, b, job) && CanMove(p, RequesterMove, job)
    ensures OkSent(Do(a, b, job, p, RequesterMove), job) <==> OkSent(p, job)
  {
    hide JobKinds, Legal, Perform, Open, Queue, Note, Greeted, Met, Asked, Declined, Agreed, Served;
    OpenCloses(p.rlog, job, b);
  }

  lemma WorkerMoveKeepsJoint(p: Pair, a: PeerId, b: PeerId, job: JobId, yes: bool)
    requires Joint(p, a, job) && CanMove(p, WorkerMove(yes), job)
    ensures Joint(Do(a, b, job, p, WorkerMove(yes)), a, job)
  {
    hide JobKinds, Legal, Perform, Queue, Note, Greeted, Met, Asked, Declined, Agreed, Served;
    Displays();
  }

  /** Only a service with a good execution sends a good result. */
  lemma ServeSays(me: PeerId, phase: WPhase, log: Log, i: WInput, job: JobId)
    ensures Serve(me, phase, log, i).out == Some(ResultMsg(job, true))
            <==> i.WGo? && phase.Executed? && phase.job == job && phase.ok
  {
    hide Perform;
  }

  lemma WorkerMoveSays(p: Pair, a: PeerId, b: PeerId, job: JobId, yes: bool)
    requires Joint(p, a, job) && CanMove(p, WorkerMove(yes), job)
    ensures OkSent(Do(a, b, job, p, WorkerMove(yes)), job) <==> OkSent(p, job) || p.w == Executed(a, job, true)
  {
    var i := if WWaits(p.w) then WRecv(a, p.toWorker[0]) else WGo(yes);
    ServeSays(b, p.w, p.wlog, i, job);
    JointRun(p, a, job);
    hide Joint, Serve;
  }

  lemma JointRun(p: Pair, a: PeerId, job: JobId)
    requires Joint(p, a, job)
    ensures p.w.Executed? ==> p.w.remote == a && p.w.job == job && !OkSent(p, job)
    ensures p.w.Crediting? ==> p.w == Crediting(a, job) && OkSent(p, job)
    ensures p.w.AwaitHello? || p.w.AwaitOffer? || p.w.Deciding? ==> !OkSent(p, job)
  {
    hide Greeted, Met, Asked, Declined, Agreed, Served;
  }

  lemma WorkerMoveSendsOk(p: Pair, a: PeerId, b: PeerId, job: JobId, yes: bool)
    requires Joint(p, a, job) && CanMove(p, WorkerMove(yes), job)
    ensures var p' := Do(a, b, job, p, WorkerMove(yes));
      && (OkSent(p', job) <==> OkSent(p, job) || p.w == Executed(a, job, true))
      && (p'.w == Ended && OkSent(p', job) <==> p.w == Crediting(a, job))
  {
    WorkerMoveSays(p, a, b, job, yes);
    JointRun(p, a, job);
    hide Joint, OkSent, Perform;
  }

  lemma MoveKeeps(p: Pair, a: PeerId, b: PeerId, job: JobId, m: Move)
    requires Good(p, a, b, job)
    ensures Good(Do(a, b, job, p, m), a, b, job)
    ensures NoOtherCredit(p, job) && CreditedHereOnly([m], job) ==> NoOtherCredit(Do(a, b, job, p, m), job)
  {
    hide JobKinds, Legal, Joint, OkSent, Request, Serve, PhaseFits;
    if CanMove(p, m, job) {
      match m
      case RequesterMove =>
        RequesterMoveKeepsJoint(p, a, b, job);
        RequesterMoveKeepsOk(p, a, b, job);
        RequestEffect(job, b, p.r, p.rlog, if RWaits(p.r) then Recv(b, p.toRequester[0]) else Go);
      case WorkerMove(yes) =>
        WorkerMoveKeepsJoint(p, a, b, job, yes);
        WorkerMoveSendsOk(p, a, b, job, yes);
        BookedExactly(p, a, b, job, yes);
      case _ =>
        assert m in [m];
        OthersKeep(p, a, b, job, m);
    }
  }

  lemma OthersKeep(p: Pair, a: PeerId, b: PeerId, job: JobId, m: Move)
    requires Good(p, a, b, job) && CanMove(p, m, job) && (m.RequesterOthers? || m.WorkerOthers?)
    ensures Good(Do(a, b, job, p, m), a, b, job)
    ensures NoOtherCredit(p, job) && !(m.WorkerOthers? && m.op.WorkFor? && m.op.job == job) ==>
      NoOtherCredit(Do(a, b, job, p, m), job)
  {
    hide JobKinds, Legal, Joint, Perform, PhaseFits;
    if m.RequesterOthers? {
      CallEffect(p.rlog, m.op);
      OtherJobKept(job, b, p.r, p.rlog, Perform(p.rlog, m.op).value);
    } else {
      CallEffect(p.wlog, m.op);
    }
    SamePlaces(p, Do(a, b, job, p, m), a, job);
  }

  /** A ledger call moves no phase and no message. */
  lemma SamePlaces(p: Pair, p': Pair, a: PeerId, job: JobId)
    requires p' == p.(rlog := p'.rlog, wlog := p'.wlog)
    ensures Joint(p', a, job) <==> Joint(p, a, job)
    ensures OkSent(p', job) <==> OkSent(p, job)
  {
  }

  /** The worker's log gains a work record of the job in the step that ends it
      after a good result, and in no other of its steps. */
  lemma BookedExactly(p: Pair, a: PeerId, b: PeerId, job: JobId, yes: bool)
    requires Good(p, a, b, job) && CanMove(p, WorkerMove(yes), job)
    ensures var p' := Do(a, b, job, p, WorkerMove(yes));
      && Legal(p'.wlog)
      && (Work in JobKinds(p'.wlog, job) <==> Work in JobKinds(p.wlog, job) || p.w == Crediting(a, job))
  {
    hide JobKinds, Legal, OkSent, PhaseFits, Queue, Note;
    if p.w.Crediting? {
      if Perform(p.wlog, WorkFor(job, a)).Success? {
        CallEffect(p.wlog, WorkFor(job, a));
      }
    }
  }

  lemma {:induction false} PlayKeeps(a: PeerId, b: PeerId, job: JobId, p: Pair, moves: seq<Move>)
    requires Start(p, job)
    ensures Good(Play(a, b, job, p, moves), a, b, job)
    ensures Work !in JobKinds(p.wlog, job) && CreditedHereOnly(moves, job) ==>
      NoOtherCredit(Play(a, b, job, p, moves), job)
  {
    hide Good, Do, NoOtherCredit, JobKinds;
    if moves == [] {
      StartIsGood(a, b, job, p);
    } else {
      var front, last := moves[..|moves| - 1], moves[|moves| - 1];
      PlayKeeps(a, b, job, p, front);
      MoveKeeps(Play(a, b, job, p, front), a, b, job, last);
      assert CreditedHereOnly(moves, job) ==> CreditedHereOnly(front, job) && CreditedHereOnly([last], job);
    }
  }

  lemma StartIsGood(a: PeerId, b: PeerId, job: JobId, p: Pair)
    requires Start(p, job)
    ensures Good(p, a, b, job)
    ensures Work !in JobKinds(p.wlog, job) ==> NoOtherCredit(p, job)
  {
    hide JobKinds, Legal;
  }

  /** What each side expects where it waits. */
  function RExpects(r: RPhase): set<MsgType> {
    if r.HelloSent? then {HANDSHAKE} else if r.Offered? then {TASK_ACCEPT, TASK_REJECT} else {TASK_RESULT}
  }

  function WExpects(w: WPhase): set<MsgType> {
    if w.AwaitHello? then {HANDSHAKE} else {TASK_OFFER}
  }

  lemma GoodGoesOn(p: Pair, a: PeerId, b: PeerId, job: JobId)
    requires Good(p, a, b, job)
    ensures (RFinished(p.r) && p.w.Ended?) || CanMove(p, RequesterMove, job) || CanMove(p, WorkerMove(true), job)
  {
    hide JobKinds, Legal;
  }

  /** Duality, in every schedule of every session: no receive meets an
      unexpected type, and while a side is unfinished some side can move, so the
      two never wait on each other. */
  lemma NoSurpriseNoDeadlock(a: PeerId, b: PeerId, job: JobId, p: Pair, moves: seq<Move>)
    requires Start(p, job)
    ensures var q := Play(a, b, job, p, moves);
      && (RWaits(q.r) && q.toRequester != [] ==> TypeOf(q.toRequester[0]) in RExpects(q.r))
      && (WWaits(q.w) && q.toWorker != [] ==> TypeOf(q.toWorker[0]) in WExpects(q.w))
      && ((RFinished(q.r) && q.w.Ended?) || CanMove(q, RequesterMove, job) || CanMove(q, WorkerMove(true), job))
  {
    hide JobKinds, Legal, Play;
    PlayKeeps(a, b, job, p, moves);
    GoodGoesOn(Play(a, b, job, p, moves), a, b, job);
  }

  /** A finished session has emptied both channels, its transcript is one of the
      two complete ones and both ends agree on what happened.  What the requester
      settled the worker has credited; and if nothing else credits the job, what
      the worker credited the requester has settled. */
  lemma CompleteRuns(a: PeerId, b: PeerId, job: JobId, p: Pair, moves: seq<Move>)
    requires Start(p, job)
    requires var q := Play(a, b, job, p, moves); RFinished(q.r) && q.w.Ended?
    ensures var q := Play(a, b, job, p, moves);
      && q.toWorker == [] && q.toRequester == []
      && (q.transcript == [HANDSHAKE, HANDSHAKE, TASK_OFFER, TASK_REJECT]
          || q.transcript == [HANDSHAKE, HANDSHAKE, TASK_OFFER, TASK_ACCEPT, TASK_RESULT])
      && (q.r == Done(StatusRejected) <==> TASK_REJECT in q.transcript)
      && (Refund in JobKinds(q.rlog, job) <==> Settle !in JobKinds(q.rlog, job))
      && (Settle in JobKinds(q.rlog, job) ==> Work in JobKinds(q.wlog, job))
      && (Work !in JobKinds(p.wlog, job) && CreditedHereOnly(moves, job) && Work in JobKinds(q.wlog, job) ==>
            Settle in JobKinds(q.rlog, job))
  {
    hide JobKinds, Legal, Play, CreditedHereOnly;
    PlayKeeps(a, b, job, p, moves);
  }

  // ---- progress

  function RLeft(r: RPhase): nat {
    match r
    case Escrowed => 6
    case HelloSent => 5
    case Pinned(_) => 4
    case Offered(_) => 3
    case Accepted(_) => 2
    case Settling => 1
    case Refunding(_) => 1
    case _ => 0
  }

  function WLeft(w: WPhase): nat {
    match w
    case AwaitHello => 7
    case Greeting(_) => 6
    case AwaitOffer(_) => 5
    case Deciding(_, _) => 4
    case Executing(_, _) => 3
    case Executed(_, _, _) => 2
    case Crediting(_, _) => 1
    case Ended => 0
  }

  /** Every step brings its side nearer its end. */
  lemma MovesProgress(p: Pair, a: PeerId, b: PeerId, job: JobId, m: Move)
    requires CanMove(p, m, job) && p.r != Checked && (m.RequesterMove? || m.WorkerMove?)
    ensures var p' := Do(a, b, job, p, m);
      p'.r != Checked && RLeft(p'.r) + WLeft(p'.w) < RLeft(p.r) + WLeft(p.w)
  {
    hide Perform, Queue, Note;
  }

  /** From any point a session finishes within thirteen moves. */
  lemma {:induction false} AlwaysFinishes(a: PeerId, b: PeerId, job: JobId, p: Pair, moves: seq<Move>) returns (all: seq<Move>)
    requires Start(p, job)
    ensures moves <= all
    ensures var q := Play(a, b, job, p, moves); |all| - |moves| <= RLeft(q.r) + WLeft(q.w) <= 13
    ensures var q := Play(a, b, job, p, all); RFinished(q.r) && q.w.Ended?
    decreases var q := Play(a, b, job, p, moves); RLeft(q.r) + WLeft(q.w)
  {
    hide Do, Start, CanMove, Good;
    var q := Play(a, b, job, p, moves);
    NoSurpriseNoDeadlock(a, b, job, p, moves);
    PlayKeeps(a, b, job, p, moves);
    NeverChecked(q, a, b, job);
    if RFinished(q.r) && q.w.Ended? {
      all := moves;
    } else {
      var m := if CanMove(q, RequesterMove, job) then RequesterMove else WorkerMove(true);
      assert (moves + [m])[..|moves|] == moves;
      MovesProgress(q, a, b, job, m);
      all := AlwaysFinishes(a, b, job, p, moves + [m]);
    }
  }

  lemma NeverChecked(p: Pair, a: PeerId, b: PeerId, job: JobId)
    requires Good(p, a, b, job)
    ensures p.r != Checked && RLeft(p.r) <= 6 && WLeft(p.w) <= 7
  {
    hide JobKinds, Legal;
  }
}
