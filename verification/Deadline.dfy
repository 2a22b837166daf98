/** The session on a clock: what the requester waits for a result against what the
    worker may take to produce it. */
module Deadline {
  import opened Prelude
  import opened LedgerLog
  import opened LedgerLaws
  import opened Roles
  import opened SwarmInvariant
  import opened Session
  import opened Admission

  /** The job, the worker that is offered it, and what the process will do there. */
  datatype Setting = Setting(
    raw: RawJob, config: Config, harnesses: set<string>, onPath: set<string>, end: ProcessEnd, took: nat)

  /** The worker accepts the job, and its process keeps its timeout. */
  predicate TakesJob(x: Setting, a: PeerId, b: PeerId) {
    && Decide(b, a, x.raw, x.config, x.harnesses) == Accepts
    && WithinTimeout(x.end, x.took, x.raw.job.maxRuntime)
  }

  /** The result that `ExecuteJob` returns there. */
  function ResultIn(x: Setting): Execution
    requires ValidJob(x.raw)
  {
    Outcome(x.raw.job, Choice(x.raw.job.required, x.harnesses, x.onPath, x.config.forceSimulate),
            x.config.simulateDelay, x.end, x.took)
  }

  /** `sent` is when the acceptance went out, `read` when the requester read it and
      began to wait, `ran` how long the job has run. */
  datatype Clocked = Clocked(p: Pair, now: nat, sent: Option<nat>, read: Option<nat>, ran: nat)

  /** A second passes with the job running, or with anything else: transit,
      launching, cleaning up, waiting for a thread. */
  datatype Happening = Moves(m: Move) | Runs | Passes | TimesOut

  /** When the requester stops waiting for the result. */
  function WaitEnd(x: Setting, c: Clocked): int
    requires ValidJob(x.raw) && c.read.Some?
  {
    c.read.value + x.raw.job.maxRuntime + RESULT_GRACE_SECONDS
  }

  /** The seconds since the acceptance that the job did not run. */
  function Overhead(c: Clocked): int
    requires c.sent.Some?
  {
    c.now - c.sent.value - c.ran
  }

  /** The requester still waits, for the acceptance or for the result. */
  predicate Waiting(c: Clocked) {
    c.sent.Some? && (c.p.r.Offered? || c.p.r.Accepted?)
  }

  /** What the worker does is settled: it accepts, and ends its run with the result. */
  predicate AsSettled(x: Setting, c: Clocked, m: Move)
    requires ValidJob(x.raw)
  {
    && (m.WorkerMove? && c.p.w.Deciding? ==> m.yes)
    && (m.WorkerMove? && c.p.w.Executing? ==> c.ran == ResultIn(x).seconds && m.yes == ResultIn(x).ok)
  }

  /** `overhead` bounds what passes besides the run while the requester waits. */
  predicate Possible(x: Setting, overhead: nat, c: Clocked, e: Happening)
    requires ValidJob(x.raw)
  {
    match e
    case Moves(m) =>
      && CanMove(c.p, m, x.raw.job.id) && AsSettled(x, c, m)
      && (m.RequesterMove? && c.p.r.Accepted? ==> c.read.Some? && c.now <= WaitEnd(x, c))
    case Runs => c.p.w.Executing? && c.ran < ResultIn(x).seconds
    case Passes => Waiting(c) ==> Overhead(c) < overhead
    case TimesOut => c.p.r.Accepted? && c.read.Some? && c.now > WaitEnd(x, c)
  }

  function After(x: Setting, a: PeerId, b: PeerId, overhead: nat, c: Clocked, e: Happening): Clocked
    requires ValidJob(x.raw)
  {
    if !Possible(x, overhead, c, e) then c
    else
      match e
      case Moves(m) =>
        var p := Do(a, b, x.raw.job.id, c.p, m);
        c.(p := p,
           sent := if m.WorkerMove? && c.p.w.Deciding? then Some(c.now) else c.sent,
           read := if c.p.r.Offered? && p.r.Accepted? then Some(c.now) else c.read)
      case Runs => c.(now := c.now + 1, ran := c.ran + 1)
      case Passes => c.(now := c.now + 1)
      case TimesOut =>
        c.(p := c.p.(r := Request(x.raw.job.id, b, c.p.r, c.p.rlog, Fail).phase))
  }

  function Course(x: Setting, a: PeerId, b: PeerId, overhead: nat, p: Pair, es: seq<Happening>): Clocked
    requires ValidJob(x.raw)
  {
    if es == [] then Clocked(p, 0, None, None, 0)
    else After(x, a, b, overhead, Course(x, a, b, overhead, p, es[..|es| - 1]), es[|es| - 1])
  }

  // ---- in time

  /** The wait has not run out. */
  predicate InTime(x: Setting, c: Clocked)
    requires ValidJob(x.raw)
  {
    c.p.r.Accepted? ==> c.read.Some? && c.now <= WaitEnd(x, c)
  }

  predicate Timed(x: Setting, overhead: nat, c: Clocked)
    requires ValidJob(x.raw)
  {
    && c.ran <= ResultIn(x).seconds
    && (c.sent == None ==> c.ran == 0)
    && (c.sent.Some? ==> Overhead(c) >= 0)
    && (Waiting(c) ==> Overhead(c) <= overhead)
    && (c.read.Some? ==> c.sent.Some? && c.sent.value <= c.read.value <= c.now)
    && (c.p.r.Accepted? ==> c.read.Some?)
    && (c.p.w.Deciding? || c.p.w.AwaitOffer? || c.p.w.Greeting? || c.p.w.AwaitHello? <==> c.sent == None)
  }

  /** Nothing but the settled result is on its way or has been acted on. */
  predicate Tells(p: Pair, job: JobId, ok: bool) {
    && (p.w.Executed? ==> p.w.ok == ok)
    && (p.w.Crediting? ==> ok)
    && ResultMsg(job, !ok) !in p.toRequester && Reject(true) !in p.toRequester
    && (p.r.Settling? || p.r == Done(StatusOk) ==> ok)
    && (p.r == Refunding(StatusFailed) || p.r == Done(StatusFailed) ==> !ok)
    && p.r != Refunding(StatusRejected) && p.r != Done(StatusRejected)
  }

  ghost predicate Sound(x: Setting, a: PeerId, b: PeerId, overhead: nat, c: Clocked)
    requires ValidJob(x.raw)
  {
    Good(c.p, a, b, x.raw.job.id) && Timed(x, overhead, c) && Tells(c.p, x.raw.job.id, ResultIn(x).ok)
  }

  /** In time is a matter of what the run and the rest may take. */
  lemma TimedIsInTime(x: Setting, overhead: nat, c: Clocked)
    requires ValidJob(x.raw) && Timed(x, overhead, c)
    requires overhead + ResultIn(x).seconds <= x.raw.job.maxRuntime + RESULT_GRACE_SECONDS
    ensures InTime(x, c)
  {
    hide ValidJob, ResultIn;
  }

  lemma MoveKeepsTimed(x: Setting, a: PeerId, b: PeerId, overhead: nat, c: Clocked, m: Move)
    requires ValidJob(x.raw) && Decide(b, a, x.raw, x.config, x.harnesses) == Accepts
    requires Sound(x, a, b, overhead, c) && Possible(x, overhead, c, Moves(m))
    ensures Timed(x, overhead, After(x, a, b, overhead, c, Moves(m)))
  {
    hide ValidJob, ResultIn, JobKinds, Legal, Perform, Note, Greeted, Met, Asked, Declined, Agreed, Served;
  }

  lemma RequesterKeepsTells(p: Pair, a: PeerId, b: PeerId, job: JobId, ok: bool)
    requires Good(p, a, b, job) && Tells(p, job, ok) && CanMove(p, RequesterMove, job)
    ensures Tells(Do(a, b, job, p, RequesterMove), job, ok)
  {
    hide JobKinds, Legal, Perform, Open, Queue, Note, Greeted, Met, Asked, Declined, Agreed, Served;
    OpenCloses(p.rlog, job, b);
  }

  lemma WorkerKeepsTells(p: Pair, a: PeerId, b: PeerId, job: JobId, ok: bool, yes: bool)
    requires Joint(p, a, job) && Tells(p, job, ok) && CanMove(p, WorkerMove(yes), job) && a != b
    requires (p.w.Deciding? ==> yes) && (p.w.Executing? ==> yes == ok)
    ensures Tells(Do(a, b, job, p, WorkerMove(yes)), job, ok)
  {
    hide Legal, Perform, Note, Greeted, Met, Asked, Declined, Agreed, Served, JobKinds;
    var i := if WWaits(p.w) then WRecv(a, p.toWorker[0]) else WGo(yes);
    SentByWorker(b, p.w, p.wlog, i, job, ok);
    WorkerPlaces(p, a, job);
    hide Joint;
  }

  lemma WorkerPlaces(p: Pair, a: PeerId, job: JobId)
    requires Joint(p, a, job) && !p.w.Ended?
    ensures p.w.Deciding? ==> p.w.remote == a
    ensures p.w.Executed? ==> p.w.job == job
  {
    hide Greeted, Met, Asked, Declined, Agreed, Served;
  }

  lemma SentByWorker(me: PeerId, phase: WPhase, log: Log, i: WInput, job: JobId, ok: bool)
    requires i.WGo? && phase.Deciding? ==> i.yes && phase.remote != me
    requires i.WGo? && phase.Executing? ==> i.yes == ok
    requires phase.Executed? ==> phase.ok == ok
    requires phase.Crediting? ==> ok
    ensures var q := Serve(me, phase, log, i);
      && q.out != Some(ResultMsg(job, !ok)) && q.out != Some(Reject(true))
      && (q.phase.Executed? ==> q.phase.ok == ok) && (q.phase.Crediting? ==> ok)
  {
    hide Perform;
  }

  lemma SettledMove(x: Setting, a: PeerId, b: PeerId, overhead: nat, c: Clocked, m: Move)
    requires TakesJob(x, a, b) && Sound(x, a, b, overhead, c) && Possible(x, overhead, c, Moves(m))
    ensures Sound(x, a, b, overhead, After(x, a, b, overhead, c, Moves(m)))
  {
    var job, ok := x.raw.job.id, ResultIn(x).ok;
    MoveKeepsTimed(x, a, b, overhead, c, m);
    hide ValidJob, ResultIn, Good, Timed, Tells, Joint;
    MoveKeeps(c.p, a, b, job, m);
    GoodHasPlaces(c.p, a, b, job);
    match m
    case RequesterMove => RequesterKeepsTells(c.p, a, b, job, ok);
    case WorkerMove(yes) => WorkerKeepsTells(c.p, a, b, job, ok, yes);
    case _ => OthersKeepTells(c.p, a, b, job, ok, m);
  }

  lemma GoodHasPlaces(p: Pair, a: PeerId, b: PeerId, job: JobId)
    requires Good(p, a, b, job)
    ensures Joint(p, a, job)
  {
  }

  lemma OthersKeepTells(p: Pair, a: PeerId, b: PeerId, job: JobId, ok: bool, m: Move)
    requires Tells(p, job, ok) && CanMove(p, m, job) && (m.RequesterOthers? || m.WorkerOthers?)
    ensures Tells(Do(a, b, job, p, m), job, ok)
  {
    hide Perform;
  }

  lemma ClockKeeps(x: Setting, a: PeerId, b: PeerId, overhead: nat, c: Clocked, e: Happening)
    requires ValidJob(x.raw) && Sound(x, a, b, overhead, c) && (e.Runs? || e.Passes?)
    ensures Sound(x, a, b, overhead, After(x, a, b, overhead, c, e))
  {
    hide ValidJob, ResultIn, Good, Tells;
  }

  lemma StartIsSound(x: Setting, a: PeerId, b: PeerId, overhead: nat, p: Pair)
    requires ValidJob(x.raw) && Start(p, x.raw.job.id)
    ensures Sound(x, a, b, overhead, Clocked(p, 0, None, None, 0))
  {
    StartIsGood(a, b, x.raw.job.id, p);
    hide ValidJob, ResultIn, JobKinds, Legal, Good;
  }

  /** If run and overhead fit the wait, the wait never runs out and every course is sound. */
  lemma {:induction false} CourseIsSound(x: Setting, a: PeerId, b: PeerId, overhead: nat, p: Pair, es: seq<Happening>)
    requires TakesJob(x, a, b) && Start(p, x.raw.job.id)
    requires overhead + ResultIn(x).seconds <= x.raw.job.maxRuntime + RESULT_GRACE_SECONDS
    ensures Sound(x, a, b, overhead, Course(x, a, b, overhead, p, es))
    ensures InTime(x, Course(x, a, b, overhead, p, es))
  {
    hide ResultIn, Sound, InTime, After, Start, Possible;
    var c := Course(x, a, b, overhead, p, es);
    if es == [] {
      StartIsSound(x, a, b, overhead, p);
    } else {
      CourseIsSound(x, a, b, overhead, p, es[..|es| - 1]);
      CourseStep(x, a, b, overhead, Course(x, a, b, overhead, p, es[..|es| - 1]), es[|es| - 1]);
    }
    SoundIsInTime(x, a, b, overhead, c);
  }

  lemma SoundIsInTime(x: Setting, a: PeerId, b: PeerId, overhead: nat, c: Clocked)
    requires ValidJob(x.raw) && Sound(x, a, b, overhead, c)
    requires overhead + ResultIn(x).seconds <= x.raw.job.maxRuntime + RESULT_GRACE_SECONDS
    ensures InTime(x, c)
  {
    hide ValidJob, ResultIn, Good, Tells;
    TimedIsInTime(x, overhead, c);
  }

  lemma CourseStep(x: Setting, a: PeerId, b: PeerId, overhead: nat, c: Clocked, e: Happening)
    requires TakesJob(x, a, b) && Sound(x, a, b, overhead, c) && InTime(x, c)
    ensures Sound(x, a, b, overhead, After(x, a, b, overhead, c, e))
  {
    hide ResultIn, Sound, Request;
    if Possible(x, overhead, c, e) && !e.TimesOut? {
      match e
      case Moves(m) => SettledMove(x, a, b, overhead, c, m);
      case _ => ClockKeeps(x, a, b, overhead, c, e);
    }
  }

  /** What being in time means for the ledgers: at the end of every course the job
      is settled iff its run was ok, and then the worker has credited itself. */
  lemma FinishedInTime(x: Setting, a: PeerId, b: PeerId, overhead: nat, p: Pair, es: seq<Happening>)
    requires TakesJob(x, a, b) && Start(p, x.raw.job.id)
    requires overhead + ResultIn(x).seconds <= x.raw.job.maxRuntime + RESULT_GRACE_SECONDS
    requires var c := Course(x, a, b, overhead, p, es); RFinished(c.p.r) && c.p.w.Ended?
    ensures var c := Course(x, a, b, overhead, p, es);
      && c.p.r == Done(if ResultIn(x).ok then StatusOk else StatusFailed)
      && (Settle in JobKinds(c.p.rlog, x.raw.job.id) <==> ResultIn(x).ok)
      && (Refund in JobKinds(c.p.rlog, x.raw.job.id) <==> !ResultIn(x).ok)
      && (ResultIn(x).ok ==> Work in JobKinds(c.p.wlog, x.raw.job.id))
  {
    hide JobKinds, Legal, Course, ResultIn, Decide, ValidJob, Timed, Start;
    CourseIsSound(x, a, b, overhead, p, es);
  }

  /** Time never has to stop: until both ends have finished, some thread can go on
      or the job runs. */
  lemma NeverStuck(x: Setting, a: PeerId, b: PeerId, overhead: nat, p: Pair, es: seq<Happening>)
    requires TakesJob(x, a, b) && Start(p, x.raw.job.id)
    requires overhead + ResultIn(x).seconds <= x.raw.job.maxRuntime + RESULT_GRACE_SECONDS
    ensures var c := Course(x, a, b, overhead, p, es);
      || (RFinished(c.p.r) && c.p.w.Ended?)
      || Possible(x, overhead, c, Moves(RequesterMove))
      || Possible(x, overhead, c, Runs)
      || exists yes :: Possible(x, overhead, c, Moves(WorkerMove(yes)))
  {
    TakesValidJob(x, a, b);
    hide Good, Course, ResultIn, Decide, ValidJob, Start, Joint, Tells;
    CourseIsSound(x, a, b, overhead, p, es);
    var c := Course(x, a, b, overhead, p, es);
    GoodGoesOn(c.p, a, b, x.raw.job.id);
    if CanMove(c.p, WorkerMove(true), x.raw.job.id) {
      var yes := if c.p.w.Executing? then ResultIn(x).ok else true;
      assert CanMove(c.p, WorkerMove(yes), x.raw.job.id);
      assert Possible(x, overhead, c, Moves(WorkerMove(yes))) || Possible(x, overhead, c, Runs);
    }
  }

  // ---- late

  /** A course so far and where it has come to. */
  datatype Tale = Tale(es: seq<Happening>, c: Clocked)

  ghost predicate Told(x: Setting, a: PeerId, b: PeerId, overhead: nat, p: Pair, t: Tale)
    requires ValidJob(x.raw)
  {
    t.c == Course(x, a, b, overhead, p, t.es)
  }

  lemma Tell(x: Setting, a: PeerId, b: PeerId, overhead: nat, p: Pair, t: Tale, e: Happening) returns (t': Tale)
    requires ValidJob(x.raw) && Told(x, a, b, overhead, p, t)
    ensures Told(x, a, b, overhead, p, t') && t'.c == After(x, a, b, overhead, t.c, e) && t'.es == t.es + [e]
  {
    assert (t.es + [e])[..|t.es|] == t.es;
    t' := Tale(t.es + [e], After(x, a, b, overhead, t.c, e));
  }

  /** Where both ends are, with the ledgers still as they were at the start. */
  predicate Spot(c: Clocked, p: Pair, r: RPhase, w: WPhase, toWorker: seq<Msg>, toRequester: seq<Msg>) {
    && c.p.r == r && c.p.w == w && c.p.toWorker == toWorker && c.p.toRequester == toRequester
    && c.p.rlog == p.rlog && c.p.wlog == p.wlog
  }

  lemma RequesterGoes(x: Setting, a: PeerId, b: PeerId, overhead: nat, p: Pair, t: Tale,
                      r: RPhase, w: WPhase, toWorker: seq<Msg>, toRequester: seq<Msg>) returns (t': Tale)
    requires ValidJob(x.raw) && Told(x, a, b, overhead, p, t) && Spot(t.c, p, r, w, toWorker, toRequester)
    requires !RFinished(r) && !r.Accepted? && (RWaits(r) ==> toRequester != [])
    requires var q := Request(x.raw.job.id, b, r, p.rlog, if RWaits(r) then Recv(b, toRequester[0]) else Go);
      q.log == p.rlog
    ensures var q := Request(x.raw.job.id, b, r, p.rlog, if RWaits(r) then Recv(b, toRequester[0]) else Go);
      && Told(x, a, b, overhead, p, t')
      && Spot(t'.c, p, q.phase, w, Queue(toWorker, q.out), if RWaits(r) then toRequester[1..] else toRequester)
      && t'.c == t.c.(p := t'.c.p, read := if r.Offered? && q.phase.Accepted? then Some(t.c.now) else t.c.read)
  {
    hide ValidJob, Told, Request, Note;
    t' := Tell(x, a, b, overhead, p, t, Moves(RequesterMove));
  }

  lemma WorkerGoes(x: Setting, a: PeerId, b: PeerId, overhead: nat, p: Pair, t: Tale,
                   r: RPhase, w: WPhase, toWorker: seq<Msg>, toRequester: seq<Msg>, yes: bool) returns (t': Tale)
    requires ValidJob(x.raw) && Told(x, a, b, overhead, p, t) && Spot(t.c, p, r, w, toWorker, toRequester)
    requires !w.Ended? && (WWaits(w) ==> toWorker != []) && AsSettled(x, t.c, WorkerMove(yes))
    requires var q := Serve(b, w, p.wlog, if WWaits(w) then WRecv(a, toWorker[0]) else WGo(yes)); q.log == p.wlog
    ensures var q := Serve(b, w, p.wlog, if WWaits(w) then WRecv(a, toWorker[0]) else WGo(yes));
      && Told(x, a, b, overhead, p, t')
      && Spot(t'.c, p, r, q.phase, if WWaits(w) then toWorker[1..] else toWorker, Queue(toRequester, q.out))
      && t'.c == t.c.(p := t'.c.p, sent := if w.Deciding? then Some(t.c.now) else t.c.sent)
  {
    hide ValidJob, Told, Serve, Note, ResultIn;
    t' := Tell(x, a, b, overhead, p, t, Moves(WorkerMove(yes)));
  }

  /** The acceptance is read the moment it is sent. */
  lemma Accepting(x: Setting, a: PeerId, b: PeerId, overhead: nat, p: Pair) returns (t: Tale)
    requires TakesJob(x, a, b) && Start(p, x.raw.job.id)
    ensures Told(x, a, b, overhead, p, t)
    ensures Spot(t.c, p, Accepted(b), Executing(a, x.raw.job.id), [], [])
    ensures t.c.now == 0 && t.c.sent == Some(0) && t.c.read == Some(0) && t.c.ran == 0
  {
    TakesValidJob(x, a, b);
    var job := x.raw.job.id;
    OfferFacts(job, a, b, p.rlog, p.wlog);
    Displays();
    hide Request, Serve, Queue, ResultIn, Decide, ValidJob, Told, Spot, Start;
    t := Offering(x, a, b, overhead, p);
    SpotPhases(t.c, p, Offered(b), AwaitOffer(a), [Offer(job)], []);
    t := WorkerGoes(x, a, b, overhead, p, t, Offered(b), AwaitOffer(a), [Offer(job)], [], true);
    SpotPhases(t.c, p, Offered(b), Deciding(a, job), [], []);
    t := WorkerGoes(x, a, b, overhead, p, t, Offered(b), Deciding(a, job), [], [], true);
    t := RequesterGoes(x, a, b, overhead, p, t, Offered(b), Executing(a, job), [], [Accept(job)]);
  }

  lemma SpotPhases(c: Clocked, p: Pair, r: RPhase, w: WPhase, toWorker: seq<Msg>, toRequester: seq<Msg>)
    requires Spot(c, p, r, w, toWorker, toRequester)
    ensures c.p.r == r && c.p.w == w
  {
  }

  lemma TakesValidJob(x: Setting, a: PeerId, b: PeerId)
    requires TakesJob(x, a, b)
    ensures a != b && ValidJob(x.raw) && x.raw.job.maxRuntime > 0
  {
  }

  /** The steps up to the offer. */
  lemma MeetingFacts(job: JobId, a: PeerId, b: PeerId, rlog: Log, wlog: Log)
    ensures Request(job, b, Escrowed, rlog, Go) == RStep(HelloSent, rlog, Some(Handshake))
    ensures Serve(b, AwaitHello, wlog, WRecv(a, Handshake)) == WStep(Greeting(a), wlog, None)
    ensures Serve(b, Greeting(a), wlog, WGo(true)) == WStep(AwaitOffer(a), wlog, Some(Handshake))
    ensures Request(job, b, HelloSent, rlog, Recv(b, Handshake)) == RStep(Pinned(b), rlog, None)
    ensures Request(job, b, Pinned(b), rlog, Go) == RStep(Offered(b), rlog, Some(Offer(job)))
  {
    hide Perform;
  }

  /** The steps from the offer to the acceptance. */
  lemma OfferFacts(job: JobId, a: PeerId, b: PeerId, rlog: Log, wlog: Log)
    requires a != b
    ensures Serve(b, AwaitOffer(a), wlog, WRecv(a, Offer(job))) == WStep(Deciding(a, job), wlog, None)
    ensures Serve(b, Deciding(a, job), wlog, WGo(true)) == WStep(Executing(a, job), wlog, Some(Accept(job)))
    ensures Request(job, b, Offered(b), rlog, Recv(b, Accept(job))) == RStep(Accepted(b), rlog, None)
  {
    hide Perform;
  }

  lemma Offering(x: Setting, a: PeerId, b: PeerId, overhead: nat, p: Pair) returns (t: Tale)
    requires ValidJob(x.raw) && Start(p, x.raw.job.id)
    ensures Told(x, a, b, overhead, p, t)
    ensures Spot(t.c, p, Offered(b), AwaitOffer(a), [Offer(x.raw.job.id)], [])
    ensures t.c.now == 0 && t.c.sent == None && t.c.read == None && t.c.ran == 0
  {
    t := Tale([], Clocked(p, 0, None, None, 0));
    assert Told(x, a, b, overhead, p, t);
    assert Spot(t.c, p, Escrowed, AwaitHello, [], []);
    MeetingFacts(x.raw.job.id, a, b, p.rlog, p.wlog);
    Displays();
    hide Request, Serve, Queue, ResultIn, ValidJob, Told, Spot, Start;
    t := RequesterGoes(x, a, b, overhead, p, t, Escrowed, AwaitHello, [], []);
    SpotPhases(t.c, p, HelloSent, AwaitHello, [Handshake], []);
    t := WorkerGoes(x, a, b, overhead, p, t, HelloSent, AwaitHello, [Handshake], [], true);
    SpotPhases(t.c, p, HelloSent, Greeting(a), [], []);
    t := WorkerGoes(x, a, b, overhead, p, t, HelloSent, Greeting(a), [], [], true);
    t := RequesterGoes(x, a, b, overhead, p, t, HelloSent, AwaitOffer(a), [], [Handshake]);
    t := RequesterGoes(x, a, b, overhead, p, t, Pinned(b), AwaitOffer(a), [], []);
  }

  /** The job runs for all its time. */
  lemma {:induction false} RunsOut(x: Setting, a: PeerId, b: PeerId, overhead: nat, p: Pair, t: Tale, n: nat) returns (t': Tale)
    requires ValidJob(x.raw) && Told(x, a, b, overhead, p, t)
    requires t.c.p.w.Executing? && t.c.ran + n == ResultIn(x).seconds
    ensures Told(x, a, b, overhead, p, t')
    ensures t'.c == t.c.(now := t.c.now + n, ran := t.c.ran + n)
    decreases n
  {
    hide ResultIn, ValidJob, Told;
    t' := t;
    if n > 0 {
      t' := Tell(x, a, b, overhead, p, t, Runs);
      t' := RunsOut(x, a, b, overhead, p, t', n - 1);
    }
  }

  /** The overhead passes while the requester waits. */
  lemma {:induction false} PassesBy(x: Setting, a: PeerId, b: PeerId, overhead: nat, p: Pair, t: Tale, n: nat) returns (t': Tale)
    requires ValidJob(x.raw) && Told(x, a, b, overhead, p, t)
    requires Waiting(t.c) && Overhead(t.c) + n == overhead
    ensures Told(x, a, b, overhead, p, t')
    ensures t'.c == t.c.(now := t.c.now + n)
    decreases n
  {
    hide ValidJob, Told;
    t' := t;
    if n > 0 {
      t' := Tell(x, a, b, overhead, p, t, Passes);
      t' := PassesBy(x, a, b, overhead, p, t', n - 1);
    }
  }

  /** The worker has ended and credited itself, its result is under way and the
      wait has run out. */
  lemma TooLate(x: Setting, a: PeerId, b: PeerId, overhead: nat, p: Pair) returns (t: Tale)
    requires TakesJob(x, a, b) && Start(p, x.raw.job.id)
    requires overhead + ResultIn(x).seconds > x.raw.job.maxRuntime + RESULT_GRACE_SECONDS
    ensures Told(x, a, b, overhead, p, t)
    ensures t.c.p.r == Accepted(b) && t.c.p.w.Ended? && t.c.p.rlog == p.rlog
    ensures ResultIn(x).ok ==> Work in JobKinds(t.c.p.wlog, x.raw.job.id)
    ensures Possible(x, overhead, t.c, TimesOut)
  {
    TakesValidJob(x, a, b);
    var job, ok := x.raw.job.id, ResultIn(x).ok;
    t := Accepting(x, a, b, overhead, p);
    t := RunsOut(x, a, b, overhead, p, t, ResultIn(x).seconds);
    ResultFacts(job, a, b, p.wlog, ok);
    CreditBooks(b, job, a, p.wlog);
    Displays();
    hide JobKinds, Legal, Open, ResultIn, Decide, ValidJob, Told, Note, Perform, Serve, Queue, Start;
    t := WorkerGoes(x, a, b, overhead, p, t, Accepted(b), Executing(a, job), [], [], ok);
    t := WorkerGoes(x, a, b, overhead, p, t, Accepted(b), Executed(a, job, ok), [], [], true);
    if ok {
      t := Tell(x, a, b, overhead, p, t, Moves(WorkerMove(true)));
    }
    t := PassesBy(x, a, b, overhead, p, t, overhead);
  }

  /** The steps from the run to the result. */
  lemma ResultFacts(job: JobId, a: PeerId, b: PeerId, wlog: Log, ok: bool)
    ensures Serve(b, Executing(a, job), wlog, WGo(ok)) == WStep(Executed(a, job, ok), wlog, None)
    ensures Serve(b, Executed(a, job, ok), wlog, WGo(true))
            == WStep(if ok then Crediting(a, job) else Ended, wlog, Some(ResultMsg(job, ok)))
  {
    hide Perform;
  }

  lemma CreditBooks(me: PeerId, job: JobId, remote: PeerId, log: Log)
    ensures var q := Serve(me, Crediting(remote, job), log, WGo(true)); q.phase == Ended && Work in JobKinds(q.log, job)
  {
    if Perform(log, WorkFor(job, remote)).Success? {
      PerformEffect(log, WorkFor(job, remote));
    }
  }

  /** Otherwise some course is late, and ends with the credit refunded by the
      requester and, if the run was ok, booked by the worker too. */
  lemma LateCourse(x: Setting, a: PeerId, b: PeerId, overhead: nat, p: Pair) returns (es: seq<Happening>, late: nat)
    requires TakesJob(x, a, b) && Start(p, x.raw.job.id)
    requires overhead + ResultIn(x).seconds > x.raw.job.maxRuntime + RESULT_GRACE_SECONDS
    ensures late <= |es| && !InTime(x, Course(x, a, b, overhead, p, es[..late]))
    ensures var c := Course(x, a, b, overhead, p, es);
      && c.p.r == Done(StatusFailed) && c.p.w.Ended?
      && Refund in JobKinds(c.p.rlog, x.raw.job.id)
      && (ResultIn(x).ok ==> Work in JobKinds(c.p.wlog, x.raw.job.id))
  {
    TakesValidJob(x, a, b);
    var t := TooLate(x, a, b, overhead, p);
    late := |t.es|;
    assert t.es[..late] == t.es;
    hide JobKinds, Legal, ResultIn, Decide, ValidJob, Course, Open, Note, Perform;
    RefundBooks(p.rlog, x.raw.job.id, b);
    var t1 := Tell(x, a, b, overhead, p, t, TimesOut);
    assert t1.c.p.r == Refunding(StatusFailed);
    var t2 := Tell(x, a, b, overhead, p, t1, Moves(RequesterMove));
    es := t2.es;
    assert t.es == t1.es[..late] && t1.es == es[..late + 1];
    assert t.es == es[..late];
  }

  lemma RefundBooks(log: Log, job: JobId, worker: PeerId)
    requires Open(log, job)
    ensures var q := Request(job, worker, Refunding(StatusFailed), log, Go);
      q.phase == Done(StatusFailed) && Refund in JobKinds(q.log, job)
  {
    OpenCloses(log, job, worker);
    PerformEffect(log, RefundOf(job));
  }

  /** For one worker and one run: no course is late iff the run and the overhead
      together fit the requester's wait. */
  lemma DeadlineIsExact(x: Setting, a: PeerId, b: PeerId, overhead: nat, p: Pair)
    requires TakesJob(x, a, b) && Start(p, x.raw.job.id)
    ensures (forall es :: InTime(x, Course(x, a, b, overhead, p, es)))
            <==> overhead + ResultIn(x).seconds <= x.raw.job.maxRuntime + 15
  {
    TakesValidJob(x, a, b);
    hide ResultIn, InTime, Course, Start, Decide, ValidJob;
    if overhead + ResultIn(x).seconds <= x.raw.job.maxRuntime + RESULT_GRACE_SECONDS {
      forall es ensures InTime(x, Course(x, a, b, overhead, p, es)) {
        CourseIsSound(x, a, b, overhead, p, es);
      }
    } else {
      var es, late := LateCourse(x, a, b, overhead, p);
      assert !InTime(x, Course(x, a, b, overhead, p, es[..late]));
    }
  }

  /** A worker that runs the job to its timeout. */
  function SlowWorker(raw: RawJob): Setting
    requires ValidJob(raw)
  {
    var h := if raw.job.required == ANY then CLAUDE else raw.job.required;
    Setting(raw, Config(true, false, raw.job.maxRuntime, 0), {h}, {h}, TimedOut, raw.job.maxRuntime)
  }

  lemma SlowWorkerAccepts(raw: RawJob, a: PeerId, b: PeerId)
    requires ValidJob(raw) && a != b
    ensures TakesJob(SlowWorker(raw), a, b) && ResultIn(SlowWorker(raw)).seconds == raw.job.maxRuntime
  {
    hide Blank;
    var x := SlowWorker(raw);
    var h := if raw.job.required == ANY then CLAUDE else raw.job.required;
    assert Usable(h, x.harnesses, x.onPath);
    if raw.job.required == ANY {
      FirstIsUnique(HARNESSES, 0, x.harnesses, x.onPath);
    }
  }

  lemma RunsWithinLimit(x: Setting, a: PeerId, b: PeerId)
    requires TakesJob(x, a, b)
    ensures ValidJob(x.raw) && ResultIn(x).seconds <= x.raw.job.maxRuntime
  {
    hide Blank, Choice;
  }

  /** For a valid job: every accepted run at every worker is in time in every
      course iff the overhead is at most the fifteen seconds of grace. */
  lemma GraceIsExact(raw: RawJob, a: PeerId, b: PeerId, overhead: nat, p: Pair)
    requires ValidJob(raw) && a != b && Start(p, raw.job.id)
    ensures (forall x: Setting, es :: x.raw == raw && TakesJob(x, a, b) ==> InTime(x, Course(x, a, b, overhead, p, es)))
            <==> overhead <= 15
  {
    hide ResultIn, InTime, Course, Start, TakesJob, ValidJob;
    if overhead <= RESULT_GRACE_SECONDS {
      forall x: Setting, es | x.raw == raw && TakesJob(x, a, b) ensures InTime(x, Course(x, a, b, overhead, p, es)) {
        RunsWithinLimit(x, a, b);
        CourseIsSound(x, a, b, overhead, p, es);
      }
    } else {
      SlowWorkerAccepts(raw, a, b);
      var es, late := LateCourse(SlowWorker(raw), a, b, overhead, p);
      assert !InTime(SlowWorker(raw), Course(SlowWorker(raw), a, b, overhead, p, es[..late]));
    }
  }
}
