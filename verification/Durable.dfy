/** The swarm on real disks: each ledger call is an append in the micro-steps of
    `Storage`, made under the ledger's lock, and a crash may fall between any two
    of them.  Every such run is a run of the swarm whose ledgers are the files. */
module Durable {
  import opened Prelude
  import opened LedgerLog
  import opened Roles
  import opened Swarm
  import opened SwarmInvariant
  import SwarmTheorems
  import Storage

  /** `pending` holds, for each peer with an append under way, the step of the
      thread that waits for it. */
  datatype World = World(s: State, hosts: map<PeerId, Storage.Host>, pending: map<PeerId, Event>)

  datatype Happening =
    | Step(ev: Event)
    | Disk(peer: PeerId)
    | Kill(peer: PeerId)
    | Boot(peer: PeerId)

  function Opened(honest: set<PeerId>): World {
    World(Init(honest),
          map p | p in honest :: Storage.Host(Storage.Whole([OPENING]), Storage.Absent, Storage.Idle([OPENING])),
          map[])
  }

  /** The ledger call a step makes, and on whose ledger. */
  function CallOf(s: State, ev: Event): Option<(PeerId, Op)> {
    match ev
    case RequesterStep(job, Go) =>
      if job !in s.delegations then None
      else
        var d := s.delegations[job];
        (match d.phase
         case Checked => Some((d.requester, EscrowFor(job, d.worker)))
         case Settling => Some((d.requester, SettleTo(job, d.worker)))
         case Refunding(_) => Some((d.requester, RefundOf(job)))
         case _ => None)
    case WorkerStep(tid, WGo(_)) =>
      if tid in s.services && s.services[tid].phase.Crediting?
      then Some((s.services[tid].worker, WorkFor(s.services[tid].phase.job, s.services[tid].phase.remote)))
      else None
    case _ => None
  }

  /** The ledger whose lock a step takes; `Begin` reads the balance. */
  function LockOf(s: State, ev: Event): Option<PeerId> {
    if ev.Begin? then Some(ev.peer)
    else if CallOf(s, ev).Some? then Some(CallOf(s, ev).value.0) else None
  }

  predicate SameThread(ev: Event, other: Event) {
    || (ev.RequesterStep? && other.RequesterStep? && ev.job == other.job)
    || (ev.WorkerStep? && other.WorkerStep? && ev.tid == other.tid)
  }

  /** The lock is taken, or the thread itself waits for its append. */
  predicate Blocked(w: World, ev: Event) {
    exists p :: p in w.pending && (LockOf(w.s, ev) == Some(p) || SameThread(ev, w.pending[p]))
  }

  function TakeStep(w: World, ev: Event): World {
    if ev.Crash? || ev.Restart? || !Enabled(w.s, ev) || Blocked(w, ev) then w
    else
      match CallOf(w.s, ev)
      case None => w.(s := Next(w.s, ev))
      case Some((p, op)) =>
        if p in w.hosts && p in w.s.ledgers && Perform(w.s.ledgers[p], op).Success?
        then w.(hosts := w.hosts[p := Storage.Next(w.hosts[p], Storage.Call(op))], pending := w.pending[p := ev])
        else w.(s := Next(w.s, ev))
  }

  function After(w: World, e: Happening): World {
    match e
    case Step(ev) => TakeStep(w, ev)
    case Disk(p) =>
      if p !in w.pending || p !in w.hosts then w
      else
        var h := Storage.Next(w.hosts[p], Storage.Tick);
        if h.proc.Idle? then World(Next(w.s, w.pending[p]), w.hosts[p := h], w.pending - {p})
        else w.(hosts := w.hosts[p := h])
    case Kill(p) =>
      if p !in w.s.up || p !in w.hosts then w
      else World(Next(w.s, Crash(p)), w.hosts[p := Storage.Next(w.hosts[p], Storage.Crash)], w.pending - {p})
    case Boot(p) =>
      if p in w.s.up || p !in w.hosts || p !in w.s.honest then w
      else w.(s := Next(w.s, Restart(p)), hosts := w.hosts[p := Storage.Next(w.hosts[p], Storage.Start)])
  }

  function History(w: World, es: seq<Happening>): World {
    if es == [] then w else After(History(w, es[..|es| - 1]), es[|es| - 1])
  }

  // ---- the files are the ledgers

  /** The thread still waits where it was, for the same call, which still succeeds. */
  predicate Waits(s: State, p: PeerId, ev: Event, host: Storage.Host) {
    && Enabled(s, ev) && p in s.ledgers && p in s.up
    && CallOf(s, ev).Some? && CallOf(s, ev).value.0 == p
    && Perform(s.ledgers[p], CallOf(s, ev).value.1).Success?
    && host.proc.Appending? && host.proc.mem == Perform(s.ledgers[p], CallOf(s, ev).value.1).value
  }

  ghost predicate HostFits(w: World, p: PeerId)
    requires p in w.hosts && p in w.s.ledgers
  {
    var h := w.hosts[p];
    && Storage.Sound(h) && h.main == Storage.Whole(w.s.ledgers[p])
    && (if p !in w.s.up then h.proc == Storage.Down && p !in w.pending
        else if p in w.pending then Waits(w.s, p, w.pending[p], h)
        else h.proc == Storage.Idle(w.s.ledgers[p]))
  }

  /** A thread that is alive and unfinished belongs to a peer that is up. */
  ghost predicate AliveAreUp(s: State) {
    && (forall j :: j in s.delegations && s.delegations[j].alive && !RFinished(s.delegations[j].phase) ==>
          s.delegations[j].requester in s.up)
    && (forall t :: t in s.services && s.services[t].alive && !s.services[t].phase.Ended? ==>
          s.services[t].worker in s.up)
  }

  lemma AliveStep(s: State, ev: Event)
    requires AliveAreUp(s)
    ensures AliveAreUp(Next(s, ev))
  {
    hide Perform, IsDigest, CanOffer, Admitted;
  }

  lemma CallerIsUp(s: State, ev: Event)
    requires AliveAreUp(s) && Enabled(s, ev) && CallOf(s, ev).Some?
    ensures CallOf(s, ev).value.0 in s.up
  {
    hide Perform, IsDigest, CanOffer;
  }

  ghost predicate Faithful(w: World) {
    && Inv(w.s) && AliveAreUp(w.s) && w.hosts.Keys == w.s.honest && w.pending.Keys <= w.s.honest
    && forall p :: p in w.s.honest ==> p in w.s.ledgers && HostFits(w, p)
  }

  /** A step writes no ledger but by its call. */
  lemma OnlyCallsWrite(s: State, ev: Event, p: PeerId)
    requires Enabled(s, ev) && p in s.ledgers
    ensures p in Next(s, ev).ledgers
    ensures CallOf(s, ev) == None || CallOf(s, ev).value.0 != p || Perform(s.ledgers[p], CallOf(s, ev).value.1).Failure? ==>
      Next(s, ev).ledgers[p] == s.ledgers[p]
    ensures CallOf(s, ev).Some? && CallOf(s, ev).value.0 == p && Perform(s.ledgers[p], CallOf(s, ev).value.1).Success? ==>
      Next(s, ev).ledgers[p] == Perform(s.ledgers[p], CallOf(s, ev).value.1).value
  {
    hide Perform, IsDigest, CanOffer, Admitted;
  }

  /** A step of another thread that does not write the ledger leaves the waiting
      thread as it was. */
  lemma StillWaits(s: State, p: PeerId, wait: Event, host: Storage.Host, ev: Event)
    requires Inv(s) && Waits(s, p, wait, host) && Enabled(s, ev) && !SameThread(ev, wait) && ev != Crash(p)
    requires Next(s, ev).ledgers.Keys == s.ledgers.Keys && Next(s, ev).ledgers[p] == s.ledgers[p]
    ensures Waits(Next(s, ev), p, wait, host)
  {
    hide Perform, IsDigest, CanOffer, Inv, Request, Serve;
    StillThere(s, p, wait, ev);
  }

  lemma StillThere(s: State, p: PeerId, wait: Event, ev: Event)
    requires Enabled(s, wait) && CallOf(s, wait).Some? && CallOf(s, wait).value.0 == p && p in s.up
    requires Enabled(s, ev) && !SameThread(ev, wait) && ev != Crash(p)
    requires Next(s, ev).ledgers.Keys == s.ledgers.Keys
    ensures Enabled(Next(s, ev), wait) && CallOf(Next(s, ev), wait) == CallOf(s, wait) && p in Next(s, ev).up
  {
    hide Perform, IsDigest, CanOffer, Request, Serve;
  }

  lemma KeysStay(s: State, ev: Event)
    requires Inv(s)
    ensures Next(s, ev).ledgers.Keys == s.ledgers.Keys && Next(s, ev).honest == s.honest
    ensures s.ledgers.Keys == s.honest
    ensures !ev.Crash? && !ev.Restart? ==> Next(s, ev).up == s.up
  {
    StepKeeps(s, ev);
    hide Perform, IsDigest, CanOffer, Request, Serve;
  }

  /** A step of the swarm that writes no file, taken atomically. */
  lemma PlainStep(w: World, ev: Event)
    requires Faithful(w) && Enabled(w.s, ev) && !ev.Crash? && !ev.Restart? && !Blocked(w, ev)
    requires CallOf(w.s, ev).Some? ==>
      Perform(w.s.ledgers[CallOf(w.s, ev).value.0], CallOf(w.s, ev).value.1).Failure?
    ensures Faithful(w.(s := Next(w.s, ev)))
  {
    hide Inv, AliveAreUp, Enabled, CallOf, Next, Storage.Sound, Perform, Waits;
    StepKeeps(w.s, ev);
    AliveStep(w.s, ev);
    KeysStay(w.s, ev);
    var w' := w.(s := Next(w.s, ev));
    forall p | p in w.s.honest ensures HostFits(w', p) {
      OnlyCallsWrite(w.s, ev, p);
      if p in w.s.up && p in w.pending {
        StillWaits(w.s, p, w.pending[p], w.hosts[p], ev);
      }
    }
  }

  lemma StartAppend(w: World, ev: Event, p: PeerId, op: Op)
    requires Faithful(w) && Enabled(w.s, ev) && !Blocked(w, ev)
    requires CallOf(w.s, ev) == Some((p, op)) && p in w.s.ledgers && Perform(w.s.ledgers[p], op).Success?
    ensures Faithful(w.(hosts := w.hosts[p := Storage.Next(w.hosts[p], Storage.Call(op))], pending := w.pending[p := ev]))
  {
    hide Inv, AliveAreUp, Enabled, Next, Storage.Sound, Storage.Next, Perform, CallOf;
    CallsAreSteps(w.s, ev);
    CallerIsUp(w.s, ev);
    KeysStay(w.s, ev);
    Storage.SoundStep(w.hosts[p], Storage.Call(op));
    StartedHost(w.hosts[p], w.s.ledgers[p], op);
  }

  lemma StartedHost(h: Storage.Host, log: Log, op: Op)
    requires h.proc == Storage.Idle(log) && Perform(log, op).Success?
    ensures var h' := Storage.Next(h, Storage.Call(op));
      h'.main == h.main && h'.proc == Storage.Appending(Perform(log, op).value, Storage.InMemory)
  {
  }

  lemma TickedHost(h: Storage.Host, log: Log)
    requires Storage.Sound(h) && h.main == Storage.Whole(log) && h.proc.Appending?
    ensures var h' := Storage.Next(h, Storage.Tick);
      if h'.proc.Idle? then h'.proc.mem == h.proc.mem && h'.main == Storage.Whole(h.proc.mem)
      else h'.main == h.main && h'.proc.Appending? && h'.proc.mem == h.proc.mem
  {
  }

  /** Two peers never wait in one thread. */
  lemma OwnThreads(s: State, p: PeerId, q: PeerId, ev: Event, other: Event)
    requires CallOf(s, ev).Some? && CallOf(s, ev).value.0 == p
    requires CallOf(s, other).Some? && CallOf(s, other).value.0 == q && p != q
    ensures !SameThread(ev, other)
  {
  }

  lemma DiskStep(w: World, p: PeerId)
    requires Faithful(w) && p in w.pending
    ensures Faithful(After(w, Disk(p)))
  {
    hide Inv, AliveAreUp, Enabled, CallOf, Next, Storage.Sound, Storage.Next, Perform;
    var h, ev := w.hosts[p], w.pending[p];
    Storage.SoundStep(h, Storage.Tick);
    TickedHost(h, w.s.ledgers[p]);
    var h' := Storage.Next(h, Storage.Tick);
    var w' := After(w, Disk(p));
    if h'.proc.Idle? {
      StepKeeps(w.s, ev);
      AliveStep(w.s, ev);
      KeysStay(w.s, ev);
      CallsAreSteps(w.s, ev);
      forall q | q in w.s.honest ensures HostFits(w', q) {
        OnlyCallsWrite(w.s, ev, q);
        if q != p && q in w.s.up && q in w.pending {
          OwnThreads(w.s, p, q, ev, w.pending[q]);
          StillWaits(w.s, q, w.pending[q], w.hosts[q], ev);
        }
      }
    }
  }

  lemma CallsAreSteps(s: State, ev: Event)
    ensures CallOf(s, ev).Some? ==> ev.RequesterStep? || ev.WorkerStep?
  {
  }

  lemma KillStep(w: World, p: PeerId)
    requires Faithful(w) && p in w.s.up && p in w.hosts
    ensures Faithful(After(w, Kill(p)))
  {
    hide Inv, AliveAreUp, CallOf, Storage.Sound, Perform, AfterCrash;
    var ev := Crash(p);
    Storage.SoundStep(w.hosts[p], Storage.Crash);
    StepKeeps(w.s, ev);
    AliveStep(w.s, ev);
    KeysStay(w.s, ev);
    assert CallOf(w.s, ev) == None by { CallsAreSteps(w.s, ev); }
    CrashedUp(w.s, p);
    var w' := After(w, Kill(p));
    forall q | q in w.s.honest ensures HostFits(w', q) {
      OnlyCallsWrite(w.s, ev, q);
      if q != p && q in w.s.up && q in w.pending {
        StillWaits(w.s, q, w.pending[q], w.hosts[q], ev);
      }
    }
  }

  lemma CrashedUp(s: State, p: PeerId)
    requires p in s.up
    ensures Next(s, Crash(p)).up == s.up - {p}
  {
  }

  lemma BootStep(w: World, p: PeerId)
    requires Faithful(w) && p !in w.s.up && p in w.s.honest
    ensures Faithful(After(w, Boot(p)))
  {
    hide Inv, AliveAreUp, Storage.Sound, Perform, CallOf;
    var ev := Restart(p);
    Storage.SoundStep(w.hosts[p], Storage.Start);
    StepKeeps(w.s, ev);
    AliveStep(w.s, ev);
    KeysStay(w.s, ev);
    assert CallOf(w.s, ev) == None by { CallsAreSteps(w.s, ev); }
    var w' := After(w, Boot(p));
    forall q | q in w.s.honest ensures HostFits(w', q) {
      OnlyCallsWrite(w.s, ev, q);
      if q != p && q in w.s.up && q in w.pending {
        StillWaits(w.s, q, w.pending[q], w.hosts[q], ev);
      }
    }
  }

  /** The swarm's own step in a happening, if it completes one. */
  function StepIn(w: World, e: Happening): seq<Event> {
    match e
    case Step(ev) => if After(w, e).s == w.s then [] else [ev]
    case Disk(p) => if p in w.pending && After(w, e).s != w.s then [w.pending[p]] else []
    case Kill(p) => if After(w, e).s == w.s then [] else [Crash(p)]
    case Boot(p) => if After(w, e).s == w.s then [] else [Restart(p)]
  }

  lemma StepInRuns(w: World, e: Happening)
    ensures After(w, e).s == Run(w.s, StepIn(w, e))
  {
    hide Next, Enabled, CallOf, Blocked, Perform, Storage.Next;
    var evs := StepIn(w, e);
    if evs != [] {
      assert evs[..0] == [];
      assert Run(w.s, evs) == Next(w.s, evs[0]);
    }
  }

  lemma AfterKeeps(w: World, e: Happening)
    requires Faithful(w)
    ensures Faithful(After(w, e))
  {
    hide Inv, AliveAreUp, Enabled, Next, Storage.Sound, Storage.Next, Perform, HostFits, Blocked;
    match e
    case Step(ev) =>
      if !ev.Crash? && !ev.Restart? && Enabled(w.s, ev) && !Blocked(w, ev) {
        KeysStay(w.s, ev);
        if CallOf(w.s, ev).Some? {
          CallerIsHonest(w.s, ev);
        }
        if CallOf(w.s, ev).Some? && Perform(w.s.ledgers[CallOf(w.s, ev).value.0], CallOf(w.s, ev).value.1).Success? {
          StartAppend(w, ev, CallOf(w.s, ev).value.0, CallOf(w.s, ev).value.1);
        } else {
          PlainStep(w, ev);
        }
      }
    case Disk(p) =>
      if p in w.pending {
        DiskStep(w, p);
      }
    case Kill(p) =>
      if p in w.s.up && p in w.hosts {
        KillStep(w, p);
      }
    case Boot(p) =>
      if p !in w.s.up && p in w.s.honest {
        BootStep(w, p);
      }
  }

  lemma CallerIsHonest(s: State, ev: Event)
    requires Enabled(s, ev) && CallOf(s, ev).Some?
    ensures CallOf(s, ev).value.0 in s.ledgers
  {
    hide Perform, IsDigest, CanOffer;
  }

  lemma OpenedIsFaithful(honest: set<PeerId>)
    ensures Faithful(Opened(honest))
  {
    hide IsDigest, JobKinds;
    InitHolds(honest);
    hide Inv;
    assert Legal([OPENING]);
  }

  /** Every run with crashes between any two micro-steps is a run of the swarm, in
      which each ledger is what that peer's file holds; a peer that is down would
      load exactly that.  So what is proved of swarm ledgers holds of the files. */
  lemma {:induction false} FilesAreLedgers(honest: set<PeerId>, es: seq<Happening>) returns (evs: seq<Event>)
    ensures var w := History(Opened(honest), es);
      && w.s == Run(Init(honest), evs) && Faithful(w)
      && w.s.honest == honest
      && forall p :: p in honest ==>
           && p in w.hosts && p in w.s.ledgers && Storage.OnDisk(w.hosts[p]) == w.s.ledgers[p]
           && (p !in w.s.up ==> Storage.Next(w.hosts[p], Storage.Start).proc == Storage.Idle(w.s.ledgers[p]))
  {
    hide Inv, AliveAreUp, After, StepIn, Storage.Sound;
    if es == [] {
      OpenedIsFaithful(honest);
      evs := [];
    } else {
      var front, last := es[..|es| - 1], es[|es| - 1];
      var before := FilesAreLedgers(honest, front);
      var w := History(Opened(honest), front);
      AfterKeeps(w, last);
      StepInRuns(w, last);
      evs := before + StepIn(w, last);
      SwarmTheorems.RunConcat(Init(honest), before, StepIn(w, last));
      RunKeeps(honest, evs);
    }
  }

  /** Write-ahead on disk: whenever the file of an honest worker holds a work
      record that names an honest requester, that requester's file already holds
      the escrow, after any crashes at any micro-steps on either side. */
  lemma WriteAheadOnDisk(honest: set<PeerId>, es: seq<Happening>, worker: PeerId, requester: PeerId, job: JobId)
    requires worker in honest && requester in honest
    requires var w := History(Opened(honest), es);
      worker in w.hosts && RecordOf(WorkFor(job, requester)) in Storage.OnDisk(w.hosts[worker])
    ensures var w := History(Opened(honest), es);
      requester in w.hosts && Escrow in JobKinds(Storage.OnDisk(w.hosts[requester]), job)
  {
    hide JobKinds, RecordOf, Faithful, History, Opened;
    var evs := FilesAreLedgers(honest, es);
    SwarmTheorems.WriteAheadBacking(honest, evs, worker, requester, job);
  }
}
