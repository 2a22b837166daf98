/** The ledger file across crashes: `_append` in its micro-steps, and loading
    at start-up.  Any sequence of events is a run. */
module Storage {
  import opened Prelude
  import opened LedgerLog
  import opened LedgerLaws

  /** `Torn` stands for any partly written text. */
  datatype File = Absent | Torn | Whole(log: Log)

  /** What the running append has done: the record is in memory; the temporary
      file is being written; it is complete but not yet renamed. */
  datatype Stage = InMemory | Writing | Written

  datatype Process = Down | Idle(mem: Log) | Appending(mem: Log, stage: Stage) | LoadFailed

  datatype Host = Host(main: File, tmp: File, proc: Process)

  datatype Event = Start | Call(op: Op) | Tick | Crash

  const NEW_HOST := Host(Absent, Absent, Down)

  function Next(h: Host, ev: Event): Host {
    match (ev, h.proc)
    case (Start, Down) =>
      h.(proc := match h.main
                 case Absent => Appending([OPENING], InMemory)
                 case Torn => LoadFailed
                 case Whole(log) => Idle(log))
    case (Call(op), Idle(mem)) =>
      if Perform(mem, op).Success? then h.(proc := Appending(Perform(mem, op).value, InMemory)) else h
    case (Tick, Appending(mem, InMemory)) => h.(tmp := Torn, proc := Appending(mem, Writing))
    case (Tick, Appending(mem, Writing)) => h.(tmp := Whole(mem), proc := Appending(mem, Written))
    case (Tick, Appending(mem, Written)) => Host(h.tmp, Absent, Idle(mem))
    case (Crash, _) => h.(proc := Down)
    case _ => h
  }

  function Run(h: Host, evs: seq<Event>): Host {
    if evs == [] then h else Next(Run(h, evs[..|evs| - 1]), evs[|evs| - 1])
  }

  /** The records a restart would load. */
  function OnDisk(h: Host): Log {
    if h.main.Whole? then h.main.log else []
  }

  ghost predicate Sound(h: Host) {
    && (h.main == Absent || (h.main.Whole? && Legal(h.main.log)))
    && match h.proc
       case Down => true
       case LoadFailed => false
       case Idle(mem) => h.main == Whole(mem)
       case Appending(mem, stage) =>
         && Legal(mem)
         && OnDisk(h) == mem[..|mem| - 1]
         && (stage == Written ==> h.tmp == Whole(mem))
  }

  lemma SoundStep(h: Host, ev: Event)
    requires Sound(h)
    ensures Sound(Next(h, ev)) && OnDisk(h) <= OnDisk(Next(h, ev))
  {
    match (ev, h.proc) {
      case (Call(op), Idle(mem)) =>
        if Perform(mem, op).Success? {
          PerformLegal(mem, op);
        }
      case _ =>
    }
  }

  /** Over every run, with crashes and restarts anywhere: what is on disk is
      loadable, reachable by ledger calls alone, carries exactly one opening
      record, and is never shortened or rewritten. */
  lemma {:induction false} EveryRunIsSound(evs: seq<Event>, n: nat)
    requires n <= |evs|
    ensures var h := Run(NEW_HOST, evs);
      && Sound(h)
      && OnDisk(Run(NEW_HOST, evs[..n])) <= OnDisk(h)
      && (h.main != Absent ==> OnDisk(h) != [] && Count(OnDisk(h), Opening) == 1)
  {
    if evs == [] {
      assert evs[..n] == evs;
    } else if n == |evs| {
      assert evs[..n] == evs;
      EveryRunIsSound(evs[..n - 1], n - 1);
      SoundStep(Run(NEW_HOST, evs[..n - 1]), evs[n - 1]);
    } else {
      var front := evs[..|evs| - 1];
      EveryRunIsSound(front, n);
      assert front[..n] == evs[..n];
      SoundStep(Run(NEW_HOST, front), evs[|evs| - 1]);
    }
    var h := Run(NEW_HOST, evs);
    if h.main != Absent {
      OneOpening(h.main.log);
    }
  }

  function Ticks(h: Host, n: nat): Host {
    if n == 0 then h else Next(Ticks(h, n - 1), Tick)
  }

  /** A crash after any number of micro-steps of a successful call loads the log
      from before the call, unless all three steps were done; then the log after it. */
  lemma CrashDuringAppend(h: Host, op: Op, n: nat)
    requires Sound(h) && h.proc.Idle? && Perform(h.proc.mem, op).Success?
    ensures var crashed := Next(Ticks(Next(h, Call(op)), n), Crash);
      Next(crashed, Start).proc == Idle(if n < 3 then h.proc.mem else Perform(h.proc.mem, op).value)
  {
    var h1 := Next(h, Call(op));
    var mem := h1.proc.mem;
    if n >= 3 {
      TicksAfterThree(h1, n);
    } else if n == 2 {
      assert Ticks(h1, 1) == h.(tmp := Torn, proc := Appending(mem, Writing));
    }
  }

  lemma {:induction false} TicksAfterThree(h: Host, n: nat)
    requires h.proc.Appending? && h.proc.stage == InMemory && n >= 3
    ensures Ticks(h, n) == Host(Whole(h.proc.mem), Absent, Idle(h.proc.mem))
  {
    var mem := h.proc.mem;
    if n == 3 {
      assert Ticks(h, 0) == h;
      assert Ticks(h, 1) == h.(tmp := Torn, proc := Appending(mem, Writing));
      assert Ticks(h, 2) == h.(tmp := Whole(mem), proc := Appending(mem, Written));
    } else {
      TicksAfterThree(h, n - 1);
    }
  }
}
