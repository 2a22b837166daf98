/** N peers, their ledgers, and any number of delegations and inbound
    connections over a network that may drop, reorder and replay messages.
    Every event list is a run: an event that is not enabled changes nothing. */
module Swarm {
  import opened Prelude
  import opened LedgerLog
  import opened Roles

  /** A message with the id of the peer that sealed it. */
  datatype Envelope = Envelope(sender: PeerId, msg: Msg)

  datatype Delegation = Delegation(requester: PeerId, worker: PeerId, phase: RPhase, alive: bool)

  datatype Service = Service(worker: PeerId, phase: WPhase, alive: bool)

  /** `wire` holds every envelope ever sent; a receive may deliver any of them.
      `offers` notes each TASK_OFFER with the peer its connection is pinned to, if any. */
  datatype State = State(
    honest: set<PeerId>,
    up: set<PeerId>,
    ledgers: map<PeerId, Log>,
    wire: set<Envelope>,
    offers: set<(JobId, Option<PeerId>)>,
    delegations: map<JobId, Delegation>,
    services: map<nat, Service>)

  datatype Event =
    | Begin(peer: PeerId, job: JobId, worker: PeerId)
    | RequesterStep(job: JobId, input: RInput)
    | Connect(peer: PeerId, tid: nat)
    | WorkerStep(tid: nat, winput: WInput)
    | Crash(peer: PeerId)
    | Restart(peer: PeerId)
    | Inject(env: Envelope)

  function Init(honest: set<PeerId>): State {
    State(honest, honest, map p | p in honest :: [OPENING], {}, {}, map[], map[])
  }

  function Sent(sender: PeerId, out: Option<Msg>): set<Envelope> {
    if out == None then {} else {Envelope(sender, out.value)}
  }

  predicate Enabled(s: State, ev: Event) {
    match ev
    case Begin(peer, job, worker) =>
      && peer in s.up && peer in s.ledgers && IsDigest(worker)
      && job !in s.delegations && CanOffer(s.ledgers[peer])
    case RequesterStep(job, input) =>
      && job in s.delegations && s.delegations[job].alive && s.delegations[job].requester in s.ledgers
      && (input.Recv? ==> Envelope(input.sender, input.msg) in s.wire)
    case Connect(peer, tid) => peer in s.up && tid !in s.services
    case WorkerStep(tid, input) =>
      && tid in s.services && s.services[tid].alive && s.services[tid].worker in s.ledgers
      && (input.WRecv? ==> Envelope(input.sender, input.msg) in s.wire)
    case Crash(peer) => peer in s.up
    case Restart(peer) => peer in s.honest
    case Inject(env) => env.sender !in s.honest && IsDigest(env.sender)
  }

  function AfterRequester(s: State, job: JobId, input: RInput): State
    requires Enabled(s, RequesterStep(job, input))
  {
    var d := s.delegations[job];
    var r := Request(job, d.worker, d.phase, s.ledgers[d.requester], input);
    s.(delegations := s.delegations[job := d.(phase := r.phase)],
       ledgers := s.ledgers[d.requester := r.log],
       wire := s.wire + Sent(d.requester, r.out),
       offers := s.offers + if r.out.Some? && r.out.value.Offer? then {(r.out.value.job, PinOf(d.phase))} else {})
  }

  function AfterWorker(s: State, tid: nat, input: WInput): State
    requires Enabled(s, WorkerStep(tid, input))
  {
    var v := s.services[tid];
    var r := Serve(v.worker, v.phase, s.ledgers[v.worker], input);
    s.(services := s.services[tid := v.(phase := r.phase)],
       ledgers := s.ledgers[v.worker := r.log],
       wire := s.wire + Sent(v.worker, r.out))
  }

  /** A crash kills the unfinished threads of the peer; its ledger is on disk. */
  function AfterCrash(s: State, peer: PeerId): State {
    s.(up := s.up - {peer},
       delegations := map j | j in s.delegations :: (
         var d := s.delegations[j];
         if d.requester == peer && !RFinished(d.phase) then d.(alive := false) else d),
       services := map t | t in s.services :: (
         var v := s.services[t];
         if v.worker == peer && !v.phase.Ended? then v.(alive := false) else v))
  }

  function Next(s: State, ev: Event): State {
    if !Enabled(s, ev) then s else
    match ev
    case Begin(peer, job, worker) =>
      s.(delegations := s.delegations[job := Delegation(peer, worker, Checked, true)])
    case RequesterStep(job, input) => AfterRequester(s, job, input)
    case Connect(peer, tid) => s.(services := s.services[tid := Service(peer, AwaitHello, true)])
    case WorkerStep(tid, input) => AfterWorker(s, tid, input)
    case Crash(peer) => AfterCrash(s, peer)
    case Restart(peer) => s.(up := s.up + {peer})
    case Inject(env) => s.(wire := s.wire + {env})
  }

  function Run(s: State, evs: seq<Event>): State {
    if evs == [] then s else Next(Run(s, evs[..|evs| - 1]), evs[|evs| - 1])
  }
}
