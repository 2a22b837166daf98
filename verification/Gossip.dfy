/** Beacons among a finite set of peers, with a unicast reply on first sight. */
module Gossip {
  import opened Prelude
  import opened Roles
  import opened Discovery

  datatype Beacon = Beacon(from: PeerId, to: PeerId)

  /** `known` holds (q, p) when p has a row in the table of q; `flight` the
      beacons under way; the counters are totals of the run so far. */
  datatype Net = Net(known: set<(PeerId, PeerId)>, flight: seq<Beacon>, replies: nat, evictions: nat)

  datatype Event =
    | Broadcast(from: PeerId, to: PeerId)
    | Deliver(i: nat)
    | Drop(j: nat)
    | Evict(owner: PeerId, row: PeerId)

  const QUIET := Net({}, [], 0, 0)

  function Without<T>(s: seq<T>, i: nat): seq<T>
    requires i < |s|
  {
    s[..i] + s[i + 1..]
  }

  /** The receiver's own echo is ignored; an unknown sender is entered and answered. */
  function Receive(n: Net, b: Beacon): Net {
    if b.from == b.to || (b.to, b.from) in n.known then n
    else n.(known := n.known + {(b.to, b.from)}, flight := n.flight + [Beacon(b.to, b.from)], replies := n.replies + 1)
  }

  function Next(n: Net, ev: Event, peers: set<PeerId>): Net {
    match ev
    case Broadcast(from, to) =>
      if from in peers && to in peers then n.(flight := n.flight + [Beacon(from, to)]) else n
    case Deliver(i) => if i < |n.flight| then Receive(n.(flight := Without(n.flight, i)), n.flight[i]) else n
    case Drop(j) => if j < |n.flight| then n.(flight := Without(n.flight, j)) else n
    case Evict(owner, row) =>
      if (owner, row) in n.known then n.(known := n.known - {(owner, row)}, evictions := n.evictions + 1) else n
  }

  function Run(n: Net, evs: seq<Event>, peers: set<PeerId>): Net {
    if evs == [] then n else Next(Run(n, evs[..|evs| - 1], peers), evs[|evs| - 1], peers)
  }

  /** All ordered pairs of different peers. */
  function Pairs(peers: set<PeerId>): set<(PeerId, PeerId)> {
    set p, q | p in peers && q in peers && p != q :: (p, q)
  }

  ghost predicate Inv(n: Net, peers: set<PeerId>) {
    && n.known <= Pairs(peers)
    && (forall b :: b in n.flight ==> b.from in peers && b.to in peers)
    && n.replies == |n.known| + n.evictions
  }

  lemma StepKeeps(n: Net, ev: Event, peers: set<PeerId>)
    requires Inv(n, peers)
    ensures Inv(Next(n, ev, peers), peers)
  {
    if ev.Deliver? && ev.i < |n.flight| {
      assert n.flight[ev.i] in n.flight;
    }
  }

  lemma {:induction false} RunKeeps(evs: seq<Event>, peers: set<PeerId>)
    ensures Inv(Run(QUIET, evs, peers), peers)
  {
    if evs != [] {
      RunKeeps(evs[..|evs| - 1], peers);
      StepKeeps(Run(QUIET, evs[..|evs| - 1], peers), evs[|evs| - 1], peers);
    }
  }

  lemma {:induction false} PairsCount(peers: set<PeerId>)
    ensures |Pairs(peers)| == |peers| * (|peers| - 1)
    decreases |peers|
  {
    if peers == {} {
      assert Pairs(peers) == {};
    } else {
      var p :| p in peers;
      var rest := peers - {p};
      PairsCount(rest);
      PairsWithOneMore(rest, p);
      assert peers == rest + {p};
    }
  }

  lemma PairsWithOneMore(rest: set<PeerId>, p: PeerId)
    requires p !in rest
    ensures |Pairs(rest + {p})| == |Pairs(rest)| + 2 * |rest|
  {
    var out := set q | q in rest :: (p, q);
    var back := set q | q in rest :: (q, p);
    OutAndBack(rest, p, out, back);
    assert Pairs(rest + {p}) == Pairs(rest) + out + back;
    assert Pairs(rest) !! out && Pairs(rest) !! back && out !! back;
  }

  lemma OutAndBack(rest: set<PeerId>, p: PeerId, out: set<(PeerId, PeerId)>, back: set<(PeerId, PeerId)>)
    requires out == set q | q in rest :: (p, q)
    requires back == set q | q in rest :: (q, p)
    ensures |out| == |rest| && |back| == |rest|
  {
    var second, first := (x: (PeerId, PeerId)) => x.1, (x: (PeerId, PeerId)) => x.0;
    forall q | q in rest
      ensures (exists x :: x in out && second(x) == q) && (exists x :: x in back && first(x) == q)
    {
      assert (p, q) in out && second((p, q)) == q;
      assert (q, p) in back && first((q, p)) == q;
    }
    KeyedSize(rest, out, second);
    KeyedSize(rest, back, first);
  }

  /** Over any run of N peers, first-sight replies number at most N(N-1) plus the
      rows evicted; exactly, they are the rows now held plus those evicted. */
  lemma RepliesAreBounded(evs: seq<Event>, peers: set<PeerId>)
    ensures var n := Run(QUIET, evs, peers);
      && n.replies == |n.known| + n.evictions
      && n.replies <= |peers| * (|peers| - 1) + n.evictions
  {
    RunKeeps(evs, peers);
    PairsCount(peers);
    SubsetSize(Run(QUIET, evs, peers).known, Pairs(peers));
  }

  // ---- draining

  /** Twice the missing rows plus the beacons in flight. */
  function Pending(n: Net, peers: set<PeerId>): int {
    2 * (|Pairs(peers)| - |n.known|) + |n.flight|
  }

  /** A beacon under way arrives or is lost. */
  predicate Lands(n: Net, ev: Event) {
    (ev.Deliver? && ev.i < |n.flight|) || (ev.Drop? && ev.j < |n.flight|)
  }

  lemma DeliveryDecreases(n: Net, ev: Event, peers: set<PeerId>)
    requires Inv(n, peers) && Lands(n, ev)
    ensures 0 <= Pending(Next(n, ev, peers), peers) < Pending(n, peers)
  {
    StepKeeps(n, ev, peers);
    SubsetSize(Next(n, ev, peers).known, Pairs(peers));
    SubsetSize(n.known, Pairs(peers));
  }

  /** Only deliveries and losses of beacons that are under way. */
  predicate NoNewBeacons(n: Net, evs: seq<Event>, peers: set<PeerId>) {
    evs == [] || (NoNewBeacons(n, evs[..|evs| - 1], peers) && Lands(Run(n, evs[..|evs| - 1], peers), evs[|evs| - 1]))
  }

  /** With periodic sends and evictions paused, the cascade of replies drains:
      no more deliveries and losses can follow than the pending measure allows. */
  lemma {:induction false} CascadeDrains(n: Net, evs: seq<Event>, peers: set<PeerId>)
    requires Inv(n, peers) && NoNewBeacons(n, evs, peers)
    ensures Inv(Run(n, evs, peers), peers)
    ensures |evs| <= Pending(n, peers) - Pending(Run(n, evs, peers), peers)
    ensures Pending(Run(n, evs, peers), peers) >= |Run(n, evs, peers).flight|
  {
    if evs != [] {
      var front := evs[..|evs| - 1];
      CascadeDrains(n, front, peers);
      DeliveryDecreases(Run(n, front, peers), evs[|evs| - 1], peers);
      StepKeeps(Run(n, front, peers), evs[|evs| - 1], peers);
    }
    SubsetSize(Run(n, evs, peers).known, Pairs(peers));
  }

  /** Delivering everything leaves nothing in flight, and then each pair that met
      knows each other: whoever was entered has had its answer delivered. */
  lemma {:induction false} DeliverAll(n: Net, peers: set<PeerId>) returns (evs: seq<Event>)
    requires Inv(n, peers)
    ensures NoNewBeacons(n, evs, peers) && Run(n, evs, peers).flight == []
    ensures n.known <= Run(n, evs, peers).known
    ensures forall b :: b in n.flight && b.from != b.to ==> (b.to, b.from) in Run(n, evs, peers).known
    ensures forall pair :: pair in Run(n, evs, peers).known - n.known ==> (pair.1, pair.0) in Run(n, evs, peers).known
    decreases Pending(n, peers)
  {
    if n.flight == [] {
      evs := [];
    } else {
      var first := Deliver(0);
      var n' := Next(n, first, peers);
      StepKeeps(n, first, peers);
      DeliveryDecreases(n, first, peers);
      var rest := DeliverAll(n', peers);
      evs := [first] + rest;
      Prepend(n, first, rest, peers);
      DeliveredIsKnown(n, peers);
    }
  }

  lemma {:induction false} Prepend(n: Net, ev: Event, evs: seq<Event>, peers: set<PeerId>)
    ensures Run(n, [ev] + evs, peers) == Run(Next(n, ev, peers), evs, peers)
    ensures Lands(n, ev) && NoNewBeacons(Next(n, ev, peers), evs, peers) ==> NoNewBeacons(n, [ev] + evs, peers)
  {
    if evs == [] {
      assert [ev] + evs == [ev] && [ev][..0] == [];
    } else {
      Prepend(n, ev, evs[..|evs| - 1], peers);
      assert ([ev] + evs)[..|[ev] + evs| - 1] == [ev] + evs[..|evs| - 1];
    }
  }

  lemma DeliveredIsKnown(n: Net, peers: set<PeerId>)
    requires n.flight != []
    ensures var b, n' := n.flight[0], Next(n, Deliver(0), peers);
      && n.known <= n'.known
      && (b.from != b.to ==> (b.to, b.from) in n'.known)
      && (forall c :: c in n.flight ==> c == b || c in n'.flight)
      && (forall pair :: pair in n'.known - n.known ==> Beacon(pair.0, pair.1) in n'.flight)
  {
    assert Without(n.flight, 0) == n.flight[1..];
    assert n.flight == [n.flight[0]] + n.flight[1..];
  }

  // ---- the net and the tables

  type Tables = map<PeerId, map<PeerId, PeerInfo>>

  /** The net knows what the tables hold. */
  ghost predicate Mirrors(n: Net, tables: Tables) {
    forall q, p :: (q, p) in n.known <==> q in tables && p in tables[q]
  }

  /** Delivering a beacon is what `_handle_beacon` does with one that is valid or
      an echo: the same rows, and a reply exactly when it says so. */
  lemma DeliveryIsHandling(n: Net, b: Beacon, tables: Tables, d: Datagram, host: string, now: int)
    requires Mirrors(n, tables) && b.to in tables && d.Verified? && d.sender == b.from
    requires b.from == b.to || RowOf(b.to, d, host, now).Some?
    ensures var (table, reply) := Handled(b.to, tables[b.to], d, host, now);
      && Mirrors(Receive(n, b), tables[b.to := table])
      && Receive(n, b).flight == n.flight + (if reply then [Beacon(b.to, b.from)] else [])
      && Receive(n, b).replies == n.replies + (if reply then 1 else 0)
  {
  }

  /** One expiry is a run of evictions. */
  lemma {:induction false} ExpiryIsEvicting(n: Net, tables: Tables, q: PeerId, now: int, peers: set<PeerId>, gone: set<PeerId>)
    returns (evs: seq<Event>)
    requires Mirrors(n, tables) && q in tables
    requires gone == set p | p in tables[q] && tables[q][p].lastSeen < now - PEER_TTL_SECONDS
    ensures forall ev :: ev in evs ==> ev.Evict? && ev.owner == q
    ensures var n' := Run(n, evs, peers);
      && Mirrors(n', tables[q := Unexpired(tables[q], now)])
      && n'.flight == n.flight && n'.replies == n.replies && n'.evictions == n.evictions + |gone|
    decreases |gone|
  {
    if gone == {} {
      evs := [];
      assert forall p :: p in tables[q] ==> p !in gone;
      assert Unexpired(tables[q], now) == tables[q];
      assert tables[q := tables[q]] == tables;
    } else {
      hide Unexpired;
      var p :| p in gone;
      var first := Evict(q, p);
      var tables' := tables[q := tables[q] - {p}];
      assert Mirrors(Next(n, first, peers), tables');
      var rest := ExpiryIsEvicting(Next(n, first, peers), tables', q, now, peers, gone - {p});
      evs := [first] + rest;
      Prepend(n, first, rest, peers);
      SameUnexpired(tables[q], p, now);
      assert tables'[q := Unexpired(tables'[q], now)] == tables[q := Unexpired(tables[q], now)];
    }
  }

  lemma SameUnexpired(table: map<PeerId, PeerInfo>, p: PeerId, now: int)
    requires p in table && table[p].lastSeen < now - PEER_TTL_SECONDS
    ensures Unexpired(table - {p}, now) == Unexpired(table, now)
  {
  }
}
