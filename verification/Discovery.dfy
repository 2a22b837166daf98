/** The gossip-built peer table: a lazily expired cache of beacons. */
module Discovery {
  import opened Prelude
  import opened Order
  import opened Roles

  const PEER_TTL_SECONDS := 30

  datatype Manifest = Manifest(peerId: string, harnesses: map<string, string>, maxRuntime: int, acceptsTasks: bool)

  /** A manifest as received; `Mistyped` stands for any missing or ill-typed field. */
  datatype RawManifest = Mistyped | Typed(manifest: Manifest)

  /** The JSON value under `tcp_port`.  A Python bool is an int. */
  datatype RawPort = PortInt(n: int) | PortBool(b: bool) | PortOther

  /** A datagram after `Identity.open`. */
  datatype Datagram =
    | Unverifiable
    | Verified(sender: PeerId, isBeacon: bool, port: RawPort, manifest: RawManifest)

  datatype PeerInfo = PeerInfo(peerId: PeerId, host: string, tcpPort: int, manifest: Manifest, lastSeen: int)

  predicate ValidManifest(m: RawManifest) {
    m.Typed? && m.manifest.peerId != "" && m.manifest.maxRuntime > 0
  }

  function PortNumber(p: RawPort): Option<int> {
    match p
    case PortInt(n) => Some(n)
    case PortBool(b) => Some(if b then 1 else 0)
    case PortOther => None
  }

  /** The table row an accepted datagram produces. */
  function RowOf(me: PeerId, d: Datagram, host: string, now: int): Option<PeerInfo> {
    if d.Verified? && d.sender != me && d.isBeacon
       && PortNumber(d.port).Some? && 0 < PortNumber(d.port).value < 65536
       && ValidManifest(d.manifest) && d.manifest.manifest.peerId == d.sender
    then Some(PeerInfo(d.sender, host, PortNumber(d.port).value, d.manifest.manifest, now))
    else None
  }

  /** The table after a datagram, and whether a reply is due: on first sight. */
  function Handled(me: PeerId, table: map<PeerId, PeerInfo>, d: Datagram, host: string, now: int)
    : (map<PeerId, PeerInfo>, bool)
  {
    match RowOf(me, d, host, now)
    case None => (table, false)
    case Some(row) => (table[row.peerId := row], row.peerId !in table)
  }

  // ---- the history, and the view it determines

  type History = seq<PeerInfo>

  /** The latest accepted beacon of a sender. */
  function Latest(h: History, id: PeerId): Option<PeerInfo> {
    if h == [] then None
    else if h[|h| - 1].peerId == id then Some(h[|h| - 1])
    else Latest(h[..|h| - 1], id)
  }

  predicate Live(h: History, row: PeerInfo, t: int) {
    Latest(h, row.peerId) == Some(row) && row.lastSeen >= t - PEER_TTL_SECONDS
  }

  function Ids(rows: seq<PeerInfo>): (ids: seq<PeerId>)
    ensures |ids| == |rows| && forall i :: 0 <= i < |rows| ==> ids[i] == rows[i].peerId
  {
    seq(|rows|, i requires 0 <= i < |rows| => rows[i].peerId)
  }

  /** The live rows at time `t`, sorted by id: a function of the history alone. */
  ghost predicate IsView(rows: seq<PeerInfo>, h: History, t: int) {
    && Increasing(Ids(rows))
    && forall row :: row in rows <==> Live(h, row, t)
  }

  lemma ViewIsUnique(r: seq<PeerInfo>, q: seq<PeerInfo>, h: History, t: int)
    requires IsView(r, h, t) && IsView(q, h, t)
    ensures r == q
  {
    forall id ensures id in Ids(r) <==> id in Ids(q) {
      SameIds(r, q, id);
      SameIds(q, r, id);
    }
    IncreasingIsUnique(Ids(r), Ids(q));
    forall i | 0 <= i < |r| ensures r[i] == q[i] {
      assert Ids(r)[i] == Ids(q)[i];
      assert r[i] in r && q[i] in q;
    }
  }

  lemma SameIds(r: seq<PeerInfo>, q: seq<PeerInfo>, id: PeerId)
    requires forall row :: row in r ==> row in q
    ensures id in Ids(r) ==> id in Ids(q)
  {
    if id in Ids(r) {
      var i :| 0 <= i < |r| && Ids(r)[i] == id;
      assert r[i] in q;
      var k :| 0 <= k < |q| && q[k] == r[i];
      assert Ids(q)[k] == id;
    }
  }

  /** The table agrees with the history, except that it may lack rows that were
      already expired at `clock`. */
  ghost predicate Refines(table: map<PeerId, PeerInfo>, h: History, clock: int) {
    && (forall i :: 0 <= i < |h| ==> h[i].lastSeen <= clock)
    && (forall id :: id in table ==> Latest(h, id) == Some(table[id]))
    && (forall id :: id !in table && Latest(h, id).Some? ==>
          Latest(h, id).value.lastSeen < clock - PEER_TTL_SECONDS)
  }

  lemma {:induction false} LatestIsRecorded(h: History, id: PeerId)
    ensures Latest(h, id).Some? ==> Latest(h, id).value in h && Latest(h, id).value.peerId == id
  {
    if h != [] && h[|h| - 1].peerId != id {
      LatestIsRecorded(h[..|h| - 1], id);
    }
  }

  /** The rows of a table in the order of their keys. */
  function SortedRows(table: map<PeerId, PeerInfo>): (rows: seq<PeerInfo>)
    ensures |rows| == |Sorted(table.Keys)|
    ensures forall i :: 0 <= i < |rows| ==> Sorted(table.Keys)[i] in table && rows[i] == table[Sorted(table.Keys)[i]]
  {
    var ids := Sorted(table.Keys);
    assert forall i :: 0 <= i < |ids| ==> ids[i] in ids;
    seq(|ids|, i requires 0 <= i < |ids| => table[ids[i]])
  }

  /** A table without expired rows lists exactly the view of its history. */
  lemma SortedRowsAreView(table: map<PeerId, PeerInfo>, h: History, now: int)
    requires Refines(table, h, now)
    requires forall id :: id in table ==> table[id].lastSeen >= now - PEER_TTL_SECONDS
    ensures IsView(SortedRows(table), h, now)
  {
    var ids, rows := Sorted(table.Keys), SortedRows(table);
    forall i | 0 <= i < |ids| ensures Ids(rows)[i] == ids[i] {
      LatestIsRecorded(h, ids[i]);
    }
    assert Ids(rows) == ids;
    forall row ensures row in rows <==> Live(h, row, now) {
      if row in rows {
        var i :| 0 <= i < |rows| && rows[i] == row;
        LatestIsRecorded(h, ids[i]);
      }
      if Live(h, row, now) {
        assert row.peerId in table;
        var i :| 0 <= i < |ids| && ids[i] == row.peerId;
        assert rows[i] == row;
      }
    }
  }

  function Unexpired(table: map<PeerId, PeerInfo>, now: int): map<PeerId, PeerInfo> {
    map id | id in table && table[id].lastSeen >= now - PEER_TTL_SECONDS :: table[id]
  }

  lemma ExpiredAreRest(table: map<PeerId, PeerInfo>, now: int)
    ensures Unexpired(table, now) == table - (set id | id in table && table[id].lastSeen < now - PEER_TTL_SECONDS)
    ensures forall id :: id in Unexpired(table, now) ==> id in table
  {
  }

  lemma ExpiryRefines(table: map<PeerId, PeerInfo>, h: History, clock: int, now: int)
    requires Refines(table, h, clock) && clock <= now
    ensures Refines(Unexpired(table, now), h, now)
    ensures forall id :: id in Unexpired(table, now) ==> Unexpired(table, now)[id].lastSeen >= now - PEER_TTL_SECONDS
  {
  }

  // ---- what was received, and what it comes to

  /** A datagram with its source host and the time it was handled. */
  datatype Reception = Reception(d: Datagram, host: string, at: int)

  predicate NamesPort(p: RawPort, port: int) {
    p == PortInt(port) || (p == PortBool(true) && port == 1)
  }

  /** The reception is a verified BEACON of another peer, with a port and a manifest
      of its own, and `row` says just what it says and when it came. */
  predicate Announces(r: Reception, me: PeerId, row: PeerInfo) {
    && r.d.Verified? && r.d.isBeacon && r.d.sender == row.peerId && row.peerId != me
    && NamesPort(r.d.port, row.tcpPort) && 1 <= row.tcpPort <= 65535
    && r.d.manifest == Typed(row.manifest)
    && row.manifest.peerId == row.peerId && row.peerId != "" && row.manifest.maxRuntime > 0
    && r.host == row.host && r.at == row.lastSeen
  }

  /** What `peers()` promises at time `t`: the row was announced, not more than
      thirty seconds ago, and its peer has announced nothing since. */
  ghost predicate Shown(rs: seq<Reception>, me: PeerId, row: PeerInfo, t: int) {
    && t - 30 <= row.lastSeen
    && LastWord(rs, me, row)
  }

  ghost predicate LastWord(rs: seq<Reception>, me: PeerId, row: PeerInfo) {
    exists k :: 0 <= k < |rs| && Announces(rs[k], me, row) && Silent(rs, k + 1, me, row.peerId)
  }

  /** No announcement by `id` from position `k` on. */
  ghost predicate Silent(rs: seq<Reception>, k: nat, me: PeerId, id: PeerId) {
    forall m, row :: k <= m < |rs| && Announces(rs[m], me, row) ==> row.peerId != id
  }

  /** The accepted beacons among the receptions. */
  function Recorded(rs: seq<Reception>, me: PeerId): History {
    if rs == [] then []
    else
      var last := rs[|rs| - 1];
      Recorded(rs[..|rs| - 1], me)
      + if RowOf(me, last.d, last.host, last.at).Some? then [RowOf(me, last.d, last.host, last.at).value] else []
  }

  lemma RowIsAnnounced(r: Reception, me: PeerId, row: PeerInfo)
    ensures RowOf(me, r.d, r.host, r.at) == Some(row) <==> Announces(r, me, row)
  {
  }

  lemma LastWordAfter(rs: seq<Reception>, me: PeerId, row: PeerInfo)
    requires rs != []
    ensures var last := rs[|rs| - 1];
      LastWord(rs, me, row)
      <==> Announces(last, me, row)
           || (LastWord(rs[..|rs| - 1], me, row)
               && !exists other :: Announces(last, me, other) && other.peerId == row.peerId)
  {
    hide Announces;
    var front, last := rs[..|rs| - 1], rs[|rs| - 1];
    if LastWord(rs, me, row) && !Announces(last, me, row) {
      var k :| 0 <= k < |rs| && Announces(rs[k], me, row) && Silent(rs, k + 1, me, row.peerId);
      assert front[k] == rs[k];
      assert Silent(front, k + 1, me, row.peerId);
    }
    if LastWord(front, me, row) && !exists other :: Announces(last, me, other) && other.peerId == row.peerId {
      var k :| 0 <= k < |front| && Announces(front[k], me, row) && Silent(front, k + 1, me, row.peerId);
      assert rs[k] == front[k];
      assert forall m :: k + 1 <= m < |front| ==> rs[m] == front[m];
      assert Silent(rs, k + 1, me, row.peerId);
    }
    if Announces(last, me, row) {
      assert Silent(rs, |rs|, me, row.peerId);
    }
  }

  /** The latest accepted beacon of a peer is its last announcement. */
  lemma {:induction false} LatestIsLastWord(rs: seq<Reception>, me: PeerId, row: PeerInfo)
    ensures Latest(Recorded(rs, me), row.peerId) == Some(row) <==> LastWord(rs, me, row)
  {
    if rs != [] {
      hide RowOf, Announces, LastWord;
      var front, last := rs[..|rs| - 1], rs[|rs| - 1];
      var row0 := RowOf(me, last.d, last.host, last.at);
      var h := Recorded(front, me);
      LatestIsLastWord(front, me, row);
      LastWordAfter(rs, me, row);
      RowIsAnnounced(last, me, row);
      forall other ensures Announces(last, me, other) <==> row0 == Some(other) {
        RowIsAnnounced(last, me, other);
      }
      if row0.Some? {
        assert (h + [row0.value])[..|h|] == h;
      } else {
        assert h + [] == h;
      }
    }
  }

  lemma LiveIsShown(rs: seq<Reception>, me: PeerId, row: PeerInfo, t: int)
    ensures Live(Recorded(rs, me), row, t) <==> Shown(rs, me, row, t)
  {
    hide LastWord, Latest;
    LatestIsLastWord(rs, me, row);
  }

  lemma RecordedAfter(rs: seq<Reception>, r: Reception, me: PeerId)
    ensures Recorded(rs + [r], me)
            == Recorded(rs, me) + if RowOf(me, r.d, r.host, r.at).Some? then [RowOf(me, r.d, r.host, r.at).value] else []
  {
    assert (rs + [r])[..|rs|] == rs;
  }

  /** Handling a datagram enters what it announces, and nothing else. */
  lemma HandledIsAnnounced(me: PeerId, table: map<PeerId, PeerInfo>, r: Reception)
    ensures var (after, reply) := Handled(me, table, r.d, r.host, r.at);
      && (forall row :: Announces(r, me, row) ==> after == table[row.peerId := row] && (reply <==> row.peerId !in table))
      && (!(exists row :: Announces(r, me, row)) ==> after == table && !reply)
  {
    hide RowOf, Announces;
    forall row ensures RowOf(me, r.d, r.host, r.at) == Some(row) <==> Announces(r, me, row) {
      RowIsAnnounced(r, me, row);
    }
  }

  lemma ViewShows(rows: seq<PeerInfo>, rs: seq<Reception>, me: PeerId, t: int)
    requires IsView(rows, Recorded(rs, me), t)
    ensures forall row :: row in rows <==> Shown(rs, me, row, t)
    ensures forall i, j :: 0 <= i < j < |rows| ==> Precedes(rows[i].peerId, rows[j].peerId)
    ensures forall i, j :: 0 <= i < j < |rows| && |rows[i].peerId| == |rows[j].peerId| ==>
      exists k: nat :: k < |rows[i].peerId| && DiffersDownAt(rows[i].peerId, rows[j].peerId, k)
  {
    hide Live, Shown, Precedes, DiffersDownAt;
    forall row ensures row in rows <==> Shown(rs, me, row, t) {
      LiveIsShown(rs, me, row, t);
    }
    SortedPrecedes(Ids(rows));
    forall i, j | 0 <= i < j < |rows|
      ensures Precedes(rows[i].peerId, rows[j].peerId)
      ensures |rows[i].peerId| == |rows[j].peerId| ==>
        exists k: nat :: k < |rows[i].peerId| && DiffersDownAt(rows[i].peerId, rows[j].peerId, k)
    {
      assert Precedes(Ids(rows)[i], Ids(rows)[j]);
      if |rows[i].peerId| == |rows[j].peerId| {
        SameLengthDiffers(rows[i].peerId, rows[j].peerId);
      }
    }
  }

  /** A beacon heard at some time is listed for thirty seconds, unless its peer
      announces itself again; with the sender's host, port and manifest. */
  lemma BeaconIsListed(before: seq<Reception>, r: Reception, later: seq<Reception>, me: PeerId, port: int, t: int)
    requires r.d.Verified? && r.d.isBeacon && r.d.sender != me && r.d.sender != ""
    requires r.d.port == PortInt(port) && 1 <= port <= 65535
    requires r.d.manifest.Typed? && r.d.manifest.manifest.peerId == r.d.sender && r.d.manifest.manifest.maxRuntime > 0
    requires forall m :: 0 <= m < |later| && later[m].d.Verified? ==> later[m].d.sender != r.d.sender
    requires r.at <= t <= r.at + 30
    ensures Shown(before + [r] + later, me, PeerInfo(r.d.sender, r.host, port, r.d.manifest.manifest, r.at), t)
  {
    var rs := before + [r] + later;
    var row := PeerInfo(r.d.sender, r.host, port, r.d.manifest.manifest, r.at);
    assert rs[|before|] == r && Announces(r, me, row);
    assert forall m :: |before| < m < |rs| ==> rs[m] == later[m - |before| - 1];
    assert Silent(rs, |before| + 1, me, row.peerId);
  }

  class Discovery {
    const me: PeerId
    var table: map<PeerId, PeerInfo>
    ghost var receptions: seq<Reception>
    ghost var history: History
    ghost var clock: int

    ghost predicate Valid()
      reads this
    {
      && Refines(table, history, clock) && history == Recorded(receptions, me)
      && forall row :: row in history ==> row.peerId != me
    }

    constructor (me: PeerId, ghost now: int)
      ensures Valid() && this.me == me && table == map[] && receptions == [] && clock == now
    {
      this.me := me;
      table := map[];
      receptions := [];
      history := [];
      clock := now;
    }

    /** `reply` says that a unicast beacon goes back to the source address. */
    method HandleBeacon(d: Datagram, host: string, now: int) returns (reply: bool)
      requires Valid() && clock <= now
      modifies this
      ensures Valid() && clock == now
      ensures receptions == old(receptions) + [Reception(d, host, now)]
      ensures forall row :: Announces(Reception(d, host, now), me, row) ==>
        table == old(table)[row.peerId := row] && (reply <==> row.peerId !in old(table))
      ensures !(exists row :: Announces(Reception(d, host, now), me, row)) ==> table == old(table) && !reply
      ensures (table, reply) == Handled(me, old(table), d, host, now)
      ensures history == old(history)
                + if RowOf(me, d, host, now).Some? then [RowOf(me, d, host, now).value] else []
    {
      reply := false;
      ghost var r := Reception(d, host, now);
      RecordedAfter(receptions, r, me);
      HandledIsAnnounced(me, table, r);
      LaterRefines(table, history, clock, now);
      hide Announces, Refines, Latest, Recorded, ValidManifest, PortNumber;
      receptions := receptions + [r];
      clock := now;
      if d.Unverifiable? {
        return;
      }
      if d.sender == me {
        return;
      }
      if !d.isBeacon {
        return;
      }
      var port := PortNumber(d.port);
      if port == None || !(0 < port.value < 65536) {
        return;
      }
      if !ValidManifest(d.manifest) {
        return;
      }
      if d.manifest.manifest.peerId != d.sender {
        return;
      }
      reply := d.sender !in table;
      var row := PeerInfo(d.sender, host, port.value, d.manifest.manifest, now);
      HeardRefines(table, history, now, row);
      table := table[d.sender := row];
      history := history + [row];
    }

    /** The first half of `peers`: pops every row older than the TTL. */
    method Expire(now: int)
      modifies this`table
      ensures table == Unexpired(old(table), now)
    {
      var cutoff := now - PEER_TTL_SECONDS;
      var expired := set pid | pid in table && table[pid].lastSeen < cutoff;
      var todo := expired;
      while todo != {}
        invariant todo <= expired
        invariant table == old(table) - (expired - todo)
      {
        var pid :| pid in todo;
        table := table - {pid};
        todo := todo - {pid};
      }
      assert table == old(table) - expired;
      ExpiredAreRest(old(table), now);
    }

    /** Expires old rows, then lists the rest by id: exactly the last announcements
        of the past thirty seconds, in Python's order of strings. */
    method Peers(now: int) returns (rows: seq<PeerInfo>)
      requires Valid() && clock <= now
      modifies this
      ensures Valid() && clock == now && history == old(history) && receptions == old(receptions)
      ensures forall row :: row in rows <==> Shown(receptions, me, row, now)
      ensures forall i, j :: 0 <= i < j < |rows| ==> Precedes(rows[i].peerId, rows[j].peerId)
      ensures forall i, j :: 0 <= i < j < |rows| && |rows[i].peerId| == |rows[j].peerId| ==>
        exists k: nat :: k < |rows[i].peerId| && DiffersDownAt(rows[i].peerId, rows[j].peerId, k)
      ensures IsView(rows, history, now) && rows == SortedRows(table)
      ensures table == Unexpired(old(table), now)
    {
      hide SortedRows, Sorted, IsView, Latest, Refines, Unexpired, Shown, Precedes, DiffersDownAt, Recorded;
      ExpiryRefines(table, history, clock, now);
      ExpiredAreRest(table, now);
      Expire(now);
      clock := now;
      rows := SortedRows(table);
      SortedRowsAreView(table, history, now);
      ViewShows(rows, receptions, me, now);
    }

    method GetPeer(id: PeerId, now: int) returns (found: Option<PeerInfo>)
      requires Valid() && clock <= now
      modifies this
      ensures Valid() && clock == now && history == old(history)
      ensures found.Some? ==> found.value.peerId == id && Shown(receptions, me, found.value, now)
      ensures found == None ==> forall row: PeerInfo :: row.peerId == id ==> !Shown(receptions, me, row, now)
      ensures found.Some? ==> found.value.peerId == id && Live(history, found.value, now)
      ensures found == None ==> forall row: PeerInfo :: row.peerId == id ==> !Live(history, row, now)
    {
      hide SortedRows, Sorted, Unexpired, Latest, Refines, Increasing, Ids, Shown, Precedes, DiffersDownAt, Recorded;
      var rows := Peers(now);
      for i := 0 to |rows|
        invariant forall k :: 0 <= k < i ==> rows[k].peerId != id
      {
        if rows[i].peerId == id {
          assert rows[i] in rows;
          return Some(rows[i]);
        }
      }
      found := None;
    }
  }

  // ---- rebuilding

  lemma {:induction false} LatestOfConcat(h: History, c: History, id: PeerId)
    ensures Latest(h + c, id) == if Latest(c, id).Some? then Latest(c, id) else Latest(h, id)
  {
    if c == [] {
      assert h + c == h;
    } else {
      assert (h + c)[..|h + c| - 1] == h + c[..|c| - 1];
      LatestOfConcat(h, c[..|c| - 1], id);
    }
  }

  /** What was known at `t0` is forgotten thirty seconds later: any two tables,
      fed the same beacons since, then show the same peers. */
  lemma RebuiltFromGossip(before1: History, before2: History, common: History, t0: int, t: int, rows: seq<PeerInfo>)
    requires forall i :: 0 <= i < |before1| ==> before1[i].lastSeen <= t0
    requires forall i :: 0 <= i < |before2| ==> before2[i].lastSeen <= t0
    requires t > t0 + PEER_TTL_SECONDS
    ensures IsView(rows, before1 + common, t) <==> IsView(rows, before2 + common, t)
  {
    forall row ensures Live(before1 + common, row, t) <==> Live(before2 + common, row, t) {
      LatestOfConcat(before1, common, row.peerId);
      LatestOfConcat(before2, common, row.peerId);
      LatestIsRecorded(before1, row.peerId);
      LatestIsRecorded(before2, row.peerId);
    }
  }

  /** What happens to a table: an accepted beacon, or an expiry by some `peers` call. */
  datatype TableEvent = Heard(row: PeerInfo) | Expired(at: int)

  function Stamp(e: TableEvent): int {
    match e case Heard(row) => row.lastSeen case Expired(at) => at
  }

  function Feed(table: map<PeerId, PeerInfo>, es: seq<TableEvent>): map<PeerId, PeerInfo> {
    if es == [] then table
    else
      var before := Feed(table, es[..|es| - 1]);
      match es[|es| - 1]
      case Heard(row) => before[row.peerId := row]
      case Expired(at) => Unexpired(before, at)
  }

  function HeardIn(es: seq<TableEvent>): History {
    if es == [] then []
    else HeardIn(es[..|es| - 1]) + match es[|es| - 1] case Heard(row) => [row] case Expired(_) => []
  }

  predicate InOrder(es: seq<TableEvent>, t0: int, t: int) {
    && (forall i :: 0 <= i < |es| ==> t0 <= Stamp(es[i]) <= t)
    && (forall i, j :: 0 <= i < j < |es| ==> Stamp(es[i]) <= Stamp(es[j]))
  }

  lemma HeardRefines(table: map<PeerId, PeerInfo>, h: History, clock: int, row: PeerInfo)
    requires Refines(table, h, clock) && clock <= row.lastSeen
    ensures Refines(table[row.peerId := row], h + [row], row.lastSeen)
  {
    assert (h + [row])[..|h|] == h;
  }

  lemma LaterRefines(table: map<PeerId, PeerInfo>, h: History, clock: int, t: int)
    requires Refines(table, h, clock) && clock <= t
    ensures Refines(table, h, t)
  {
  }

  lemma {:induction false} FeedRefines(table: map<PeerId, PeerInfo>, h: History, t0: int, es: seq<TableEvent>, t: int)
    requires Refines(table, h, t0) && InOrder(es, t0, t) && t0 <= t
    ensures Refines(Feed(table, es), h + HeardIn(es), t)
  {
    hide Refines, Unexpired, Latest;
    if es == [] {
      LaterRefines(table, h, t0, t);
      assert h + [] == h;
    } else {
      var front, last := es[..|es| - 1], es[|es| - 1];
      FeedRefines(table, h, t0, front, Stamp(last));
      match last {
        case Heard(row) =>
          HeardRefines(Feed(table, front), h + HeardIn(front), Stamp(last), row);
          assert h + HeardIn(front) + [row] == h + (HeardIn(front) + [row]);
        case Expired(at) =>
          ExpiryRefines(Feed(table, front), h + HeardIn(front), at, at);
          assert HeardIn(es) == HeardIn(front);
      }
      LaterRefines(Feed(table, es), h + HeardIn(es), Stamp(last), t);
    }
  }

  /** A table of any content at `t0`, fed whatever beacons and expiries since,
      lists at `t` the view of some old history followed by those beacons. */
  lemma FedView(table: map<PeerId, PeerInfo>, t0: int, es: seq<TableEvent>, t: int) returns (past: History)
    requires forall id :: id in table ==> table[id].peerId == id && table[id].lastSeen <= t0
    requires InOrder(es, t0, t) && t0 <= t
    ensures IsView(SortedRows(Unexpired(Feed(table, es), t)), past + HeardIn(es), t)
    ensures forall i :: 0 <= i < |past| ==> past[i].lastSeen <= t0
  {
    hide IsView, SortedRows, Feed, HeardIn, Latest;
    past := TableHasHistory(table, t0);
    FeedRefines(table, past, t0, es, t);
    ExpiryRefines(Feed(table, es), past + HeardIn(es), t, t);
    SortedRowsAreView(Unexpired(Feed(table, es), t), past + HeardIn(es), t);
  }

  /** A restart converges: two tables of any content at `t0`, fed the same accepted
      beacons since, with expiries at whatever times, list the same peers at any
      time more than thirty seconds later. */
  lemma TablesConverge(table1: map<PeerId, PeerInfo>, table2: map<PeerId, PeerInfo>, t0: int,
                       es1: seq<TableEvent>, es2: seq<TableEvent>, t: int)
    requires forall id :: id in table1 ==> table1[id].peerId == id && table1[id].lastSeen <= t0
    requires forall id :: id in table2 ==> table2[id].peerId == id && table2[id].lastSeen <= t0
    requires InOrder(es1, t0, t) && InOrder(es2, t0, t) && HeardIn(es1) == HeardIn(es2)
    requires t > t0 + 30
    ensures SortedRows(Unexpired(Feed(table1, es1), t)) == SortedRows(Unexpired(Feed(table2, es2), t))
  {
    hide IsView, SortedRows, Unexpired, Feed, HeardIn;
    var past1 := FedView(table1, t0, es1, t);
    var past2 := FedView(table2, t0, es2, t);
    var rows1, rows2 := SortedRows(Unexpired(Feed(table1, es1), t)), SortedRows(Unexpired(Feed(table2, es2), t));
    RebuiltFromGossip(past1, past2, HeardIn(es1), t0, t, rows2);
    ViewIsUnique(rows1, rows2, past1 + HeardIn(es1), t);
  }

  /** Any table content is the trace of some history, so the previous lemma
      applies to tables of unknown origin. */
  lemma {:induction false} TableHasHistory(table: map<PeerId, PeerInfo>, t0: int) returns (h: History)
    requires forall id :: id in table ==> table[id].peerId == id && table[id].lastSeen <= t0
    ensures Refines(table, h, t0)
    decreases |table|
  {
    if table == map[] {
      h := [];
    } else {
      var id :| id in table;
      var rest := table - {id};
      var g := TableHasHistory(rest, t0);
      h := g + [table[id]];
      assert h[..|g|] == g;
      forall k ensures Latest(h, k) == if k == id then Some(table[id]) else Latest(g, k) {
      }
    }
  }
}
