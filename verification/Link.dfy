/** A connection as the two roles use it: `protocol.Connection` with its sends and
    handshakes, in terms of the messages the lines stand for.  What the network
    does to the connection is fixed in advance, so that outcomes can be stated. */
module Links {
  import opened Prelude
  import opened Roles
  import Identity
  import Framing
  import Protocol
  import Wire
  import Json

  /** `NoPeerName` is an OSError from `getpeername` on the new socket. */
  datatype Connecting = Connected | Refused | NoPeerName

  /** What happens to one connection: how connecting ends, which sends succeed,
      which waits see a line in time, and the bytes that arrive, as TCP cuts them. */
  datatype Network = Network(
    platform: Identity.Platform,
    connect: Connecting,
    sends: nat -> bool,
    inTime: nat -> bool,
    chunks: seq<Identity.Bytes>)

  /** What is left of a stream after `k` lines. */
  function Rest(s: Identity.Bytes, k: nat): Identity.Bytes {
    if k == 0 then s
    else
      var r := Rest(s, k - 1);
      r[|Framing.LineOf(r, Framing.MAX_LINE_BYTES)|..]
  }

  function StreamAt(net: Network, k: nat): Identity.Bytes {
    Rest(Framing.Flat(net.chunks), k)
  }

  function LineAt(net: Network, k: nat): Identity.Bytes {
    Framing.LineOf(StreamAt(net, k), Framing.MAX_LINE_BYTES)
  }

  lemma NextStream(net: Network, k: nat)
    ensures LineAt(net, k) == Framing.LineOf(StreamAt(net, k), Framing.MAX_LINE_BYTES)
    ensures StreamAt(net, k + 1) == StreamAt(net, k)[|LineAt(net, k)|..]
  {
  }

  /** What the `k`th wait meets, if the earlier ones met their lines. */
  function ArrivalAt(net: Network, k: nat): Arrival {
    if net.inTime(k) then Wire.ArrivalOf(net.platform, LineAt(net, k)) else Lost
  }

  function PayloadAt(net: Network, k: nat): Json.Json {
    var m := Protocol.Verify(net.platform, LineAt(net, k));
    if m.Success? then m.value.1 else Json.Null
  }

  class Link {
    const net: Network
    const conn: Protocol.Connection
    var sent: seq<Msg>
    var tries: nat
    var waits: nat

    /** The stream stands at the line that the next wait is for. */
    ghost predicate Aligned()
      reads this, conn, conn.reader
    {
      conn.platform == net.platform && conn.reader.Stream() == StreamAt(net, waits)
    }

    ghost predicate Unused()
      reads this, conn, conn.reader
    {
      Aligned() && conn.remote == None && sent == [] && tries == 0 && waits == 0
    }

    constructor (net: Network)
      ensures fresh(conn) && fresh(conn.reader) && Unused() && this.net == net
    {
      this.net := net;
      var reader := new Framing.LineReader(net.chunks);
      conn := new Protocol.Connection(net.platform, reader);
      sent, tries, waits := [], 0, 0;
    }

    /** A send reaches the socket whole, or raises. */
    method Send(m: Msg) returns (ok: bool)
      modifies this`sent, this`tries
      ensures ok == net.sends(old(tries)) && tries == old(tries) + 1
      ensures sent == if ok then old(sent) + [m] else old(sent)
    {
      ok := net.sends(tries);
      tries := tries + 1;
      if ok {
        sent := sent + [m];
      }
    }

    /** What the machines receive is what the next line stands for, unless the wait
        times out. */
    method Recv(expected: set<MsgType>) returns (r: Arrival, payload: Json.Json)
      requires OTHER !in expected && Aligned()
      modifies this`waits, conn.reader
      ensures r == Received(conn.remote, expected, ArrivalAt(net, old(waits)))
      ensures r.Arrived? ==> payload == PayloadAt(net, old(waits))
      ensures waits == old(waits) + 1 && (r.Arrived? ==> Aligned())
    {
      hide Wire.ArrivalOf, Wire.Names, Wire.MsgOf, Framing.LineOf, StreamAt, LineAt, ArrivalAt, PayloadAt, Received;
      hide Protocol.Inspect, Protocol.Verify;
      var k := waits;
      ArrivalOfLine(net, k, conn.remote, expected);
      NextStream(net, k);
      waits := waits + 1;
      if !net.inTime(k) {
        return Lost, Json.Null;
      }
      var got := conn.Recv(Wire.Names(expected));
      match got {
        case Success(m) => r, payload := Arrived(m.0, Wire.MsgOf(m.1)), m.1;
        case Failure(e) => r, payload := if e == Protocol.Uncaught then Raises else Lost, Json.Null;
      }
    }

    /** Greets, then pins the sender of the greeting that comes back. */
    method HandshakeOutbound() returns (r: Arrival)
      requires Aligned()
      modifies this, conn`remote, conn.reader
      ensures tries == old(tries) + 1
      ensures sent == if net.sends(old(tries)) then old(sent) + [Handshake] else old(sent)
      ensures r == if net.sends(old(tries)) then Received(old(conn.remote), {HANDSHAKE}, ArrivalAt(net, old(waits))) else Lost
      ensures conn.remote == if r.Arrived? then Some(r.sender) else old(conn.remote)
      ensures r.Arrived? ==> waits == old(waits) + 1 && Aligned()
    {
      hide ArrivalAt, PayloadAt, StreamAt;
      var ok := Send(Handshake);
      if !ok {
        return Lost;
      }
      var payload;
      r, payload := Recv({HANDSHAKE});
      if r.Arrived? {
        conn.remote := Some(r.sender);
      }
    }

    /** Pins the sender of the greeting before answering it. */
    method HandshakeInbound() returns (peer: Option<PeerId>)
      requires Aligned()
      modifies this, conn`remote, conn.reader
      ensures var hello := Received(old(conn.remote), {HANDSHAKE}, ArrivalAt(net, old(waits)));
        if hello.Arrived? then
          && conn.remote == Some(hello.sender) && tries == old(tries) + 1
          && peer == (if net.sends(old(tries)) then conn.remote else None)
          && sent == old(sent) + (if net.sends(old(tries)) then [Handshake] else [])
          && waits == old(waits) + 1 && Aligned()
        else peer == None && conn.remote == old(conn.remote) && sent == old(sent) && tries == old(tries)
    {
      hide ArrivalAt, PayloadAt, StreamAt;
      var r, payload := Recv({HANDSHAKE});
      if !r.Arrived? {
        return None;
      }
      conn.remote := Some(r.sender);
      var ok := Send(Handshake);
      peer := if ok then conn.remote else None;
    }
  }

  /** What `recv` makes of the line is what the machines receive. */
  lemma ArrivalOfLine(net: Network, k: nat, remote: Option<PeerId>, expected: set<MsgType>)
    requires OTHER !in expected
    ensures !net.inTime(k) ==> Received(remote, expected, ArrivalAt(net, k)) == Lost
    ensures net.inTime(k) ==>
      match Protocol.Inspect(net.platform, remote, Wire.Names(expected), LineAt(net, k))
      case Success(m) =>
        && Received(remote, expected, ArrivalAt(net, k)) == Arrived(m.0, Wire.MsgOf(m.1))
        && PayloadAt(net, k) == m.1
      case Failure(e) =>
        Received(remote, expected, ArrivalAt(net, k)) == if e == Protocol.Uncaught then Raises else Lost
  {
    hide Wire.ArrivalOf, Wire.Names, Wire.MsgOf, LineAt, Protocol.Verify;
    Wire.InspectIsReceived(net.platform, remote, expected, LineAt(net, k));
  }
}
