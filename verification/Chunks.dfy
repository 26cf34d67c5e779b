/** Cutting a message into packets: Channel.sendPacket (protocol.go:229-339). */
module Chunks {
  import opened Packets
  import opened Frames
  import opened Statuses

  function ChunkEnd(size: nat, start: nat): (end: nat)
    requires start < size
    ensures start < end <= size
  {
    if size - start < MAX_PACKET_SIZE then size else start + MAX_PACKET_SIZE
  }

  function ChunkAt(role: Role, path: seq<byte>, id: uint32, data: seq<byte>, start: nat): Packet
    requires start < |data|
  {
    var end := ChunkEnd(|data|, start);
    Packet(StatusOf(role, start == 0, end == |data|), path, id, data[start..end])
  }

  /** The packets the loop builds for the bytes from start on. */
  function ChunksFrom(role: Role, path: seq<byte>, id: uint32, data: seq<byte>, start: nat): (cs: seq<Packet>)
    requires start < |data|
    decreases |data| - start
  {
    var end := ChunkEnd(|data|, start);
    [ChunkAt(role, path, id, data, start)] + if end == |data| then [] else ChunksFrom(role, path, id, data, end)
  }

  function ChunksOf(role: Role, id: uint32, m: Message): (cs: seq<Packet>)
    requires m.data != []
  {
    ChunksFrom(role, m.path, id, m.data, 0)
  }

  /** Number of packets needed for n bytes. */
  function ChunkCount(n: nat): nat {
    if n == 0 then 0 else if n < MAX_PACKET_SIZE then 1 else 1 + ChunkCount(n - MAX_PACKET_SIZE)
  }

  /** What w packets can carry. */
  function Capacity(w: nat): (n: nat)
    ensures n == w * MAX_PACKET_SIZE
    decreases w
  {
    if w == 0 then 0 else Capacity(w - 1) + MAX_PACKET_SIZE
  }

  /** The count is n divided by the packet size, rounded up. */
  lemma {:induction false} ChunkCountIsCeiling(n: nat)
    ensures n <= Capacity(ChunkCount(n)) < n + MAX_PACKET_SIZE
    decreases n
  {
    if n >= MAX_PACKET_SIZE {
      ChunkCountIsCeiling(n - MAX_PACKET_SIZE);
    } else if n > 0 {
      assert Capacity(1) == Capacity(0) + MAX_PACKET_SIZE;
    }
  }

  lemma {:induction false} ChunkCountBound(n: nat, w: nat)
    requires n <= Capacity(w)
    ensures ChunkCount(n) <= w
    decreases w
  {
    if n > 0 {
      ChunkCountBound(if n < MAX_PACKET_SIZE then 0 else n - MAX_PACKET_SIZE, w - 1);
    }
  }

  function DataOf(ps: seq<Packet>): seq<byte> {
    if ps == [] then [] else ps[0].data + DataOf(ps[1..])
  }

  function StatusesOf(ps: seq<Packet>): (s: seq<byte>)
    ensures |s| == |ps|
  {
    seq(|ps|, i requires 0 <= i < |ps| => ps[i].status)
  }

  lemma StatusesOfAppend(a: seq<Packet>, b: seq<Packet>)
    ensures StatusesOf(a + b) == StatusesOf(a) + StatusesOf(b)
  {
  }

  /** What the read loops and CreateNetPacket ask of a packet. */
  predicate Sendable(p: Packet) {
    && p.path != [] && |p.path| <= MAX_PATH_LEN && 0 !in p.path
    && 0 < |p.data| <= MAX_PACKET_SIZE
    && p.status != STATUS_CLOSE
  }

  /** What the users of a channel make sure of: ValidatePath, and data that is not empty. */
  predicate WellFormed(m: Message) {
    m.path != [] && 0 !in m.path && m.data != []
  }

  /** A packet is one of the loop's: full unless it is the last, with the status of its place. */
  predicate IsChunk(p: Packet, role: Role, path: seq<byte>, id: uint32, first: bool, last: bool) {
    && p.path == path && p.channelId == id
    && 0 < |p.data| <= MAX_PACKET_SIZE && (!last ==> |p.data| == MAX_PACKET_SIZE)
    && p.status == StatusOf(role, first, last)
  }

  /** So are all of these. */
  predicate AreChunks(cs: seq<Packet>, role: Role, path: seq<byte>, id: uint32, fromStart: bool) {
    forall i :: 0 <= i < |cs| ==> IsChunk(cs[i], role, path, id, fromStart && i == 0, i == |cs| - 1)
  }

  lemma ChunksCons(c: Packet, cs: seq<Packet>, role: Role, path: seq<byte>, id: uint32, fromStart: bool)
    requires cs != [] && IsChunk(c, role, path, id, fromStart, false) && AreChunks(cs, role, path, id, false)
    ensures AreChunks([c] + cs, role, path, id, fromStart) && DataOf([c] + cs) == c.data + DataOf(cs)
  {
    assert ([c] + cs)[1..] == cs;
  }

  lemma {:induction false} ChunksFromShape(role: Role, path: seq<byte>, id: uint32, data: seq<byte>, start: nat)
    requires start < |data|
    ensures
      var cs := ChunksFrom(role, path, id, data, start);
      && |cs| == ChunkCount(|data| - start)
      && DataOf(cs) == data[start..]
      && AreChunks(cs, role, path, id, start == 0)
    decreases |data| - start
  {
    var c, end := ChunkAt(role, path, id, data, start), ChunkEnd(|data|, start);
    if end == |data| {
      OneChunk(c);
    } else {
      ChunksFromShape(role, path, id, data, end);
      ChunksCons(c, ChunksFrom(role, path, id, data, end), role, path, id, start == 0);
      CutAt(data, start, end);
    }
  }

  lemma OneChunk(c: Packet)
    requires 0 < |c.data| <= MAX_PACKET_SIZE
    ensures DataOf([c]) == c.data && ChunkCount(|c.data|) == 1
  {
    assert DataOf([c]) == c.data + DataOf([]);
  }

  lemma CutAt<T>(s: seq<T>, i: nat, j: nat)
    requires i <= j <= |s|
    ensures s[i..] == s[i..j] + s[j..]
  {
  }

  /** Cutting keeps every byte in order, in as few packets as possible, all but the
      last one full, with the statuses of one message; each packet is one the peer accepts. */
  lemma ChunksOfMessage(role: Role, id: uint32, m: Message)
    requires m.data != []
    ensures
      var cs := ChunksOf(role, id, m);
      && |cs| == ChunkCount(|m.data|) > 0
      && DataOf(cs) == m.data
      && IsMessage(role, StatusesOf(cs))
      && AreChunks(cs, role, m.path, id, true)
      && (WellFormed(m) && |m.path| <= MAX_PATH_LEN ==> forall i :: 0 <= i < |cs| ==> Sendable(cs[i]))
  {
    ChunksFromShape(role, m.path, id, m.data, 0);
    assert m.data[0..] == m.data;
  }

  /** A message that does not fit one packet has no packet that is first and last: the loop's
      branches for such a packet are never taken. */
  lemma NeverFirstAndLast(role: Role, id: uint32, m: Message)
    requires |m.data| > MAX_PACKET_SIZE
    ensures
      var cs := ChunksOf(role, id, m);
      |cs| > 1 && forall i :: 0 <= i < |cs| ==> cs[i].status != StatusOf(role, true, true)
  {
    ChunksOfMessage(role, id, m);
    ChunkCountIsCeiling(|m.data|);
    var cs := ChunksOf(role, id, m);
    assert |cs| != 1 by { assert Capacity(1) == Capacity(0) + MAX_PACKET_SIZE; }
    assert forall i :: 0 <= i < |cs| ==> IsChunk(cs[i], role, m.path, id, i == 0, i == |cs| - 1);
  }

  /** How a sender fills the write queue: a request is never split; a response larger
      than one packet is split, and the loop pushes either the whole packet again (as
      the source does) or the chunk it has just built. */
  datatype SendMode = DontChunk | PushPacket | PushChunk

  function Repeat<T>(x: T, n: nat): (s: seq<T>)
    ensures |s| == n && forall i :: 0 <= i < n ==> s[i] == x
  {
    seq(n, _ => x)
  }

  /** What sendPacket as written pushes for a packet: itself, as a whole message, or again and
      again with the status it came with. */
  function PushedPackets(role: Role, dontChunk: bool, pkt: Packet): (ps: seq<Packet>) {
    if |pkt.data| <= MAX_PACKET_SIZE || dontChunk then [pkt.(status := StatusOf(role, true, true))]
    else Repeat(pkt, ChunkCount(|pkt.data|))
  }

  /** The packets pushed for one message, in order. A packet carries the zero status
      until sendPacket sets one. */
  function PushedFor(role: Role, mode: SendMode, id: uint32, m: Message): (ps: seq<Packet>)
    requires m.data != []
  {
    if |m.data| > MAX_PACKET_SIZE && mode.PushChunk? then ChunksOf(role, id, m)
    else PushedPackets(role, mode.DontChunk?, Packet(STATUS_C0, m.path, id, m.data))
  }

  /** The mode carries the message: its path fits a frame, and a whole packet holds the data
      or the chunks are what is pushed. */
  predicate Fits(mode: SendMode, m: Message) {
    |m.path| <= MAX_PATH_LEN && (mode.PushChunk? || |m.data| <= MAX_PACKET_SIZE)
  }

  /** A message that fits goes out as its chunks; one that does not goes out as packets
      that no frame can carry. */
  lemma PushedForShape(role: Role, mode: SendMode, id: uint32, m: Message)
    requires WellFormed(m)
    ensures
      var ps := PushedFor(role, mode, id, m);
      && 0 < |ps| <= ChunkCount(|m.data|)
      && (forall i :: 0 <= i < |ps| ==> ps[i].channelId == id)
      && (Fits(mode, m) ==> ps == ChunksOf(role, id, m))
      && (forall i :: 0 <= i < |ps| ==> (Sendable(ps[i]) <==> Fits(mode, m)))
      && (forall i :: 0 <= i < |ps| ==> (Encode(ps[i]).Ok? <==> Fits(mode, m)))
  {
    ChunksOfMessage(role, id, m);
    if |m.data| <= MAX_PACKET_SIZE {
      assert ChunksOf(role, id, m)[0].data == m.data by {
        assert m.data[0..|m.data|] == m.data;
      }
    }
  }

  /** The packets that reach the queue when push number k of the call times out iff timedOut(k). */
  function Survivors(ps: seq<Packet>, timedOut: nat -> bool): seq<Packet> {
    if ps == [] then []
    else
      var n := |ps| - 1;
      if timedOut(n) then Survivors(ps[..n], timedOut) else Survivors(ps[..n], timedOut) + [ps[n]]
  }

  lemma SurvivorsRepeat(p: Packet, timedOut: nat -> bool, n: nat)
    ensures Survivors(Repeat(p, n + 1), timedOut)
         == Survivors(Repeat(p, n), timedOut) + if timedOut(n) then [] else [p]
  {
    assert Repeat(p, n + 1)[..n] == Repeat(p, n);
  }

  lemma Advance<T>(whole: seq<T>, done: seq<T>, rest: seq<T>)
    requires whole == done + rest && rest != []
    ensures whole == (done + [rest[0]]) + rest[1..]
  {
  }

  /** The sending half of a channel: its connection's role, closed mark and write queue. */
  class SendSide {
    const role: Role
    const id: uint32
    var closed: bool
    var tcpWriteQueue: seq<Packet>
    var packetsSent: nat
    var wholePacketSent: nat

    constructor (role: Role, id: uint32)
      ensures this.role == role && this.id == id
      ensures !closed && tcpWriteQueue == [] && packetsSent == 0 && wholePacketSent == 0
    {
      this.role, this.id := role, id;
      closed, tcpWriteQueue, packetsSent, wholePacketSent := false, [], 0, 0;
    }

    /** The select between the queue and a one-second timer. */
    method PacketToSendQueue(pkt: Packet, timedOut: bool) returns (ok: bool)
      modifies this`tcpWriteQueue
      ensures ok == !timedOut
      ensures tcpWriteQueue == old(tcpWriteQueue) + if timedOut then [] else [pkt]
    {
      ok := !timedOut;
      if ok {
        tcpWriteQueue := tcpWriteQueue + [pkt];
      }
    }

    /** sendPacket as written: the error of every push is dropped and the loop pushes
        pkt, not the chunk it has built. built collects the chunks. */
    method SendPacket(pkt: Packet, dontChunk: bool, timedOut: nat -> bool)
      returns (err: Option<Error>, built: seq<Packet>)
      modifies this
      ensures old(closed) ==> err == Some(ConnectionClosed) && unchanged(this)
      ensures !old(closed) ==> err == None && closed == old(closed)
      ensures !old(closed) && pkt.status == STATUS_CLOSE ==>
                && tcpWriteQueue == old(tcpWriteQueue) + Survivors([pkt], timedOut)
                && unchanged(`packetsSent) && unchanged(`wholePacketSent)
      ensures !old(closed) && pkt.status != STATUS_CLOSE ==>
        var pushed := PushedPackets(role, dontChunk, pkt);
        && tcpWriteQueue == old(tcpWriteQueue) + Survivors(pushed, timedOut)
        && packetsSent == old(packetsSent) + |pushed|
        && wholePacketSent == old(wholePacketSent) + 1
        && (|pkt.data| > MAX_PACKET_SIZE && !dontChunk ==> built == ChunksOf(role, id, Message(pkt.path, pkt.data)))
    {
      built, err := [], None;
      if closed {
        err := Some(ConnectionClosed);
        return;
      }
      if pkt.status == STATUS_CLOSE {
        var _ := PacketToSendQueue(pkt, timedOut(0));
        return;
      }
      if |pkt.data| <= MAX_PACKET_SIZE || dontChunk {
        var whole := pkt.(status := if role.Client? then STATUS_C1 else STATUS_S5);
        var _ := PacketToSendQueue(whole, timedOut(0));
        packetsSent, wholePacketSent := packetsSent + 1, wholePacketSent + 1;
        return;
      }
      built := SendChunks(pkt, timedOut);
      ChunksFromShape(role, pkt.path, id, pkt.data, 0);
      wholePacketSent := wholePacketSent + 1;
    }

    /** The head of the loop body: the next chunk and how many bytes it takes. */
    method BuildChunk(pkt: Packet, remainDataSize: nat, firstSend: bool) returns (chunk: Packet, chunkSize: nat)
      requires 0 < remainDataSize <= |pkt.data|
      requires firstSend <==> remainDataSize == |pkt.data|
      ensures chunk == ChunkAt(role, pkt.path, id, pkt.data, |pkt.data| - remainDataSize)
      ensures chunkSize == |chunk.data|
    {
      chunkSize := MAX_PACKET_SIZE;
      if remainDataSize < MAX_PACKET_SIZE {
        chunkSize := remainDataSize;
      }
      var start := |pkt.data| - remainDataSize;
      var end := start + chunkSize;
      var status: byte;
      if chunkSize == remainDataSize {
        if role.Client? {
          status := if firstSend then STATUS_C1 else STATUS_C3;
        } else {
          status := if firstSend then STATUS_S5 else STATUS_S7;
        }
      } else {
        if role.Client? {
          status := if firstSend then STATUS_C0 else STATUS_C2;
        } else {
          status := if firstSend then STATUS_S4 else STATUS_S6;
        }
      }
      chunk := Packet(status, pkt.path, id, pkt.data[start..end]);
    }

    /** The loop of sendPacket. */
    method SendChunks(pkt: Packet, timedOut: nat -> bool) returns (built: seq<Packet>)
      requires pkt.data != []
      modifies this`tcpWriteQueue, this`packetsSent
      ensures built == ChunksFrom(role, pkt.path, id, pkt.data, 0)
      ensures tcpWriteQueue == old(tcpWriteQueue) + Survivors(Repeat(pkt, |built|), timedOut)
      ensures packetsSent == old(packetsSent) + |built|
    {
      built := [];
      ghost var whole := ChunksFrom(role, pkt.path, id, pkt.data, 0);
      ghost var rest := whole;
      var remainDataSize := |pkt.data|;
      var firstSend := true;
      while true
        invariant 0 < remainDataSize <= |pkt.data|
        invariant firstSend <==> remainDataSize == |pkt.data|
        invariant rest == ChunksFrom(role, pkt.path, id, pkt.data, |pkt.data| - remainDataSize)
        invariant whole == built + rest
        invariant tcpWriteQueue == old(tcpWriteQueue) + Survivors(Repeat(pkt, |built|), timedOut)
        invariant packetsSent == old(packetsSent) + |built|
        decreases remainDataSize
      {
        var chunk, chunkSize := BuildChunk(pkt, remainDataSize, firstSend);
        var _ := PacketToSendQueue(pkt, timedOut(|built|));
        SurvivorsRepeat(pkt, timedOut, |built|);
        Advance(whole, built, rest);
        built, rest := built + [chunk], rest[1..];
        packetsSent := packetsSent + 1;
        firstSend := false;
        remainDataSize := remainDataSize - chunkSize;
        if remainDataSize <= 0 {
          break;
        }
      }
    }
  }
}
