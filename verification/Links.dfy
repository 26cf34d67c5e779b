/** One direction of a connection as a transition system: channels push packets to the
    shared write queue, the write loop turns them into bytes, the network delivers the
    bytes in arbitrary pieces, the read loop routes packets to channels and the channel
    loops merge them. Every interleaving of these steps is a run. */
module Links {
  import opened Packets
  import opened Frames
  import opened Statuses
  import opened Chunks
  import opened Reading
  import opened Merging

  /** The two ends of a direction. */
  datatype End = Sending | Reading

  /** The byte counters of the two channel objects, with what has been written or read and
      is about to be added to them. The older objects that have had the id are behind them:
      old says how much their counters have, or are about to get, at each end, and oldQueued how
      many packets of theirs are still in the write queue. */
  datatype Bytes = Bytes(sent: nat, sentPending: nat, received: nat, receivedPending: nat,
                         oldSent: nat, oldReceived: nat, oldQueued: nat)

  /** A channel seen from both ends. sent, consumed, timedOut and lost record the run since the
      channel was last opened at an end: the messages accepted for sending, the packets the
      channel loop has taken, whether each push timed out, and the number of packets that the
      reading end can no longer get. start is the status the reading end had then; sendShut
      and readShut say at which end it has been closed. */
  datatype Chan = Chan(
    sent: seq<Message>,
    outbox: seq<Packet>,
    lost: nat,
    timedOut: seq<bool>,
    start: byte,
    status: byte,
    queue: seq<Packet>,
    consumed: seq<Packet>,
    merge: Merge,
    sendShut: bool,
    readShut: bool,
    bytes: Bytes)

  const NO_BYTES := Bytes(0, 0, 0, 0, 0, 0, 0)
  const FRESH_CHAN := Chan([], [], 0, [], STATUS_NONE, STATUS_NONE, [], [], NOTHING_MERGED, false, false, NO_BYTES)

  /** onWire records the packets whose bytes are written and not yet read. */
  datatype Link = Link(
    role: Role,
    mode: SendMode,
    chans: map<uint32, Chan>,
    writeQ: seq<Packet>,
    flight: seq<byte>,
    arrived: seq<byte>,
    onWire: seq<Packet>,
    sendClosed: bool,
    recvClosed: bool)

  function FreshLink(role: Role, mode: SendMode): Link {
    Link(role, mode, map[], [], [], [], [], false, false)
  }

  /** Shut closes a channel at one end. Reopen and Reuse give its id to a new channel object
      there, Reopen when nothing is outstanding on it, Reuse at once. Count adds pending bytes
      to a byte counter. */
  datatype Step =
    | Open(id: uint32)
    | Begin(id: uint32, m: Message)
    | Push(id: uint32)
    | TimeOut(id: uint32)
    | Write
    | Disconnect
    | Convey(n: nat)
    | Read
    | Take(id: uint32)
    | Shut(id: uint32, at: End)
    | Reopen(id: uint32, at: End)
    | Reuse(id: uint32, at: End)
    | Count(id: uint32, at: End, n: nat)

  /** The steps that neither start a message nor hand a packet to a channel loop. */
  predicate Moves(s: Step) {
    s.Push? || s.TimeOut? || s.Write? || s.Disconnect? || s.Convey? || s.Read? || s.Count?
  }

  /** The channels the reading end knows. */
  function StatusMap(l: Link): map<uint32, byte> {
    map id | id in l.chans && !l.chans[id].readShut :: l.chans[id].status
  }

  function PendingAt(b: Bytes, at: End): nat {
    if at.Sending? then b.sentPending else b.receivedPending
  }

  /** Nothing of the channel is left anywhere between the two channel loops. */
  predicate Drained(l: Link, id: uint32)
    requires id in l.chans
  {
    Back(l, id) == [] && On(id, l.onWire) == [] && l.chans[id].queue == []
  }

  /** Nothing is outstanding on the id of a closed channel. */
  predicate MayReopen(l: Link, id: uint32, at: End) {
    && id in l.chans && (if at.Sending? then l.chans[id].sendShut else l.chans[id].readShut)
    && Drained(l, id) && l.chans[id].merge.whole == None
  }

  /** An id is free as soon as its channel is closed. What a send still going on pushes on a
      channel whose id is in use again, and an id in use again after the connection has been
      closed, are not part of a link. */
  predicate MayReuse(l: Link, id: uint32, at: End) {
    id in l.chans && if at.Sending? then l.chans[id].sendShut && l.chans[id].outbox == []
                     else l.chans[id].readShut && !l.recvClosed
  }

  predicate Enabled(l: Link, s: Step) {
    match s
    case Open(id) => id !in l.chans
    case Begin(id, m) =>
      id in l.chans && !l.sendClosed && !l.chans[id].sendShut && l.chans[id].outbox == [] && WellFormed(m)
    case Push(id) => id in l.chans && !l.sendClosed && l.chans[id].outbox != []
    case TimeOut(id) => id in l.chans && !l.sendClosed && l.chans[id].outbox != []
    case Write => !l.sendClosed && l.writeQ != [] && l.writeQ[0].channelId in l.chans
    case Disconnect => true
    case Convey(n) => n <= |l.flight|
    case Read => !l.recvClosed
    case Take(id) => id in l.chans && l.chans[id].queue != []
    case Shut(id, at) => id in l.chans
    case Reopen(id, at) => MayReopen(l, id, at)
    case Reuse(id, at) => MayReuse(l, id, at)
    case Count(id, at, n) => id in l.chans && n <= PendingAt(l.chans[id].bytes, at)
  }

  /** sendPacket has taken the lock: the packets of m are to be pushed one by one. */
  function BeginOn(l: Link, id: uint32, m: Message): Link
    requires Enabled(l, Begin(id, m))
  {
    var ch := l.chans[id];
    l.(chans := l.chans[id := ch.(sent := ch.sent + [m], outbox := PushedFor(l.role, l.mode, id, m))])
  }

  function PushOn(l: Link, id: uint32): Link
    requires Enabled(l, Push(id))
  {
    var ch := l.chans[id];
    l.(chans := l.chans[id := ch.(outbox := ch.outbox[1..], timedOut := ch.timedOut + [false])], writeQ := l.writeQ + [ch.outbox[0]])
  }

  /** The push timed out; sendPacket drops the error and goes on. */
  function TimeOutOn(l: Link, id: uint32): Link
    requires Enabled(l, TimeOut(id))
  {
    var ch := l.chans[id];
    l.(chans := l.chans[id := ch.(outbox := ch.outbox[1..], timedOut := ch.timedOut + [true], lost := ch.lost + 1)])
  }

  function Disconnected(l: Link): Link {
    l.(sendClosed := true, writeQ := [])
  }

  /** The write loop: a packet no frame can carry closes the connection. */
  function Written(l: Link): Link
    requires Enabled(l, Write)
  {
    var p := l.writeQ[0];
    match Encode(p)
    case Err(_) => Disconnected(l)
    case Ok(bytes) =>
      var ch := l.chans[p.channelId];
      l.(writeQ := l.writeQ[1..], flight := l.flight + bytes, onWire := l.onWire + [p],
         chans := l.chans[p.channelId := ch.(bytes := WrittenBytes(ch.bytes, |bytes|))])
  }

  /** A packet is counted on the channel object that pushed it. */
  function WrittenBytes(b: Bytes, n: nat): Bytes {
    if b.oldQueued > 0 then b.(oldSent := b.oldSent + n, oldQueued := b.oldQueued - 1)
    else b.(sentPending := b.sentPending + n)
  }

  /** A new channel object counts from zero; queued packets wait to be written for the old one. */
  function NewCounter(b: Bytes, at: End, queued: nat): Bytes {
    if at.Sending? then b.(sent := 0, sentPending := 0, oldSent := b.oldSent + b.sent + b.sentPending, oldQueued := queued)
    else b.(received := 0, receivedPending := 0, oldReceived := b.oldReceived + b.received + b.receivedPending)
  }

  function ConveyedBytes(l: Link, n: nat): Link
    requires n <= |l.flight|
  {
    l.(arrived := l.arrived + l.flight[..n], flight := l.flight[n..])
  }

  function ReadInto(l: Link, p: Packet, rest: seq<byte>): Link
    requires p.channelId in l.chans
  {
    var ch := l.chans[p.channelId];
    l.(arrived := rest,
       onWire := if l.onWire == [] then [] else l.onWire[1..],
       chans := l.chans[p.channelId := ch.(
         status := p.status,
         queue := ch.queue + [p],
         bytes := ch.bytes.(receivedPending := ch.bytes.receivedPending + |p.data| + 1 + |p.path| + 1 + 4 + 4))])
  }

  function ReadOnce(l: Link): Link {
    DeliverFacts(l.role, StatusMap(l), l.arrived);
    match ReadFrame(l.role, StatusMap(l), l.arrived)
    case NeedMore => l
    case Reject(_) => l.(recvClosed := true)
    case Deliver(p, rest) => ReadInto(l, p, rest)
  }

  function TakeOn(l: Link, id: uint32): Link
    requires Enabled(l, Take(id))
  {
    var ch := l.chans[id];
    l.(chans := l.chans[id := ch.(
      queue := ch.queue[1..],
      consumed := ch.consumed + [ch.queue[0]],
      merge := MergeStep(l.role, ch.merge, ch.queue[0]))])
  }

  /** The end closes the channel: the sender starts no more messages, the reader no longer
      knows the id. */
  function ShutAt(l: Link, id: uint32, at: End): Link
    requires id in l.chans
  {
    var ch := l.chans[id];
    l.(chans := l.chans[id := if at.Sending? then ch.(sendShut := true) else ch.(readShut := true)])
  }

  /** A new channel object at one end; the one at the other end stays as it is. */
  function Reopened(ch: Chan, at: End): Chan {
    var status := if at.Reading? then STATUS_NONE else ch.status;
    FRESH_CHAN.(start := status, status := status,
                sendShut := at.Reading? && ch.sendShut, readShut := at.Sending? && ch.readShut,
                bytes := NewCounter(ch.bytes, at, 0))
  }

  function ReopenedAt(l: Link, id: uint32, at: End): Link
    requires id in l.chans
  {
    l.(chans := l.chans[id := Reopened(l.chans[id], at)])
  }

  /** The reading end has not stopped in the middle of a message, nor missed one. */
  predicate Between(l: Link, id: uint32)
    requires id in l.chans
  {
    l.chans[id].lost == 0 && Partial(l.role, Received(l.chans[id])) == []
  }

  /** The messages of which the reading end has got every packet. */
  function Complete(l: Link, id: uint32): seq<Message>
    requires id in l.chans
  {
    MergeAll(l.role, NOTHING_MERGED, Received(l.chans[id])).delivered
  }

  /** The new channel object at the reading end gets the messages the old one has not got; the
      packets of a message that the old one has got in part are lost to it. A new object at
      the sending end goes on where the old one stopped. */
  function ReusedAt(l: Link, id: uint32, at: End): Link
    requires id in l.chans
  {
    var ch, got := l.chans[id], if Between(l, id) then |Complete(l, id)| else 0;
    var bytes := NewCounter(ch.bytes, at, |On(id, l.writeQ)|);
    var ch' :=
      if at.Sending? then ch.(sendShut := false, bytes := bytes)
      else ch.(
        sent := if got <= |ch.sent| then ch.sent[got..] else [],
        lost := if Between(l, id) then 0 else ch.lost + |Received(ch)|,
        start := STATUS_NONE, status := STATUS_NONE, queue := [], consumed := [], merge := NOTHING_MERGED,
        readShut := false, bytes := bytes);
    l.(chans := l.chans[id := ch'])
  }

  function Counted(b: Bytes, at: End, n: nat): Bytes
    requires n <= PendingAt(b, at)
  {
    if at.Sending? then b.(sent := b.sent + n, sentPending := b.sentPending - n)
    else b.(received := b.received + n, receivedPending := b.receivedPending - n)
  }

  function CountedAt(l: Link, id: uint32, at: End, n: nat): Link
    requires Enabled(l, Count(id, at, n))
  {
    l.(chans := l.chans[id := l.chans[id].(bytes := Counted(l.chans[id].bytes, at, n))])
  }

  function Apply(l: Link, s: Step): Link
    requires Enabled(l, s)
  {
    match s
    case Open(id) => l.(chans := l.chans[id := FRESH_CHAN])
    case Begin(id, m) => BeginOn(l, id, m)
    case Push(id) => PushOn(l, id)
    case TimeOut(id) => TimeOutOn(l, id)
    case Write => Written(l)
    case Disconnect => Disconnected(l)
    case Convey(n) => ConveyedBytes(l, n)
    case Read => ReadOnce(l)
    case Take(id) => TakeOn(l, id)
    case Shut(id, at) => ShutAt(l, id, at)
    case Reopen(id, at) => ReopenedAt(l, id, at)
    case Reuse(id, at) => ReusedAt(l, id, at)
    case Count(id, at, n) => CountedAt(l, id, at, n)
  }

  /** A run from l; a step that is not enabled does nothing. */
  function Run(l: Link, steps: seq<Step>): Link {
    if steps == [] then l
    else
      var l' := Run(l, steps[..|steps| - 1]);
      var s := steps[|steps| - 1];
      if Enabled(l', s) then Apply(l', s) else l'
  }

  // ----- the invariant -----

  /** What any packet made from a well-formed message satisfies, whatever its size. */
  predicate Pushable(p: Packet) {
    p.path != [] && 0 !in p.path && p.data != [] && p.status != STATUS_CLOSE
  }

  function LastStatus(start: byte, ps: seq<Packet>): byte {
    if ps == [] then start else ps[|ps| - 1].status
  }

  function Received(ch: Chan): seq<Packet> {
    ch.consumed + ch.queue
  }

  /** The packets of a channel that have been written, oldest first. */
  function Front(l: Link, id: uint32): seq<Packet>
    requires id in l.chans
  {
    Received(l.chans[id]) + On(id, l.onWire)
  }

  /** The packets of a channel that wait to be written. */
  function Back(l: Link, id: uint32): seq<Packet>
    requires id in l.chans
  {
    On(id, l.writeQ) + l.chans[id].outbox
  }

  predicate Wellformed(ms: seq<Message>) {
    forall m :: m in ms ==> WellFormed(m)
  }

  /** Facts about one channel that hold whatever has been lost. */
  predicate ChanSound(l: Link, id: uint32)
    requires id in l.chans
  {
    var ch := l.chans[id];
    && Wellformed(ch.sent)
    && (forall i :: 0 <= i < |ch.outbox| ==> Pushable(ch.outbox[i]) && ch.outbox[i].channelId == id)
    && AllSendable(Received(ch))
    && (ch.start == STATUS_NONE || Completed(l.role, ch.start))
    && ch.status == LastStatus(ch.start, Received(ch))
    && ch.merge == MergeAll(l.role, NOTHING_MERGED, ch.consumed)
    && BytesKept(ch.bytes, FrameBytes(On(id, l.onWire)))
  }

  /** What has been written on an id has been read or is on the wire. */
  predicate BytesKept(b: Bytes, wire: nat) {
    b.oldSent + b.sent + b.sentPending == b.oldReceived + b.received + b.receivedPending + wire
  }

  /** Every packet pushed for the messages sent is in front (written) or back (not yet
      written) or lost, and in order unless one was lost. */
  predicate Accounted(role: Role, mode: SendMode, id: uint32, sent: seq<Message>, lost: nat, closed: bool,
                      front: seq<Packet>, back: seq<Packet>)
    requires Wellformed(sent)
  {
    var all := PushedAll(role, mode, id, sent);
    && |front| + lost <= |all|
    && (!closed ==> |front| + |back| + lost == |all|)
    && (!closed && lost == 0 ==> front + back == all)
    && (lost == 0 ==> front <= all)
  }

  predicate ChanAccounted(l: Link, id: uint32)
    requires id in l.chans && Wellformed(l.chans[id].sent)
  {
    var ch := l.chans[id];
    Accounted(l.role, l.mode, id, ch.sent, ch.lost, l.sendClosed, Front(l, id), Back(l, id))
  }

  predicate ChanInv(l: Link, id: uint32)
    requires id in l.chans
  {
    ChanSound(l, id) && ChanAccounted(l, id)
  }

  predicate WireSound(l: Link) {
    && (forall i :: 0 <= i < |l.writeQ| ==> Pushable(l.writeQ[i]) && l.writeQ[i].channelId in l.chans)
    && (forall i :: 0 <= i < |l.onWire| ==> Sendable(l.onWire[i]) && l.onWire[i].channelId in l.chans)
    && l.arrived + l.flight == LayoutAll(l.onWire)
    && (l.recvClosed ==> HeadRefusable(l))
  }

  /** The oldest packet on the wire follows a loss on its channel, or its channel is closed at
      the reading end. */
  predicate HeadRefusable(l: Link) {
    && l.onWire != [] && l.onWire[0].channelId in l.chans
    && (l.chans[l.onWire[0].channelId].lost > 0 || l.chans[l.onWire[0].channelId].readShut)
  }

  predicate Inv(l: Link) {
    && WireSound(l)
    && (forall id :: id in l.chans ==> ChanInv(l, id))
  }
}
