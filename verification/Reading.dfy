/** The read loops of a connection (protocol.go:718-872): one frame after the other is
    cut from the byte stream, checked and routed to the queue of its channel. */
module Reading {
  import opened Packets
  import opened Frames
  import opened Statuses
  import opened Chunks

  datatype ReadError = ClosedByPeer | BufferFull | InvalidChannel | BadStatus | TooMuchData | NoData

  /** One turn of the loop on the bytes at hand: wait for more, close the connection,
      or deliver a packet. */
  datatype Outcome = NeedMore | Reject(why: ReadError) | Deliver(pkt: Packet, rest: seq<byte>)

  /** The loop from the channel id on. statuses maps each live channel to the status of
      its last packet; role is the sender's. */
  function ReadBody(role: Role, statuses: map<uint32, byte>, status: byte, path: seq<byte>, s: seq<byte>): Outcome {
    match TakeUint32(s)
    case Short => NeedMore
    case Full => NeedMore
    case Got(id, s1) =>
      if id !in statuses then Reject(InvalidChannel)
      else if !Check(role, statuses[id], status).Accepted? then Reject(BadStatus) else
      match TakeUint32(s1)
      case Short => NeedMore
      case Full => NeedMore
      case Got(dataLen, s2) =>
        if dataLen > MAX_PACKET_SIZE then Reject(TooMuchData)
        else if dataLen == 0 then Reject(NoData) else
        match TakeData(s2, dataLen)
        case Short => NeedMore
        case Full => NeedMore
        case Got(data, rest) => Deliver(Packet(status, path, id, data), rest)
  }

  function ReadFrame(role: Role, statuses: map<uint32, byte>, s: seq<byte>): Outcome {
    match TakeByte(s)
    case Short => NeedMore
    case Full => NeedMore
    case Got(status, s1) =>
      if status == STATUS_CLOSE then Reject(ClosedByPeer) else
      match TakePath(s1)
      case Short => NeedMore
      case Full => Reject(BufferFull)
      case Got(path, s2) => ReadBody(role, statuses, status, path, s2)
  }

  /** Everything the outcome says about the bytes that are left is true with more bytes behind. */
  function Extend(o: Outcome, more: seq<byte>): Outcome {
    if o.Deliver? then Deliver(o.pkt, o.rest + more) else o
  }

  lemma TakePathExtends(s: seq<byte>, more: seq<byte>)
    ensures TakePath(s).Got? ==> TakePath(s + more) == Got(TakePath(s).value, TakePath(s).rest + more)
    ensures TakePath(s).Full? ==> TakePath(s + more).Full?
  {
    var t, k := s + more, NulAt(s);
    if k < |s| {
      assert t[k] == 0;
      assert NulAt(t) == k;
      assert t[..k] == s[..k] && t[k + 1..] == s[k + 1..] + more;
    }
  }

  lemma TakeUint32Extends(s: seq<byte>, more: seq<byte>)
    requires TakeUint32(s).Got?
    ensures TakeUint32(s + more) == Got(TakeUint32(s).value, TakeUint32(s).rest + more)
  {
  }

  lemma TakeDataExtends(s: seq<byte>, more: seq<byte>, n: nat)
    requires TakeData(s, n).Got?
    ensures TakeData(s + more, n) == Got(TakeData(s, n).value, TakeData(s, n).rest + more)
  {
    assert (s + more)[..n] == s[..n] && (s + more)[n..] == s[n..] + more;
  }

  lemma BodyVerdictIsStable(role: Role, statuses: map<uint32, byte>, status: byte, path: seq<byte>,
                            s: seq<byte>, more: seq<byte>)
    requires !ReadBody(role, statuses, status, path, s).NeedMore?
    ensures ReadBody(role, statuses, status, path, s + more)
         == Extend(ReadBody(role, statuses, status, path, s), more)
  {
    TakeUint32Extends(s, more);
    var s1 := TakeUint32(s).rest;
    if TakeUint32(s1).Got? {
      TakeUint32Extends(s1, more);
      var n, s2 := TakeUint32(s1).value, TakeUint32(s1).rest;
      if TakeData(s2, n).Got? {
        TakeDataExtends(s2, more, n);
      }
    }
  }

  /** A verdict reached on the bytes at hand does not change when more arrive. */
  lemma VerdictIsStable(role: Role, statuses: map<uint32, byte>, s: seq<byte>, more: seq<byte>)
    requires !ReadFrame(role, statuses, s).NeedMore?
    ensures ReadFrame(role, statuses, s + more) == Extend(ReadFrame(role, statuses, s), more)
  {
    assert (s + more)[1..] == s[1..] + more;
    TakePathExtends(s[1..], more);
    if s[0] != STATUS_CLOSE && TakePath(s[1..]).Got? {
      var path, s2 := TakePath(s[1..]).value, TakePath(s[1..]).rest;
      BodyVerdictIsStable(role, statuses, s[0], path, s2, more);
    }
  }

  /** The bytes of a frame up to the channel id. */
  function Header(p: Packet): seq<byte> {
    [p.status] + p.path + [0] + PutUint32(p.channelId)
  }

  lemma HeaderFields(p: Packet, more: seq<byte>)
    requires |p.path| < PACKET_READ_BUF_SIZE && 0 !in p.path
    ensures
      var s2 := PutUint32(p.channelId) + more;
      var s1 := p.path + [0] + s2;
      && TakeByte(Header(p) + more) == Got(p.status, s1)
      && TakePath(s1) == Got(p.path, s2)
      && TakeUint32(s2) == Got(p.channelId, more)
  {
    var s2 := PutUint32(p.channelId) + more;
    var s1 := p.path + [0] + s2;
    assert Header(p) + more == [p.status] + s1;
    TakePathField(p.path, s2);
    TakeUint32Field(p.channelId, more);
  }

  /** A frame is refused as soon as its channel id is in, if the channel is not known or the
      status not one that may follow, and only then for these reasons. */
  lemma HeaderRefusedIff(role: Role, statuses: map<uint32, byte>, p: Packet, more: seq<byte>)
    requires |p.path| < PACKET_READ_BUF_SIZE && 0 !in p.path && p.status != STATUS_CLOSE
    ensures ReadFrame(role, statuses, Header(p) + more) == Reject(InvalidChannel) <==> p.channelId !in statuses
    ensures ReadFrame(role, statuses, Header(p) + more) == Reject(BadStatus)
        <==> p.channelId in statuses && !Check(role, statuses[p.channelId], p.status).Accepted?
  {
    HeaderFields(p, more);
  }

  /** And as soon as its length is in, if that is zero or over the limit, and only then; else it is
      waited for until that many bytes have come. */
  lemma LengthRefusedIff(role: Role, statuses: map<uint32, byte>, p: Packet, n: uint32, more: seq<byte>)
    requires |p.path| < PACKET_READ_BUF_SIZE && 0 !in p.path && p.status != STATUS_CLOSE
    requires p.channelId in statuses && Check(role, statuses[p.channelId], p.status).Accepted?
    ensures
      var o := ReadFrame(role, statuses, Header(p) + (PutUint32(n) + more));
      && (o == Reject(NoData) <==> n == 0)
      && (o == Reject(TooMuchData) <==> n > MAX_PACKET_SIZE)
      && (0 < n <= MAX_PACKET_SIZE && |more| < n ==> o == NeedMore)
      && (0 < n <= MAX_PACKET_SIZE && n <= |more| ==> o == Deliver(p.(data := more[..n]), more[n..]))
  {
    HeaderFields(p, PutUint32(n) + more);
    TakeUint32Field(n, more);
  }

  /** A path that fills the read buffer without an end is refused, and so is the close status. */
  lemma StartRefusedIff(role: Role, statuses: map<uint32, byte>, s: seq<byte>)
    ensures ReadFrame(role, statuses, s) == Reject(ClosedByPeer) <==> s != [] && s[0] == 8
    ensures ReadFrame(role, statuses, s) == Reject(BufferFull)
        <==> |s| > PACKET_READ_BUF_SIZE && s[0] != 8 && 0 !in s[1..PACKET_READ_BUF_SIZE + 1]
  {
    if |s| > PACKET_READ_BUF_SIZE {
      var path, k := s[1..], NulAt(s[1..]);
      assert forall i :: 0 <= i < PACKET_READ_BUF_SIZE ==> path[i] == s[1..PACKET_READ_BUF_SIZE + 1][i];
      if k < PACKET_READ_BUF_SIZE {
        assert s[1..PACKET_READ_BUF_SIZE + 1][k] == 0;
      }
    }
  }

  /** A packet the peer accepts is delivered from its frame, and nothing behind it is touched. */
  lemma ReadLayout(role: Role, statuses: map<uint32, byte>, p: Packet, more: seq<byte>)
    requires Sendable(p) && p.channelId in statuses && Check(role, statuses[p.channelId], p.status).Accepted?
    ensures ReadFrame(role, statuses, Layout(p) + more) == Deliver(p, more)
  {
    LayoutFields(p, more);
  }

  /** What a peer that knows the channel and expects the status gets is what was sent, with
      nothing behind it touched, exactly when the path is one that ValidatePath and
      CreateNetPacket let through. The server checks no path of a reply: one that is empty or
      too long closes its connection, and one with a NUL is read as another frame. */
  lemma ReplyArrivesIff(role: Role, statuses: map<uint32, byte>, p: Packet, rest: seq<byte>)
    requires 0 < |p.data| <= MAX_PACKET_SIZE && p.status != STATUS_CLOSE
    requires p.channelId in statuses && Check(role, statuses[p.channelId], p.status).Accepted?
    ensures (Encode(p).Ok? && ReadFrame(role, statuses, Encode(p).value + rest) == Deliver(p, rest))
            <==> p.path != [] && |p.path| <= MAX_PATH_LEN && 0 !in p.path
  {
    if Encode(p).Ok? {
      if 0 !in p.path {
        ReadLayout(role, statuses, p, rest);
      } else {
        PathHasNoNul(role, statuses, Encode(p).value + rest);
      }
    }
  }

  lemma PathHasNoNul(role: Role, statuses: map<uint32, byte>, s: seq<byte>)
    ensures var o := ReadFrame(role, statuses, s); o.Deliver? ==> 0 !in o.pkt.path
  {
  }

  /** An incomplete frame makes the loop wait, whatever part of it has arrived. */
  lemma ReadPartial(role: Role, statuses: map<uint32, byte>, p: Packet, n: nat)
    requires Sendable(p) && p.channelId in statuses && Check(role, statuses[p.channelId], p.status).Accepted?
    requires n < |Layout(p)|
    ensures ReadFrame(role, statuses, Layout(p)[..n]).NeedMore?
  {
    var s, more := Layout(p)[..n], Layout(p)[n..];
    assert s + more == Layout(p) + [];
    ReadLayout(role, statuses, p, []);
    if !ReadFrame(role, statuses, s).NeedMore? {
      VerdictIsStable(role, statuses, s, more);
    }
  }

  /** The receiving half of a connection. */
  datatype Receiver = Receiver(
    arrived: seq<byte>,
    statuses: map<uint32, byte>,
    queues: map<uint32, seq<Packet>>,
    failure: Option<ReadError>)

  ghost predicate ValidReceiver(r: Receiver) {
    r.statuses.Keys == r.queues.Keys
  }

  /** What delivering p changes. */
  function Routed(r: Receiver, p: Packet, rest: seq<byte>): Receiver
    requires p.channelId in r.queues
  {
    r.(arrived := rest,
       statuses := r.statuses[p.channelId := p.status],
       queues := r.queues[p.channelId := r.queues[p.channelId] + [p]])
  }

  lemma DeliverFacts(role: Role, statuses: map<uint32, byte>, s: seq<byte>)
    ensures var o := ReadFrame(role, statuses, s);
            o.Deliver? ==> |o.rest| < |s| && o.pkt.channelId in statuses
                           && Sendable(o.pkt.(path := [1])) && Check(role, statuses[o.pkt.channelId], o.pkt.status).Accepted?
  {
  }

  /** The loop runs until it has to wait or has closed the connection. */
  function ReadAll(role: Role, r: Receiver): Receiver
    requires ValidReceiver(r)
    decreases |r.arrived|
  {
    if r.failure.Some? then r else
    match ReadFrame(role, r.statuses, r.arrived)
    case NeedMore => r
    case Reject(why) => r.(failure := Some(why))
    case Deliver(p, rest) =>
      DeliverFacts(role, r.statuses, r.arrived);
      ReadAll(role, Routed(r, p, rest))
  }

  lemma ReadAllDelivers(role: Role, r: Receiver, p: Packet, rest: seq<byte>)
    requires ValidReceiver(r) && r.failure.None?
    requires ReadFrame(role, r.statuses, r.arrived) == Deliver(p, rest)
    ensures p.channelId in r.queues
    ensures ReadAll(role, r) == ReadAll(role, Routed(r, p, rest))
  {
  }

  lemma ReadAllLayout(role: Role, r: Receiver, p: Packet, rest: seq<byte>)
    requires ValidReceiver(r) && r.failure.None? && p.channelId in r.queues
    requires Sendable(p) && Check(role, r.statuses[p.channelId], p.status).Accepted?
    requires r.arrived == Layout(p) + rest
    ensures ReadAll(role, r) == ReadAll(role, Routed(r, p, rest))
  {
    ReadLayout(role, r.statuses, p, rest);
    ReadAllDelivers(role, r, p, rest);
  }

  function Arrive(r: Receiver, bytes: seq<byte>): Receiver {
    r.(arrived := r.arrived + bytes)
  }

  lemma {:induction false} ReadAllValid(role: Role, r: Receiver)
    requires ValidReceiver(r)
    ensures ValidReceiver(ReadAll(role, r))
    decreases |r.arrived|
  {
    var o := ReadFrame(role, r.statuses, r.arrived);
    if r.failure.None? && o.Deliver? {
      DeliverFacts(role, r.statuses, r.arrived);
      ReadAllValid(role, Routed(r, o.pkt, o.rest));
    }
  }

  /** However the network cuts the byte stream, the loop ends in the same state:
      reading what has arrived and then the rest is reading it all at once. */
  lemma {:induction false} FragmentationDoesNotMatter(role: Role, r: Receiver, more: seq<byte>)
    requires ValidReceiver(r)
    ensures ValidReceiver(ReadAll(role, r))
    ensures ReadAll(role, Arrive(ReadAll(role, r), more)) == ReadAll(role, Arrive(r, more))
    decreases |r.arrived|
  {
    ReadAllValid(role, r);
    var o := ReadFrame(role, r.statuses, r.arrived);
    if r.failure.None? && !o.NeedMore? {
      VerdictIsStable(role, r.statuses, r.arrived, more);
      if o.Deliver? {
        DeliverFacts(role, r.statuses, r.arrived);
        var r' := Routed(r, o.pkt, o.rest);
        FragmentationDoesNotMatter(role, r', more);
        assert Arrive(r', more) == Routed(Arrive(r, more), o.pkt, o.rest + more);
      }
    }
  }

  function LayoutAll(ps: seq<Packet>): seq<byte>
    requires forall i :: 0 <= i < |ps| ==> |ps[i].data| <= MAX_PACKET_SIZE
  {
    if ps == [] then [] else Layout(ps[0]) + LayoutAll(ps[1..])
  }

  /** The packets of one channel, in order. */
  function On(id: uint32, ps: seq<Packet>): (qs: seq<Packet>)
    ensures |qs| <= |ps|
  {
    if ps == [] then []
    else if ps[0].channelId == id then [ps[0]] + On(id, ps[1..])
    else On(id, ps[1..])
  }

  lemma {:induction false} OnAppend(id: uint32, a: seq<Packet>, b: seq<Packet>)
    ensures On(id, a + b) == On(id, a) + On(id, b)
    decreases |a|
  {
    if a == [] {
      assert a + b == b;
    } else {
      assert (a + b)[1..] == a[1..] + b;
      OnAppend(id, a[1..], b);
    }
  }

  /** Each channel's statuses are in order, starting from what the receiver last saw. */
  ghost predicate InOrder(role: Role, statuses: map<uint32, byte>, ps: seq<Packet>) {
    && (forall i :: 0 <= i < |ps| ==> Sendable(ps[i]) && ps[i].channelId in statuses)
    && (forall id :: id in statuses ==> Accepts(role, statuses[id], StatusesOf(On(id, ps))))
  }

  lemma {:induction false} InOrderStep(role: Role, statuses: map<uint32, byte>, ps: seq<Packet>)
    requires ps != [] && InOrder(role, statuses, ps)
    ensures Check(role, statuses[ps[0].channelId], ps[0].status).Accepted?
    ensures InOrder(role, statuses[ps[0].channelId := ps[0].status], ps[1..])
  {
    var p := ps[0];
    var statuses' := statuses[p.channelId := p.status];
    forall id | id in statuses'
      ensures Accepts(role, statuses'[id], StatusesOf(On(id, ps[1..])))
    {
      var rest := StatusesOf(On(id, ps[1..]));
      if id == p.channelId {
        assert StatusesOf(On(id, ps)) == [p.status] + rest;
        assert ([p.status] + rest)[1..] == rest;
      } else {
        assert On(id, ps) == On(id, ps[1..]);
      }
    }
    assert Accepts(role, statuses[p.channelId], StatusesOf(On(p.channelId, ps)));
    assert StatusesOf(On(p.channelId, ps))[0] == p.status;
  }

  /** r after the packets ps have been delivered. */
  ghost predicate HasDelivered(r: Receiver, r': Receiver, ps: seq<Packet>) {
    && r'.failure.None? && r'.arrived == [] && r'.queues.Keys == r.queues.Keys
    && forall id :: id in r.queues ==> r'.queues[id] == r.queues[id] + On(id, ps)
  }

  lemma HasDeliveredStep(r: Receiver, p: Packet, r': Receiver, ps: seq<Packet>)
    requires p.channelId in r.queues && HasDelivered(Routed(r, p, []), r', ps)
    ensures HasDelivered(r, r', [p] + ps)
  {
  }

  lemma ReadAllFirst(role: Role, r: Receiver, ps: seq<Packet>)
    requires ValidReceiver(r) && r.failure.None? && r.arrived == []
    requires ps != [] && InOrder(role, r.statuses, ps)
    ensures ReadAll(role, Arrive(r, LayoutAll(ps)))
         == ReadAll(role, Arrive(Routed(r, ps[0], []), LayoutAll(ps[1..])))
  {
    hide ReadAll;
    var a, p, tail := Arrive(r, LayoutAll(ps)), ps[0], LayoutAll(ps[1..]);
    assert [] + LayoutAll(ps) == Layout(p) + tail;
    InOrderStep(role, r.statuses, ps);
    ReadAllLayout(role, a, p, tail);
    assert [] + tail == tail;
    assert Arrive(Routed(r, p, []), tail) == Routed(a, p, tail);
  }

  /** The stream codec: reading the frames of any packets that are in order, for any
      number of channels mixed in one stream, yields exactly those packets, each on its
      own channel in the order sent, with no byte left over and no failure. */
  lemma {:induction false} StreamRoundTrip(role: Role, r: Receiver, ps: seq<Packet>)
    requires ValidReceiver(r) && r.failure.None? && r.arrived == []
    requires InOrder(role, r.statuses, ps)
    ensures HasDelivered(r, ReadAll(role, Arrive(r, LayoutAll(ps))), ps)
    decreases |ps|
  {
    if ps == [] {
      assert Arrive(r, []) == r;
    } else {
      InOrderStep(role, r.statuses, ps);
      ReadAllFirst(role, r, ps);
      StreamRoundTrip(role, Routed(r, ps[0], []), ps[1..]);
      HasDeliveredStep(r, ps[0], ReadAll(role, Arrive(r, LayoutAll(ps))), ps[1..]);
      assert [ps[0]] + ps[1..] == ps;
    }
  }

  /** What packets count for in BytesReceived. */
  function FrameBytes(ps: seq<Packet>): nat {
    if ps == [] then 0 else FrameBytes(ps[..|ps| - 1]) + |ps[|ps| - 1].data| + 1 + |ps[|ps| - 1].path| + 1 + 4 + 4
  }

  lemma FrameBytesMore(ps: seq<Packet>, p: Packet)
    ensures FrameBytes(ps + [p]) == FrameBytes(ps) + |p.data| + 1 + |p.path| + 1 + 4 + 4
  {
  }

  /** A connection's read side as the loop updates it in place: the bytes at hand and, for
      each channel, the status of its last packet, its queue and its two counters. */
  class ReadSide {
    const role: Role
    var arrived: seq<byte>
    var statuses: map<uint32, byte>
    var queues: map<uint32, seq<Packet>>
    var packetReceived: map<uint32, nat>
    var bytesReceived: map<uint32, nat>
    var failure: Option<ReadError>

    ghost function View(): Receiver
      reads this
    {
      Receiver(arrived, statuses, queues, failure)
    }

    /** The counters tell what has been queued. */
    ghost predicate Valid()
      reads this
    {
      && ValidReceiver(View()) && packetReceived.Keys == bytesReceived.Keys == queues.Keys
      && forall id :: id in queues ==> packetReceived[id] == |queues[id]| && bytesReceived[id] == FrameBytes(queues[id])
    }

    constructor (role: Role, ids: set<uint32>)
      ensures this.role == role && Valid()
      ensures View() == Receiver([], map id | id in ids :: STATUS_NONE, map id | id in ids :: [], None)
    {
      this.role := role;
      arrived, failure := [], None;
      statuses := map id | id in ids :: STATUS_NONE;
      queues := map id | id in ids :: [];
      packetReceived := map id | id in ids :: 0;
      bytesReceived := map id | id in ids :: 0;
    }

    /** ReadSlice(0) on the bytes from start on. */
    method ReadSlice(start: nat) returns (r: Take<seq<byte>>)
      requires start <= |arrived|
      ensures r == TakePath(arrived[start..])
    {
      var k := start;
      while k < |arrived| && arrived[k] != 0
        invariant start <= k <= |arrived|
        invariant forall i :: start <= i < k ==> arrived[i] != 0
      {
        k := k + 1;
      }
      ghost var s := arrived[start..];
      assert forall i :: 0 <= i < k - start ==> s[i] != 0;
      assert k < |arrived| ==> s[k - start] == 0;
      assert NulAt(s) == k - start;
      assert s[..k - start] == arrived[start..k];
      assert k < |arrived| ==> s[k - start + 1..] == arrived[k + 1..];
      if k < |arrived| && k - start < PACKET_READ_BUF_SIZE {
        r := Got(arrived[start..k], arrived[k + 1..]);
      } else if |arrived| - start >= PACKET_READ_BUF_SIZE {
        r := Full;
      } else {
        r := Short;
      }
    }

    /** The body of the loop up to the point where the packet is complete. */
    method NextFrame() returns (o: Outcome)
      ensures o == ReadFrame(role, statuses, arrived)
    {
      if arrived == [] {
        return NeedMore;
      }
      var status := arrived[0];
      if status == STATUS_CLOSE {
        return Reject(ClosedByPeer);
      }
      var slice := ReadSlice(1);
      if slice.Full? {
        return Reject(BufferFull);
      }
      if slice.Short? || |slice.rest| < 4 {
        return NeedMore;
      }
      var channelId := Uint32(slice.rest[..4]);
      if channelId !in statuses {
        return Reject(InvalidChannel);
      }
      if !Check(role, statuses[channelId], status).Accepted? {
        return Reject(BadStatus);
      }
      var rest := slice.rest[4..];
      if |rest| < 4 {
        return NeedMore;
      }
      var dataLen := Uint32(rest[..4]);
      if dataLen > MAX_PACKET_SIZE {
        return Reject(TooMuchData);
      }
      if dataLen == 0 {
        return Reject(NoData);
      }
      var data := rest[4..];
      if |data| < dataLen {
        return NeedMore;
      }
      o := Deliver(Packet(status, slice.value, channelId, data[..dataLen]), data[dataLen..]);
    }

    /** The end of the loop body: note the status, count, and queue the packet. */
    method Receive(pkt: Packet, rest: seq<byte>)
      requires Valid() && pkt.channelId in queues
      modifies this
      ensures Valid() && View() == Routed(old(View()), pkt, rest)
    {
      hide FrameBytes;
      var id := pkt.channelId;
      FrameBytesMore(queues[id], pkt);
      arrived := rest;
      statuses := statuses[id := pkt.status];
      packetReceived := packetReceived[id := packetReceived[id] + 1];
      bytesReceived := bytesReceived[id := bytesReceived[id] + |pkt.data| + 1 + |pkt.path| + 1 + 4 + 4];
      queues := queues[id := queues[id] + [pkt]];
    }

    method ReadLoop()
      requires Valid()
      modifies this
      ensures Valid() && View() == ReadAll(role, old(View()))
    {
      while failure.None?
        invariant Valid()
        invariant ReadAll(role, View()) == ReadAll(role, old(View()))
        decreases failure.None?, |arrived|
      {
        var outcome := NextFrame();
        DeliverFacts(role, statuses, arrived);
        match outcome {
          case NeedMore =>
            return;
          case Reject(why) =>
            failure := Some(why);
          case Deliver(pkt, rest) =>
            Receive(pkt, rest);
        }
      }
    }
  }
}
