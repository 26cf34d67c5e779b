/** The link's invariant holds in every run, and what follows from it end to end. */
module LinkProofs {
  import opened Packets
  import opened Frames
  import opened Statuses
  import opened Chunks
  import opened Reading
  import opened Merging
  import opened Links

  lemma Regroup<T>(a: seq<T>, x: T, b: seq<T>)
    ensures (a + [x]) + b == a + ([x] + b)
  {
  }

  lemma SnocAfter<T>(a: seq<T>, b: seq<T>, x: T)
    ensures a + (b + [x]) == (a + b) + [x]
  {
  }

  lemma ConsBefore<T>(x: T, a: seq<T>, b: seq<T>)
    ensures ([x] + a) + b == [x] + (a + b)
  {
  }

  lemma OnSnoc(id: uint32, ps: seq<Packet>, p: Packet)
    ensures On(id, ps + [p]) == if p.channelId == id then On(id, ps) + [p] else On(id, ps)
  {
    OnAppend(id, ps, [p]);
    assert On(id, [p]) == if p.channelId == id then [p] + On(id, []) else On(id, []);
  }

  lemma PushedArePushable(role: Role, mode: SendMode, id: uint32, m: Message)
    requires WellFormed(m)
    ensures forall i :: 0 <= i < |PushedFor(role, mode, id, m)| ==>
              Pushable(PushedFor(role, mode, id, m)[i]) && PushedFor(role, mode, id, m)[i].channelId == id
  {
    PushedForShape(role, mode, id, m);
    ChunksOfMessage(role, id, m);
  }

  // ----- what moving packets does to the account of one channel -----

  lemma AccountedAfterBegin(role: Role, mode: SendMode, id: uint32, sent: seq<Message>, lost: nat,
                            front: seq<Packet>, back: seq<Packet>, m: Message)
    requires Wellformed(sent) && WellFormed(m) && Accounted(role, mode, id, sent, lost, false, front, back)
    ensures Wellformed(sent + [m])
    ensures Accounted(role, mode, id, sent + [m], lost, false, front, back + PushedFor(role, mode, id, m))
  {
    PushedAllSnoc(role, mode, id, sent, m);
    var more := PushedFor(role, mode, id, m);
    assert front + back + more == front + (back + more);
  }

  lemma AccountedAfterWrite(role: Role, mode: SendMode, id: uint32, sent: seq<Message>, lost: nat,
                            front: seq<Packet>, p: Packet, back: seq<Packet>)
    requires Wellformed(sent) && Accounted(role, mode, id, sent, lost, false, front, [p] + back)
    ensures Accounted(role, mode, id, sent, lost, false, front + [p], back)
  {
  }

  /** What makes the head refusable is not undone. */
  predicate StaysRefusable(ch: Chan, ch': Chan) {
    ch'.lost >= ch.lost && (ch.readShut ==> ch'.readShut)
  }

  lemma RefusalStays(l: Link, l': Link)
    requires l.recvClosed ==> HeadRefusable(l)
    requires l'.recvClosed == l.recvClosed && (l.onWire != [] ==> l'.onWire != [] && l'.onWire[0] == l.onWire[0])
    requires forall c :: c in l.chans ==> c in l'.chans && StaysRefusable(l.chans[c], l'.chans[c])
    ensures l'.recvClosed ==> HeadRefusable(l')
  {
  }

  /** A channel none of whose packets moved. */
  lemma SameChan(l: Link, l': Link, c: uint32)
    requires c in l.chans && ChanInv(l, c) && c in l'.chans && l'.chans[c] == l.chans[c]
    requires l'.role == l.role && l'.mode == l.mode && l'.sendClosed == l.sendClosed
    requires On(c, l'.onWire) == On(c, l.onWire) && On(c, l'.writeQ) == On(c, l.writeQ)
    ensures ChanInv(l', c)
  {
  }

  /** Only channel id has changed and no packet has moved. */
  lemma ChansKeep(l: Link, l': Link, id: uint32)
    requires Inv(l) && id in l'.chans && ChanInv(l', id)
    requires forall c :: c in l'.chans && c != id ==> c in l.chans && l'.chans[c] == l.chans[c]
    requires l'.role == l.role && l'.mode == l.mode && l'.sendClosed == l.sendClosed
    requires l'.onWire == l.onWire && l'.writeQ == l.writeQ
    ensures forall c :: c in l'.chans ==> ChanInv(l', c)
  {
    hide ChanInv;
    forall c | c in l'.chans ensures ChanInv(l', c) {
      if c != id {
        SameChan(l, l', c);
      }
    }
  }

  // ----- one lemma for each step: a channel, then the whole link -----

  lemma FreshParts(l: Link, id: uint32)
    requires id in l.chans && l.chans[id] == FRESH_CHAN && On(id, l.onWire) == [] && On(id, l.writeQ) == []
    ensures Received(l.chans[id]) == [] && Front(l, id) == [] && Back(l, id) == []
  {
    hide On;
  }

  lemma FreshSound(l: Link, id: uint32)
    requires id in l.chans && l.chans[id] == FRESH_CHAN && Received(l.chans[id]) == [] && On(id, l.onWire) == []
    ensures ChanSound(l, id)
  {
    hide MergeAll, FrameBytes, On, Received, Front;
    NothingReceived(l.role);
  }

  lemma FreshAccounted(role: Role, mode: SendMode, id: uint32, closed: bool)
    ensures Accounted(role, mode, id, [], 0, closed, [], [])
  {
    hide PushedAll;
    NothingPushed(role, mode, id);
  }

  lemma OpenMakesChan(l: Link, id: uint32)
    requires Inv(l) && Enabled(l, Open(id))
    ensures ChanInv(Apply(l, Open(id)), id)
  {
    hide ChanSound, Accounted, On, Received, Front, Back;
    NotOn(id, l.onWire);
    NotOn(id, l.writeQ);
    var l' := Apply(l, Open(id));
    FreshParts(l', id);
    FreshSound(l', id);
    FreshAccounted(l.role, l.mode, id, l.sendClosed);
  }

  lemma NothingPushed(role: Role, mode: SendMode, id: uint32)
    ensures PushedAll(role, mode, id, []) == []
  {
  }

  lemma OpenKeepsInv(l: Link, id: uint32)
    requires Inv(l) && Enabled(l, Open(id))
    ensures Inv(Apply(l, Open(id)))
  {
    hide ChanInv;
    OpenMakesChan(l, id);
    ChansKeep(l, Apply(l, Open(id)), id);
    RefusalStays(l, Apply(l, Open(id)));
  }

  lemma {:induction false} NotOn(id: uint32, ps: seq<Packet>)
    requires forall i :: 0 <= i < |ps| ==> ps[i].channelId != id
    ensures On(id, ps) == []
  {
    if ps != [] {
      NotOn(id, ps[1..]);
    }
  }

  lemma SentIsWellformed(l: Link, id: uint32)
    requires id in l.chans && ChanSound(l, id)
    ensures Wellformed(l.chans[id].sent)
  {
  }

  lemma BeginKeepsSound(l: Link, id: uint32, m: Message)
    requires Enabled(l, Begin(id, m)) && ChanSound(l, id)
    ensures ChanSound(BeginOn(l, id, m), id)
  {
    PushedArePushable(l.role, l.mode, id, m);
  }

  lemma BeginKeepsChan(l: Link, id: uint32, m: Message)
    requires Enabled(l, Begin(id, m)) && ChanInv(l, id)
    ensures ChanInv(BeginOn(l, id, m), id)
  {
    hide ChanSound, Accounted, PushedFor, MergeAll;
    var l', ch := BeginOn(l, id, m), l.chans[id];
    SentIsWellformed(l, id);
    BeginKeepsSound(l, id, m);
    AccountedAfterBegin(l.role, l.mode, id, ch.sent, ch.lost, Front(l, id), Back(l, id), m);
    assert Front(l', id) == Front(l, id);
    assert Back(l', id) == Back(l, id) + l'.chans[id].outbox;
  }

  lemma BeginKeepsInv(l: Link, id: uint32, m: Message)
    requires Inv(l) && Enabled(l, Begin(id, m))
    ensures Inv(BeginOn(l, id, m))
  {
    hide ChanInv;
    BeginKeepsChan(l, id, m);
    ChansKeep(l, BeginOn(l, id, m), id);
    RefusalStays(l, BeginOn(l, id, m));
  }

  lemma PushKeepsChan(l: Link, id: uint32, c: uint32)
    requires Enabled(l, Push(id)) && ChanInv(l, id) && c in l.chans && ChanInv(l, c)
    ensures ChanInv(PushOn(l, id), c)
  {
    var l', f := PushOn(l, id), l.chans[id].outbox[0];
    OnSnoc(c, l.writeQ, f);
    if c == id {
      var rest := l'.chans[c].outbox;
      assert l.chans[id].outbox == [f] + rest;
      Regroup(On(c, l.writeQ), f, rest);
    }
    assert Front(l', c) == Front(l, c) && Back(l', c) == Back(l, c);
  }

  lemma PushKeepsWire(l: Link, id: uint32)
    requires WireSound(l) && Enabled(l, Push(id)) && ChanInv(l, id)
    ensures WireSound(PushOn(l, id))
  {
    RefusalStays(l, PushOn(l, id));
  }

  lemma PushKeepsInv(l: Link, id: uint32)
    requires Inv(l) && Enabled(l, Push(id))
    ensures Inv(PushOn(l, id))
  {
    hide ChanInv;
    var l' := PushOn(l, id);
    assert ChanInv(l, id);
    forall c | c in l'.chans ensures ChanInv(l', c) {
      assert ChanInv(l, c);
      PushKeepsChan(l, id, c);
    }
    PushKeepsWire(l, id);
  }

  lemma TimeOutKeepsChan(l: Link, id: uint32)
    requires Enabled(l, TimeOut(id)) && ChanInv(l, id)
    ensures ChanInv(TimeOutOn(l, id), id)
  {
  }

  lemma TimeOutKeepsInv(l: Link, id: uint32)
    requires Inv(l) && Enabled(l, TimeOut(id))
    ensures Inv(TimeOutOn(l, id))
  {
    hide ChanInv;
    TimeOutKeepsChan(l, id);
    ChansKeep(l, TimeOutOn(l, id), id);
    RefusalStays(l, TimeOutOn(l, id));
  }

  lemma DisconnectKeepsChan(l: Link, c: uint32)
    requires c in l.chans && ChanInv(l, c)
    ensures ChanInv(Disconnected(l), c)
  {
    assert Front(Disconnected(l), c) == Front(l, c);
  }

  lemma DisconnectKeepsInv(l: Link)
    requires Inv(l)
    ensures Inv(Disconnected(l))
  {
    hide ChanInv;
    var l' := Disconnected(l);
    forall c | c in l'.chans ensures ChanInv(l', c) {
      DisconnectKeepsChan(l, c);
    }
    RefusalStays(l, l');
  }

  lemma {:induction false} LayoutAllSnoc(ps: seq<Packet>, p: Packet)
    requires AllSendable(ps) && Sendable(p)
    ensures LayoutAll(ps + [p]) == LayoutAll(ps) + Layout(p)
    decreases |ps|
  {
    if ps == [] {
      assert LayoutAll([p]) == Layout(p) + LayoutAll([]);
    } else {
      assert (ps + [p])[1..] == ps[1..] + [p];
      LayoutAllSnoc(ps[1..], p);
      assert Layout(ps[0]) + (LayoutAll(ps[1..]) + Layout(p)) == Layout(ps[0]) + LayoutAll(ps[1..]) + Layout(p);
    }
  }

  lemma FrameBytesSnoc(ps: seq<Packet>, p: Packet)
    requires |p.data| <= MAX_PACKET_SIZE
    ensures FrameBytes(ps + [p]) == FrameBytes(ps) + |Layout(p)|
  {
  }

  lemma {:induction false} FrameBytesAppend(a: seq<Packet>, b: seq<Packet>)
    ensures FrameBytes(a + b) == FrameBytes(a) + FrameBytes(b)
    decreases |b|
  {
    if b == [] {
      assert a + b == a;
    } else {
      assert (a + b)[..|a + b| - 1] == a + b[..|b| - 1];
      FrameBytesAppend(a, b[..|b| - 1]);
    }
  }

  lemma FrameBytesCons(p: Packet, ps: seq<Packet>)
    ensures FrameBytes([p] + ps) == |p.data| + 1 + |p.path| + 1 + 4 + 4 + FrameBytes(ps)
  {
    FrameBytesAppend([p], ps);
    assert [p][..0] == [];
  }

  /** Writing the packet at the head of the queue moves it from the back to the front. */
  lemma WrittenMoves(l: Link, c: uint32)
    requires Enabled(l, Write) && Encode(l.writeQ[0]).Ok? && c in l.chans && c == l.writeQ[0].channelId
    ensures Front(Written(l), c) == Front(l, c) + [l.writeQ[0]]
    ensures Back(l, c) == [l.writeQ[0]] + Back(Written(l), c)
  {
    var p, ch := l.writeQ[0], l.chans[c];
    OnSnoc(c, l.onWire, p);
    SnocAfter(Received(ch), On(c, l.onWire), p);
    ConsBefore(p, On(c, l.writeQ[1..]), ch.outbox);
  }

  lemma WriteKeepsSound(l: Link, c: uint32)
    requires Enabled(l, Write) && Encode(l.writeQ[0]).Ok? && c in l.chans && ChanSound(l, c) && c == l.writeQ[0].channelId
    ensures ChanSound(Written(l), c)
  {
    WrittenMoves(l, c);
    OnSnoc(c, l.onWire, l.writeQ[0]);
    FrameBytesSnoc(On(c, l.onWire), l.writeQ[0]);
  }

  lemma WriteKeepsOwnChan(l: Link, c: uint32)
    requires Enabled(l, Write) && Encode(l.writeQ[0]).Ok? && c in l.chans && ChanInv(l, c) && c == l.writeQ[0].channelId
    ensures ChanInv(Written(l), c)
  {
    var ch := l.chans[c];
    WriteKeepsSound(l, c);
    WrittenMoves(l, c);
    AccountedAfterWrite(l.role, l.mode, c, ch.sent, ch.lost, Front(l, c), l.writeQ[0], Back(Written(l), c));
  }

  lemma WriteKeepsChan(l: Link, c: uint32)
    requires Enabled(l, Write) && Encode(l.writeQ[0]).Ok? && c in l.chans && ChanInv(l, c)
    ensures ChanInv(Written(l), c)
  {
    if c == l.writeQ[0].channelId {
      WriteKeepsOwnChan(l, c);
    } else {
      OnSnoc(c, l.onWire, l.writeQ[0]);
      SameChan(l, Written(l), c);
    }
  }

  lemma WriteKeepsWire(l: Link)
    requires WireSound(l) && Enabled(l, Write) && Encode(l.writeQ[0]).Ok?
    ensures WireSound(Written(l))
  {
    hide Layout, Check;
    var l', p := Written(l), l.writeQ[0];
    assert Pushable(p);
    LayoutAllSnoc(l.onWire, p);
    assert l.arrived + (l.flight + Layout(p)) == l.arrived + l.flight + Layout(p);
    RefusalStays(l, l');
  }

  lemma WriteKeepsInv(l: Link)
    requires Inv(l) && Enabled(l, Write)
    ensures Inv(Written(l))
  {
    hide ChanInv;
    var l' := Written(l);
    if Encode(l.writeQ[0]).Err? {
      DisconnectKeepsInv(l);
    } else {
      forall c | c in l'.chans ensures ChanInv(l', c) {
        assert ChanInv(l, c);
        WriteKeepsChan(l, c);
      }
      WriteKeepsWire(l);
    }
  }

  lemma MoveBytes(a: seq<byte>, b: seq<byte>, n: nat)
    requires n <= |b|
    ensures (a + b[..n]) + b[n..] == a + b
  {
  }

  lemma ConveyKeepsInv(l: Link, n: nat)
    requires Inv(l) && n <= |l.flight|
    ensures Inv(ConveyedBytes(l, n))
  {
    hide ChanInv;
    var l' := ConveyedBytes(l, n);
    MoveBytes(l.arrived, l.flight, n);
    forall c | c in l'.chans ensures ChanInv(l', c) {
      SameChan(l, l', c);
    }
    RefusalStays(l, l');
  }

  lemma TakeKeepsChan(l: Link, id: uint32)
    requires Enabled(l, Take(id)) && ChanInv(l, id)
    ensures ChanInv(TakeOn(l, id), id)
  {
    var l' := TakeOn(l, id);
    var ch, ch' := l.chans[id], l'.chans[id];
    assert ch.queue == [ch.queue[0]] + ch'.queue;
    Regroup(ch.consumed, ch.queue[0], ch'.queue);
    assert ch'.consumed[..|ch.consumed|] == ch.consumed;
    assert Front(l', id) == Front(l, id) && Back(l', id) == Back(l, id);
  }

  lemma TakeKeepsInv(l: Link, id: uint32)
    requires Inv(l) && Enabled(l, Take(id))
    ensures Inv(TakeOn(l, id))
  {
    hide ChanInv;
    TakeKeepsChan(l, id);
    ChansKeep(l, TakeOn(l, id), id);
    RefusalStays(l, TakeOn(l, id));
  }

  // ----- reading -----

  lemma ReadRejected(role: Role, statuses: map<uint32, byte>, p: Packet, more: seq<byte>)
    requires Sendable(p) && p.channelId in statuses && !Check(role, statuses[p.channelId], p.status).Accepted?
    ensures ReadFrame(role, statuses, Layout(p) + more) == Reject(BadStatus)
  {
    LayoutFields(p, more);
  }

  /** A frame for a channel the reader does not know is refused as soon as its channel id
      has arrived. */
  lemma ReadUnknown(role: Role, statuses: map<uint32, byte>, p: Packet, more: seq<byte>)
    requires Sendable(p) && p.channelId !in statuses
    ensures ReadFrame(role, statuses, Header(p) + more) == Reject(InvalidChannel)
  {
    HeaderFields(p, more);
  }

  /** And until then the reader waits. */
  lemma ReadHeaderPart(role: Role, statuses: map<uint32, byte>, p: Packet, n: nat)
    requires Sendable(p) && n < |Header(p)|
    ensures ReadFrame(role, statuses, Header(p)[..n]).NeedMore?
  {
    hide PutUint32, Check;
    var s := Header(p)[..n];
    if n > 0 {
      var s1 := s[1..];
      if n <= 1 + |p.path| {
        assert s1 == p.path[..n - 1];
        assert NulAt(s1) == |s1|;
      } else {
        var s2 := PutUint32(p.channelId)[..n - |p.path| - 2];
        assert s1 == p.path + [0] + s2;
        TakePathField(p.path, s2);
      }
    }
  }

  /** A packet at the front of a layout, cut after n bytes. */
  lemma HeaderFirst(p: Packet, tail: seq<byte>, s: seq<byte>, rest: seq<byte>)
    requires |p.data| <= MAX_PACKET_SIZE && s + rest == Layout(p) + tail
    ensures |s| >= |Header(p)| ==> s == Header(p) + s[|Header(p)|..]
    ensures |s| < |Header(p)| ==> s == Header(p)[..|s|]
  {
    var all := Layout(p) + tail;
    assert s == all[..|s|];
    assert all == Header(p) + (PutUint32(|p.data|) + p.data + tail);
  }

  /** On a channel without losses the next packet on the wire passes the status check. */
  lemma NextIsAccepted(l: Link)
    requires Inv(l) && l.onWire != [] && l.chans[l.onWire[0].channelId].lost == 0
    ensures Check(l.role, l.chans[l.onWire[0].channelId].status, l.onWire[0].status).Accepted?
  {
    var p := l.onWire[0];
    var ch := l.chans[p.channelId];
    assert ChanInv(l, p.channelId);
    var got := Received(ch);
    assert On(p.channelId, l.onWire) == [p] + On(p.channelId, l.onWire[1..]);
    Regroup(got, p, On(p.channelId, l.onWire[1..]));
    assert got + [p] <= Front(l, p.channelId);
    AllSendableAppend(got, [p]);
    PrefixAccepted(l.role, l.mode, p.channelId, ch.sent, got + [p], ch.start);
    StatusesOfAppend(got, [p]);
    AcceptsAppend(l.role, ch.start, StatusesOf(got), StatusesOf([p]));
  }

  /** The frame at the head of the wire, all of it: delivered, or refused for what it is. */
  lemma WholeHead(l: Link, tail: seq<byte>)
    requires Inv(l) && l.onWire != []
    ensures
      var p := l.onWire[0];
      var ch := l.chans[p.channelId];
      var o := ReadFrame(l.role, StatusMap(l), Layout(p) + tail);
      if ch.readShut then o == Reject(InvalidChannel)
      else if Check(l.role, ch.status, p.status).Accepted? then o == Deliver(p, tail)
      else o == Reject(BadStatus)
  {
    var p, st := l.onWire[0], StatusMap(l);
    if p.channelId !in st {
      HeaderFirst(p, tail, Layout(p) + tail, []);
      ReadUnknown(l.role, st, p, (Layout(p) + tail)[|Header(p)|..]);
    } else if Check(l.role, st[p.channelId], p.status).Accepted? {
      ReadLayout(l.role, st, p, tail);
    } else {
      ReadRejected(l.role, st, p, tail);
    }
  }

  /** What one turn of the read loop can find. */
  lemma ReadOutcome(l: Link)
    requires Inv(l)
    ensures
      var o := ReadFrame(l.role, StatusMap(l), l.arrived);
      && (o.Deliver? ==> l.onWire != [] && o.pkt == l.onWire[0] && o.rest + l.flight == LayoutAll(l.onWire[1..]))
      && (o.Reject? ==> HeadRefusable(l))
  {
    var o := ReadFrame(l.role, StatusMap(l), l.arrived);
    if l.onWire == [] {
      assert l.arrived == [];
    } else {
      var tail := LayoutAll(l.onWire[1..]);
      assert LayoutAll(l.onWire) == Layout(l.onWire[0]) + tail;
      WholeHead(l, tail);
      if l.chans[l.onWire[0].channelId].lost == 0 {
        NextIsAccepted(l);
      }
      if !o.NeedMore? {
        VerdictIsStable(l.role, StatusMap(l), l.arrived, l.flight);
      }
    }
  }

  /** The channel of the oldest packet on the wire is closed at the reading end, and enough
      of the packet has arrived to see which channel it is for. */
  predicate Refuses(l: Link) {
    && l.onWire != [] && l.onWire[0].channelId in l.chans
    && l.chans[l.onWire[0].channelId].readShut && |l.arrived| >= |Header(l.onWire[0])|
  }

  /** Where nothing has been lost the read loop refuses what is at hand, and with it the
      connection, exactly when it is for a channel closed at the reading end. */
  lemma RefusedIff(l: Link)
    requires Inv(l) && (l.onWire != [] ==> l.chans[l.onWire[0].channelId].lost == 0)
    ensures ReadFrame(l.role, StatusMap(l), l.arrived).Reject? <==> Refuses(l)
  {
    ReadOutcome(l);
    if l.onWire != [] {
      var p, st, tail := l.onWire[0], StatusMap(l), LayoutAll(l.onWire[1..]);
      assert LayoutAll(l.onWire) == Layout(p) + tail;
      HeaderFirst(p, tail, l.arrived, l.flight);
      if |l.arrived| < |Header(p)| {
        ReadHeaderPart(l.role, st, p, |l.arrived|);
      } else if l.chans[p.channelId].readShut {
        ReadUnknown(l.role, st, p, l.arrived[|Header(p)|..]);
      }
    }
  }

  lemma ReadKeepsChan(l: Link, rest: seq<byte>, c: uint32)
    requires l.onWire != [] && Sendable(l.onWire[0]) && l.onWire[0].channelId in l.chans
    requires c in l.chans && ChanInv(l, c)
    ensures ChanInv(ReadInto(l, l.onWire[0], rest), c)
  {
    var p := l.onWire[0];
    var l' := ReadInto(l, p, rest);
    if c == p.channelId {
      var ch, ch' := l.chans[c], l'.chans[c];
      var got := Received(ch);
      assert Received(ch') == got + [p];
      assert On(c, l.onWire) == [p] + On(c, l'.onWire);
      Regroup(got, p, On(c, l'.onWire));
      FrameBytesCons(p, On(c, l'.onWire));
      AllSendableAppend(got, [p]);
      assert Front(l', c) == Front(l, c);
    } else {
      assert On(c, l.onWire) == On(c, l'.onWire);
    }
    assert Back(l', c) == Back(l, c);
  }

  lemma ReadKeepsWire(l: Link, rest: seq<byte>)
    requires WireSound(l) && !l.recvClosed && l.onWire != [] && rest + l.flight == LayoutAll(l.onWire[1..])
    ensures WireSound(ReadInto(l, l.onWire[0], rest))
  {
  }

  lemma DeliveryKeepsInv(l: Link, rest: seq<byte>)
    requires Inv(l) && !l.recvClosed && l.onWire != [] && rest + l.flight == LayoutAll(l.onWire[1..])
    ensures Inv(ReadInto(l, l.onWire[0], rest))
  {
    hide ChanInv;
    var l' := ReadInto(l, l.onWire[0], rest);
    forall c | c in l'.chans ensures ChanInv(l', c) {
      assert ChanInv(l, c);
      ReadKeepsChan(l, rest, c);
    }
    ReadKeepsWire(l, rest);
  }

  lemma RejectKeepsInv(l: Link)
    requires Inv(l) && HeadRefusable(l)
    ensures Inv(l.(recvClosed := true))
  {
    hide ChanInv;
    var l' := l.(recvClosed := true);
    forall c | c in l'.chans ensures ChanInv(l', c) {
      SameChan(l, l', c);
    }
  }

  lemma ReadKeepsInv(l: Link)
    requires Inv(l) && Enabled(l, Read)
    ensures Inv(ReadOnce(l))
  {
    hide ChanInv;
    var o := ReadFrame(l.role, StatusMap(l), l.arrived);
    ReadOutcome(l);
    match o {
      case NeedMore =>
      case Reject(_) => RejectKeepsInv(l);
      case Deliver(p, rest) => DeliveryKeepsInv(l, rest);
    }
  }

  // ----- closing, using an id again, counting -----

  /** A change of one channel that moves no packet. */
  lemma OneChanKeepsInv(l: Link, id: uint32, ch: Chan)
    requires Inv(l) && id in l.chans && ChanInv(l.(chans := l.chans[id := ch]), id)
    requires On(id, l.onWire) != [] ==> StaysRefusable(l.chans[id], ch)
    ensures Inv(l.(chans := l.chans[id := ch]))
  {
    hide ChanInv;
    var l' := l.(chans := l.chans[id := ch]);
    ChansKeep(l, l', id);
    if l.onWire != [] && l.onWire[0].channelId == id {
      assert On(id, l.onWire) != [];
    }
  }

  lemma ShutKeepsInv(l: Link, id: uint32, at: End)
    requires Inv(l) && id in l.chans
    ensures Inv(ShutAt(l, id, at))
  {
    hide ChanInv;
    var ch := ShutAt(l, id, at).chans[id];
    ShutKeepsChan(l, id, at);
    OneChanKeepsInv(l, id, ch);
  }

  lemma ShutKeepsChan(l: Link, id: uint32, at: End)
    requires id in l.chans && ChanInv(l, id)
    ensures ChanInv(ShutAt(l, id, at), id)
  {
    var l' := ShutAt(l, id, at);
    assert Front(l', id) == Front(l, id) && Back(l', id) == Back(l, id);
  }

  /** After nothing, or a whole message, the status is one a new message may follow. */
  lemma BetweenMessages(l: Link, id: uint32)
    requires id in l.chans && ChanSound(l, id) && l.chans[id].queue == [] && l.chans[id].merge.whole == None
    ensures l.chans[id].status == STATUS_NONE || Completed(l.role, l.chans[id].status)
  {
    var ch := l.chans[id];
    assert Received(ch) == ch.consumed;
  }

  lemma ReopenKeepsChan(l: Link, id: uint32, at: End)
    requires MayReopen(l, id, at) && ChanInv(l, id)
    ensures ChanInv(ReopenedAt(l, id, at), id)
  {
    var l' := ReopenedAt(l, id, at);
    BetweenMessages(l, id);
    assert Received(l'.chans[id]) == [];
    assert Front(l', id) == [] && Back(l', id) == On(id, l.writeQ) + [];
    assert On(id, l.writeQ) == [];
  }

  lemma ReopenKeepsInv(l: Link, id: uint32, at: End)
    requires Inv(l) && MayReopen(l, id, at)
    ensures Inv(ReopenedAt(l, id, at))
  {
    hide ChanInv;
    ReopenKeepsChan(l, id, at);
    OneChanKeepsInv(l, id, ReopenedAt(l, id, at).chans[id]);
  }

  lemma ReuseKeepsInv(l: Link, id: uint32, at: End)
    requires Inv(l) && MayReuse(l, id, at)
    ensures Inv(ReusedAt(l, id, at))
  {
    hide ChanInv;
    if at.Sending? {
      SendReuseKeepsChan(l, id);
      OneChanKeepsInv(l, id, ReusedAt(l, id, at).chans[id]);
    } else {
      ReadReuseKeepsChan(l, id);
      ChansKeep(l, ReusedAt(l, id, at), id);
    }
  }

  lemma SendReuseKeepsChan(l: Link, id: uint32)
    requires id in l.chans && ChanInv(l, id)
    ensures ChanInv(ReusedAt(l, id, Sending), id)
  {
    var l' := ReusedAt(l, id, Sending);
    assert Front(l', id) == Front(l, id) && Back(l', id) == Back(l, id);
  }

  /** What the new channel object finds in front of it and behind it. */
  lemma ReusedParts(l: Link, id: uint32)
    requires id in l.chans
    ensures Received(ReusedAt(l, id, Reading).chans[id]) == []
    ensures Front(ReusedAt(l, id, Reading), id) == On(id, l.onWire)
    ensures Back(ReusedAt(l, id, Reading), id) == Back(l, id)
  {
    hide On;
    assert [] + On(id, l.onWire) == On(id, l.onWire);
  }

  /** After whole messages the packets to come are those of the other messages. */
  lemma RestAccounted(role: Role, mode: SendMode, id: uint32, sent: seq<Message>, closed: bool,
                      got: seq<Packet>, wire: seq<Packet>, back: seq<Packet>)
    requires Wellformed(sent) && AllSendable(got) && Partial(role, got) == []
    requires Accounted(role, mode, id, sent, 0, closed, got + wire, back)
    ensures
      var k := |MergeAll(role, NOTHING_MERGED, got).delivered|;
      k <= |sent| && Wellformed(sent[k..]) && Accounted(role, mode, id, sent[k..], 0, closed, wire, back)
  {
    hide MergeAll, PushedAll, Partial, WellFormed, Sendable;
    var all := PushedAll(role, mode, id, sent);
    var way := all[|got|..];
    assert got + way == all;
    RestOfPackets(role, mode, id, sent, got, way);
    assert [] + way == way;
    assert wire <= way;
    if !closed {
      assert (got + wire) + back == got + (wire + back);
    }
  }

  lemma LossyAccounted(role: Role, mode: SendMode, id: uint32, sent: seq<Message>, lost: nat, closed: bool,
                       got: seq<Packet>, wire: seq<Packet>, back: seq<Packet>)
    requires Wellformed(sent) && Accounted(role, mode, id, sent, lost, closed, got + wire, back)
    requires lost > 0 || got != []
    ensures Accounted(role, mode, id, sent, lost + |got|, closed, wire, back)
  {
    hide PushedAll;
  }

  lemma ReadReuseKeepsChan(l: Link, id: uint32)
    requires id in l.chans && ChanInv(l, id)
    ensures ChanInv(ReusedAt(l, id, Reading), id)
  {
    hide Accounted, MergeAll, PushedAll, Partial, FrameBytes, On, Back;
    var l', ch := ReusedAt(l, id, Reading), l.chans[id];
    SentIsWellformed(l, id);
    ReusedParts(l, id);
    NothingReceived(l.role);
    if Between(l, id) {
      RestAccounted(l.role, l.mode, id, ch.sent, l.sendClosed, Received(ch), On(id, l.onWire), Back(l, id));
    } else {
      if Received(ch) == [] {
        NothingReceived(l.role);
      }
      LossyAccounted(l.role, l.mode, id, ch.sent, ch.lost, l.sendClosed, Received(ch), On(id, l.onWire), Back(l, id));
    }
  }

  lemma NothingReceived(role: Role)
    ensures MergeAll(role, NOTHING_MERGED, []) == NOTHING_MERGED && Partial(role, []) == [] && FrameBytes([]) == 0
  {
  }

  lemma CountKeepsInv(l: Link, id: uint32, at: End, n: nat)
    requires Inv(l) && Enabled(l, Count(id, at, n))
    ensures Inv(CountedAt(l, id, at, n))
  {
    hide ChanInv;
    CountKeepsChan(l, id, at, n);
    OneChanKeepsInv(l, id, CountedAt(l, id, at, n).chans[id]);
  }

  lemma CountKeepsChan(l: Link, id: uint32, at: End, n: nat)
    requires Enabled(l, Count(id, at, n)) && ChanInv(l, id)
    ensures ChanInv(CountedAt(l, id, at, n), id)
  {
    var l' := CountedAt(l, id, at, n);
    assert Front(l', id) == Front(l, id) && Back(l', id) == Back(l, id);
  }

  lemma StepKeepsInv(l: Link, s: Step)
    requires Inv(l) && Enabled(l, s)
    ensures Inv(Apply(l, s))
  {
    hide ChanInv;
    match s
    case Open(id) => OpenKeepsInv(l, id);
    case Begin(id, m) => BeginKeepsInv(l, id, m);
    case Push(id) => PushKeepsInv(l, id);
    case TimeOut(id) => TimeOutKeepsInv(l, id);
    case Write => WriteKeepsInv(l);
    case Disconnect => DisconnectKeepsInv(l);
    case Convey(n) => ConveyKeepsInv(l, n);
    case Read => ReadKeepsInv(l);
    case Take(id) => TakeKeepsInv(l, id);
    case Shut(id, at) => ShutKeepsInv(l, id, at);
    case Reopen(id, at) => ReopenKeepsInv(l, id, at);
    case Reuse(id, at) => ReuseKeepsInv(l, id, at);
    case Count(id, at, n) => CountKeepsInv(l, id, at, n);
  }

  /** The invariant holds after every run, whatever the interleaving. */
  lemma {:induction false} RunKeepsInv(l: Link, steps: seq<Step>)
    requires Inv(l)
    ensures Inv(Run(l, steps))
    decreases |steps|
  {
    hide ChanInv;
    if steps != [] {
      RunKeepsInv(l, steps[..|steps| - 1]);
      var l' := Run(l, steps[..|steps| - 1]);
      if Enabled(l', steps[|steps| - 1]) {
        StepKeepsInv(l', steps[|steps| - 1]);
      }
    }
  }
}
