/** Which requests get through: pushes that time out are dropped, and what the server takes
    is the others, in order (protocol.go:246-263). */
module Losses {
  import opened Packets
  import opened Frames
  import opened Chunks
  import opened Reading
  import opened Merging
  import opened Links
  import opened LinkProofs
  import opened Sessions
  import opened SessionProofs

  /** The packets whose push did not time out. */
  function Through<T>(ps: seq<T>, timedOut: seq<bool>): seq<T>
    requires |timedOut| <= |ps|
    decreases |timedOut|
  {
    if timedOut == [] then []
    else
      var n := |timedOut| - 1;
      Through(ps, timedOut[..n]) + if timedOut[n] then [] else [ps[n]]
  }

  function Survived(timedOut: seq<bool>): (n: nat)
    ensures n <= |timedOut|
    decreases |timedOut|
  {
    if timedOut == [] then 0
    else Survived(timedOut[..|timedOut| - 1]) + if timedOut[|timedOut| - 1] then 0 else 1
  }

  /** The place, among all pushes, of the k-th that did not time out. */
  function Origin(timedOut: seq<bool>, k: nat): (n: nat)
    requires k < Survived(timedOut)
    ensures k <= n < |timedOut| && !timedOut[n]
    decreases |timedOut|
  {
    var n := |timedOut| - 1;
    if k == Survived(timedOut[..n]) then n else Origin(timedOut[..n], k)
  }

  predicate NoneTimedOut(timedOut: seq<bool>, k: nat)
    requires k <= |timedOut|
  {
    forall i :: 0 <= i < k ==> !timedOut[i]
  }

  lemma {:induction false} ThroughAt<T>(ps: seq<T>, timedOut: seq<bool>, k: nat)
    requires |timedOut| <= |ps| && k < Survived(timedOut)
    ensures |Through(ps, timedOut)| == Survived(timedOut) && Through(ps, timedOut)[k] == ps[Origin(timedOut, k)]
    decreases |timedOut|
  {
    var n := |timedOut| - 1;
    ThroughCount(ps, timedOut[..n]);
    if k < Survived(timedOut[..n]) {
      ThroughAt(ps, timedOut[..n], k);
    }
  }

  lemma {:induction false} ThroughCount<T>(ps: seq<T>, timedOut: seq<bool>)
    requires |timedOut| <= |ps|
    ensures |Through(ps, timedOut)| == Survived(timedOut)
    decreases |timedOut|
  {
    if timedOut != [] {
      ThroughCount(ps, timedOut[..|timedOut| - 1]);
    }
  }

  lemma {:induction false} ThroughOfMore<T>(ps: seq<T>, more: seq<T>, timedOut: seq<bool>)
    requires |timedOut| <= |ps|
    ensures Through(ps + more, timedOut) == Through(ps, timedOut)
    decreases |timedOut|
  {
    if timedOut != [] {
      ThroughOfMore(ps, more, timedOut[..|timedOut| - 1]);
    }
  }

  lemma ThroughSnoc<T>(ps: seq<T>, timedOut: seq<bool>, last: bool)
    requires |timedOut| < |ps|
    ensures Through(ps, timedOut + [last]) == Through(ps, timedOut) + if last then [] else [ps[|timedOut|]]
  {
    assert (timedOut + [last])[..|timedOut|] == timedOut;
  }

  lemma {:induction false} SurvivedAllIff(timedOut: seq<bool>)
    ensures Survived(timedOut) == |timedOut| <==> NoneTimedOut(timedOut, |timedOut|)
    decreases |timedOut|
  {
    if timedOut != [] {
      var n := |timedOut| - 1;
      SurvivedAllIff(timedOut[..n]);
      assert timedOut == timedOut[..n] + [timedOut[n]];
    }
  }

  lemma {:induction false} SurvivedAtLeast(timedOut: seq<bool>, k: nat)
    requires k <= |timedOut| && NoneTimedOut(timedOut, k)
    ensures Survived(timedOut) >= k
    decreases |timedOut|
  {
    if timedOut != [] {
      var n := |timedOut| - 1;
      SurvivedAtLeast(timedOut[..n], if k <= n then k else n);
    }
  }

  /** A push is in its own place among the survivors exactly when none up to it timed out. */
  lemma {:induction false} OriginIff(timedOut: seq<bool>, k: nat)
    requires k < Survived(timedOut)
    ensures Origin(timedOut, k) == k <==> NoneTimedOut(timedOut, k + 1)
    decreases |timedOut|
  {
    var n := |timedOut| - 1;
    if k == Survived(timedOut[..n]) {
      SurvivedAllIff(timedOut[..n]);
      if n > k && NoneTimedOut(timedOut, k + 1) {
        SurvivedAtLeast(timedOut[..n], k + 1);
      }
    } else {
      OriginIff(timedOut[..n], k);
    }
  }

  // ----- the account of one channel -----

  /** All pushed so far are written or wait to be written, but for those that timed out. */
  predicate Pushes(l: Link, id: uint32)
    requires id in l.chans && Wellformed(l.chans[id].sent)
  {
    var ch, all := l.chans[id], PushedAll(l.role, l.mode, id, l.chans[id].sent);
    && |ch.timedOut| <= |all|
    && ch.outbox == all[|ch.timedOut|..]
    && (!l.sendClosed ==> Front(l, id) + On(id, l.writeQ) == Through(all, ch.timedOut))
    && Front(l, id) <= Through(all, ch.timedOut)
  }

  predicate AllPushes(l: Link) {
    forall id :: id in l.chans ==> Wellformed(l.chans[id].sent) && Pushes(l, id)
  }

  /** The packets of the channel are where they were. */
  predicate Still(l: Link, l': Link, id: uint32)
    requires id in l.chans && id in l'.chans
  {
    && l'.chans[id].sent == l.chans[id].sent && l'.chans[id].outbox == l.chans[id].outbox
    && l'.chans[id].timedOut == l.chans[id].timedOut && Front(l', id) == Front(l, id)
    && On(id, l'.writeQ) == On(id, l.writeQ)
  }

  predicate SameLink(l: Link, l': Link) {
    l'.role == l.role && l'.mode == l.mode && l'.sendClosed == l.sendClosed
  }

  lemma StillPushes(l: Link, l': Link, id: uint32)
    requires id in l.chans && Wellformed(l.chans[id].sent) && Pushes(l, id)
    requires id in l'.chans && SameLink(l, l') && Still(l, l', id)
    ensures Wellformed(l'.chans[id].sent) && Pushes(l', id)
  {
  }

  /** All but one channel are still. */
  lemma OthersStill(l: Link, l': Link, id: uint32)
    requires AllPushes(l) && SameLink(l, l')
    requires id in l'.chans ==> Wellformed(l'.chans[id].sent) && Pushes(l', id)
    requires forall c :: c in l'.chans && c != id ==> c in l.chans && Still(l, l', c)
    ensures AllPushes(l')
  {
    hide Pushes, Still;
    forall c | c in l'.chans ensures Wellformed(l'.chans[c].sent) && Pushes(l', c) {
      if c != id {
        StillPushes(l, l', c);
      }
    }
  }

  lemma FreshPushes(l: Link, id: uint32)
    requires id in l.chans && l.chans[id].sent == [] && l.chans[id].outbox == [] && l.chans[id].timedOut == []
    requires Front(l, id) == [] && On(id, l.writeQ) == []
    ensures Wellformed(l.chans[id].sent) && Pushes(l, id)
  {
  }

  lemma NonePackets(l: Link, id: uint32)
    requires Inv(l) && id !in l.chans
    ensures On(id, l.onWire) == [] && On(id, l.writeQ) == []
  {
    hide ChanInv;
    NotOn(id, l.onWire);
    NotOn(id, l.writeQ);
  }

  lemma OpenPushes(l: Link, id: uint32)
    requires Inv(l) && AllPushes(l) && Enabled(l, Open(id))
    ensures AllPushes(Apply(l, Open(id)))
  {
    hide Inv, Pushes, On;
    NonePackets(l, id);
    var l' := Apply(l, Open(id));
    FreshPushes(l', id);
    OthersStill(l, l', id);
  }

  lemma BeginPushesOwn(l: Link, id: uint32, m: Message)
    requires Enabled(l, Begin(id, m)) && Wellformed(l.chans[id].sent) && Pushes(l, id)
    ensures Wellformed(BeginOn(l, id, m).chans[id].sent) && Pushes(BeginOn(l, id, m), id)
  {
    hide PushedAll, PushedFor, Through, On;
    var l', ch := BeginOn(l, id, m), l.chans[id];
    var all, more := PushedAll(l.role, l.mode, id, ch.sent), PushedFor(l.role, l.mode, id, m);
    PushedAllSnoc(l.role, l.mode, id, ch.sent, m);
    ThroughOfMore(all, more, ch.timedOut);
    assert |ch.timedOut| == |all|;
    assert (all + more)[|ch.timedOut|..] == more;
    assert Front(l', id) == Front(l, id);
  }

  lemma BeginPushes(l: Link, id: uint32, m: Message)
    requires AllPushes(l) && Enabled(l, Begin(id, m))
    ensures AllPushes(BeginOn(l, id, m))
  {
    hide Pushes, PushedFor;
    BeginPushesOwn(l, id, m);
    OthersStill(l, BeginOn(l, id, m), id);
  }

  lemma PushPushesOwn(l: Link, id: uint32)
    requires Enabled(l, Push(id)) && ChanSound(l, id) && Pushes(l, id)
    ensures Pushes(PushOn(l, id), id)
  {
    hide PushedAll, Through;
    var l', ch := PushOn(l, id), l.chans[id];
    var all := PushedAll(l.role, l.mode, id, ch.sent);
    ThroughSnoc(all, ch.timedOut, false);
    OnSnoc(id, l.writeQ, ch.outbox[0]);
    assert ch.outbox[0] == all[|ch.timedOut|] && ch.outbox[1..] == all[|ch.timedOut| + 1..];
    SnocAfter(Front(l, id), On(id, l.writeQ), ch.outbox[0]);
    assert Front(l', id) == Front(l, id);
  }

  lemma PushPushes(l: Link, id: uint32)
    requires Inv(l) && AllPushes(l) && Enabled(l, Push(id))
    ensures AllPushes(PushOn(l, id))
  {
    hide Pushes;
    var l' := PushOn(l, id);
    assert ChanInv(l, id);
    PushPushesOwn(l, id);
    forall c | c in l'.chans && c != id ensures Still(l, l', c) {
      OnSnoc(c, l.writeQ, l.chans[id].outbox[0]);
    }
    OthersStill(l, l', id);
  }

  lemma TimeOutPushesOwn(l: Link, id: uint32)
    requires Enabled(l, TimeOut(id)) && Wellformed(l.chans[id].sent) && Pushes(l, id)
    ensures Pushes(TimeOutOn(l, id), id)
  {
    hide PushedAll, Through;
    var l', ch := TimeOutOn(l, id), l.chans[id];
    var all := PushedAll(l.role, l.mode, id, ch.sent);
    ThroughSnoc(all, ch.timedOut, true);
    assert ch.outbox[1..] == all[|ch.timedOut| + 1..];
    assert Through(all, ch.timedOut) + [] == Through(all, ch.timedOut);
    assert Front(l', id) == Front(l, id);
  }

  lemma TimeOutPushes(l: Link, id: uint32)
    requires AllPushes(l) && Enabled(l, TimeOut(id))
    ensures AllPushes(TimeOutOn(l, id))
  {
    hide Pushes;
    TimeOutPushesOwn(l, id);
    OthersStill(l, TimeOutOn(l, id), id);
  }

  lemma DisconnectPushes(l: Link)
    requires AllPushes(l)
    ensures AllPushes(Disconnected(l))
  {
    hide PushedAll, Through;
    forall c | c in l.chans ensures Pushes(Disconnected(l), c) {
      assert Front(Disconnected(l), c) == Front(l, c);
    }
  }

  lemma WritePushesOwn(l: Link, c: uint32)
    requires Enabled(l, Write) && Encode(l.writeQ[0]).Ok? && c in l.chans && c == l.writeQ[0].channelId
    requires Wellformed(l.chans[c].sent) && Pushes(l, c)
    ensures Pushes(Written(l), c)
  {
    hide PushedAll, Through;
    WrittenMoves(l, c);
    Regroup(Front(l, c), l.writeQ[0], On(c, l.writeQ[1..]));
  }

  lemma WritePushes(l: Link)
    requires AllPushes(l) && Enabled(l, Write)
    ensures AllPushes(Written(l))
  {
    hide Pushes;
    var l', p := Written(l), l.writeQ[0];
    if Encode(p).Err? {
      DisconnectPushes(l);
    } else {
      WritePushesOwn(l, p.channelId);
      forall c | c in l'.chans && c != p.channelId ensures Still(l, l', c) {
        OnSnoc(c, l.onWire, p);
      }
      OthersStill(l, l', p.channelId);
    }
  }

  lemma ReadStill(l: Link, rest: seq<byte>, c: uint32)
    requires l.onWire != [] && l.onWire[0].channelId in l.chans && c in l.chans
    ensures Still(l, ReadInto(l, l.onWire[0], rest), c)
  {
    var p := l.onWire[0];
    var l' := ReadInto(l, p, rest);
    if c == p.channelId {
      assert Received(l'.chans[c]) == Received(l.chans[c]) + [p];
      Regroup(Received(l.chans[c]), p, On(c, l'.onWire));
    }
  }

  lemma AllStill(l: Link, l': Link)
    requires AllPushes(l) && SameLink(l, l') && forall c :: c in l'.chans ==> c in l.chans && Still(l, l', c)
    ensures AllPushes(l')
  {
    hide Pushes, Still;
    forall c | c in l'.chans ensures Wellformed(l'.chans[c].sent) && Pushes(l', c) {
      StillPushes(l, l', c);
    }
  }

  lemma ReadPushes(l: Link)
    requires Inv(l) && AllPushes(l) && Enabled(l, Read)
    ensures AllPushes(ReadOnce(l))
  {
    hide Inv, Pushes, Still, ReadInto;
    ReadOutcome(l);
    DeliverFacts(l.role, StatusMap(l), l.arrived);
    var o := ReadFrame(l.role, StatusMap(l), l.arrived);
    if o.Deliver? {
      ReadIntoStill(l, o.rest);
      AllStill(l, ReadInto(l, l.onWire[0], o.rest));
    } else if o.Reject? {
      ClosedStill(l);
      AllStill(l, l.(recvClosed := true));
    }
  }

  lemma ReadIntoStill(l: Link, rest: seq<byte>)
    requires l.onWire != [] && l.onWire[0].channelId in l.chans
    ensures
      var l' := ReadInto(l, l.onWire[0], rest);
      SameLink(l, l') && l'.chans.Keys == l.chans.Keys && forall c :: c in l.chans ==> Still(l, l', c)
  {
    hide Still;
    forall c | c in l.chans ensures Still(l, ReadInto(l, l.onWire[0], rest), c) {
      ReadStill(l, rest, c);
    }
  }

  lemma ClosedStill(l: Link)
    ensures forall c :: c in l.chans ==> Still(l, l.(recvClosed := true), c)
  {
  }

  lemma TakeStill(l: Link, id: uint32)
    requires Enabled(l, Take(id))
    ensures forall c :: c in l.chans ==> Still(l, TakeOn(l, id), c)
  {
    hide On;
    var ch := l.chans[id];
    assert ch.queue == [ch.queue[0]] + ch.queue[1..];
    Regroup(ch.consumed, ch.queue[0], ch.queue[1..]);
  }

  lemma TakePushes(l: Link, id: uint32)
    requires AllPushes(l) && Enabled(l, Take(id))
    ensures AllPushes(TakeOn(l, id))
  {
    hide Pushes, Still;
    TakeStill(l, id);
    AllStill(l, TakeOn(l, id));
  }

  lemma ShutPushes(l: Link, id: uint32, at: End)
    requires AllPushes(l) && id in l.chans
    ensures AllPushes(ShutAt(l, id, at))
  {
    hide Pushes, On;
    AllStill(l, ShutAt(l, id, at));
  }

  lemma ReusePushes(l: Link, id: uint32)
    requires AllPushes(l) && id in l.chans
    ensures AllPushes(ReusedAt(l, id, Sending))
  {
    hide Pushes, On, Between, Complete;
    AllStill(l, ReusedAt(l, id, Sending));
  }

  lemma ReopenPushes(l: Link, id: uint32, at: End)
    requires AllPushes(l) && MayReopen(l, id, at)
    ensures AllPushes(ReopenedAt(l, id, at))
  {
    hide Pushes;
    var l' := ReopenedAt(l, id, at);
    FreshPushes(l', id);
    OthersStill(l, l', id);
  }

  lemma MovePushes(l: Link, step: Step)
    requires Inv(l) && AllPushes(l) && Moves(step) && Enabled(l, step)
    ensures AllPushes(Apply(l, step))
  {
    hide Inv, AllPushes;
    match step
    case Push(id) => PushPushes(l, id);
    case TimeOut(id) => TimeOutPushes(l, id);
    case Write => WritePushes(l);
    case Disconnect => DisconnectPushes(l);
    case Convey(n) => ConveyPushes(l, n);
    case Read => ReadPushes(l);
    case Count(id, at, n) => CountPushes(l, id, at, n);
  }

  lemma ConveyPushes(l: Link, n: nat)
    requires AllPushes(l) && n <= |l.flight|
    ensures AllPushes(ConveyedBytes(l, n))
  {
    hide Pushes, On;
    AllStill(l, ConveyedBytes(l, n));
  }

  lemma CountPushes(l: Link, id: uint32, at: End, n: nat)
    requires AllPushes(l) && Enabled(l, Count(id, at, n))
    ensures AllPushes(CountedAt(l, id, at, n))
  {
    hide Pushes, On;
    AllStill(l, CountedAt(l, id, at, n));
  }

  lemma ServePushes(s: Session, a: Act)
    requires a.Serve? && CanAct(s, a) && AllPushes(s.up)
    ensures AllPushes(Perform(s, a).up)
  {
    hide AllPushes;
    TakePushes(s.up, a.id);
    if a.closes {
      ShutPushes(TakeOn(s.up, a.id), a.id, Reading);
    }
  }

  lemma ActPushes(s: Session, a: Act)
    requires Inv(s.up) && CanAct(s, a) && AllPushes(s.up)
    ensures AllPushes(Perform(s, a).up)
  {
    hide Inv, AllPushes;
    match a {
      case NewChannel(id) => OpenPushes(s.up, id);
      case SendOk(id) => BeginPushes(s.up, id, s.users[id].pushing.value.msg);
      case Serve(id, result, path, closes) => ServePushes(s, a);
      case CloseAt(id, role) => ShutPushes(s.up, id, Reading);
      case InvalidateAt(id, role) => ShutPushes(s.up, id, Sending);
      case ReopenAt(id, role) => ReopenPushes(s.up, id, UpEnd(role));
      case ReuseAt(id) => ReusePushes(s.up, id);
      case Up(step) => MovePushes(s.up, step);
      case _ =>
    }
  }

  lemma {:induction false} PlayPushes(mode: SendMode, acts: seq<Act>)
    ensures AllPushes(Play(FreshSession(mode), acts).up)
    decreases |acts|
  {
    hide Inv, Pushes, UsersInv;
    if acts != [] {
      PlayPushes(mode, acts[..|acts| - 1]);
      PlayKeeps(mode, acts[..|acts| - 1]);
      var s := Play(FreshSession(mode), acts[..|acts| - 1]);
      if CanAct(s, acts[|acts| - 1]) {
        ActPushes(s, acts[|acts| - 1]);
      }
    }
  }

  // ----- what the server takes -----

  /** The message each packet holds. */
  function Contents(ps: seq<Packet>): (ms: seq<Message>)
    ensures |ms| == |ps|
  {
    seq(|ps|, i requires 0 <= i < |ps| => Message(ps[i].path, ps[i].data))
  }

  lemma {:induction false} ContentsOfPushed(id: uint32, ms: seq<Message>)
    requires Wellformed(ms)
    ensures Contents(PushedAll(Client, DontChunk, id, ms)) == ms && AllSingle(PushedAll(Client, DontChunk, id, ms))
    decreases |ms|
  {
    if ms != [] {
      assert WellFormed(ms[0]);
      ContentsOfPushed(id, ms[1..]);
      var p := PushedFor(Client, DontChunk, id, ms[0]);
      var rest := PushedAll(Client, DontChunk, id, ms[1..]);
      assert Contents(p + rest) == Contents(p) + Contents(rest);
      assert Contents(p) == [ms[0]];
      assert ms == [ms[0]] + ms[1..];
    }
  }

  lemma {:induction false} MergedSingles(ps: seq<Packet>)
    requires AllSingle(ps)
    ensures MergeAll(Client, NOTHING_MERGED, ps) == Merge(None, Contents(ps))
    decreases |ps|
  {
    if ps == [] {
      assert Contents(ps) == [];
    } else {
      var n := |ps| - 1;
      MergedSingles(ps[..n]);
      assert Contents(ps) == Contents(ps[..n]) + [Message(ps[n].path, ps[n].data)];
    }
  }

  lemma TakenAt(l: Link, id: uint32, k: nat)
    requires l.role == Client && l.mode == DontChunk && id in l.chans
    requires Wellformed(l.chans[id].sent) && Pushes(l, id) && k < |l.chans[id].consumed|
    ensures
      var ch := l.chans[id];
      && k < Survived(ch.timedOut)
      && Origin(ch.timedOut, k) < |ch.sent|
      && ch.consumed[k].status == STATUS_C1
      && Contents(ch.consumed)[k] == ch.sent[Origin(ch.timedOut, k)]
  {
    hide PushedAll, Through, On;
    var ch, all := l.chans[id], PushedAll(Client, DontChunk, id, l.chans[id].sent);
    ThroughCount(all, ch.timedOut);
    ThroughAt(all, ch.timedOut, k);
    ContentsOfPushed(id, ch.sent);
    assert Front(l, id)[k] == ch.consumed[k];
    assert Contents(all)[Origin(ch.timedOut, k)] == ch.sent[Origin(ch.timedOut, k)];
  }

  /** The server has taken, in order, the requests whose push did not time out. */
  lemma TakenAreSurvivors(l: Link, id: uint32, k: nat)
    requires Inv(l) && Singles(l) && AllPushes(l) && id in l.chans && k < |l.chans[id].consumed|
    ensures
      var ch := l.chans[id];
      && |ch.merge.delivered| == |ch.consumed| && k < Survived(ch.timedOut)
      && Origin(ch.timedOut, k) < |ch.sent|
      && ch.merge.delivered[k] == ch.sent[Origin(ch.timedOut, k)]
  {
    hide Pushes, MergeAll, PushedAll, Through, On;
    var ch := l.chans[id];
    forall i | 0 <= i < |ch.consumed| ensures ch.consumed[i].status == STATUS_C1 {
      TakenAt(l, id, i);
    }
    assert ChanInv(l, id);
    MergedSingles(ch.consumed);
    TakenAt(l, id, k);
  }
}
