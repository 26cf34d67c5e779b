/** The client's promise (client.go:78-86): responses come back in the order of the
    requests, each to its own request, also when callers have given up waiting. */
module Pipelining {
  import opened Packets
  import opened Frames
  import opened Statuses
  import opened Chunks
  import opened Reading
  import opened Merging
  import opened Links
  import opened LinkProofs
  import opened EndToEnd
  import opened Sessions
  import opened SessionProofs
  import opened Losses

  function Played(mode: SendMode, acts: seq<Act>): Session {
    Play(FreshSession(mode), acts)
  }

  /** The three views of one channel in a reachable state. */
  ghost predicate Views(s: Session, id: uint32, u: User, up: Chan, down: Chan) {
    && id in s.users && u == s.users[id]
    && id in s.up.chans && up == s.up.chans[id]
    && id in s.down.chans && down == s.down.chans[id]
  }

  lemma Reachable(mode: SendMode, acts: seq<Act>, id: uint32) returns (u: User, up: Chan, down: Chan)
    requires id in Played(mode, acts).users
    ensures Views(Played(mode, acts), id, u, up, down)
    ensures UserInv(u, up, down, Played(mode, acts).down.sendClosed)
  {
    var s := Played(mode, acts);
    PlayKeeps(mode, acts);
    UserOf(s, id);
    u, up, down := s.users[id], s.up.chans[id], s.down.chans[id];
  }

  /** No push on the channel has timed out, in either direction. */
  predicate LosslessOn(s: Session, id: uint32) {
    id in s.users && id in s.up.chans && id in s.down.chans && s.up.chans[id].lost == 0 && s.down.chans[id].lost == 0
  }

  /** No response push has timed out, and nothing was outstanding when the id was taken. */
  predicate InOrderBack(s: Session, id: uint32) {
    id in s.users && id in s.down.chans && s.down.chans[id].lost == 0 && Clean(s.users[id])
  }

  lemma DownInOrder(mode: SendMode, acts: seq<Act>, id: uint32)
    requires id in Played(mode, acts).down.chans && Played(mode, acts).down.chans[id].lost == 0
    ensures Played(mode, acts).down.chans[id].merge.delivered <= Played(mode, acts).down.chans[id].sent
  {
    PlayKeeps(mode, acts);
    var j := DeliveredOfInv(Played(mode, acts).down, id);
  }

  lemma DeliveredInOrder(mode: SendMode, acts: seq<Act>, id: uint32)
    requires LosslessOn(Played(mode, acts), id)
    ensures
      var s := Played(mode, acts);
      && s.up.chans[id].merge.delivered <= s.up.chans[id].sent
      && s.down.chans[id].merge.delivered <= s.down.chans[id].sent
  {
    PlayKeeps(mode, acts);
    var k := DeliveredOfInv(Played(mode, acts).up, id);
    DownInOrder(mode, acts, id);
  }

  lemma ServedIsPrefix(u: User, up: Chan)
    requires Asked(u, up) && up.merge.delivered <= up.sent
    ensures |u.served| <= |u.before| + |u.asked|
    ensures Asks(u.served) == (u.before + Messages(u.asked))[..|u.served|]
  {
  }

  lemma AnsweredIsPrefix(u: User, down: Chan, downClosed: bool)
    requires Served(u, down, downClosed) && Handed(u, down) && down.merge.delivered <= down.sent
    ensures u.gone + |u.answered| <= |u.served|
    ensures Replies(u.answered) == Replies(u.served)[u.gone..u.gone + |u.answered|]
  {
    var n := |u.answered|;
    assert Replies(u.answered) == down.merge.delivered[..n];
    assert down.merge.delivered[..n] == down.sent[..n];
    SliceOfSlice(Replies(u.served), u.gone, |down.sent|, 0, n);
  }

  /** The answers of a channel object are the replies to the requests asked on its id, in their
      order, from the first one on that had no reply when it took the id. */
  lemma AnswersInOrder(mode: SendMode, acts: seq<Act>, id: uint32, i: nat)
    requires LosslessOn(Played(mode, acts), id) && i < |Played(mode, acts).users[id].answered|
    ensures
      var u := Played(mode, acts).users[id];
      var n := u.gone + i;
      && n < |u.served| && n < |u.before| + |u.asked|
      && u.answered[i].1 == u.served[n].1
      && u.served[n].0 == (u.before + Messages(u.asked))[n]
  {
    var u, up, down := Reachable(mode, acts, id);
    DeliveredInOrder(mode, acts, id);
    ServedIsPrefix(u, up);
    AnsweredIsPrefix(u, down, Played(mode, acts).down.sendClosed);
    assert Asks(u.served)[u.gone + i] == (u.before + Messages(u.asked))[u.gone + i];
    assert Replies(u.answered)[i] == Replies(u.served)[u.gone..][i];
  }

  /** So on an id with requests still outstanding when it was used again, the replies to these
      come first, as answers to requests of the new channel. */
  lemma OldRepliesComeFirst(mode: SendMode, acts: seq<Act>, id: uint32, i: nat)
    requires LosslessOn(Played(mode, acts), id) && i < |Played(mode, acts).users[id].answered|
    ensures
      var u := Played(mode, acts).users[id];
      && u.gone <= |u.before| && u.gone + i < |u.served| && u.answered[i].1 == u.served[u.gone + i].1
      && if i < |u.before| - u.gone then u.served[u.gone + i].0 == u.before[u.gone + i]
         else u.gone + i - |u.before| < |u.asked| && u.served[u.gone + i].0 == u.asked[u.gone + i - |u.before|].msg
  {
    var u, up, down := Reachable(mode, acts, id);
    AnswersInOrder(mode, acts, id, i);
  }

  lemma AnsweredAreAsked(mode: SendMode, acts: seq<Act>, id: uint32, i: nat)
    requires InOrderBack(Played(mode, acts), id) && i < |Played(mode, acts).users[id].answered|
    ensures var u := Played(mode, acts).users[id]; i < |u.asked| && u.answered[i].0 == u.asked[i]
  {
    var u, up, down := Reachable(mode, acts, id);
  }

  /** The i-th answer is the reply to the i-th request, and goes to the i-th request. */
  lemma EachAnswerIsItsOwn(mode: SendMode, acts: seq<Act>, id: uint32, i: nat)
    requires LosslessOn(Played(mode, acts), id) && Clean(Played(mode, acts).users[id])
    requires i < |Played(mode, acts).users[id].answered|
    ensures
      var u := Played(mode, acts).users[id];
      && i < |u.asked| && u.gone + i < |u.served|
      && u.answered[i].0 == u.asked[i]
      && u.served[u.gone + i].0 == u.asked[i].msg
      && u.answered[i].1 == u.served[u.gone + i].1
  {
    AnswersInOrder(mode, acts, id, i);
    AnsweredAreAsked(mode, acts, id, i);
  }

  lemma AllKept(mode: SendMode, acts: seq<Act>)
    ensures LinksInv(Played(mode, acts)) && AllPushes(Played(mode, acts).up)
  {
    hide Inv, Pushes;
    PlayKeeps(mode, acts);
    PlayPushes(mode, acts);
  }

  /** Where request pushes may time out: the reply handed to the i-th request is that to the
      request in place Origin among all that were asked, so it is its own if and only if no
      push up to its own has timed out. */
  lemma OwnReplyIff(mode: SendMode, acts: seq<Act>, id: uint32, i: nat)
    requires InOrderBack(Played(mode, acts), id) && i < |Played(mode, acts).users[id].answered|
    requires id in Played(mode, acts).up.chans
    ensures
      var u, up := Played(mode, acts).users[id], Played(mode, acts).up.chans[id];
      var k := |u.before| + i;
      && k < |u.served| && k < Survived(up.timedOut)
      && var n := Origin(up.timedOut, k);
         && i < |u.asked| && u.answered[i] == (u.asked[i], u.served[k].1)
         && k <= n < |u.before| + |u.asked| && u.served[k].0 == u.asked[n - |u.before|].msg
         && (n == k <==> NoneTimedOut(up.timedOut, k + 1))
  {
    hide Played, Pushes, Inv, Origin, Survived;
    var u, up, down := Reachable(mode, acts, id);
    AnsweredAreAsked(mode, acts, id, i);
    AllKept(mode, acts);
    DownInOrder(mode, acts, id);
    var k := |u.before| + i;
    AnsweredIsPrefix(u, down, Played(mode, acts).down.sendClosed);
    TakenAreSurvivors(Played(mode, acts).up, id, k);
    OriginIff(up.timedOut, k);
    assert Asks(u.served)[k] == u.served[k].0;
    assert Replies(u.answered)[i] == Replies(u.served)[u.gone..][i];
  }

  /** What a caller gets back is the server's reply to the request it made, in its own place. */
  lemma ResultIsOwnReply(mode: SendMode, acts: seq<Act>, id: uint32, r: Request)
    requires LosslessOn(Played(mode, acts), id) && Clean(Played(mode, acts).users[id])
    requires r in Played(mode, acts).users[id].results
    ensures
      var u := Played(mode, acts).users[id];
      exists i :: 0 <= i < |u.asked| && u.gone + i < |u.served| && u.asked[i] == r
                  && u.served[u.gone + i] == (r.msg, u.results[r])
  {
    var u, up, down := Reachable(mode, acts, id);
    assert (r, u.results[r]) in u.answered;
    var i :| 0 <= i < |u.answered| && u.answered[i] == (r, u.results[r]);
    EachAnswerIsItsOwn(mode, acts, id, i);
    assert u.served[u.gone + i] == (r.msg, u.results[r]);
  }

  /** The "request not found" branch of the client loop is never taken. */
  lemma NeverStuck(mode: SendMode, acts: seq<Act>, id: uint32)
    requires InOrderBack(Played(mode, acts), id)
    ensures !Played(mode, acts).users[id].stuck
  {
    var u, up, down := Reachable(mode, acts, id);
  }

  /** When sendPacket fails, PopTail takes off the request that failed and no other. */
  lemma RollbackTakesOwnRequest(mode: SendMode, acts: seq<Act>, id: uint32)
    requires InOrderBack(Played(mode, acts), id) && Played(mode, acts).users[id].pushing.Some?
    ensures
      var u := Played(mode, acts).users[id];
      RollBack(u).queue + [u.pushing.value] == u.queue
  {
    var u, up, down := Reachable(mode, acts, id);
    RollBackIsExact(u, down);
  }

  lemma SentAreWellFormed(mode: SendMode, acts: seq<Act>, id: uint32)
    requires id in Played(mode, acts).down.chans
    ensures Wellformed(Played(mode, acts).down.chans[id].sent)
  {
    PlayKeeps(mode, acts);
    assert ChanInv(Played(mode, acts).down, id);
  }

  /** Each completed request makes the server start exactly one reply, never an empty one,
      but for those completed when its end of the channel or connection was closed, by the
      request's own handler or before: these get none. */
  lemma OneReplyEach(mode: SendMode, acts: seq<Act>, id: uint32)
    requires id in Played(mode, acts).users && id in Played(mode, acts).up.chans && id in Played(mode, acts).down.chans
    ensures
      var s := Played(mode, acts);
      var asks, replies := s.up.chans[id].merge.delivered, s.down.chans[id].sent;
      && s.users[id].gone + |replies| + s.users[id].unreplied == |asks|
      && (!Muted(s, id) ==> s.users[id].gone + |replies| == |asks|)
      && forall i :: 0 <= i < |replies| ==> replies[i].data != []
  {
    var u, up, down := Reachable(mode, acts, id);
    SentAreWellFormed(mode, acts, id);
    var replies := down.sent;
    forall i | 0 <= i < |replies| ensures replies[i].data != [] {
      assert WellFormed(replies[i]);
    }
  }

  // ----- the queue against what is in flight -----

  /** Packets of channel id that the server has not taken yet, the oldest first. */
  function OnTheWay(l: Link, id: uint32): seq<Packet>
    requires id in l.chans
  {
    l.chans[id].queue + On(id, l.onWire) + Back(l, id)
  }

  lemma ThreeParts<T>(a: seq<T>, b: seq<T>, c: seq<T>, d: seq<T>)
    ensures ((a + b) + c) + d == a + ((b + c) + d)
  {
  }

  lemma ContentsDrop(a: seq<Packet>, b: seq<Packet>)
    ensures Contents(a + b)[|a|..] == Contents(b)
  {
  }

  lemma OnTheWayOfLink(l: Link, id: uint32)
    requires Inv(l) && Singles(l) && id in l.chans && !l.sendClosed
    ensures |l.chans[id].consumed| + |OnTheWay(l, id)| + l.chans[id].lost == |l.chans[id].sent|
    ensures l.chans[id].lost == 0 ==> Contents(OnTheWay(l, id)) == l.chans[id].sent[|l.chans[id].consumed|..]
  {
    assert ChanInv(l, id);
    var ch, way := l.chans[id], OnTheWay(l, id);
    OnePacketEach(id, ch.sent);
    if ch.lost == 0 {
      ContentsOfPushed(id, ch.sent);
      ThreeParts(ch.consumed, ch.queue, On(id, l.onWire), Back(l, id));
      ContentsDrop(ch.consumed, way);
    }
  }

  /** Without losses the requests on the way are those asked and not yet served, in order. */
  lemma OnTheWayIsUnserved(mode: SendMode, acts: seq<Act>, id: uint32)
    requires id in Played(mode, acts).up.chans && !Played(mode, acts).up.sendClosed
    ensures
      var up := Played(mode, acts).up;
      var ch := up.chans[id];
      && |ch.consumed| + |OnTheWay(up, id)| + ch.lost == |ch.sent|
      && (ch.lost == 0 ==> Contents(OnTheWay(up, id)) == ch.sent[|ch.consumed|..])
  {
    PlayKeeps(mode, acts);
    OnTheWayOfLink(Played(mode, acts).up, id);
  }

  lemma SplitMessages(before: seq<Message>, rs: seq<Request>, a: nat, b: nat)
    requires |before| + a <= b <= |before| + |rs|
    ensures Messages(rs[a..]) == (before + Messages(rs))[..b][|before| + a..] + (before + Messages(rs))[b..]
  {
  }

  lemma OnTheWayBack(mode: SendMode, acts: seq<Act>, id: uint32)
    requires LosslessOn(Played(mode, acts), id) && !Played(mode, acts).down.sendClosed
    ensures
      var down := Played(mode, acts).down;
      var ch := down.chans[id];
      && Wellformed(ch.sent) && |ch.merge.delivered| <= |ch.sent|
      && Partial(Server, ch.consumed) + OnTheWay(down, id)
         == PushedAll(Server, down.mode, id, ch.sent[|ch.merge.delivered|..])
  {
    PlayKeeps(mode, acts);
    var down := Played(mode, acts).down;
    ResponsesOfLink(down, id);
  }

  lemma ResponsesOfLink(l: Link, id: uint32)
    requires Inv(l) && l.role == Server && id in l.chans && l.chans[id].lost == 0 && !l.sendClosed
    ensures
      var ch := l.chans[id];
      && Wellformed(ch.sent) && |ch.merge.delivered| <= |ch.sent|
      && Partial(Server, ch.consumed) + OnTheWay(l, id) == PushedAll(Server, l.mode, id, ch.sent[|ch.merge.delivered|..])
  {
    assert ChanInv(l, id);
    var ch := l.chans[id];
    ThreeParts(ch.consumed, ch.queue, On(id, l.onWire), Back(l, id));
    AllSendableAppend(ch.consumed, ch.queue);
    RestOfPackets(Server, l.mode, id, ch.sent, ch.consumed, OnTheWay(l, id));
  }

  /** In every state of a channel without losses, the uncompleted queue (with the request
      the client loop is handling) holds, in order, the requests served but not answered,
      the requests on their way to the server, and the one about to be sent. */
  lemma QueueIsInFlight(mode: SendMode, acts: seq<Act>, id: uint32)
    requires LosslessOn(Played(mode, acts), id) && Clean(Played(mode, acts).users[id]) && !Played(mode, acts).up.sendClosed
    ensures
      var s := Played(mode, acts);
      var u := s.users[id];
      && u.gone + |u.answered| <= |u.served|
      && Messages(HeldRequest(u) + u.queue)
         == Asks(u.served)[u.gone + |u.answered|..] + Contents(OnTheWay(s.up, id)) + Messages(AsList(u.pushing))
  {
    var u, up, down := Reachable(mode, acts, id);
    DeliveredInOrder(mode, acts, id);
    ServedIsPrefix(u, up);
    AnsweredIsPrefix(u, down, Played(mode, acts).down.sendClosed);
    OnTheWayIsUnserved(mode, acts, id);
    SplitMessages(u.before, u.asked, |u.answered|, |u.served|);
    assert Messages(u.asked[|u.answered|..] + AsList(u.pushing))
        == Messages(u.asked[|u.answered|..]) + Messages(AsList(u.pushing));
  }

  /** And the responses to those served are accounted for: of the served requests from the
      first unanswered one on, the first is complete at the client if its loop is about to
      hand it over; the packets of the following, in order, are those in the merge buffer,
      received, in transit and to be sent; the last unreplied ones get none. */
  lemma ResponsesInFlight(mode: SendMode, acts: seq<Act>, id: uint32)
    requires LosslessOn(Played(mode, acts), id) && !Played(mode, acts).down.sendClosed
    requires !Played(mode, acts).users[id].stuck
    ensures
      var s := Played(mode, acts);
      var u, ch := s.users[id], s.down.chans[id];
      var done := |u.answered| + |HeldAnswer(u)|;
      && done <= |ch.sent| && u.gone + |ch.sent| + u.unreplied == |u.served|
      && ch.sent == Replies(u.served)[u.gone..u.gone + |ch.sent|]
      && Replies(u.answered) + HeldAnswer(u) == ch.sent[..done]
      && Wellformed(ch.sent[done..])
      && Partial(Server, ch.consumed) + OnTheWay(s.down, id) == PushedAll(Server, s.down.mode, id, ch.sent[done..])
  {
    hide Played, PushedAll, Partial, OnTheWay;
    var u, up, down := Reachable(mode, acts, id);
    DeliveredInOrder(mode, acts, id);
    OnTheWayBack(mode, acts, id);
    ResponsesOfUser(u, up, down, Played(mode, acts).down.sendClosed);
  }

  lemma ResponsesOfUser(u: User, up: Chan, down: Chan, downClosed: bool)
    requires UserInv(u, up, down, downClosed) && !downClosed && !u.stuck
    requires down.merge.delivered <= down.sent
    ensures
      var done := |u.answered| + |HeldAnswer(u)|;
      && done == |down.merge.delivered| <= |down.sent|
      && u.gone + |down.sent| + u.unreplied == |u.served|
      && down.sent == Replies(u.served)[u.gone..u.gone + |down.sent|]
      && Replies(u.answered) + HeldAnswer(u) == down.sent[..done]
  {
  }

  /** Requests between PushTail and their answer, counted where they are. */
  function InFlight(s: Session, id: uint32): int
    requires id in s.users && id in s.up.chans && id in s.down.chans
  {
    var u := s.users[id];
    |AsList(u.pushing)| + |OnTheWay(s.up, id)| + |s.down.chans[id].sent| - |u.answered|
  }

  /** The queue is longer than what is in flight by exactly the request packets whose push
      timed out and the requests that got no reply because the server had closed its end: it
      is in step if and only if there are none. */
  lemma QueueInStepIffNothingLost(mode: SendMode, acts: seq<Act>, id: uint32)
    requires
      var s := Played(mode, acts);
      && id in s.users && id in s.up.chans && id in s.down.chans
      && InOrderBack(s, id) && !s.up.sendClosed
    ensures
      var s := Played(mode, acts);
      var n, stray := |HeldRequest(s.users[id]) + s.users[id].queue|, s.up.chans[id].lost + s.users[id].unreplied;
      && n == InFlight(s, id) + stray
      && (n == InFlight(s, id) <==> s.up.chans[id].lost == 0 && s.users[id].unreplied == 0)
  {
    var u, up, down := Reachable(mode, acts, id);
    OnTheWayIsUnserved(mode, acts, id);
  }

  // ----- what a lost push does -----

  lemma PlaySnoc(mode: SendMode, acts: seq<Act>, a: Act)
    requires CanAct(Played(mode, acts), a)
    ensures Played(mode, acts + [a]) == Perform(Played(mode, acts), a)
  {
  }

  /** A link that is empty but for one packet to push. */
  predicate OneToPush(l: Link, id: uint32, p: Packet) {
    && id in l.chans && l.chans[id].outbox == [p] && l.chans[id].queue == [] && l.chans[id].status == STATUS_NONE
    && l.chans[id].merge == NOTHING_MERGED && !l.sendClosed && !l.recvClosed && !l.chans[id].readShut
    && l.writeQ == [] && l.onWire == [] && l.flight == [] && l.arrived == []
    && Sendable(p) && p.channelId == id && p.status == StatusOf(l.role, true, true)
  }

  /** The packet has come out at the other end. */
  predicate Arrived(l: Link, l': Link, id: uint32, p: Packet) {
    && id in l.chans && id in l'.chans && l'.chans[id].queue == [p] && l'.chans[id].outbox == []
    && l'.chans[id].merge == NOTHING_MERGED && l'.role == l.role && l'.mode == l.mode && !l'.sendClosed
    && l'.chans[id].lost == l.chans[id].lost
  }

  lemma Trip(l: Link, id: uint32, p: Packet) returns (l1: Link, l2: Link, l3: Link, l4: Link)
    requires OneToPush(l, id, p)
    ensures Enabled(l, Push(id)) && l1 == Apply(l, Push(id))
    ensures Enabled(l1, Write) && l2 == Apply(l1, Write)
    ensures Enabled(l2, Convey(|Layout(p)|)) && l3 == Apply(l2, Convey(|Layout(p)|))
    ensures Enabled(l3, Read) && l4 == Apply(l3, Read)
    ensures Arrived(l, l4, id, p)
  {
    l1 := Apply(l, Push(id));
    assert l1.writeQ == [p];
    l2 := Apply(l1, Write);
    assert l2.flight == Layout(p);
    l3 := Apply(l2, Convey(|Layout(p)|));
    assert l3.arrived == Layout(p) + [];
    ReadLayout(l.role, StatusMap(l3), p, []);
    l4 := Apply(l3, Read);
  }

  lemma UpTrip(mode: SendMode, before: seq<Act>, id: uint32, p: Packet) returns (acts: seq<Act>)
    requires OneToPush(Played(mode, before).up, id, p)
    ensures Played(mode, acts) == Played(mode, before).(up := Played(mode, acts).up)
    ensures Arrived(Played(mode, before).up, Played(mode, acts).up, id, p)
  {
    var l1, l2, l3, l4 := Trip(Played(mode, before).up, id, p);
    acts := before;
    PlaySnoc(mode, acts, Up(Push(id)));
    acts := acts + [Up(Push(id))];
    PlaySnoc(mode, acts, Up(Write));
    acts := acts + [Up(Write)];
    PlaySnoc(mode, acts, Up(Convey(|Layout(p)|)));
    acts := acts + [Up(Convey(|Layout(p)|))];
    PlaySnoc(mode, acts, Up(Read));
    acts := acts + [Up(Read)];
  }

  lemma DownTrip(mode: SendMode, before: seq<Act>, id: uint32, p: Packet) returns (acts: seq<Act>)
    requires OneToPush(Played(mode, before).down, id, p)
    ensures Played(mode, acts) == Played(mode, before).(down := Played(mode, acts).down)
    ensures Arrived(Played(mode, before).down, Played(mode, acts).down, id, p)
  {
    var l1, l2, l3, l4 := Trip(Played(mode, before).down, id, p);
    acts := before;
    PlaySnoc(mode, acts, Down(Push(id)));
    acts := acts + [Down(Push(id))];
    PlaySnoc(mode, acts, Down(Write));
    acts := acts + [Down(Write)];
    PlaySnoc(mode, acts, Down(Convey(|Layout(p)|)));
    acts := acts + [Down(Convey(|Layout(p)|))];
    PlaySnoc(mode, acts, Down(Read));
    acts := acts + [Down(Read)];
  }

  /** A request whose only push has timed out. */
  lemma AskInVain(mode: SendMode, r1: Request) returns (acts: seq<Act>)
    requires WellFormed(r1.msg)
    ensures
      var s := Played(mode, acts);
      && 1 in s.users && s.users[1] == FRESH_USER.(queue := [r1], asked := [r1], waiting := {r1})
      && s.up == FreshLink(Client, DontChunk).(chans := s.up.chans)
      && 1 in s.up.chans && s.up.chans[1] == FRESH_CHAN.(sent := [r1.msg], timedOut := [true], lost := 1)
      && s.down == FreshLink(Server, mode).(chans := map[1 := FRESH_CHAN])
  {
    hide Play;
    acts := AskedOnly(mode, r1);
    PlaySnoc(mode, acts, Up(TimeOut(1)));
    acts := acts + [Up(TimeOut(1))];
  }

  /** One channel, one request, nothing pushed yet. */
  lemma AskedOnly(mode: SendMode, r: Request) returns (acts: seq<Act>)
    requires WellFormed(r.msg)
    ensures
      var s := Played(mode, acts);
      && 1 in s.users && s.users[1] == FRESH_USER.(queue := [r], asked := [r], waiting := {r})
      && s.up == FreshLink(Client, DontChunk).(chans := s.up.chans)
      && 1 in s.up.chans
      && s.up.chans[1] == FRESH_CHAN.(sent := [r.msg], outbox := [Packet(STATUS_C1, r.msg.path, 1, r.msg.data)])
      && s.down == FreshLink(Server, mode).(chans := map[1 := FRESH_CHAN])
  {
    acts := [];
    PlaySnoc(mode, acts, NewChannel(1));
    acts := acts + [NewChannel(1)];
    PlaySnoc(mode, acts, PushTail(1, r));
    acts := acts + [PushTail(1, r)];
    PlaySnoc(mode, acts, SendOk(1));
    acts := acts + [SendOk(1)];
  }

  lemma AskTwice(mode: SendMode, r1: Request, r2: Request) returns (acts: seq<Act>)
    requires WellFormed(r1.msg) && WellFormed(r2.msg) && Fits(DontChunk, r2.msg)
    ensures
      var s := Played(mode, acts);
      && 1 in s.users && s.users[1] == FRESH_USER.(queue := [r1, r2], asked := [r1, r2], waiting := {r1, r2})
      && s.up.role == Client && OneToPush(s.up, 1, Packet(STATUS_C1, r2.msg.path, 1, r2.msg.data))
      && s.down == FreshLink(Server, mode).(chans := map[1 := FRESH_CHAN])
  {
    acts := AskInVain(mode, r1);
    PlaySnoc(mode, acts, PushTail(1, r2));
    acts := acts + [PushTail(1, r2)];
    PlaySnoc(mode, acts, SendOk(1));
    acts := acts + [SendOk(1)];
  }

  /** The server serves the one request that has arrived and pushes one reply. */
  lemma ServeArrived(mode: SendMode, before: seq<Act>, p: Packet, reply: Message) returns (acts: seq<Act>)
    requires
      var s := Played(mode, before);
      && 1 in s.users && 1 in s.up.chans && s.up.role == Client && s.up.chans[1].queue == [p]
      && s.up.chans[1].merge == NOTHING_MERGED && s.down == FreshLink(Server, mode).(chans := map[1 := FRESH_CHAN])
    requires p.status == STATUS_C1 && WellFormed(reply) && Fits(DontChunk, reply)
    ensures
      var s, s' := Played(mode, before), Played(mode, acts);
      && s'.users == s.users[1 := ServedOn(s.users[1], Message(p.path, p.data), reply, true)]
      && s'.up == TakeOn(s.up, 1)
      && OneToPush(s'.down, 1, Packet(STATUS_S5, reply.path, 1, reply.data)) && s'.down.chans[1].lost == 0
  {
    var a := Serve(1, Reply(reply.data), reply.path, false);
    PlaySnoc(mode, before, a);
    acts := before + [a];
  }

  /** The first request's push times out, sendPacket reports success all the same, and
      the reply to the second request is handed to the first. */
  lemma LostPushMisleads(mode: SendMode, r1: Request, r2: Request, reply: Message) returns (acts: seq<Act>)
    requires WellFormed(r1.msg) && WellFormed(r2.msg) && WellFormed(reply)
    requires Fits(DontChunk, r2.msg) && Fits(DontChunk, reply)
    ensures
      var s := Played(mode, acts);
      && 1 in s.users && s.users[1].asked == [r1, r2]
      && s.users[1].served == [(r2.msg, reply)]
      && s.users[1].answered == [(r1, reply)]
  {
    acts := AskTwice(mode, r1, r2);
    acts := UpTrip(mode, acts, 1, Packet(STATUS_C1, r2.msg.path, 1, r2.msg.data));
    acts := ServeArrived(mode, acts, Packet(STATUS_C1, r2.msg.path, 1, r2.msg.data), reply);
    acts := DownTrip(mode, acts, 1, Packet(STATUS_S5, reply.path, 1, reply.data));
    PlaySnoc(mode, acts, Receive(1));
    acts := acts + [Receive(1)];
    PlaySnoc(mode, acts, Finish(1));
    acts := acts + [Finish(1)];
  }

  // ----- what closing a channel does -----

  lemma TripRefused(l0: Link, id: uint32, p: Packet) returns (l1: Link, l2: Link, l3: Link, l4: Link)
    requires OneToPush(l0, id, p)
    ensures var l := ShutAt(l0, id, Reading); Enabled(l, Push(id)) && l1 == Apply(l, Push(id))
    ensures Enabled(l1, Write) && l2 == Apply(l1, Write)
    ensures Enabled(l2, Convey(|Layout(p)|)) && l3 == Apply(l2, Convey(|Layout(p)|))
    ensures Enabled(l3, Read) && l4 == Apply(l3, Read)
    ensures l4.recvClosed && id in l4.chans && l4.chans[id].lost == l0.chans[id].lost
  {
    l1 := Apply(ShutAt(l0, id, Reading), Push(id));
    assert l1.writeQ == [p];
    l2 := Apply(l1, Write);
    assert l2.flight == Layout(p);
    l3 := Apply(l2, Convey(|Layout(p)|));
    assert l3.arrived == Layout(p);
    HeaderFirst(p, [], l3.arrived, []);
    ReadUnknown(l3.role, StatusMap(l3), p, l3.arrived[|Header(p)|..]);
    l4 := Apply(l3, Read);
  }

  /** The request is served, its caller gives up, and the client closes the channel. */
  lemma AskAndClose(mode: SendMode, r: Request, reply: Message) returns (acts: seq<Act>, down: Link)
    requires WellFormed(r.msg) && WellFormed(reply) && Fits(DontChunk, r.msg) && Fits(DontChunk, reply)
    ensures
      var s := Played(mode, acts);
      && 1 in s.users && 1 in s.up.chans && s.up.chans[1].lost == 0
      && s.users[1].before == [] && s.users[1].asked == [r] && s.users[1].served == [(r.msg, reply)]
      && s.up.chans[1].outbox == [] && !s.up.sendClosed
      && OneToPush(down, 1, Packet(STATUS_S5, reply.path, 1, reply.data)) && down.chans[1].lost == 0
      && s.down == ShutAt(down, 1, Reading)
  {
    acts := AskedOnly(mode, r);
    acts := UpTrip(mode, acts, 1, Packet(STATUS_C1, r.msg.path, 1, r.msg.data));
    acts := ServeArrived(mode, acts, Packet(STATUS_C1, r.msg.path, 1, r.msg.data), reply);
    PlaySnoc(mode, acts, GiveUp(1, r));
    acts := acts + [GiveUp(1, r)];
    down := Played(mode, acts).down;
    PlaySnoc(mode, acts, CloseAt(1, Client));
    acts := acts + [CloseAt(1, Client)];
  }

  /** A caller gives up and closes its channel. The server is not told, its reply meets no
      channel, and the client closes the connection with all its other channels, although
      nothing has been lost. */
  lemma ClosingBreaksConnection(mode: SendMode, r: Request, reply: Message) returns (acts: seq<Act>)
    requires WellFormed(r.msg) && WellFormed(reply) && Fits(DontChunk, r.msg) && Fits(DontChunk, reply)
    ensures LosslessOn(Played(mode, acts), 1) && Played(mode, acts).down.recvClosed
  {
    hide OneToPush, ShutAt, Apply, Enabled, Played;
    var down;
    acts, down := AskAndClose(mode, r, reply);
    var p := Packet(STATUS_S5, reply.path, 1, reply.data);
    var l1, l2, l3, l4 := TripRefused(down, 1, p);
    acts := DownSteps(mode, acts, [Push(1), Write, Convey(|Layout(p)|), Read], [Played(mode, acts).down, l1, l2, l3, l4]);
  }

  /** The closed channel's id is used again at once. */
  lemma ReuseClosed(mode: SendMode, r1: Request, reply: Message) returns (acts: seq<Act>)
    requires WellFormed(r1.msg) && WellFormed(reply) && Fits(DontChunk, r1.msg) && Fits(DontChunk, reply)
    ensures
      var s := Played(mode, acts);
      && 1 in s.users
      && s.users[1] == FRESH_USER.(before := [r1.msg], served := [(r1.msg, reply)],
                                   gone := s.users[1].gone, unreplied := s.users[1].unreplied)
      && 1 in s.up.chans && s.up.chans[1].outbox == [] && !s.up.chans[1].sendShut && !s.up.sendClosed
      && OneToPush(s.down, 1, Packet(STATUS_S5, reply.path, 1, reply.data)) && s.down.role == Server
  {
    hide PushedFor, ChunksOf;
    var down;
    acts, down := AskAndClose(mode, r1, reply);
    PlaySnoc(mode, acts, InvalidateAt(1, Client));
    acts := acts + [InvalidateAt(1, Client)];
    PlaySnoc(mode, acts, ReuseAt(1));
    acts := acts + [ReuseAt(1)];
    assert [] + Messages([r1]) == [r1.msg];
  }

  /** And a request asked on it. */
  lemma AskOnReused(mode: SendMode, r1: Request, r2: Request, reply: Message) returns (acts: seq<Act>)
    requires WellFormed(r1.msg) && WellFormed(reply) && Fits(DontChunk, r1.msg) && Fits(DontChunk, reply)
    requires WellFormed(r2.msg)
    ensures
      var s := Played(mode, acts);
      && 1 in s.users && s.users[1].asked == [r2] && s.users[1].queue == [r2] && r2 in s.users[1].waiting
      && s.users[1].held == None && !s.users[1].stuck && s.users[1].answered == []
      && s.users[1].before == [r1.msg] && s.users[1].served == [(r1.msg, reply)]
      && OneToPush(s.down, 1, Packet(STATUS_S5, reply.path, 1, reply.data)) && s.down.role == Server
  {
    hide PushedFor, ChunksOf, OneToPush, Played;
    acts := ReuseClosed(mode, r1, reply);
    PlaySnoc(mode, acts, PushTail(1, r2));
    acts := acts + [PushTail(1, r2)];
    PlaySnoc(mode, acts, SendOk(1));
    acts := acts + [SendOk(1)];
  }

  /** The reply to a request of the old channel is handed to the request of the new one, which
      the server has not even seen. */
  lemma ReusedIdMisleads(mode: SendMode, r1: Request, r2: Request, reply: Message) returns (acts: seq<Act>)
    requires WellFormed(r1.msg) && WellFormed(reply) && Fits(DontChunk, r1.msg) && Fits(DontChunk, reply)
    requires WellFormed(r2.msg)
    ensures
      var s := Played(mode, acts);
      && 1 in s.users && s.users[1].asked == [r2]
      && s.users[1].served == [(r1.msg, reply)]
      && s.users[1].answered == [(r2, reply)]
  {
    acts := AskOnReused(mode, r1, r2, reply);
    acts := DownTrip(mode, acts, 1, Packet(STATUS_S5, reply.path, 1, reply.data));
    PlaySnoc(mode, acts, Receive(1));
    acts := acts + [Receive(1)];
    PlaySnoc(mode, acts, Finish(1));
    acts := acts + [Finish(1)];
  }

  /** Moving steps of the down link, through the given links. */
  lemma {:induction false} DownSteps(mode: SendMode, before: seq<Act>, steps: seq<Step>, links: seq<Link>) returns (acts: seq<Act>)
    requires |links| == |steps| + 1 && links[0] == Played(mode, before).down
    requires forall i :: 0 <= i < |steps| ==> Moves(steps[i]) && Enabled(links[i], steps[i]) && links[i + 1] == Apply(links[i], steps[i])
    ensures Played(mode, acts) == Played(mode, before).(down := links[|steps|])
    decreases |steps|
  {
    acts := before;
    if steps != [] {
      PlaySnoc(mode, acts, Down(steps[0]));
      acts := DownSteps(mode, acts + [Down(steps[0])], steps[1..], links[1..]);
    }
  }
}
