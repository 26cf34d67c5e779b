/** Requests and responses are matched by order alone: what keeps that right in every run. */
module SessionProofs {
  import opened Packets
  import opened Chunks
  import opened Reading
  import opened Merging
  import opened Links
  import opened LinkProofs
  import opened EndToEnd
  import opened Sessions

  function Asks(served: seq<(Message, Message)>): (ms: seq<Message>)
    ensures |ms| == |served|
  {
    seq(|served|, i requires 0 <= i < |served| => served[i].0)
  }

  /** The replies in a list of requests, each with its reply. */
  function Replies<T>(pairs: seq<(T, Message)>): (ms: seq<Message>)
    ensures |ms| == |pairs|
  {
    seq(|pairs|, i requires 0 <= i < |pairs| => pairs[i].1)
  }

  function AsList<T>(o: Option<T>): seq<T> {
    if o.Some? then [o.value] else []
  }

  function HeldRequest(u: User): seq<Request> {
    if u.held.Some? then [u.held.value.req] else []
  }

  function HeldAnswer(u: User): seq<Message> {
    if u.held.Some? then AsList(u.held.value.answer) else []
  }

  // ----- requests are never split -----

  predicate AllSingle(ps: seq<Packet>) {
    forall i :: 0 <= i < |ps| ==> ps[i].status == STATUS_C1
  }

  /** Every request packet between the two ends holds a whole request. */
  predicate Singles(l: Link) {
    && l.role == Client && l.mode == DontChunk
    && AllSingle(l.writeQ) && AllSingle(l.onWire)
    && forall id :: id in l.chans ==> AllSingle(l.chans[id].outbox) && AllSingle(l.chans[id].queue)
  }

  lemma SinglesRead(l: Link)
    requires Singles(l)
    requires var o := ReadFrame(l.role, StatusMap(l), l.arrived); o.Deliver? ==> l.onWire != [] && o.pkt == l.onWire[0]
    ensures Singles(ReadOnce(l))
  {
    DeliverFacts(l.role, StatusMap(l), l.arrived);
  }

  lemma SinglesMove(l: Link, s: Step)
    requires Singles(l) && Moves(s) && !s.Read? && Enabled(l, s)
    ensures Singles(Apply(l, s))
  {
  }

  lemma SinglesBegin(l: Link, id: uint32, m: Message)
    requires Singles(l) && Enabled(l, Begin(id, m))
    ensures Singles(BeginOn(l, id, m))
  {
  }

  lemma SinglesTake(l: Link, id: uint32)
    requires Singles(l) && Enabled(l, Take(id))
    ensures Singles(TakeOn(l, id))
  {
  }

  lemma {:induction false} OnePacketEach(id: uint32, ms: seq<Message>)
    requires Wellformed(ms)
    ensures |PushedAll(Client, DontChunk, id, ms)| == |ms|
    decreases |ms|
  {
    if ms != [] {
      assert WellFormed(ms[0]);
      OnePacketEach(id, ms[1..]);
    }
  }

  // ----- the invariant of one channel -----

  predicate Asked(u: User, up: Chan) {
    && up.sent == u.before + Messages(u.asked)
    && up.merge == Merge(None, Asks(u.served))
    && |up.consumed| == |u.served|
  }

  predicate Served(u: User, down: Chan, downClosed: bool) {
    && u.gone <= |u.before|
    && u.gone + |down.sent| + u.unreplied == |u.served|
    && down.sent == Replies(u.served)[u.gone..u.gone + |down.sent|]
    && (u.unreplied > 0 ==> downClosed || down.sendShut)
  }

  /** Nothing was outstanding when the client's channel object got its id. */
  predicate Clean(u: User) {
    u.gone == |u.before|
  }

  /** What the client loop has got is what it has handed over, until it stops. */
  predicate Handed(u: User, down: Chan) {
    if u.stuck then u.held == None && Replies(u.answered) <= down.merge.delivered
    else down.merge.delivered == Replies(u.answered) + HeldAnswer(u)
  }

  /** The uncompleted queue against the requests that have no answer yet. */
  predicate Matched(u: User, down: Chan) {
    && !u.stuck
    && |u.answered| <= |u.asked| && (u.held.Some? ==> |u.answered| < |u.asked|)
    && HeldRequest(u) + u.queue == u.asked[|u.answered|..] + AsList(u.pushing)
    && (forall i :: 0 <= i < |u.answered| ==> u.answered[i].0 == u.asked[i])
  }

  predicate Resulted(u: User) {
    forall r :: r in u.results ==> (r, u.results[r]) in u.answered
  }

  predicate UserInv(u: User, up: Chan, down: Chan, downClosed: bool) {
    && Asked(u, up)
    && Served(u, down, downClosed)
    && Handed(u, down)
    && (down.lost == 0 && Clean(u) ==> Matched(u, down))
    && Resulted(u)
  }

  predicate LinksInv(s: Session) {
    Inv(s.up) && Inv(s.down) && Singles(s.up) && s.down.role == Server
  }

  predicate UsersInv(s: Session) {
    && s.up.chans.Keys == s.users.Keys && s.down.chans.Keys == s.users.Keys
    && forall id :: id in s.users ==> UserInv(s.users[id], s.up.chans[id], s.down.chans[id], s.down.sendClosed)
  }

  /** A moving step changes no channel's messages. */
  predicate SameMessages(a: Chan, b: Chan) {
    && b.sent == a.sent && b.merge == a.merge && b.consumed == a.consumed && b.lost >= a.lost
    && (a.sendShut ==> b.sendShut)
  }

  lemma MovesKeepMessages(l: Link, s: Step)
    requires Moves(s) && Enabled(l, s)
    ensures var l' := Apply(l, s);
            && l'.role == l.role && l'.chans.Keys == l.chans.Keys && (l.sendClosed ==> l'.sendClosed)
            && forall id :: id in l.chans ==> SameMessages(l.chans[id], l'.chans[id])
  {
    if s.Read? {
      DeliverFacts(l.role, StatusMap(l), l.arrived);
    }
  }

  /** While a channel without losses has a packet to take, some message is undelivered. */
  lemma QueueMeansUndelivered(l: Link, id: uint32)
    requires Inv(l) && id in l.chans && l.chans[id].lost == 0 && l.chans[id].queue != []
    ensures |l.chans[id].merge.delivered| < |l.chans[id].sent|
  {
    var ch := l.chans[id];
    var k := DeliveredOfInv(l, id);
    if k == |ch.sent| {
      assert ch.merge.delivered == ch.sent;
      assert ChanInv(l, id);
      AllSendableAppend(ch.consumed, ch.queue);
      var w := DeliveryNeedsPackets(l.role, ch.consumed);
      PushedAllLength(l.role, l.mode, id, ch.sent);
      assert false;
    }
  }

  /** The server cannot have taken more requests than were sent. */
  lemma TakenAtMostSent(l: Link, id: uint32)
    requires Inv(l) && Singles(l) && id in l.chans
    ensures |l.chans[id].consumed| <= |l.chans[id].sent|
  {
    assert ChanInv(l, id);
    OnePacketEach(id, l.chans[id].sent);
  }

  // ----- one lemma for each act: the channel's user -----

  lemma DropHead<T>(x: T, a: seq<T>, b: seq<T>)
    requires [x] + a == b
    ensures b != [] && b[0] == x && b[1..] == a
  {
  }

  lemma AppendBoth<T>(a: seq<T>, b: seq<T>, c: seq<T>, x: T)
    requires a + b == c
    ensures a + (b + [x]) == c + [x]
  {
  }

  lemma PushTailKeeps(u: User, up: Chan, down: Chan, downClosed: bool, req: Request)
    requires UserInv(u, up, down, downClosed) && u.pushing == None
    ensures UserInv(PushTailOn(u, req), up, down, downClosed)
  {
    if down.lost == 0 && Clean(u) {
      var rest := u.asked[|u.answered|..];
      assert rest + [] == rest;
      AppendBoth(HeldRequest(u), u.queue, rest, req);
    }
  }

  /** The rollback removes exactly the request that failed to send. */
  lemma RollBackIsExact(u: User, down: Chan)
    requires Matched(u, down) && u.pushing.Some?
    ensures u.queue != [] && u.queue[|u.queue| - 1] == u.pushing.value
    ensures RollBack(u).queue + [u.pushing.value] == u.queue
    ensures HeldRequest(u) + RollBack(u).queue == u.asked[|u.answered|..]
  {
    var all := HeldRequest(u) + u.queue;
    assert all[|all| - 1] == u.pushing.value;
    assert all[..|all| - 1] == HeldRequest(u) + RollBack(u).queue;
    assert all[..|all| - 1] == u.asked[|u.answered|..];
  }

  lemma SendFailKeeps(u: User, up: Chan, down: Chan, downClosed: bool)
    requires UserInv(u, up, down, downClosed) && u.pushing.Some?
    ensures UserInv(RollBack(u), up, down, downClosed)
  {
    hide Matched;
    if down.lost == 0 && Clean(u) {
      RollBackMatches(u, down);
    }
  }

  lemma RollBackMatches(u: User, down: Chan)
    requires Matched(u, down) && u.pushing.Some?
    ensures Matched(RollBack(u), down)
  {
    RollBackIsExact(u, down);
    assert u.asked[|u.answered|..] + [] == u.asked[|u.answered|..];
  }

  /** The answered request leaves the head of the unanswered ones. */
  lemma AnsweredLeaves(asked: seq<Request>, n: nat, pushing: seq<Request>, req: Request, queue: seq<Request>)
    requires n < |asked| && [req] + queue == asked[n..] + pushing
    ensures req == asked[n] && queue == asked[n + 1..] + pushing
  {
    var rest := asked[n..] + pushing;
    DropHead(req, queue, rest);
    assert asked[n..][1..] == asked[n + 1..];
    assert rest[1..] == asked[n..][1..] + pushing;
  }

  lemma FinishMatches(u: User, down: Chan)
    requires Matched(u, down) && u.held.Some?
    ensures Matched(FinishOn(u), down)
  {
    var u', h := FinishOn(u), u.held.value;
    if h.answer.Some? {
      AnsweredLeaves(u.asked, |u.answered|, AsList(u.pushing), h.req, u.queue);
      assert [] + u'.queue == u.queue;
    } else {
      assert [] + u'.queue == [h.req] + u.queue;
    }
  }

  lemma FinishHands(u: User, down: Chan)
    requires Handed(u, down) && u.held.Some?
    ensures Handed(FinishOn(u), down)
  {
    var u', h := FinishOn(u), u.held.value;
    if h.answer.Some? {
      assert Replies(u'.answered) == Replies(u.answered) + [h.answer.value];
    }
    assert Replies(u'.answered) + [] == Replies(u'.answered);
  }

  lemma FinishResults(u: User)
    requires Resulted(u) && u.held.Some?
    ensures Resulted(FinishOn(u))
  {
  }

  lemma FinishKeeps(u: User, up: Chan, down: Chan, downClosed: bool)
    requires UserInv(u, up, down, downClosed) && u.held.Some?
    ensures UserInv(FinishOn(u), up, down, downClosed)
  {
    FinishHands(u, down);
    if down.lost == 0 && Clean(u) {
      FinishMatches(u, down);
    }
    FinishResults(u);
  }

  lemma SendOkUser(u: User, up: Chan, up': Chan, down: Chan, downClosed: bool)
    requires UserInv(u, up, down, downClosed) && u.pushing.Some?
    requires up'.sent == up.sent + [u.pushing.value.msg] && up'.merge == up.merge && up'.consumed == up.consumed
    ensures UserInv(u.(pushing := None, asked := u.asked + [u.pushing.value]), up', down, downClosed)
  {
  }

  /** Serving one request: its packet is taken whole and one reply is started, unless the
      server's end is closed. */
  lemma ServedUser(u: User, up: Chan, down: Chan, down': Chan, downClosed: bool, ask: Message, reply: Message, replied: bool)
    requires UserInv(u, up, down, downClosed) && up.queue != []
    requires replied == (!downClosed && !down'.sendShut) && (down.sendShut ==> down'.sendShut)
    requires down' == down.(sendShut := down'.sendShut,
                            sent := if replied then down.sent + [reply] else down.sent, outbox := down'.outbox)
    ensures UserInv(ServedOn(u, ask, reply, replied),
                    up.(queue := up.queue[1..], consumed := up.consumed + [up.queue[0]],
                        merge := Merge(None, up.merge.delivered + [ask])),
                    down', downClosed)
  {
  }

  lemma PoppedUser(u: User, up: Chan, down: Chan, down': Chan, downClosed: bool, answer: Option<Message>)
    requires UserInv(u, up, down, downClosed) && u.held == None && !u.stuck
    requires down'.sent == down.sent && down'.lost == down.lost && down'.sendShut == down.sendShut
    requires down'.merge.delivered == down.merge.delivered + AsList(answer)
    requires down.lost == 0 && Clean(u) ==> |u.answered| < |u.asked|
    ensures UserInv(PopHeadOf(u, answer), up, down', downClosed)
  {
  }

  // ----- one lemma for each act: the session -----

  /** Only channel id may have changed its messages. */
  lemma UsersKeep(s: Session, s': Session, id: uint32)
    requires UsersInv(s) && s'.users.Keys == s.users.Keys
    requires s'.up.chans.Keys == s.up.chans.Keys && s'.down.chans.Keys == s.down.chans.Keys
    requires s.down.sendClosed ==> s'.down.sendClosed
    requires forall c :: c in s.users && c != id ==>
               && s'.users[c] == s.users[c]
               && SameMessages(s.up.chans[c], s'.up.chans[c]) && SameMessages(s.down.chans[c], s'.down.chans[c])
    requires id in s.users ==> UserInv(s'.users[id], s'.up.chans[id], s'.down.chans[id], s'.down.sendClosed)
    ensures UsersInv(s')
  {
    forall c | c in s'.users
      ensures UserInv(s'.users[c], s'.up.chans[c], s'.down.chans[c], s'.down.sendClosed)
    {
      if c != id {
        MoveKeepsUser(s.users[c], s.up.chans[c], s'.up.chans[c], s.down.chans[c], s'.down.chans[c],
                      s.down.sendClosed, s'.down.sendClosed);
      }
    }
  }

  lemma MoveKeepsUser(u: User, up: Chan, up': Chan, down: Chan, down': Chan, downClosed: bool, downClosed': bool)
    requires UserInv(u, up, down, downClosed) && SameMessages(up, up') && SameMessages(down, down')
    requires downClosed ==> downClosed'
    ensures UserInv(u, up', down', downClosed')
  {
  }

  lemma UserOf(s: Session, id: uint32)
    requires UsersInv(s) && id in s.users
    ensures id in s.up.chans && id in s.down.chans
    ensures UserInv(s.users[id], s.up.chans[id], s.down.chans[id], s.down.sendClosed)
  {
  }

  lemma NewChannelKeeps(s: Session, id: uint32)
    requires LinksInv(s) && UsersInv(s) && CanAct(s, NewChannel(id))
    ensures LinksInv(Perform(s, NewChannel(id))) && UsersInv(Perform(s, NewChannel(id)))
  {
    OpenKeepsInv(s.up, id);
    OpenKeepsInv(s.down, id);
    SinglesOpen(s.up, id);
    NewUser(s, id);
  }

  lemma SinglesOpen(l: Link, id: uint32)
    requires Singles(l) && Enabled(l, Open(id))
    ensures Singles(Apply(l, Open(id)))
  {
  }

  lemma NewUser(s: Session, id: uint32)
    requires UsersInv(s) && CanAct(s, NewChannel(id))
    ensures UsersInv(Perform(s, NewChannel(id)))
  {
    var s' := Perform(s, NewChannel(id));
    assert UserInv(FRESH_USER, FRESH_CHAN, FRESH_CHAN, s.down.sendClosed);
    forall c | c in s'.users
      ensures UserInv(s'.users[c], s'.up.chans[c], s'.down.chans[c], s'.down.sendClosed)
    {
      if c != id {
        UserOf(s, c);
      }
    }
  }

  lemma SendOkKeeps(s: Session, id: uint32)
    requires LinksInv(s) && UsersInv(s) && CanAct(s, SendOk(id))
    ensures LinksInv(Perform(s, SendOk(id))) && UsersInv(Perform(s, SendOk(id)))
  {
    var req := s.users[id].pushing.value;
    BeginKeepsInv(s.up, id, req.msg);
    SinglesBegin(s.up, id, req.msg);
    SendOkUsers(s, id);
  }

  lemma SendOkUsers(s: Session, id: uint32)
    requires UsersInv(s) && CanAct(s, SendOk(id))
    ensures UsersInv(Perform(s, SendOk(id)))
  {
    hide UserInv, PushedFor, SameMessages;
    var s' := Perform(s, SendOk(id));
    UserOf(s, id);
    SameAsItself();
    SendOkUser(s.users[id], s.up.chans[id], s'.up.chans[id], s.down.chans[id], s.down.sendClosed);
    UsersKeep(s, s', id);
  }

  lemma UnlistingKeepsLinks(s: Session, id: uint32, role: Role)
    requires LinksInv(s) && id in s.up.chans && id in s.down.chans
    ensures LinksInv(UnlistedAt(s, id, role))
  {
    hide Inv;
    ShutKeepsInv(s.up, id, Reading);
    ShutKeepsInv(s.down, id, Reading);
  }

  lemma InvalidatingKeepsLinks(s: Session, id: uint32, role: Role)
    requires LinksInv(s) && id in s.up.chans && id in s.down.chans
    ensures LinksInv(InvalidatedAt(s, id, role))
  {
    hide Inv;
    ShutKeepsInv(s.up, id, Sending);
    ShutKeepsInv(s.down, id, Sending);
  }

  lemma ClosingKeepsLinks(s: Session, id: uint32, role: Role)
    requires LinksInv(s) && id in s.up.chans && id in s.down.chans
    ensures LinksInv(ClosedAt(s, id, role))
  {
    hide LinksInv;
    UnlistingKeepsLinks(s, id, role);
    InvalidatingKeepsLinks(UnlistedAt(s, id, role), id, role);
  }

  lemma CloseKeeps(s: Session, id: uint32, role: Role)
    requires LinksInv(s) && UsersInv(s) && CanAct(s, CloseAt(id, role))
    ensures LinksInv(UnlistedAt(s, id, role)) && UsersInv(UnlistedAt(s, id, role))
  {
    hide Inv, UserInv, SameMessages;
    UnlistingKeepsLinks(s, id, role);
    ShutKeepsMessages(s.up, id, Reading);
    ShutKeepsMessages(s.down, id, Reading);
    SameAsItself();
    LinkMovesKeepUsers(s, UnlistedAt(s, id, role));
  }

  lemma InvalidateKeeps(s: Session, id: uint32, role: Role)
    requires LinksInv(s) && UsersInv(s) && CanAct(s, InvalidateAt(id, role))
    ensures LinksInv(InvalidatedAt(s, id, role)) && UsersInv(InvalidatedAt(s, id, role))
  {
    hide Inv, UserInv, SameMessages;
    InvalidatingKeepsLinks(s, id, role);
    ShutKeepsMessages(s.up, id, Sending);
    ShutKeepsMessages(s.down, id, Sending);
    SameAsItself();
    LinkMovesKeepUsers(s, InvalidatedAt(s, id, role));
  }

  lemma ShutKeepsMessages(l: Link, id: uint32, at: End)
    requires id in l.chans
    ensures forall c :: c in l.chans ==> SameMessages(l.chans[c], ShutAt(l, id, at).chans[c])
  {
  }

  /** Opening the id again at one end starts the histories again. */
  lemma ReopenKeeps(s: Session, id: uint32, role: Role)
    requires LinksInv(s) && UsersInv(s) && CanAct(s, ReopenAt(id, role))
    ensures LinksInv(Perform(s, ReopenAt(id, role))) && UsersInv(Perform(s, ReopenAt(id, role)))
  {
    hide Inv, UserInv, SameMessages, Drained, Reopened;
    ReopenKeepsInv(s.up, id, UpEnd(role));
    ReopenKeepsInv(s.down, id, DownEnd(role));
    SinglesReopen(s.up, id, UpEnd(role));
    SameAsItself();
    var s' := Perform(s, ReopenAt(id, role));
    ReopenedUser(s.up.chans[id], UpEnd(role), s.down.chans[id], DownEnd(role), s.down.sendClosed);
    UsersKeep(s, s', id);
  }

  lemma SinglesReopen(l: Link, id: uint32, at: End)
    requires Singles(l) && id in l.chans
    ensures Singles(ReopenedAt(l, id, at))
  {
  }

  lemma SameAsItself()
    ensures forall ch: Chan :: SameMessages(ch, ch)
  {
  }

  lemma ReopenedUser(up: Chan, upEnd: End, down: Chan, downEnd: End, downClosed: bool)
    ensures UserInv(FRESH_USER, Reopened(up, upEnd), Reopened(down, downEnd), downClosed)
  {
  }

  lemma ReusedUser(u: User, up: Chan, up': Chan, down: Chan, down': Chan, downClosed: bool, k: nat)
    requires UserInv(u, up, down, downClosed) && |up.consumed| <= |up.sent| && k <= |down.sent|
    requires up'.sent == up.sent && up'.merge == up.merge && up'.consumed == up.consumed
    requires down'.sent == down.sent[k..] && down'.merge == NOTHING_MERGED && down'.sendShut == down.sendShut
    ensures UserInv(ReusedBy(u, k), up', down', downClosed)
  {
    var u' := ReusedBy(u, k);
    assert u'.before + Messages(u'.asked) == u.before + Messages(u.asked);
    SliceOfSlice(Replies(u.served), u.gone, |down.sent|, k, |down.sent|);
  }

  lemma SliceOfSlice<T>(s: seq<T>, a: nat, n: nat, i: nat, j: nat)
    requires a + n <= |s| && i <= j <= n
    ensures s[a..a + n][i..j] == s[a + i..a + j]
  {
    var t := s[a..a + n];
    forall k | 0 <= k < j - i ensures t[i..j][k] == s[a + i..a + j][k] {
      assert t[i..j][k] == t[i + k] == s[a + (i + k)];
    }
  }

  lemma ReusedChans(l: Link, id: uint32, at: End)
    requires id in l.chans
    ensures
      var ch, ch' := l.chans[id], ReusedAt(l, id, at).chans[id];
      && (at.Sending? ==> ch' == ch.(sendShut := false, bytes := ch'.bytes))
      && (at.Reading? ==> |ch'.sent| <= |ch.sent| && ch'.sent == ch.sent[|ch.sent| - |ch'.sent|..]
                          && ch'.merge == NOTHING_MERGED && ch'.sendShut == ch.sendShut)
  {
    hide Between, Complete, FrameBytes, On, Received;
  }

  lemma SinglesReuse(l: Link, id: uint32)
    requires Singles(l) && id in l.chans
    ensures Singles(ReusedAt(l, id, Sending))
  {
    hide Between, Complete, FrameBytes;
  }

  /** The new channel object of the client has all the older objects of the id behind it. */
  lemma ReuseKeeps(s: Session, id: uint32)
    requires LinksInv(s) && UsersInv(s) && CanAct(s, ReuseAt(id))
    ensures LinksInv(ReuseOn(s, id)) && UsersInv(ReuseOn(s, id))
  {
    hide Inv, Singles, UsersInv, ReusedAt;
    ReuseKeepsInv(s.up, id, Sending);
    ReuseKeepsInv(s.down, id, Reading);
    SinglesReuse(s.up, id);
    ReuseOthers(s, id);
    ReuseUsers(s, id);
  }

  lemma ReuseUsers(s: Session, id: uint32)
    requires Inv(s.up) && Singles(s.up) && UsersInv(s) && CanAct(s, ReuseAt(id))
    ensures UsersInv(ReuseOn(s, id))
  {
    hide Inv, Singles, UserInv, SameMessages, ReusedAt;
    ReuseOthers(s, id);
    ReuseOwnUser(s, id);
    var s' := ReuseOn(s, id);
    SameAsItself();
    UsersKeep(s, s', id);
  }

  lemma ReuseOwnUser(s: Session, id: uint32)
    requires Inv(s.up) && Singles(s.up) && UsersInv(s) && CanAct(s, ReuseAt(id))
    ensures
      var s' := ReuseOn(s, id);
      && id in s'.up.chans && id in s'.down.chans
      && UserInv(s'.users[id], s'.up.chans[id], s'.down.chans[id], s.down.sendClosed)
  {
    hide Inv, Singles, UsersInv, UserInv, ReusedAt;
    UserOf(s, id);
    TakenAtMostSent(s.up, id);
    ReusedChans(s.up, id, Sending);
    ReusedChans(s.down, id, Reading);
    ReuseOthers(s, id);
    var s' := ReuseOn(s, id);
    ReusedUser(s.users[id], s.up.chans[id], s'.up.chans[id], s.down.chans[id], s'.down.chans[id], s.down.sendClosed,
               |s.down.chans[id].sent| - |s'.down.chans[id].sent|);
  }

  lemma ReuseOthers(s: Session, id: uint32)
    requires CanAct(s, ReuseAt(id))
    ensures
      var s' := ReuseOn(s, id);
      && s'.up.chans.Keys == s.up.chans.Keys && s'.down.chans.Keys == s.down.chans.Keys
      && s'.up.role == s.up.role && s'.down.role == s.down.role && s'.down.sendClosed == s.down.sendClosed
      && (forall c :: c in s.up.chans && c != id ==> s'.up.chans[c] == s.up.chans[c])
      && (forall c :: c in s.down.chans && c != id ==> s'.down.chans[c] == s.down.chans[c])
  {
    hide Between, Complete, FrameBytes, On, Received;
  }

  lemma ServeKeeps(s: Session, id: uint32, result: HandlerResult, path: seq<byte>, closes: bool)
    requires LinksInv(s) && UsersInv(s) && CanAct(s, Serve(id, result, path, closes))
    ensures LinksInv(ServeOn(s, id, result, path, closes)) && UsersInv(ServeOn(s, id, result, path, closes))
  {
    ServeKeepsLinks(s, id, result, path, closes);
    ServeUsers(s, id, result, path, closes);
  }

  lemma ServeKeepsLinks(s: Session, id: uint32, result: HandlerResult, path: seq<byte>, closes: bool)
    requires LinksInv(s) && CanAct(s, Serve(id, result, path, closes))
    ensures LinksInv(ServeOn(s, id, result, path, closes))
  {
    hide Inv;
    TakeKeepsInv(s.up, id);
    SinglesTake(s.up, id);
    var s1 := s.(up := TakeOn(s.up, id));
    if closes {
      ClosingKeepsLinks(s1, id, Server);
    }
    var s', reply := Handled(s, id, closes), ReplyTo(s, id, result);
    if reply.Some? && !Muted(s', id) {
      BeginKeepsInv(s'.down, id, Message(path, reply.value));
    }
  }

  lemma ServeUsers(s: Session, id: uint32, result: HandlerResult, path: seq<byte>, closes: bool)
    requires Singles(s.up) && UsersInv(s) && CanAct(s, Serve(id, result, path, closes))
    ensures UsersInv(ServeOn(s, id, result, path, closes))
  {
    hide UserInv, SameMessages;
    ServedOne(s, id, result, path, closes);
    ServeOthers(s, id, result, path, closes);
    UsersKeep(s, ServeOn(s, id, result, path, closes), id);
  }

  lemma ServedOne(s: Session, id: uint32, result: HandlerResult, path: seq<byte>, closes: bool)
    requires Singles(s.up) && UsersInv(s) && CanAct(s, Serve(id, result, path, closes))
    ensures
      var s' := ServeOn(s, id, result, path, closes);
      && id in s'.users && id in s'.up.chans && id in s'.down.chans
      && UserInv(s'.users[id], s'.up.chans[id], s'.down.chans[id], s'.down.sendClosed)
  {
    hide UsersInv, UserInv, PushedFor;
    var s' := ServeOn(s, id, result, path, closes);
    var u, up, down, down' := s.users[id], s.up.chans[id], s.down.chans[id], s'.down.chans[id];
    UserOf(s, id);
    NothingMergedYet(u, up, down, s.down.sendClosed);
    assert Head(s.up, id).status == STATUS_C1;
    var ask, reply := Completing(s.up, id).value, Message(path, ReplyTo(s, id, result).value);
    var replied := !Muted(Handled(s, id, closes), id);
    ServedUser(u, up, down, down', s.down.sendClosed, ask, reply, replied);
    ServedAtBothEnds(ServedOn(u, ask, reply, replied), up, s'.up.chans[id], down', s.down.sendClosed, ask);
  }

  lemma NothingMergedYet(u: User, up: Chan, down: Chan, downClosed: bool)
    requires UserInv(u, up, down, downClosed)
    ensures up.merge.whole == None
  {
  }

  /** Taking the packet and closing the channel is all that happens at the up end. */
  lemma ServedAtBothEnds(u: User, up: Chan, up': Chan, down: Chan, downClosed: bool, ask: Message)
    requires up.queue != []
    requires UserInv(u, up.(queue := up.queue[1..], consumed := up.consumed + [up.queue[0]],
                            merge := Merge(None, up.merge.delivered + [ask])), down, downClosed)
    requires up'.sent == up.sent && up'.consumed == up.consumed + [up.queue[0]]
    requires up'.merge == Merge(None, up.merge.delivered + [ask])
    ensures UserInv(u, up', down, downClosed)
  {
  }

  lemma ServeKeepsKeys(s: Session, id: uint32, result: HandlerResult, path: seq<byte>, closes: bool)
    requires UsersInv(s) && CanAct(s, Serve(id, result, path, closes))
    ensures
      var s' := ServeOn(s, id, result, path, closes);
      && s'.users.Keys == s.users.Keys && s'.up.chans.Keys == s.up.chans.Keys && s'.down.chans.Keys == s.down.chans.Keys
      && s'.down.sendClosed == s.down.sendClosed
  {
    hide UserInv;
    var s1 := s.(up := TakeOn(s.up, id));
    assert s1.up.chans.Keys == s.up.chans.Keys;
    var s2 := Handled(s, id, closes);
    assert s2.up.chans.Keys == s.up.chans.Keys && s2.down.chans.Keys == s.down.chans.Keys;
  }

  lemma ServeOther(s: Session, id: uint32, result: HandlerResult, path: seq<byte>, closes: bool, c: uint32)
    requires UsersInv(s) && CanAct(s, Serve(id, result, path, closes)) && c in s.users && c != id
    ensures
      var s' := ServeOn(s, id, result, path, closes);
      && c in s'.users && c in s'.up.chans && c in s'.down.chans
      && s'.users[c] == s.users[c] && s'.up.chans[c] == s.up.chans[c] && s'.down.chans[c] == s.down.chans[c]
  {
    hide UserInv;
  }

  lemma ServeOthers(s: Session, id: uint32, result: HandlerResult, path: seq<byte>, closes: bool)
    requires UsersInv(s) && CanAct(s, Serve(id, result, path, closes))
    ensures
      var s' := ServeOn(s, id, result, path, closes);
      && s'.users.Keys == s.users.Keys && s'.up.chans.Keys == s.up.chans.Keys && s'.down.chans.Keys == s.down.chans.Keys
      && s'.down.sendClosed == s.down.sendClosed
      && forall c :: c in s.users && c != id ==>
           && s'.users[c] == s.users[c]
           && SameMessages(s.up.chans[c], s'.up.chans[c]) && SameMessages(s.down.chans[c], s'.down.chans[c])
  {
    hide UserInv, ServeOn, CanAct, SameMessages;
    ServeKeepsKeys(s, id, result, path, closes);
    forall c | c in s.users && c != id
      ensures
        var s' := ServeOn(s, id, result, path, closes);
        && s'.users[c] == s.users[c]
        && SameMessages(s.up.chans[c], s'.up.chans[c]) && SameMessages(s.down.chans[c], s'.down.chans[c])
    {
      ServeOther(s, id, result, path, closes, c);
      SameAsItself();
    }
  }

  /** No more requests taken than sent, and a response still to deliver unless one was lost. */
  predicate Awaited(up: Chan, down: Chan) {
    |up.consumed| <= |up.sent| && (down.lost == 0 ==> |down.merge.delivered| < |down.sent|)
  }

  lemma QueuedIsAwaited(up: Link, down: Link, id: uint32)
    requires Inv(up) && Singles(up) && id in up.chans && Inv(down) && Enabled(down, Take(id))
    ensures id in down.chans && Awaited(up.chans[id], down.chans[id])
  {
    TakenAtMostSent(up, id);
    if down.chans[id].lost == 0 {
      QueueMeansUndelivered(down, id);
    }
  }

  lemma ReceiveKeeps(s: Session, id: uint32)
    requires LinksInv(s) && UsersInv(s) && CanAct(s, Receive(id))
    ensures LinksInv(ReceiveOn(s, id)) && UsersInv(ReceiveOn(s, id))
  {
    UserOf(s, id);
    QueuedIsAwaited(s.up, s.down, id);
    TakeKeepsInv(s.down, id);
    ReceiveUsers(s, id);
  }

  lemma AwaitedUser(u: User, up: Chan, down: Chan, downClosed: bool)
    requires UserInv(u, up, down, downClosed) && down.lost == 0 && Clean(u) && u.held == None && Awaited(up, down)
    ensures |u.answered| < |u.asked|
  {
  }

  lemma ReceiveUsers(s: Session, id: uint32)
    requires UsersInv(s) && CanAct(s, Receive(id)) && id in s.up.chans && id in s.down.chans
    requires Awaited(s.up.chans[id], s.down.chans[id])
    ensures UsersInv(ReceiveOn(s, id))
  {
    hide UserInv, SameMessages;
    var s' := ReceiveOn(s, id);
    UserOf(s, id);
    SameAsItself();
    if s.down.chans[id].lost == 0 && Clean(s.users[id]) {
      AwaitedUser(s.users[id], s.up.chans[id], s.down.chans[id], s.down.sendClosed);
    }
    PoppedUser(s.users[id], s.up.chans[id], s.down.chans[id], s'.down.chans[id], s.down.sendClosed, Completing(s.down, id));
    UsersKeep(s, s', id);
  }

  lemma UpKeeps(s: Session, step: Step)
    requires LinksInv(s) && UsersInv(s) && CanAct(s, Up(step))
    ensures LinksInv(Perform(s, Up(step))) && UsersInv(Perform(s, Up(step)))
  {
    StepKeepsInv(s.up, step);
    if step.Read? {
      ReadOutcome(s.up);
      SinglesRead(s.up);
    } else {
      SinglesMove(s.up, step);
    }
    MoveUsers(s, Up(step));
  }

  lemma DownKeeps(s: Session, step: Step)
    requires LinksInv(s) && UsersInv(s) && CanAct(s, Down(step))
    ensures LinksInv(Perform(s, Down(step))) && UsersInv(Perform(s, Down(step)))
  {
    StepKeepsInv(s.down, step);
    MovesKeepMessages(s.down, step);
    MoveUsers(s, Down(step));
  }

  /** Nothing that keeps every channel's messages matters to the users. */
  lemma LinkMovesKeepUsers(s: Session, s': Session)
    requires UsersInv(s) && s'.users == s.users
    requires s'.up.chans.Keys == s.up.chans.Keys && s'.down.chans.Keys == s.down.chans.Keys
    requires s.down.sendClosed ==> s'.down.sendClosed
    requires forall c :: c in s.up.chans ==> SameMessages(s.up.chans[c], s'.up.chans[c])
    requires forall c :: c in s.down.chans ==> SameMessages(s.down.chans[c], s'.down.chans[c])
    ensures UsersInv(s')
  {
    hide UserInv, SameMessages;
    forall c | c in s'.users
      ensures UserInv(s'.users[c], s'.up.chans[c], s'.down.chans[c], s'.down.sendClosed)
    {
      UserOf(s, c);
      MoveKeepsUser(s.users[c], s.up.chans[c], s'.up.chans[c], s.down.chans[c], s'.down.chans[c],
                    s.down.sendClosed, s'.down.sendClosed);
    }
  }

  lemma MoveUsers(s: Session, a: Act)
    requires UsersInv(s) && CanAct(s, a) && (a.Up? || a.Down?)
    ensures UsersInv(Perform(s, a))
  {
    MovesKeepMessages(if a.Up? then s.up else s.down, a.step);
    LinkMovesKeepUsers(s, Perform(s, a));
  }

  /** An act of one user that leaves both links alone. */
  lemma UserActKeeps(s: Session, id: uint32, u: User)
    requires UsersInv(s) && id in s.users
    requires UserInv(u, s.up.chans[id], s.down.chans[id], s.down.sendClosed)
    ensures UsersInv(s.(users := s.users[id := u]))
  {
  }

  lemma GiveUpKeeps(u: User, up: Chan, down: Chan, downClosed: bool, req: Request)
    requires UserInv(u, up, down, downClosed)
    ensures UserInv(u.(waiting := u.waiting - {req}), up, down, downClosed)
  {
  }

  lemma LocalKeeps(s: Session, a: Act)
    requires UsersInv(s) && CanAct(s, a) && (a.PushTail? || a.SendFail? || a.Finish? || a.GiveUp?)
    ensures UsersInv(Perform(s, a)) && Perform(s, a).up == s.up && Perform(s, a).down == s.down
  {
    hide UsersInv, UserInv;
    UserOf(s, a.id);
    var u, up, down, closed := s.users[a.id], s.up.chans[a.id], s.down.chans[a.id], s.down.sendClosed;
    match a {
      case PushTail(id, req) => PushTailKeeps(u, up, down, closed, req);
      case SendFail(id) => SendFailKeeps(u, up, down, closed);
      case Finish(id) => FinishKeeps(u, up, down, closed);
      case GiveUp(id, req) => GiveUpKeeps(u, up, down, closed, req);
    }
    UserActKeeps(s, a.id, Perform(s, a).users[a.id]);
  }

  lemma TrafficKeeps(s: Session, a: Act)
    requires LinksInv(s) && UsersInv(s) && CanAct(s, a) && (a.SendOk? || a.Serve? || a.Receive? || a.NewChannel?)
    ensures LinksInv(Perform(s, a)) && UsersInv(Perform(s, a))
  {
    hide LinksInv, UsersInv;
    match a
    case NewChannel(id) => NewChannelKeeps(s, id);
    case SendOk(id) => SendOkKeeps(s, id);
    case Serve(id, result, path, closes) => ServeKeeps(s, id, result, path, closes);
    case Receive(id) => ReceiveKeeps(s, id);
  }

  lemma ActKeeps(s: Session, a: Act)
    requires LinksInv(s) && UsersInv(s) && CanAct(s, a)
    ensures LinksInv(Perform(s, a)) && UsersInv(Perform(s, a))
  {
    if a.SendOk? || a.Serve? || a.Receive? || a.NewChannel? {
      TrafficKeeps(s, a);
    } else if a.Up? {
      UpKeeps(s, a.step);
    } else if a.Down? {
      DownKeeps(s, a.step);
    } else if a.CloseAt? {
      CloseKeeps(s, a.id, a.role);
    } else if a.InvalidateAt? {
      InvalidateKeeps(s, a.id, a.role);
    } else if a.ReopenAt? {
      ReopenKeeps(s, a.id, a.role);
    } else if a.ReuseAt? {
      ReuseKeeps(s, a.id);
    } else {
      LocalKeeps(s, a);
    }
  }

  lemma {:induction false} PlayKeeps(mode: SendMode, acts: seq<Act>)
    ensures LinksInv(Play(FreshSession(mode), acts)) && UsersInv(Play(FreshSession(mode), acts))
    decreases |acts|
  {
    if acts != [] {
      PlayKeeps(mode, acts[..|acts| - 1]);
      var s := Play(FreshSession(mode), acts[..|acts| - 1]);
      if CanAct(s, acts[|acts| - 1]) {
        ActKeeps(s, acts[|acts| - 1]);
      }
    }
  }
}
