/** No request is ever beyond reach: from every session that has lost nothing some run answers
    all requests asked. */
module Progress {
  import opened Packets
  import opened Chunks
  import opened Reading
  import opened Merging
  import opened Links
  import opened LinkProofs
  import opened EndToEnd
  import opened Sessions
  import opened SessionProofs
  import opened Pipelining
  import opened Callers

  /** No channel is closed at either end. */
  predicate AllOpen(l: Link) {
    forall id :: id in l.chans ==> !l.chans[id].sendShut && !l.chans[id].readShut
  }

  predicate Good(l: Link) {
    Healthy(l) && AllFit(l) && AllOpen(l)
  }

  predicate AllClean(s: Session) {
    forall id :: id in s.users ==> Clean(s.users[id])
  }

  /** Both directions are open and have lost nothing, everything in them fits, and no channel
      object has got its id with something outstanding on it. */
  predicate Calm(s: Session) {
    Good(s.up) && Good(s.down) && AllClean(s)
  }

  predicate SessionInv(s: Session) {
    LinksInv(s) && UsersInv(s)
  }

  /** What the server replies to the k-th request of a channel. */
  type Handler = (uint32, nat, Message) -> Message

  /** All its replies can be sent. */
  ghost predicate Fitting(h: Handler, mode: SendMode) {
    forall id, k, ask :: WellFormed(h(id, k, ask)) && Fits(mode, h(id, k, ask))
  }

  /** Nobody has left: a caller waits until its request is answered, and has the answer then. */
  predicate HandedOver(u: User, u': User) {
    && |u.answered| <= |u'.answered| && u'.waiting <= u.waiting && u.results.Keys <= u'.results.Keys
    && (forall r :: r in u.waiting ==> r in u'.waiting || r in u'.results)
    && forall k :: |u.answered| <= k < |u'.answered| ==> u'.answered[k].0 !in u'.waiting
  }

  lemma HandedOverTwice(u1: User, u2: User, u3: User)
    requires HandedOver(u1, u2) && HandedOver(u2, u3) && u1.answered <= u2.answered <= u3.answered
    ensures HandedOver(u1, u3)
  {
  }

  /** Nothing more has been asked on the channel, the handler has replied to what has been served,
      and what was answered has been handed over. */
  predicate HandledBy(h: Handler, id: uint32, u: User, u': User) {
    && u'.asked == u.asked && u.served <= u'.served && u.answered <= u'.answered && HandedOver(u, u')
    && forall k :: |u.served| <= k < |u'.served| ==> u'.served[k].1 == h(id, k, u'.served[k].0)
  }

  /** So on every channel. */
  predicate SameAsked(s: Session, s': Session, h: Handler) {
    && s'.users.Keys == s.users.Keys && s'.down.mode == s.down.mode
    && forall id :: id in s.users ==> HandledBy(h, id, s.users[id], s'.users[id])
  }

  lemma HandledTwice(h: Handler, id: uint32, u1: User, u2: User, u3: User)
    requires HandledBy(h, id, u1, u2) && HandledBy(h, id, u2, u3)
    ensures HandledBy(h, id, u1, u3)
  {
    hide HandedOver;
    HandedOverTwice(u1, u2, u3);
    forall k | |u1.served| <= k < |u3.served| ensures u3.served[k].1 == h(id, k, u3.served[k].0) {
      if k < |u2.served| {
        assert u3.served[k] == u2.served[k];
      }
    }
  }

  lemma SameAskedTwice(a: Session, b: Session, c: Session, h: Handler)
    requires SameAsked(a, b, h) && SameAsked(b, c, h)
    ensures SameAsked(a, c, h)
  {
    hide HandledBy;
    forall id | id in a.users ensures HandledBy(h, id, a.users[id], c.users[id]) {
      HandledTwice(h, id, a.users[id], b.users[id], c.users[id]);
    }
  }

  // ----- runs one after the other -----

  lemma {:induction false} PlayAppend(s: Session, a: seq<Act>, b: seq<Act>)
    ensures Play(s, a + b) == Play(Play(s, a), b)
    decreases |b|
  {
    hide CanAct, Perform;
    if b == [] {
      assert a + b == a;
    } else {
      assert (a + b)[..|a + b| - 1] == a + b[..|b| - 1];
      PlayAppend(s, a, b[..|b| - 1]);
    }
  }

  lemma PlayOne(s: Session, a: Act)
    requires CanAct(s, a)
    ensures Play(s, [a]) == Perform(s, a)
  {
    hide CanAct, Perform;
    assert [a][..0] == [];
  }

  lemma {:induction false} PlayKeepsInv(s: Session, acts: seq<Act>)
    requires SessionInv(s)
    ensures SessionInv(Play(s, acts))
    decreases |acts|
  {
    hide LinksInv, UsersInv, CanAct, Perform;
    if acts != [] {
      PlayKeepsInv(s, acts[..|acts| - 1]);
      var s' := Play(s, acts[..|acts| - 1]);
      if CanAct(s', acts[|acts| - 1]) {
        ActKeeps(s', acts[|acts| - 1]);
      }
    }
  }

  // ----- the steps of one link, as acts of the session -----

  function AsUp(steps: seq<Step>): (acts: seq<Act>)
    ensures |acts| == |steps|
  {
    seq(|steps|, i requires 0 <= i < |steps| => Up(steps[i]))
  }

  function AsDown(steps: seq<Step>): (acts: seq<Act>)
    ensures |acts| == |steps|
  {
    seq(|steps|, i requires 0 <= i < |steps| => Down(steps[i]))
  }

  lemma {:induction false} UpMoves(s: Session, steps: seq<Step>)
    requires AllMove(steps)
    ensures Play(s, AsUp(steps)) == s.(up := Run(s.up, steps))
    decreases |steps|
  {
    hide Apply, Enabled;
    if steps != [] {
      var n := |steps| - 1;
      UpMoves(s, steps[..n]);
      assert AsUp(steps)[..n] == AsUp(steps[..n]);
    }
  }

  lemma {:induction false} DownMoves(s: Session, steps: seq<Step>)
    requires AllMove(steps)
    ensures Play(s, AsDown(steps)) == s.(down := Run(s.down, steps))
    decreases |steps|
  {
    hide Apply, Enabled;
    if steps != [] {
      var n := |steps| - 1;
      DownMoves(s, steps[..n]);
      assert AsDown(steps)[..n] == AsDown(steps[..n]);
    }
  }

  lemma OpenLetsThrough(l: Link)
    requires AllOpen(l)
    ensures NothingShutOut(l)
  {
  }

  lemma KeptGood(l: Link, l': Link)
    requires Good(l) && Kept(l, l') && Inv(l')
    ensures Good(l')
  {
    hide Inv;
  }

  lemma FlushUp(s: Session) returns (acts: seq<Act>)
    requires SessionInv(s) && Calm(s)
    ensures
      var s' := Play(s, acts);
      && SessionInv(s') && Calm(s') && s'.users == s.users && s'.down == s.down && NothingToRead(s'.up)
  {
    hide Run, Play, Inv, UsersInv, NothingToRead, Kept;
    OpenLetsThrough(s.up);
    var steps := Flushed(s.up);
    acts := AsUp(steps);
    UpMoves(s, steps);
    PlayKeepsInv(s, acts);
    KeptGood(s.up, Run(s.up, steps));
  }

  lemma FlushDown(s: Session) returns (acts: seq<Act>)
    requires SessionInv(s) && Calm(s)
    ensures
      var s' := Play(s, acts);
      && SessionInv(s') && Calm(s') && s'.users == s.users && s'.up == s.up && NothingToRead(s'.down)
      && s'.down.mode == s.down.mode
  {
    hide Run, Play, Inv, UsersInv, NothingToRead;
    OpenLetsThrough(s.down);
    var steps := Flushed(s.down);
    acts := AsDown(steps);
    DownMoves(s, steps);
    PlayKeepsInv(s, acts);
    KeptGood(s.down, Run(s.down, steps));
  }

  // ----- serving everything that has arrived -----

  /** The server's send queue of the channel can take another reply. */
  lemma PushReplies(s: Session, id: uint32) returns (acts: seq<Act>)
    requires SessionInv(s) && Calm(s) && id in s.down.chans
    ensures
      var s' := Play(s, acts);
      && SessionInv(s') && Calm(s') && s'.users == s.users && s'.up == s.up && s'.down.mode == s.down.mode
      && id in s'.down.chans && s'.down.chans[id].outbox == []
  {
    hide Run, Play, Inv, UsersInv;
    var steps := PushOut(s.down, id);
    acts := AsDown(steps);
    DownMoves(s, steps);
    PlayKeepsInv(s, acts);
    RunKeepsInv(s.down, steps);
    KeptGood(s.down, Run(s.down, steps));
  }

  /** The act of answering the next request of the channel with the given reply. */
  function ServeWith(id: uint32, reply: Message): Act {
    Serve(id, Reply(reply.data), reply.path, false)
  }

  lemma TakeGood(l: Link, id: uint32)
    requires Good(l) && Enabled(l, Take(id))
    ensures Good(TakeOn(l, id))
  {
    hide Inv;
    TakeKeepsInv(l, id);
  }

  lemma BeginGood(l: Link, id: uint32, m: Message)
    requires Good(l) && Enabled(l, Begin(id, m)) && Fits(l.mode, m)
    ensures Good(BeginOn(l, id, m))
  {
    hide Inv, PushedFor, Fits;
    BeginKeepsInv(l, id, m);
  }

  lemma CanServe(s: Session, id: uint32, reply: Message)
    requires Calm(s) && id in s.users && id in s.up.chans && id in s.down.chans && WellFormed(reply)
    requires s.up.chans[id].queue != [] && s.down.chans[id].outbox == []
    ensures CanAct(s, ServeWith(id, reply)) && Enabled(s.down, Begin(id, reply))
  {
    hide Inv;
  }

  /** The request in the next packet of the channel. */
  function NextAsk(s: Session, id: uint32): Message
    requires Enabled(s.up, Take(id))
  {
    var p := s.up.chans[id].queue[0];
    var w := Joined(s.up.chans[id].merge.whole, p);
    Message(w.path, w.data)
  }

  lemma ServesAs(s: Session, id: uint32, reply: Message)
    requires Calm(s) && Singles(s.up) && CanAct(s, ServeWith(id, reply)) && Enabled(s.down, Begin(id, reply))
    requires id in s.up.chans && id in s.users
    ensures
      var s' := Perform(s, ServeWith(id, reply));
      && s'.up == TakeOn(s.up, id) && s'.down == BeginOn(s.down, id, reply)
      && s'.users == s.users[id := ServedOn(s.users[id], NextAsk(s, id), reply, true)]
  {
    hide Inv, PushedFor, AllFit;
    assert Head(s.up, id).status == STATUS_C1;
    assert ReplyTo(s, id, Reply(reply.data)) == Some(reply.data);
    assert Completing(s.up, id) == Some(NextAsk(s, id));
  }

  lemma ServedSame(s: Session, s': Session, id: uint32, ask: Message, h: Handler)
    requires AllClean(s) && id in s.users
    requires
      var u := s.users[id];
      s'.users == s.users[id := ServedOn(u, ask, h(id, |u.served|, ask), true)]
    requires s'.down.mode == s.down.mode
    ensures AllClean(s') && SameAsked(s, s', h)
  {
  }

  /** The server has taken the next packet of the channel. */
  predicate TookUp(s: Session, s': Session, id: uint32) {
    Enabled(s.up, Take(id)) && s'.up == TakeOn(s.up, id)
  }

  /** What the handler replies to that packet. */
  function NextReply(s: Session, id: uint32, h: Handler): Message
    requires Enabled(s.up, Take(id)) && id in s.users
  {
    h(id, |s.users[id].served|, NextAsk(s, id))
  }

  lemma ServeGood(s: Session, id: uint32, h: Handler)
    requires SessionInv(s) && Calm(s) && id in s.users && id in s.down.chans && Enabled(s.up, Take(id))
    requires Fitting(h, s.down.mode) && s.down.chans[id].outbox == []
    ensures CanAct(s, ServeWith(id, NextReply(s, id, h)))
    ensures
      var s' := Perform(s, ServeWith(id, NextReply(s, id, h)));
      SessionInv(s') && Calm(s') && SameAsked(s, s', h) && TookUp(s, s', id)
  {
    hide Good, Inv, UsersInv, CanAct, Perform, Fits, WellFormed, Fitting, AllClean, SameAsked, ServedOn, NextAsk, ServeWith, TakeOn, BeginOn;
    var reply := NextReply(s, id, h);
    ReplyFits(h, s.down.mode, id, |s.users[id].served|, NextAsk(s, id));
    CanServe(s, id, reply);
    ServesAs(s, id, reply);
    ActKeeps(s, ServeWith(id, reply));
    TakeGood(s.up, id);
    BeginGood(s.down, id, reply);
    BeginKeepsMode(s.down, id, reply);
    ServedSame(s, Perform(s, ServeWith(id, reply)), id, NextAsk(s, id), h);
  }

  lemma ReplyFits(h: Handler, mode: SendMode, id: uint32, k: nat, ask: Message)
    requires Fitting(h, mode)
    ensures WellFormed(h(id, k, ask)) && Fits(mode, h(id, k, ask))
  {
  }

  lemma BeginKeepsMode(l: Link, id: uint32, m: Message)
    requires Enabled(l, Begin(id, m))
    ensures BeginOn(l, id, m).mode == l.mode
  {
    hide PushedFor;
  }

  /** Where a run of these phases has got: nothing has broken and nothing more been asked. */
  predicate Ahead(s: Session, s': Session, h: Handler) {
    SessionInv(s') && Calm(s') && SameAsked(s, s', h)
  }

  lemma AheadTwice(a: Session, b: Session, c: Session, h: Handler)
    requires Ahead(a, b, h) && Ahead(b, c, h)
    ensures Ahead(a, c, h)
  {
    hide SessionInv, Calm, SameAsked;
    SameAskedTwice(a, b, c, h);
  }

  lemma PlayNothing(s: Session, h: Handler)
    requires SessionInv(s) && Calm(s)
    ensures Play(s, []) == s && Ahead(s, s, h)
  {
    hide SessionInv, Calm;
  }

  lemma UsersHaveChans(s: Session, id: uint32)
    requires SessionInv(s) && id in s.users
    ensures id in s.up.chans && id in s.down.chans
    ensures UserInv(s.users[id], s.up.chans[id], s.down.chans[id], s.down.sendClosed)
  {
    hide UserInv, LinksInv;
  }

  /** One request is served, once the send queue of the server has room for the reply. */
  lemma ServeOne(s: Session, id: uint32, h: Handler) returns (acts: seq<Act>)
    requires SessionInv(s) && Calm(s) && id in s.users && id in s.up.chans && s.up.chans[id].queue != []
    requires Fitting(h, s.down.mode)
    ensures Ahead(s, Play(s, acts), h) && TookUp(s, Play(s, acts), id)
  {
    hide Calm, SessionInv, Play, CanAct, Perform, Fitting, NextReply;
    UsersHaveChans(s, id);
    var a := PushReplies(s, id);
    var s1 := Play(s, a);
    ServeGood(s1, id, h);
    var act := ServeWith(id, NextReply(s1, id, h));
    PlayOne(s1, act);
    acts := a + [act];
    PlayAppend(s, a, [act]);
    SameUsersSame(s, s1, h);
    AheadTwice(s, s1, Play(s, acts), h);
  }

  lemma SameUsersSame(s: Session, s': Session, h: Handler)
    requires s'.users == s.users && s'.down.mode == s.down.mode
    ensures SameAsked(s, s', h)
  {
  }

  /** All requests of one channel that have arrived are served. */
  lemma {:induction false} ServeOut(s: Session, id: uint32, h: Handler) returns (acts: seq<Act>)
    requires SessionInv(s) && Calm(s) && id in s.users && id in s.up.chans && NothingToRead(s.up)
    requires Fitting(h, s.down.mode)
    ensures
      var s' := Play(s, acts);
      && Ahead(s, s', h) && OnlyAt(s.up, s'.up, id) && NothingToRead(s'.up) && s'.up.chans[id].queue == []
    decreases |s.up.chans[id].queue|
  {
    hide Calm, SessionInv, Play, Fitting, TakeOn, NothingToRead, OnlyAt;
    acts := [];
    if s.up.chans[id].queue == [] {
      PlayNothing(s, h);
      RunNothing(s.up);
    } else {
      var a := ServeOne(s, id, h);
      OneTaken(s.up, id);
      OnlyAtHasIt(s.up, TakeOn(s.up, id), id);
      var s1 := Play(s, a);
      var b := ServeOut(s1, id, h);
      acts := a + b;
      PlayAppend(s, a, b);
      AheadTwice(s, s1, Play(s, acts), h);
      OnlyAtOn(s.up, s1.up, Play(s, acts).up, id);
    }
  }

  /** And of all channels. */
  lemma {:induction false} ServeAll(s: Session, ids: set<uint32>, h: Handler) returns (acts: seq<Act>)
    requires SessionInv(s) && Calm(s) && ids <= s.users.Keys && NothingToRead(s.up)
    requires Fitting(h, s.down.mode)
    ensures
      var s' := Play(s, acts);
      && Ahead(s, s', h) && NothingToRead(s'.up) && s'.up.chans.Keys == s.up.chans.Keys
      && forall c :: c in s.up.chans && (c in ids || s.up.chans[c].queue == []) ==> s'.up.chans[c].queue == []
    decreases |ids|
  {
    hide Calm, SessionInv, Play, Fitting, NothingToRead, HandledBy;
    acts := [];
    if ids == {} {
      PlayNothing(s, h);
    } else {
      var id :| id in ids;
      UsersHaveChans(s, id);
      var a := ServeOut(s, id, h);
      var s1 := Play(s, a);
      var b := ServeAll(s1, ids - {id}, h);
      acts := a + b;
      PlayAppend(s, a, b);
      AheadTwice(s, s1, Play(s, acts), h);
    }
  }

  // ----- handing over everything that has come back -----

  lemma NotStuck(s: Session, id: uint32)
    requires SessionInv(s) && Calm(s) && id in s.users
    ensures !s.users[id].stuck && id in s.down.chans
  {
    hide Inv, LinksInv;
    UsersHaveChans(s, id);
  }

  predicate OthersKept(s: Session, s': Session, id: uint32) {
    forall c :: c in s.users && c != id ==> c in s'.users && s'.users[c] == s.users[c]
  }

  lemma OthersKeptTwice(a: Session, b: Session, c: Session, id: uint32)
    requires OthersKept(a, b, id) && OthersKept(b, c, id)
    ensures OthersKept(a, c, id)
  {
  }

  /** The client loop has taken the next packet of the channel. */
  predicate TookDown(s: Session, s': Session, id: uint32) {
    && Enabled(s.down, Take(id)) && s'.down == TakeOn(s.down, id) && s'.up == s.up
    && id in s'.users && s'.users[id].held.Some? && OthersKept(s, s', id)
  }

  /** And dealt with it. */
  predicate Dealt(s: Session, s': Session, id: uint32) {
    s'.up == s.up && s'.down == s.down && id in s'.users && s'.users[id].held == None && OthersKept(s, s', id)
  }

  lemma FinishUsers(s: Session, id: uint32, h: Handler)
    requires AllClean(s) && CanAct(s, Finish(id))
    ensures
      var s' := Perform(s, Finish(id));
      AllClean(s') && SameAsked(s, s', h) && Dealt(s, s', id)
  {
    hide HandledBy;
    FinishedUser(s.users[id], id, h);
    UnchangedUser(h);
  }

  lemma FinishedUser(u: User, id: uint32, h: Handler)
    requires u.held.Some?
    ensures HandledBy(h, id, u, FinishOn(u))
  {
  }

  lemma PoppedHandled(u: User, id: uint32, h: Handler, answer: Option<Message>)
    ensures HandledBy(h, id, u, PopHeadOf(u, answer))
  {
  }

  lemma UnchangedUser(h: Handler)
    ensures forall id, u :: HandledBy(h, id, u, u)
  {
  }

  lemma FinishOne(s: Session, id: uint32, h: Handler)
    requires SessionInv(s) && Calm(s) && id in s.users && s.users[id].held.Some?
    ensures Ahead(s, Play(s, [Finish(id)]), h) && Dealt(s, Play(s, [Finish(id)]), id)
  {
    hide LinksInv, UsersInv, Good, Play, AllClean, SameAsked, Perform, OthersKept;
    PlayOne(s, Finish(id));
    ActKeeps(s, Finish(id));
    FinishUsers(s, id, h);
  }

  lemma ReceiveUsers(s: Session, id: uint32, h: Handler)
    requires AllClean(s) && CanAct(s, Receive(id))
    ensures
      var s' := Perform(s, Receive(id));
      && AllClean(s') && SameAsked(s, s', h) && s'.down == TakeOn(s.down, id) && s'.up == s.up
      && id in s'.users && OthersKept(s, s', id)
      && (s'.users[id].stuck || s'.users[id].held.Some?)
  {
    hide HandledBy, TakeOn, Completing;
    TakeKeepsMode(s.down, id);
    PoppedHandled(s.users[id], id, h, Completing(s.down, id));
    UnchangedUser(h);
  }

  lemma ReceiveOne(s: Session, id: uint32, h: Handler)
    requires SessionInv(s) && Calm(s) && id in s.users && s.users[id].held == None
    requires Enabled(s.down, Take(id))
    ensures Ahead(s, Play(s, [Receive(id)]), h) && TookDown(s, Play(s, [Receive(id)]), id)
  {
    hide LinksInv, UsersInv, Good, Play, TakeOn, AllClean, SameAsked, Perform, OthersKept;
    NotStuck(s, id);
    PlayOne(s, Receive(id));
    ActKeeps(s, Receive(id));
    ReceiveUsers(s, id, h);
    TakeGood(s.down, id);
    NotStuck(Play(s, [Receive(id)]), id);
  }

  lemma TakeKeepsMode(l: Link, id: uint32)
    requires Enabled(l, Take(id))
    ensures TakeOn(l, id).mode == l.mode && TakeOn(l, id).chans.Keys == l.chans.Keys
  {
  }

  /** The client loop of the channel has nothing left to do. */
  predicate Done(s: Session, id: uint32) {
    id in s.users && id in s.down.chans && s.down.chans[id].queue == [] && s.users[id].held == None
  }

  /** Everything that has arrived on one channel is handed over. */
  lemma {:induction false} ReceiveOut(s: Session, id: uint32, h: Handler) returns (acts: seq<Act>)
    requires SessionInv(s) && Calm(s) && id in s.users && id in s.down.chans && NothingToRead(s.down)
    ensures
      var s' := Play(s, acts);
      && Ahead(s, s', h) && s'.up == s.up && OnlyAt(s.down, s'.down, id) && NothingToRead(s'.down)
      && Done(s', id) && OthersKept(s, s', id)
    decreases |s.down.chans[id].queue|, if s.users[id].held.Some? then 1 else 0
  {
    hide Calm, SessionInv, Play, TakeOn, NothingToRead, OnlyAt;
    acts := [];
    RunNothing(s.down);
    if s.users[id].held.Some? {
      FinishOne(s, id, h);
      acts := ReceiveOut(Play(s, [Finish(id)]), id, h);
      OthersKeptTwice(s, Play(s, [Finish(id)]), Play(Play(s, [Finish(id)]), acts), id);
      PlayAppend(s, [Finish(id)], acts);
      acts := [Finish(id)] + acts;
      AheadTwice(s, Play(s, [Finish(id)]), Play(s, acts), h);
    } else if s.down.chans[id].queue != [] {
      ReceiveOne(s, id, h);
      OneTaken(s.down, id);
      OnlyAtHasIt(s.down, TakeOn(s.down, id), id);
      var s1 := Play(s, [Receive(id)]);
      acts := ReceiveOut(s1, id, h);
      OthersKeptTwice(s, s1, Play(s1, acts), id);
      PlayAppend(s, [Receive(id)], acts);
      acts := [Receive(id)] + acts;
      AheadTwice(s, s1, Play(s, acts), h);
      OnlyAtOn(s.down, s1.down, Play(s, acts).down, id);
    } else {
      PlayNothing(s, h);
    }
  }

  lemma {:induction false} ReceiveAll(s: Session, ids: set<uint32>, h: Handler) returns (acts: seq<Act>)
    requires SessionInv(s) && Calm(s) && ids <= s.users.Keys && NothingToRead(s.down)
    ensures
      var s' := Play(s, acts);
      && Ahead(s, s', h) && s'.up == s.up && NothingToRead(s'.down)
      && forall c :: c in ids || Done(s, c) ==> Done(s', c)
    decreases |ids|
  {
    hide Calm, SessionInv, Play, NothingToRead, SameAsked;
    acts := [];
    if ids == {} {
      PlayNothing(s, h);
    } else {
      var id :| id in ids;
      UsersHaveChans(s, id);
      var a := ReceiveOut(s, id, h);
      var s1 := Play(s, a);
      var b := ReceiveAll(s1, ids - {id}, h);
      acts := a + b;
      PlayAppend(s, a, b);
      AheadTwice(s, s1, Play(s, acts), h);
    }
  }

  // ----- every request is answered -----

  lemma AnsweredAll(u: User, up: Chan, down: Chan)
    requires UserInv(u, up, down, false) && Clean(u) && down.lost == 0 && !down.sendShut && u.held == None
    requires up.merge.delivered == up.sent && down.merge.delivered == down.sent
    ensures |u.answered| == |u.asked|
  {
  }

  predicate AllAnswered(s: Session) {
    forall id :: id in s.users ==> |s.users[id].answered| == |s.users[id].asked|
  }

  lemma DrainedIsAnswered(s: Session)
    requires SessionInv(s) && Calm(s) && NothingToRead(s.up) && NothingToRead(s.down)
    requires forall c :: c in s.up.chans ==> s.up.chans[c].queue == []
    requires forall c :: c in s.users ==> Done(s, c)
    ensures AllAnswered(s)
  {
    hide Inv, UserInv;
    DrainedEverywhere(s.up);
    assert forall c :: c in s.down.chans ==> Done(s, c);
    DrainedEverywhere(s.down);
    forall id | id in s.users ensures |s.users[id].answered| == |s.users[id].asked| {
      UserOf(s, id);
      AnsweredAll(s.users[id], s.up.chans[id], s.down.chans[id]);
    }
  }

  /** Every request has its answer in its own place, and those that had not been served the one
      the handler gives. */
  predicate AnsweredBy(h: Handler, id: uint32, u: User, u': User) {
    && |u'.answered| == |u'.asked|
    && forall i :: 0 <= i < |u'.asked| ==>
         && u'.answered[i].0 == u'.asked[i]
         && (u'.gone + i >= |u.served| ==> u'.answered[i].1 == h(id, u'.gone + i, u'.asked[i].msg))
  }

  /** Every caller that waits for a request asked on the channel has its answer in the end. */
  predicate CallersServed(before: seq<Act>, id: uint32, u: User, u': User) {
    && |u.asked| <= |u'.answered|
    && forall i :: 0 <= i < |u.asked| && u.asked[i] in u.waiting && PushedOnce(before, id, u.asked[i]) ==>
         u.asked[i] in u'.results && u'.results[u.asked[i]] == u'.answered[i].1
  }

  /** From every reachable session that is open and has lost nothing, whose messages fit, some
      run answers every request asked on every channel, with whatever reply the handlers give, and
      hands its answer to every caller that waits. */
  lemma EveryRequestCanBeAnswered(mode: SendMode, before: seq<Act>, h: Handler) returns (acts: seq<Act>)
    requires Calm(Played(mode, before)) && Fitting(h, mode)
    ensures before <= acts
    ensures
      var s, s' := Played(mode, before), Played(mode, acts);
      && Calm(s') && SameAsked(s, s', h)
      && (forall id :: id in s.users ==> AnsweredBy(h, id, s.users[id], s'.users[id]))
      && (forall id :: id in s.users ==> CallersServed(before, id, s.users[id], s'.users[id]))
  {
    hide Calm, SameAsked, Played, AllAnswered, AnsweredBy, CallersServed;
    acts := AnswerAll(mode, before, h);
    var s, s' := Played(mode, before), Played(mode, acts);
    SameChannels(s, s', h);
    forall id | id in s.users
      ensures AnsweredBy(h, id, s.users[id], s'.users[id]) && CallersServed(before, id, s.users[id], s'.users[id])
    {
      AnswersAreOwn(mode, acts, id, s, h);
      WaitersAreServed(mode, before, acts, id, h);
    }
  }

  lemma WaitersAreServed(mode: SendMode, before: seq<Act>, acts: seq<Act>, id: uint32, h: Handler)
    requires Calm(Played(mode, before)) && id in Played(mode, before).users
    requires AllAnswered(Played(mode, acts)) && SameAsked(Played(mode, before), Played(mode, acts), h)
    requires id in Played(mode, acts).users
    requires AnsweredBy(h, id, Played(mode, before).users[id], Played(mode, acts).users[id])
    ensures CallersServed(before, id, Played(mode, before).users[id], Played(mode, acts).users[id])
  {
    hide Played, Calm, AllAnswered, SameAsked, HandledBy, PushedOnce, LosslessOn, Clean, AnsweredBy;
    var s, s' := Played(mode, before), Played(mode, acts);
    HandledOn(s, s', id, h);
    ResultsAreAnswers(mode, acts, id);
    MatchedOn(mode, before, id);
    var u, u' := s.users[id], s'.users[id];
    HandledAnswers(h, id, u, u');
    forall i: nat | i < |u.asked| && u.asked[i] in u.waiting && PushedOnce(before, id, u.asked[i])
      ensures u.asked[i] in u'.results && u'.results[u.asked[i]] == u'.answered[i].1
    {
      CallersKept(mode, before, id, u.asked[i]);
      WaiterServed(u, u', s.down.chans[id], i, PushTail(id, u.asked[i]) in before, u.asked[i] in Left(mode, before, id));
    }
  }

  lemma HandledAnswers(h: Handler, id: uint32, u: User, u': User)
    requires HandledBy(h, id, u, u') && AnsweredBy(h, id, u, u')
    ensures u'.asked == u.asked && |u'.answered| == |u'.asked| && HandedOver(u, u')
    ensures forall i :: 0 <= i < |u'.asked| ==> u'.answered[i].0 == u'.asked[i]
  {
    hide HandedOver;
  }

  lemma MatchedOn(mode: SendMode, acts: seq<Act>, id: uint32)
    requires Calm(Played(mode, acts)) && id in Played(mode, acts).users
    ensures id in Played(mode, acts).down.chans && Matched(Played(mode, acts).users[id], Played(mode, acts).down.chans[id])
  {
    hide LinksInv, Matched, Asked, Served, Handed, Resulted, Inv, AllFit, AllOpen;
    PlayKeeps(mode, acts);
    CalmIsLossless(Played(mode, acts), id);
    UsersHaveChans(Played(mode, acts), id);
  }

  /** Nothing asked stands twice in the line. */
  lemma AskedIsLine(u: User, down: Chan)
    requires Matched(u, down)
    ensures Line(u) == u.asked + AsList(u.pushing)
  {
    assert Askers(u.answered) == u.asked[..|u.answered|];
    assert u.asked == u.asked[..|u.answered|] + u.asked[|u.answered|..];
  }

  lemma WaiterServed(u: User, u': User, down: Chan, i: nat, pushed: bool, left: bool)
    requires Matched(u, down) && i < |u.asked| && u.asked[i] in u.waiting && CallerInv(u, u.asked[i], pushed, left)
    requires u'.asked == u.asked && |u'.answered| == |u'.asked| && HandedOver(u, u') && Resulted(u')
    requires forall k :: 0 <= k < |u'.asked| ==> u'.answered[k].0 == u'.asked[k]
    ensures u.asked[i] in u'.results && u'.results[u.asked[i]] == u'.answered[i].1
  {
    var r := u.asked[i];
    AskedIsLine(u, down);
    assert Line(u)[i] == r;
    if i < |u.answered| {
      assert false;
    }
    assert u'.answered[i].0 !in u'.waiting;
    var j :| 0 <= j < |u'.answered| && u'.answered[j] == (r, u'.results[r]);
    assert Line(u)[j] == r;
  }

  lemma SameChannels(s: Session, s': Session, h: Handler)
    requires SameAsked(s, s', h)
    ensures s'.users.Keys == s.users.Keys
  {
  }

  lemma CalmIsLossless(s: Session, id: uint32)
    requires SessionInv(s) && Calm(s) && id in s.users
    ensures LosslessOn(s, id) && Clean(s.users[id])
  {
    hide Inv, UserInv;
    UsersHaveChans(s, id);
  }

  lemma AnswersAreOwn(mode: SendMode, acts: seq<Act>, id: uint32, s: Session, h: Handler)
    requires Calm(Played(mode, acts)) && AllAnswered(Played(mode, acts)) && SameAsked(s, Played(mode, acts), h) && id in s.users
    ensures id in Played(mode, acts).users && AnsweredBy(h, id, s.users[id], Played(mode, acts).users[id])
  {
    hide Play, Calm, Clean, LinksInv, UsersInv, AllAnswered, SameAsked, HandledBy, LosslessOn;
    PlayKeeps(mode, acts);
    var s' := Played(mode, acts);
    HandledOn(s, s', id, h);
    CalmIsLossless(s', id);
    var u, u' := s.users[id], s'.users[id];
    forall i: nat | i < |u'.asked|
      ensures i < |u'.answered| && u'.answered[i].0 == u'.asked[i]
      ensures u'.gone + i >= |u.served| ==> u'.answered[i].1 == h(id, u'.gone + i, u'.asked[i].msg)
    {
      OwnAnswer(mode, acts, id, i, u, h);
    }
  }

  lemma HandledOn(s: Session, s': Session, id: uint32, h: Handler)
    requires AllAnswered(s') && SameAsked(s, s', h) && id in s.users
    ensures id in s'.users && HandledBy(h, id, s.users[id], s'.users[id])
    ensures |s'.users[id].answered| == |s'.users[id].asked|
  {
    hide HandledBy;
  }

  lemma OwnAnswer(mode: SendMode, acts: seq<Act>, id: uint32, i: nat, u: User, h: Handler)
    requires LosslessOn(Played(mode, acts), id) && Clean(Played(mode, acts).users[id])
    requires i < |Played(mode, acts).users[id].answered| && HandledBy(h, id, u, Played(mode, acts).users[id])
    ensures
      var u' := Played(mode, acts).users[id];
      && i < |u'.asked| && u'.answered[i].0 == u'.asked[i]
      && (u'.gone + i >= |u.served| ==> u'.answered[i].1 == h(id, u'.gone + i, u'.asked[i].msg))
  {
    hide Played, Clean;
    EachAnswerIsItsOwn(mode, acts, id, i);
  }

  lemma AnswerAll(mode: SendMode, before: seq<Act>, h: Handler) returns (acts: seq<Act>)
    requires Calm(Played(mode, before)) && Fitting(h, mode)
    ensures before <= acts
    ensures
      var s, s' := Played(mode, before), Played(mode, acts);
      Calm(s') && SameAsked(s, s', h) && AllAnswered(s')
  {
    hide Calm, LinksInv, UsersInv, Play, Fitting, NothingToRead, CanAct, SameAsked;
    var s := Played(mode, before);
    PlayKeeps(mode, before);
    ModeKept(mode, before);
    var a := FlushUp(s);
    var s1 := Play(s, a);
    SameUsersSame(s, s1, h);
    var b := ServeAll(s1, s1.users.Keys, h);
    var s2 := Play(s1, b);
    SameAskedTwice(s, s1, s2, h);
    SameChannels(s1, s2, h);
    var c := FlushDown(s2);
    var s3 := Play(s2, c);
    SameUsersSame(s2, s3, h);
    SameAskedTwice(s, s2, s3, h);
    var d := ReceiveAll(s3, s3.users.Keys, h);
    var s4 := Play(s3, d);
    SameAskedTwice(s, s3, s4, h);
    SameChannels(s3, s4, h);
    acts := before + (a + (b + (c + d)));
    PlayAppend(FreshSession(mode), before, a + (b + (c + d)));
    PlayAppend(s, a, b + (c + d));
    PlayAppend(s1, b, c + d);
    PlayAppend(s2, c, d);
    UpChansAreUsers(s1);
    DrainedIsAnswered(s4);
  }

  lemma UpChansAreUsers(s: Session)
    requires SessionInv(s)
    ensures s.up.chans.Keys == s.users.Keys
  {
    hide LinksInv, UserInv;
  }

  lemma ActKeepsMode(s: Session, a: Act)
    requires CanAct(s, a)
    ensures Perform(s, a).down.mode == s.down.mode
  {
    if a.Down? && a.step.Read? {
      DeliverFacts(s.down.role, StatusMap(s.down), s.down.arrived);
    }
  }

  lemma {:induction false} ModeKept(mode: SendMode, acts: seq<Act>)
    ensures Played(mode, acts).down.mode == mode
    decreases |acts|
  {
    if acts != [] {
      hide CanAct, Perform;
      ModeKept(mode, acts[..|acts| - 1]);
      var s := Played(mode, acts[..|acts| - 1]);
      if CanAct(s, acts[|acts| - 1]) {
        ActKeepsMode(s, acts[|acts| - 1]);
      }
    }
  }
}
