/** The two channel id tables and the channels that have the ids, together: every id that the
    client's table gives makes a channel of the session, and the server knows it (client.go:161-190,
    protocol.go:643-716, 752-756). */
module Joint {
  import opened Packets
  import opened Chunks
  import opened Reading
  import opened Links
  import opened Sessions
  import opened SessionProofs
  import opened ChannelIds

  datatype State = State(ids: Ends, session: Session)

  function Start(mode: SendMode): State {
    State(NEW_ENDS, FreshSession(mode))
  }

  /** An event of the two tables, with what it does to the channel, or an act on the channels that
      leaves the tables alone. */
  datatype Move = Ids(e: Event) | Traffic(a: Act)

  /** Acts that neither open nor close a channel: what is left of closing one is to set its error. */
  predicate LeavesTables(a: Act) {
    && !a.NewChannel? && !a.CloseAt? && !a.ReopenAt? && !a.ReuseAt?
    && (a.Serve? ==> !a.closes) && (a.InvalidateAt? ==> a.role.Client?)
  }

  /** Inserting an id opens its channel, for the first time or again. */
  function InsertAct(s: Session, id: uint32): Act {
    if id in s.users then ReuseAt(id) else NewChannel(id)
  }

  predicate CanMove(s: State, m: Move) {
    match m
    case Ids(e) =>
      && CanHappen(s.ids, e) && !e.ServerDeletes?
      && (e.ClientInserts? ==> CanAct(s.session, InsertAct(s.session, e.id)))
      && (e.ClientCloses? && e.id in s.session.users ==> CanAct(s.session, CloseAt(e.id, Client)))
    case Traffic(a) => LeavesTables(a) && CanAct(s.session, a)
  }

  function Moved(s: State, m: Move): State
    requires CanMove(s, m)
  {
    match m
    case Ids(e) =>
      State(Happen(s.ids, e),
            if e.ClientInserts? then Perform(s.session, InsertAct(s.session, e.id))
            else if e.ClientCloses? && e.id in s.session.users then Perform(s.session, CloseAt(e.id, Client))
            else s.session)
    case Traffic(a) => s.(session := Perform(s.session, a))
  }

  /** A run from the start; a move that is not possible does nothing. */
  function MoveAll(mode: SendMode, ms: seq<Move>): State
    decreases |ms|
  {
    if ms == [] then Start(mode)
    else
      var s := MoveAll(mode, ms[..|ms| - 1]);
      if CanMove(s, ms[|ms| - 1]) then Moved(s, ms[|ms| - 1]) else s
  }

  predicate HasChans(s: Session, id: uint32) {
    id in s.users && id in s.up.chans && id in s.down.chans
  }

  /** The server knows every channel, and the client those whose id is live. */
  predicate Matches(s: State) {
    && (forall id :: id in s.session.users ==>
         && HasChans(s.session, id)
         && id in s.ids.server.live && !s.session.up.chans[id].readShut
         && (id in s.ids.client.live <==> !s.session.down.chans[id].readShut))
    && (forall id :: id in s.ids.client.live && id != 0 ==> id in s.session.users)
  }

  ghost predicate JointInv(s: State) {
    EndsInv(s.ids) && LinksInv(s.session) && UsersInv(s.session) && Matches(s)
  }

  /** A reserved id can be inserted: its channel is new to the session, or closed at the client, and
      then it can be opened as soon as its last send has ended, with the connection still open. */
  lemma ReservedCanOpen(s: State, id: uint32)
    requires JointInv(s) && id in s.ids.client.reserved
    ensures id !in s.session.users ==> CanAct(s.session, NewChannel(id))
    ensures id in s.session.users ==>
      && HasChans(s.session, id) && s.session.down.chans[id].readShut
      && (CanAct(s.session, ReuseAt(id))
          <==> s.session.up.chans[id].sendShut && s.session.up.chans[id].outbox == [] && !s.session.down.recvClosed)
  {
    hide LinksInv, UserInv;
  }

  // ----- every run keeps the two in step -----

  /** The same channels, closed to the reading ends as before. */
  predicate SameShut(s: Session, s': Session) {
    && s'.users.Keys == s.users.Keys
    && forall id :: HasChans(s, id) ==>
         && HasChans(s', id)
         && s'.up.chans[id].readShut == s.up.chans[id].readShut
         && s'.down.chans[id].readShut == s.down.chans[id].readShut
  }

  lemma StepKeepsShut(l: Link, step: Step)
    requires Moves(step) && Enabled(l, step)
    ensures
      var l' := Apply(l, step);
      forall id :: id in l.chans ==> id in l'.chans && l'.chans[id].readShut == l.chans[id].readShut
  {
    hide Between, Complete, FrameBytes, On, Received;
    if step.Read? {
      DeliverFacts(l.role, StatusMap(l), l.arrived);
    }
  }

  lemma ServeKeepsShut(s: Session, id: uint32, result: HandlerResult, path: seq<byte>)
    requires CanAct(s, Serve(id, result, path, false))
    ensures SameShut(s, ServeOn(s, id, result, path, false))
  {
    hide ReplyTo, Completing;
  }

  lemma TrafficKeepsShut(s: Session, a: Act)
    requires LeavesTables(a) && CanAct(s, a)
    ensures SameShut(s, Perform(s, a))
  {
    hide Apply, Enabled;
    match a {
      case Up(step) => StepKeepsShut(s.up, step);
      case Down(step) => StepKeepsShut(s.down, step);
      case Serve(id, result, path, closes) => ServeKeepsShut(s, id, result, path);
      case _ =>
    }
  }

  lemma TrafficKeeps(s: State, a: Act)
    requires JointInv(s) && LeavesTables(a) && CanAct(s.session, a)
    ensures JointInv(s.(session := Perform(s.session, a)))
  {
    hide EndsInv, LinksInv, UsersInv, CanAct, Perform, LeavesTables;
    ActKeeps(s.session, a);
    TrafficKeepsShut(s.session, a);
    SameShutMatches(s, Perform(s.session, a));
  }

  lemma SameShutMatches(s: State, session: Session)
    requires Matches(s) && SameShut(s.session, session)
    ensures Matches(s.(session := session))
  {
  }

  /** An event other than an insertion or a close leaves the client's live ids alone. */
  lemma OtherEventLive(s: Ends, e: Event)
    requires CanHappen(s, e) && !e.ServerDeletes? && !e.ClientInserts? && !e.ClientCloses?
    ensures Happen(s, e).client.live == s.client.live && s.server.live <= Happen(s, e).server.live
  {
    hide Partition;
  }

  lemma SameLiveMatches(s: State, ids: Ends)
    requires Matches(s) && ids.client.live == s.ids.client.live && s.ids.server.live <= ids.server.live
    ensures Matches(s.(ids := ids))
  {
    hide LinksInv, UsersInv;
  }

  lemma OtherEventKeeps(s: State, e: Event)
    requires JointInv(s) && CanHappen(s.ids, e)
    requires !e.ServerDeletes? && !e.ClientInserts? && !e.ClientCloses?
    ensures JointInv(s.(ids := Happen(s.ids, e)))
  {
    hide EndsInv, LinksInv, UsersInv, CanHappen, Happen, Matches;
    HappenKeeps(s.ids, e);
    OtherEventLive(s.ids, e);
    SameLiveMatches(s, Happen(s.ids, e));
  }

  /** After the act only channel id may be open or closed otherwise. */
  predicate OpensOnly(s: Session, s': Session, id: uint32, open: bool) {
    && s'.users.Keys == s.users.Keys + {id} && HasChans(s', id)
    && !s'.up.chans[id].readShut && s'.down.chans[id].readShut == !open
    && forall c :: c != id && HasChans(s, c) ==>
         && HasChans(s', c)
         && s'.up.chans[c].readShut == s.up.chans[c].readShut && s'.down.chans[c].readShut == s.down.chans[c].readShut
  }

  lemma NewOpensOnly(s: Session, id: uint32)
    requires CanAct(s, NewChannel(id))
    ensures OpensOnly(s, Perform(s, NewChannel(id)), id, true)
  {
  }

  lemma ReuseOpensOnly(s: Session, id: uint32)
    requires CanAct(s, ReuseAt(id)) && HasChans(s, id) && !s.up.chans[id].readShut
    ensures OpensOnly(s, Perform(s, ReuseAt(id)), id, true)
  {
    hide Between, Complete, FrameBytes, On, Received;
  }

  lemma CloseOpensOnly(s: Session, id: uint32)
    requires CanAct(s, CloseAt(id, Client)) && !s.up.chans[id].readShut
    ensures OpensOnly(s, Perform(s, CloseAt(id, Client)), id, false)
  {
  }

  lemma InsertMatches(s: State, session: Session, id: uint32)
    requires Matches(s) && OpensOnly(s.session, session, id, true) && id in s.ids.server.live && id in s.ids.client.reserved
    ensures Matches(State(Happen(s.ids, ClientInserts(id)), session))
  {
  }

  lemma CloseMatches(s: State, session: Session, id: uint32)
    requires Matches(s) && OpensOnly(s.session, session, id, false) && id in s.session.users && id in s.ids.client.objects
    ensures Matches(State(Happen(s.ids, ClientCloses(id)), session))
  {
  }

  /** The server has created every id the client has reserved. */
  lemma ReservedIsLive(s: Ends, id: uint32)
    requires EndsInv(s) && id in s.client.reserved
    ensures id in s.server.live
  {
    ClientBelowServer(s);
  }

  lemma InsertKeepsJoint(s: State, id: uint32)
    requires JointInv(s) && CanMove(s, Ids(ClientInserts(id)))
    ensures JointInv(Moved(s, Ids(ClientInserts(id))))
  {
    hide EndsInv, LinksInv, UsersInv, CanAct, Perform, OpensOnly, Happen;
    ReservedIsLive(s.ids, id);
    HappenKeeps(s.ids, ClientInserts(id));
    ActKeeps(s.session, InsertAct(s.session, id));
    if id in s.session.users {
      ReuseOpensOnly(s.session, id);
    } else {
      NewOpensOnly(s.session, id);
    }
    InsertMatches(s, Perform(s.session, InsertAct(s.session, id)), id);
  }

  lemma CloseKeepsJoint(s: State, id: uint32)
    requires JointInv(s) && CanMove(s, Ids(ClientCloses(id)))
    ensures JointInv(Moved(s, Ids(ClientCloses(id))))
  {
    hide EndsInv, LinksInv, UsersInv, CanAct, Perform, OpensOnly, Happen;
    HappenKeeps(s.ids, ClientCloses(id));
    if id in s.session.users {
      ActKeeps(s.session, CloseAt(id, Client));
      CloseOpensOnly(s.session, id);
      CloseMatches(s, Perform(s.session, CloseAt(id, Client)), id);
    } else {
      SystemCloses(s, id);
    }
  }

  lemma SystemCloses(s: State, id: uint32)
    requires Matches(s) && id !in s.session.users && id in s.ids.client.objects
    ensures Matches(s.(ids := Happen(s.ids, ClientCloses(id))))
  {
  }

  lemma MoveKeeps(s: State, m: Move)
    requires JointInv(s) && CanMove(s, m)
    ensures JointInv(Moved(s, m))
  {
    hide JointInv, CanAct, Perform, Happen;
    match m
    case Traffic(a) => TrafficKeeps(s, a);
    case Ids(e) =>
      if e.ClientInserts? {
        InsertKeepsJoint(s, e.id);
      } else if e.ClientCloses? {
        CloseKeepsJoint(s, e.id);
      } else {
        OtherEventKeeps(s, e);
      }
  }

  lemma StartKeeps(mode: SendMode)
    ensures JointInv(Start(mode))
  {
    PlayKeeps(mode, []);
    EndsKeepInv([]);
  }

  /** In every run in which the server deletes no channel the two tables and the channels of the
      session stay in step: the server knows every channel of the session and the client those whose
      id is live in its table. */
  lemma {:induction false} TablesMatch(mode: SendMode, ms: seq<Move>)
    ensures JointInv(MoveAll(mode, ms))
    decreases |ms|
  {
    hide JointInv, CanMove, Moved;
    if ms == [] {
      StartKeeps(mode);
    } else {
      TablesMatch(mode, ms[..|ms| - 1]);
      var s := MoveAll(mode, ms[..|ms| - 1]);
      if CanMove(s, ms[|ms| - 1]) {
        MoveKeeps(s, ms[|ms| - 1]);
      }
    }
  }

  /** So whatever id the client's table gives, its channel can be opened: at once, if it is new, and
      else as soon as the closed one's last send has ended, as long as the connection is open. */
  lemma AllocatedCanOpen(mode: SendMode, ms: seq<Move>, id: uint32)
    requires id in MoveAll(mode, ms).ids.client.reserved
    ensures
      var s := MoveAll(mode, ms).session;
      && (id in s.users ==> HasChans(s, id))
      && (CanMove(MoveAll(mode, ms), Ids(ClientInserts(id)))
          <==> id in s.users ==> s.up.chans[id].sendShut && s.up.chans[id].outbox == [] && !s.down.recvClosed)
  {
    hide JointInv, MoveAll, CanAct;
    TablesMatch(mode, ms);
    ReservedCanOpen(MoveAll(mode, ms), id);
  }

  lemma MoveOn(mode: SendMode, ms: seq<Move>, m: Move)
    requires CanMove(MoveAll(mode, ms), m)
    ensures MoveAll(mode, ms + [m]) == Moved(MoveAll(mode, ms), m)
  {
    hide CanMove, Moved;
    assert (ms + [m])[..|ms|] == ms;
  }

  /** The server creates channel 1, and the caller that has asked for it takes an id. */
  lemma FirstReserved(mode: SendMode) returns (ms: seq<Move>)
    ensures MoveAll(mode, ms).session == FreshSession(mode)
    ensures var ids := MoveAll(mode, ms).ids; ids.client.reserved == multiset{1} && 1 in ids.server.live
  {
    hide MoveAll, FreshSession;
    StartsThere(mode);
    ms := [];
    MoveOn(mode, ms, Ids(ServerCreates(0)));
    ms := ms + [Ids(ServerCreates(0))];
    MoveOn(mode, ms, Ids(CallerReceives(1)));
    ms := ms + [Ids(CallerReceives(1))];
    MoveOn(mode, ms, Ids(ClientReserves(0, 1)));
    ms := ms + [Ids(ClientReserves(0, 1))];
  }

  /** The first channel of a connection, from the request for it to the channel at both ends. */
  lemma FirstChannel(mode: SendMode) returns (ms: seq<Move>)
    ensures
      var s := MoveAll(mode, ms);
      && 1 in s.session.users && 1 in s.ids.client.live && 1 in s.ids.server.live
      && HasChans(s.session, 1) && !s.session.up.chans[1].readShut && !s.session.down.chans[1].readShut
  {
    hide MoveAll;
    ms := FirstReserved(mode);
    MoveOn(mode, ms, Ids(ClientInserts(1)));
    ms := ms + [Ids(ClientInserts(1))];
  }

  lemma StartsThere(mode: SendMode)
    ensures MoveAll(mode, []) == Start(mode)
  {
  }

  /** And the server's read loop never refuses a packet of the client, closed channels and reused
      ids included, unless a request push has timed out. */
  lemma ServerNeverRefuses(mode: SendMode, ms: seq<Move>)
    ensures
      var s := MoveAll(mode, ms).session;
      s.up.recvClosed ==> exists id :: id in s.up.chans && s.up.chans[id].lost > 0
  {
    hide MoveAll, UserInv, ChanInv;
    TablesMatch(mode, ms);
    var s := MoveAll(mode, ms).session;
    if s.up.recvClosed {
      var id := s.up.onWire[0].channelId;
      assert id in s.users;
    }
  }
}
