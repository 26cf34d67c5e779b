/** Channel ids of a connection (protocol.go:643-716): the allocator with its free list,
    with the taking of an id and the insertion of its channel as separate critical
    sections, and the agreement between the two ends (client.go:161-190, handle.go:173-176). */
module ChannelIds {
  import opened Packets

  /** live are the keys of Connection.Channels, reserved the ids taken but not inserted
      yet, objects the ids of the channel objects that are not closed, with repetitions. */
  datatype Table = Table(
    live: set<uint32>,
    reserved: multiset<uint32>,
    free: set<uint32>,
    max: uint32,
    count: int,
    objects: multiset<uint32>)

  /** A new connection holds the system channel 0. */
  const NEW_TABLE := Table({0}, multiset{}, {}, 0, 1, multiset{0})

  predicate CanReserve(t: Table, pick: uint32) {
    t.free != {} ==> pick in t.free
  }

  /** The id makeNewChannelId returns; pick is the one the map iteration comes up with. */
  function IdFor(t: Table, pick: uint32): uint32 {
    if t.free != {} then pick
    else if t.max < MAX_UINT32 then t.max + 1
    else 0
  }

  function Reserved(t: Table, pick: uint32): Table {
    var id := IdFor(t, pick);
    var t' := t.(reserved := t.reserved + multiset{id});
    if t.free != {} then t'.(free := t.free - {pick})
    else if t.max < MAX_UINT32 then t'.(max := id)
    else t'
  }

  function Inserted(t: Table, id: uint32): Table {
    t.(live := t.live + {id}, reserved := t.reserved - multiset{id}, count := t.count + 1,
       objects := t.objects + multiset{id})
  }

  /** Channel.Close of a channel with this id. */
  function Removed(t: Table, id: uint32): Table {
    t.(live := t.live - {id}, count := t.count - 1, free := t.free + {id}, objects := t.objects - multiset{id})
  }

  /** Live, reserved and free ids are disjoint and together are 0..max; the count is right
      and no two open channels share an id. */
  ghost predicate Partition(t: Table) {
    && (forall id :: id in t.reserved ==> t.reserved[id] == 1)
    && (forall id: uint32 :: id in t.live ==> id !in t.reserved && id !in t.free && id <= t.max)
    && (forall id: uint32 :: id in t.reserved ==> id !in t.free && id <= t.max)
    && (forall id: uint32 :: id in t.free ==> id <= t.max)
    && (forall id: uint32 :: id <= t.max ==> id in t.live || id in t.reserved || id in t.free)
    && t.count == |t.live|
    && t.objects == multiset(t.live)
  }

  /** Taking an id keeps the partition exactly when ids are not exhausted: then 0 is
      handed out although it is in use. */
  lemma ReserveKeepsIff(t: Table, pick: uint32)
    requires Partition(t) && CanReserve(t, pick)
    ensures Partition(Reserved(t, pick)) <==> t.free != {} || t.max < MAX_UINT32
    ensures t.free != {} || t.max < MAX_UINT32 ==> IdFor(t, pick) !in t.live && IdFor(t, pick) !in t.reserved
  {
  }

  lemma InsertKeeps(t: Table, id: uint32)
    requires Partition(t) && id in t.reserved
    ensures Partition(Inserted(t, id))
  {
    var t' := Inserted(t, id);
    assert t'.reserved[id] == 0;
  }

  lemma RemoveKeeps(t: Table, id: uint32)
    requires Partition(t) && id in t.objects
    ensures Partition(Removed(t, id)) && id in t.live
  {
  }

  datatype Op = Reserve(pick: uint32) | Insert(id: uint32) | Remove(id: uint32)

  function Do(t: Table, op: Op): Table {
    match op
    case Reserve(pick) => if CanReserve(t, pick) then Reserved(t, pick) else t
    case Insert(id) => if id in t.reserved then Inserted(t, id) else t
    case Remove(id) => if id in t.objects then Removed(t, id) else t
  }

  function DoAll(ops: seq<Op>): Table {
    if ops == [] then NEW_TABLE else Do(DoAll(ops[..|ops| - 1]), ops[|ops| - 1])
  }

  predicate Exhausted(t: Table) {
    t.free == {} && t.max == MAX_UINT32
  }

  /** No id is taken while there is none left. */
  predicate NeverExhausted(ops: seq<Op>) {
    forall n :: 0 <= n < |ops| && ops[n].Reserve? ==> !Exhausted(DoAll(ops[..n]))
  }

  /** At every interleaving of allocations, insertions and closes that does not ask for an id
      when all of the 32-bit space is in use. */
  lemma {:induction false} IdsArePartitioned(ops: seq<Op>)
    requires NeverExhausted(ops)
    ensures Partition(DoAll(ops))
    decreases |ops|
  {
    hide Partition, CanReserve, Reserved;
    if ops == [] {
      NewTablePartitioned();
    } else {
      var k := |ops| - 1;
      var t, op := DoAll(ops[..k]), ops[k];
      assert forall n :: 0 <= n < k ==> ops[..k][..n] == ops[..n];
      IdsArePartitioned(ops[..k]);
      match op
      case Reserve(pick) => if CanReserve(t, pick) { ReserveKeepsIff(t, pick); }
      case Insert(id) => if id in t.reserved { InsertKeeps(t, id); }
      case Remove(id) => if id in t.objects { RemoveKeeps(t, id); }
    }
  }

  lemma NewTablePartitioned()
    ensures Partition(NEW_TABLE)
  {
  }

  /** The connection's fields as makeNewChannelId, newChannel and removeChannel update them.
      reserved and objects are for the specification only. */
  class ChannelTable {
    var channels: map<uint32, nat>
    var freeChannelId: set<uint32>
    var maxChannelId: uint32
    var channelCount: int
    ghost var reserved: multiset<uint32>
    ghost var objects: multiset<uint32>

    ghost function View(): Table
      reads this
    {
      Table(channels.Keys, reserved, freeChannelId, maxChannelId, channelCount, objects)
    }

    /** channel stands for the identity of the system channel. */
    constructor (channel: nat)
      ensures View() == NEW_TABLE && channels == map[0 := channel]
    {
      channels, freeChannelId, maxChannelId, channelCount := map[0 := channel], {}, 0, 1;
      reserved, objects := multiset{}, multiset{0};
    }

    method MakeNewChannelId() returns (id: uint32)
      modifies this
      ensures CanReserve(old(View()), id) && id == IdFor(old(View()), id)
      ensures View() == Reserved(old(View()), id) && channels == old(channels)
    {
      if freeChannelId != {} {
        id :| id in freeChannelId;
        freeChannelId := freeChannelId - {id};
      } else if maxChannelId < MAX_UINT32 {
        id := maxChannelId + 1;
        maxChannelId := maxChannelId + 1;
      } else {
        id := 0;
      }
      reserved := reserved + multiset{id};
    }

    /** The second critical section of newChannel. */
    method InsertChannel(id: uint32, channel: nat)
      modifies this
      ensures View() == Inserted(old(View()), id) && channels == old(channels)[id := channel]
    {
      ghost var live := channels.Keys;
      channels := channels[id := channel];
      assert channels.Keys == live + {id};
      channelCount := channelCount + 1;
      reserved, objects := reserved - multiset{id}, objects + multiset{id};
    }

    method RemoveChannel(id: uint32)
      modifies this
      ensures View() == Removed(old(View()), id) && channels == old(channels) - {id}
    {
      channels := channels - {id};
      channelCount := channelCount - 1;
      freeChannelId := freeChannelId + {id};
      objects := objects - multiset{id};
    }
  }

  // ----- the two ends of a connection -----

  /** replies are the ids in new-channel responses on their way; granted are the positive ids
      that callers have received and not yet answered by allocating one of their own. */
  datatype Ends = Ends(client: Table, server: Table, replies: multiset<uint32>, granted: multiset<uint32>)

  const NEW_ENDS := Ends(NEW_TABLE, NEW_TABLE, multiset{}, multiset{})

  /** The server creates channels one after the other, in the loop of channel 0, and closes
      one when a client asks it to delete it. The client's channels may close at any time, and
      a new-channel request may time out at the caller at any time. ClientReserves is the
      caller that was granted an id taking one from the client's own table. */
  datatype Event =
    | ServerCreates(pick: uint32)
    | ServerDeletes(id: uint32)
    | CallerTimesOut(id: uint32)
    | CallerReceives(id: uint32)
    | ClientReserves(pick: uint32, granted: uint32)
    | ClientInserts(id: uint32)
    | ClientCloses(id: uint32)

  predicate CanHappen(s: Ends, e: Event) {
    match e
    case ServerCreates(pick) => CanReserve(s.server, pick)
    case ServerDeletes(id) => id in s.server.objects
    case CallerTimesOut(id) => id in s.replies
    case CallerReceives(id) => id in s.replies
    case ClientReserves(pick, id) => id in s.granted && CanReserve(s.client, pick)
    case ClientInserts(id) => id in s.client.reserved
    case ClientCloses(id) => id in s.client.objects
  }

  function Happen(s: Ends, e: Event): Ends
    requires CanHappen(s, e)
  {
    match e
    case ServerCreates(pick) =>
      var id := IdFor(s.server, pick);
      s.(server := Inserted(Reserved(s.server, pick), id), replies := s.replies + multiset{id})
    case ServerDeletes(id) => s.(server := Removed(s.server, id))
    case CallerTimesOut(id) => s.(replies := s.replies - multiset{id})
    case CallerReceives(id) =>
      s.(replies := s.replies - multiset{id}, granted := if id > 0 then s.granted + multiset{id} else s.granted)
    case ClientReserves(pick, id) =>
      s.(client := Reserved(s.client, pick), granted := s.granted - multiset{id})
    case ClientInserts(id) => s.(client := Inserted(s.client, id))
    case ClientCloses(id) => s.(client := Removed(s.client, id))
  }

  function HappenAll(es: seq<Event>): Ends {
    if es == [] then NEW_ENDS
    else
      var s := HappenAll(es[..|es| - 1]);
      if CanHappen(s, es[|es| - 1]) then Happen(s, es[|es| - 1]) else s
  }

  predicate NoDeletes(es: seq<Event>) {
    forall i :: 0 <= i < |es| ==> !es[i].ServerDeletes?
  }

  /** Every id up to the server's maximum is live there; the client never gets further than
      the positive ids on their way or granted allow. */
  ghost predicate EndsInv(s: Ends) {
    && s.server.free == {}
    && (forall id: uint32 :: id in s.server.live <==> id <= s.server.max)
    && Partition(s.client)
    && s.client.max + |s.granted| + |s.replies| - s.replies[0] <= s.server.max
  }

  lemma CallerReceivesKeeps(s: Ends, id: uint32)
    requires EndsInv(s) && id in s.replies
    ensures EndsInv(Happen(s, CallerReceives(id)))
  {
  }

  lemma ClientReservesKeeps(s: Ends, pick: uint32, id: uint32)
    requires EndsInv(s) && id in s.granted && CanReserve(s.client, pick)
    ensures EndsInv(Happen(s, ClientReserves(pick, id)))
  {
    ZerosAtMostAll(s.replies);
    ReserveKeepsIff(s.client, pick);
  }

  lemma ServerCreatesKeeps(s: Ends, pick: uint32)
    requires EndsInv(s) && CanReserve(s.server, pick)
    ensures EndsInv(Happen(s, ServerCreates(pick)))
  {
    hide Partition;
  }

  lemma CallerTimesOutKeeps(s: Ends, id: uint32)
    requires EndsInv(s) && id in s.replies
    ensures EndsInv(Happen(s, CallerTimesOut(id)))
  {
    hide Partition;
  }

  lemma HappenKeeps(s: Ends, e: Event)
    requires EndsInv(s) && CanHappen(s, e) && !e.ServerDeletes?
    ensures EndsInv(Happen(s, e))
  {
    hide Partition;
    match e
    case ServerCreates(pick) => ServerCreatesKeeps(s, pick);
    case CallerTimesOut(id) => CallerTimesOutKeeps(s, id);
    case CallerReceives(id) => CallerReceivesKeeps(s, id);
    case ClientReserves(pick, id) => ClientReservesKeeps(s, pick, id);
    case ClientInserts(id) => InsertKeeps(s.client, id);
    case ClientCloses(id) => RemoveKeeps(s.client, id);
  }

  lemma ZerosAtMostAll(m: multiset<uint32>)
    ensures m[0] <= |m|
  {
  }

  lemma {:induction false} EndsKeepInv(es: seq<Event>)
    requires NoDeletes(es)
    ensures EndsInv(HappenAll(es))
    decreases |es|
  {
    if es == [] {
      assert Partition(NEW_TABLE);
    } else {
      var s := HappenAll(es[..|es| - 1]);
      EndsKeepInv(es[..|es| - 1]);
      if CanHappen(s, es[|es| - 1]) {
        HappenKeeps(s, es[|es| - 1]);
      }
    }
  }

  /** Although the client ignores the id in the response and allocates its own, every id
      live (or about to be) at the client is live at the server, in every run in which no
      channel is deleted at the server. */
  lemma ClientIdsLiveAtServer(es: seq<Event>)
    requires NoDeletes(es)
    ensures HappenAll(es).client.live <= HappenAll(es).server.live
    ensures forall id :: id in HappenAll(es).client.reserved ==> id in HappenAll(es).server.live
  {
    EndsKeepInv(es);
    ClientBelowServer(HappenAll(es));
  }

  lemma ClientBelowServer(s: Ends)
    requires EndsInv(s)
    ensures s.client.live <= s.server.live
    ensures forall id :: id in s.client.reserved ==> id in s.server.live
  {
  }

  lemma ServerKeepsLive(s: Ends, e: Event)
    requires CanHappen(s, e) && !e.ServerDeletes?
    ensures s.server.live <= Happen(s, e).server.live
  {
  }

  /** So is every id that has ever been live at the client, closed channels included: the server's
      read loop never meets an unknown channel id in this client's packets. */
  lemma {:induction false} EverLiveAtServer(es: seq<Event>, n: nat)
    requires NoDeletes(es) && n <= |es|
    ensures HappenAll(es[..n]).client.live <= HappenAll(es).server.live
    decreases |es|
  {
    hide Happen, CanHappen;
    if n == |es| {
      assert es[..n] == es;
      ClientIdsLiveAtServer(es);
    } else {
      var k := |es| - 1;
      EverLiveAtServer(es[..k], n);
      assert es[..k][..n] == es[..n];
      if CanHappen(HappenAll(es[..k]), es[k]) {
        ServerKeepsLive(HappenAll(es[..k]), es[k]);
      }
    }
  }

  lemma EventSnoc(es: seq<Event>, e: Event) returns (es': seq<Event>)
    requires CanHappen(HappenAll(es), e)
    ensures HappenAll(es') == Happen(HappenAll(es), e) && es' == es + [e]
  {
    es' := es + [e];
    assert es'[..|es|] == es;
  }

  /** Deleting a channel at the server is enough to lose that: the client still has it. */
  lemma DeletingLosesInclusion() returns (es: seq<Event>)
    ensures 1 in HappenAll(es).client.live && 1 !in HappenAll(es).server.live
  {
    es := EventSnoc([], ServerCreates(0));
    es := EventSnoc(es, CallerReceives(1));
    es := EventSnoc(es, ClientReserves(0, 1));
    es := EventSnoc(es, ClientInserts(1));
    es := EventSnoc(es, ServerDeletes(1));
  }

  // ----- does a caller get the id it was granted? -----

  predicate NoCloses(es: seq<Event>) {
    forall i :: 0 <= i < |es| ==> !es[i].ClientCloses?
  }

  /** How many callers have taken an id. */
  function Reservations(es: seq<Event>): nat
    decreases |es|
  {
    if es == [] then 0
    else
      var e := es[|es| - 1];
      var before := Reservations(es[..|es| - 1]);
      if e.ClientReserves? && CanHappen(HappenAll(es[..|es| - 1]), e) then before + 1 else before
  }

  lemma {:induction false} ReservedInOrder(es: seq<Event>)
    requires NoDeletes(es) && NoCloses(es)
    ensures HappenAll(es).client.free == {} && HappenAll(es).client.max == Reservations(es)
    decreases |es|
  {
    if es != [] {
      var front := es[..|es| - 1];
      ReservedInOrder(front);
      EndsKeepInv(front);
      ZerosAtMostAll(HappenAll(front).replies);
    }
  }

  lemma RoomForGranted(s: Ends)
    requires EndsInv(s) && s.granted != multiset{}
    ensures s.client.max < MAX_UINT32
  {
    ZerosAtMostAll(s.replies);
  }

  /** A caller is sure to get the id it was granted, whichever free id is picked, exactly when
      that is the only free one or, where none is free, the next new one. */
  lemma GrantedIdIsUsedIff(es: seq<Event>, id: uint32)
    requires NoDeletes(es) && id in HappenAll(es).granted
    ensures
      var c := HappenAll(es).client;
      (forall pick: uint32 :: CanReserve(c, pick) ==> IdFor(c, pick) == id)
      <==> if c.free == {} then id == c.max + 1 else c.free == {id}
  {
    EndsKeepInv(es);
    RoomForGranted(HappenAll(es));
    SureIff(HappenAll(es).client, id);
  }

  lemma SureIff(c: Table, id: uint32)
    requires c.max < MAX_UINT32
    ensures (forall pick: uint32 :: CanReserve(c, pick) ==> IdFor(c, pick) == id)
            <==> if c.free == {} then id == c.max + 1 else c.free == {id}
  {
    if c.free == {} {
      assert CanReserve(c, 0);
    } else if forall pick: uint32 :: CanReserve(c, pick) ==> IdFor(c, pick) == id {
      forall x | x in c.free ensures x == id {
        assert CanReserve(c, x);
      }
      var x :| x in c.free;
    }
  }

  /** Without closes that means: exactly when id - 1 callers, whichever they are, have taken
      an id before. */
  lemma GrantedInOrderIff(es: seq<Event>, pick: uint32, id: uint32)
    requires NoDeletes(es) && NoCloses(es) && CanHappen(HappenAll(es), ClientReserves(pick, id))
    ensures IdFor(HappenAll(es).client, pick) == id <==> Reservations(es) == id - 1
  {
    ReservedInOrder(es);
    EndsKeepInv(es);
    RoomForGranted(HappenAll(es));
  }

  /** The ids in responses on their way and with callers. */
  function Under(s: Ends): multiset<uint32> {
    s.replies + s.granted
  }

  /** Channels are created one at a time, nothing closes, and no caller times out. */
  predicate Serialised(es: seq<Event>) {
    && (forall i :: 0 <= i < |es| ==> !es[i].ClientCloses? && !es[i].ServerDeletes? && !es[i].CallerTimesOut?)
    && (forall n :: 0 <= n <= |es| ==> |Under(HappenAll(es[..n]))| <= 1)
  }

  /** The one id under way, if there is one, is the server's last and the client's next. */
  ghost predicate InStep(s: Ends) {
    && s.client.free == s.server.free == {}
    && (Under(s) == multiset{} ==> s.client.max == s.server.max)
    && (forall id :: id in Under(s) ==>
          if id == 0 then s.client.max == s.server.max else id == s.server.max == s.client.max + 1)
    && 0 !in s.granted
  }

  lemma CreateInStep(s: Ends, pick: uint32)
    requires InStep(s) && CanHappen(s, ServerCreates(pick)) && Under(s) == multiset{}
    ensures InStep(Happen(s, ServerCreates(pick)))
  {
  }

  lemma ReceiveInStep(s: Ends, id: uint32)
    requires InStep(s) && CanHappen(s, CallerReceives(id)) && Under(s) == multiset{id}
    ensures InStep(Happen(s, CallerReceives(id)))
  {
    OnlyReply(s.replies, s.granted, id);
  }

  lemma OnlyReply(replies: multiset<uint32>, granted: multiset<uint32>, id: uint32)
    requires replies + granted == multiset{id} && id in replies
    ensures replies == multiset{id} && granted == multiset{}
  {
    assert forall x :: (replies + granted)[x] == replies[x] + granted[x];
  }

  lemma ReserveInStep(s: Ends, pick: uint32, id: uint32)
    requires InStep(s) && CanHappen(s, ClientReserves(pick, id)) && Under(s) == multiset{id}
    ensures InStep(Happen(s, ClientReserves(pick, id)))
  {
    OnlyReply(s.granted, s.replies, id);
  }

  lemma InStepKept(s: Ends, e: Event)
    requires InStep(s) && CanHappen(s, e) && !e.ClientCloses? && !e.ServerDeletes? && !e.CallerTimesOut?
    requires |Under(s)| <= 1 && |Under(Happen(s, e))| <= 1
    ensures InStep(Happen(s, e))
  {
    match e {
      case ServerCreates(pick) =>
        NothingUnder(s, pick);
        CreateInStep(s, pick);
      case CallerReceives(id) =>
        OneOnly(Under(s), id);
        ReceiveInStep(s, id);
      case ClientReserves(pick, id) =>
        OneOnly(Under(s), id);
        ReserveInStep(s, pick, id);
      case ClientInserts(id) =>
    }
  }

  lemma NothingUnder(s: Ends, pick: uint32)
    requires CanHappen(s, ServerCreates(pick)) && |Under(Happen(s, ServerCreates(pick)))| <= 1
    ensures Under(s) == multiset{}
  {
  }

  lemma OneOnly(m: multiset<uint32>, id: uint32)
    requires |m| <= 1 && id in m
    ensures m == multiset{id}
  {
    assert |m - multiset{id}| == |m| - 1;
    assert m - multiset{id} == multiset{};
    assert m == (m - multiset{id}) + multiset{id};
  }

  lemma {:induction false} SerialisedInStep(es: seq<Event>)
    requires Serialised(es)
    ensures InStep(HappenAll(es))
    decreases |es|
  {
    if es != [] {
      var k := |es| - 1;
      assert forall n :: 0 <= n <= k ==> es[..k][..n] == es[..n];
      SerialisedInStep(es[..k]);
      assert es[..k + 1] == es;
      if CanHappen(HappenAll(es[..k]), es[k]) {
        InStepKept(HappenAll(es[..k]), es[k]);
      }
    }
  }

  /** Then every caller gets exactly the id the server named. */
  lemma SerialisedGetsGranted(es: seq<Event>, pick: uint32, id: uint32)
    requires Serialised(es) && CanHappen(HappenAll(es), ClientReserves(pick, id))
    ensures IdFor(HappenAll(es).client, pick) == id
  {
    SerialisedInStep(es);
    assert id in Under(HappenAll(es));
  }

  /** Closing a channel is enough to lose the agreement: the next caller is granted 2 and gets 1. */
  lemma ClosingLosesAgreement() returns (es: seq<Event>)
    ensures CanHappen(HappenAll(es), ClientReserves(1, 2)) && IdFor(HappenAll(es).client, 1) == 1
  {
    es := EventSnoc([], ServerCreates(0));
    es := EventSnoc(es, CallerReceives(1));
    es := EventSnoc(es, ClientReserves(0, 1));
    es := EventSnoc(es, ClientInserts(1));
    es := EventSnoc(es, ClientCloses(1));
    es := EventSnoc(es, ServerCreates(0));
    es := EventSnoc(es, CallerReceives(2));
  }

  /** The tables of a server that has created one and two channels. */
  const ONE_CREATED := Table({0, 1}, multiset{}, {}, 1, 2, multiset{0, 1})
  const TWO_CREATED := Table({0, 1, 2}, multiset{}, {}, 2, 3, multiset{0, 1, 2})

  lemma CreateFirst()
    ensures CanHappen(NEW_ENDS, ServerCreates(0))
    ensures Happen(NEW_ENDS, ServerCreates(0)) == Ends(NEW_TABLE, ONE_CREATED, multiset{1}, multiset{})
  {
    assert Inserted(Reserved(NEW_TABLE, 0), 1) == ONE_CREATED;
  }

  lemma CreateSecond()
    ensures
      var s := Ends(NEW_TABLE, ONE_CREATED, multiset{1}, multiset{});
      && CanHappen(s, ServerCreates(0))
      && Happen(s, ServerCreates(0)) == Ends(NEW_TABLE, TWO_CREATED, multiset{1, 2}, multiset{})
  {
    assert Inserted(Reserved(ONE_CREATED, 0), 2) == TWO_CREATED;
  }

  lemma ReceiveBoth(s: Ends, a: uint32, b: uint32)
    requires s.replies == multiset{a, b} && s.granted == multiset{} && 0 < a && 0 < b
    ensures CanHappen(s, CallerReceives(a))
    ensures
      var s1 := Happen(s, CallerReceives(a));
      && CanHappen(s1, CallerReceives(b))
      && Happen(s1, CallerReceives(b)) == s.(replies := multiset{}, granted := multiset{a, b})
  {
  }

  lemma TwoGranted() returns (es: seq<Event>)
    ensures NoCloses(es) && HappenAll(es) == Ends(NEW_TABLE, TWO_CREATED, multiset{}, multiset{1, 2})
  {
    hide Happen, CanHappen;
    CreateFirst();
    CreateSecond();
    ReceiveBoth(Ends(NEW_TABLE, TWO_CREATED, multiset{1, 2}, multiset{}), 1, 2);
    es := EventSnoc([], ServerCreates(0));
    es := EventSnoc(es, ServerCreates(0));
    es := EventSnoc(es, CallerReceives(1));
    es := EventSnoc(es, CallerReceives(2));
  }

  /** So is a caller overtaking another: the one granted 2 gets 1, with nothing closed. */
  lemma OvertakingLosesAgreement() returns (es: seq<Event>)
    ensures NoCloses(es) && CanHappen(HappenAll(es), ClientReserves(0, 2)) && IdFor(HappenAll(es).client, 0) == 1
  {
    es := TwoGranted();
  }

  const ONE_RESERVED := Table({0}, multiset{1}, {}, 1, 1, multiset{0})
  const ONE_FREED := Table({0}, multiset{}, {1}, 1, 1, multiset{0})

  /** The ends with two channels at the server and only the caller granted 1 left. */
  function OneLeft(client: Table): Ends {
    Ends(client, TWO_CREATED, multiset{}, multiset{1})
  }

  lemma OneReserves(s: Ends)
    requires s == Ends(NEW_TABLE, TWO_CREATED, multiset{}, multiset{1, 2})
    ensures CanHappen(s, ClientReserves(0, 2)) && Happen(s, ClientReserves(0, 2)) == OneLeft(ONE_RESERVED)
  {
    assert multiset{1, 2} - multiset{2} == multiset{1};
    assert Reserved(NEW_TABLE, 0) == ONE_RESERVED;
  }

  lemma OneInserts()
    ensures CanHappen(OneLeft(ONE_RESERVED), ClientInserts(1))
    ensures Happen(OneLeft(ONE_RESERVED), ClientInserts(1)) == OneLeft(ONE_CREATED)
  {
    assert Inserted(ONE_RESERVED, 1) == ONE_CREATED;
  }

  lemma OneCloses()
    ensures CanHappen(OneLeft(ONE_CREATED), ClientCloses(1))
    ensures Happen(OneLeft(ONE_CREATED), ClientCloses(1)) == OneLeft(ONE_FREED)
  {
    assert Removed(ONE_CREATED, 1) == ONE_FREED;
  }

  /** And a freed id can be the granted one: the caller granted 1 gets the 1 another has freed. */
  lemma FreedCanBeGranted() returns (es: seq<Event>)
    ensures CanHappen(HappenAll(es), ClientReserves(1, 1))
    ensures HappenAll(es).client.free == {1} && IdFor(HappenAll(es).client, 1) == 1
  {
    hide Happen;
    es := TwoGranted();
    OneReserves(HappenAll(es));
    OneInserts();
    OneCloses();
    es := EventSnoc(es, ClientReserves(0, 2));
    es := EventSnoc(es, ClientInserts(1));
    es := EventSnoc(es, ClientCloses(1));
  }
}
