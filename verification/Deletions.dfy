/** Which deletions at the server leave every channel of the client known there, whatever
    happens after (handle.go:177-180, protocol.go:643-716, client.go:161-190). */
module Deletions {
  import opened Packets
  import opened ChannelIds

  /** Every id in use at the client, or about to be, is live at the server. */
  predicate Included(s: Ends) {
    && s.client.live <= s.server.live
    && forall id :: id in s.client.reserved ==> id in s.server.live
  }

  /** Positive ids that will each let a caller take one from the client's table. */
  function UnderWay(s: Ends): int {
    |s.granted| + |s.replies| - s.replies[0]
  }

  /** The ids below the server's maximum are live there, but for the deleted ones. */
  ghost predicate Shaped(s: Ends) {
    && Partition(s.client) && 0 !in s.granted
    && (forall id: uint32 :: id in s.server.live <==> id <= s.server.max && id !in s.server.free)
    && (forall id :: id in s.server.free ==> id <= s.server.max)
    && (forall id :: id in s.server.objects ==> id <= s.server.max)
    && s.client.max <= s.server.max
  }

  /** No caller under way can be given a deleted id that the client has freed, before the server
      uses it again. */
  ghost predicate FreedAreSafe(s: Ends) {
    forall d :: d in s.server.free && d in s.client.free ==> UnderWay(s) == 0 && s.server.free == {d}
  }

  /** A deleted id that the client has not used is within reach of the callers under way. */
  predicate InReach(s: Ends, d: uint32) {
    d in s.server.free && d > s.client.max && UnderWay(s) + |s.server.free| > |s.client.free| + d - s.client.max
  }

  /** No such id is. */
  ghost predicate NewAreSafe(s: Ends) {
    forall d :: d in s.server.free ==> !InReach(s, d)
  }

  /** Nor one beyond all the server has created. */
  predicate LastIsSafe(s: Ends) {
    s.client.max + UnderWay(s) + |s.server.free| <= s.server.max + |s.client.free|
  }

  ghost predicate Safe(s: Ends) {
    Included(s) && FreedAreSafe(s) && NewAreSafe(s) && LastIsSafe(s)
  }

  lemma UnderWayAtLeastGranted(s: Ends)
    ensures UnderWay(s) >= |s.granted|
  {
    ZerosAtMostAll(s.replies);
  }

  // ----- safe stays safe -----

  lemma CreateSafe(s: Ends, pick: uint32)
    requires Shaped(s) && Safe(s) && CanReserve(s.server, pick)
    ensures Shaped(Happen(s, ServerCreates(pick))) && Safe(Happen(s, ServerCreates(pick)))
  {
    hide Partition;
  }

  lemma TimeOutSafe(s: Ends, id: uint32)
    requires Shaped(s) && Safe(s) && id in s.replies
    ensures Shaped(Happen(s, CallerTimesOut(id))) && Safe(Happen(s, CallerTimesOut(id)))
  {
    hide Partition;
    UnderWayAtLeastGranted(s);
    UnderWayAtLeastGranted(Happen(s, CallerTimesOut(id)));
  }

  lemma ReceiveSafe(s: Ends, id: uint32)
    requires Shaped(s) && Safe(s) && id in s.replies
    ensures Shaped(Happen(s, CallerReceives(id))) && Safe(Happen(s, CallerReceives(id)))
  {
    hide Partition;
    assert UnderWay(Happen(s, CallerReceives(id))) == UnderWay(s);
  }

  /** A caller is given a freed id. */
  lemma ReserveFreedSafe(s: Ends, pick: uint32, id: uint32)
    requires Shaped(s) && Safe(s) && CanHappen(s, ClientReserves(pick, id)) && s.client.free != {}
    ensures Safe(Happen(s, ClientReserves(pick, id)))
  {
    UnderWayAtLeastGranted(s);
    assert pick <= s.client.max && pick in s.server.live;
  }

  /** Or the next new one. */
  lemma ReserveNewSafe(s: Ends, pick: uint32, id: uint32)
    requires Shaped(s) && Safe(s) && CanHappen(s, ClientReserves(pick, id)) && s.client.free == {}
    ensures s.client.max < s.server.max && Safe(Happen(s, ClientReserves(pick, id)))
  {
    hide Partition;
    UnderWayAtLeastGranted(s);
    assert s.client.max < s.server.max;
    assert s.client.max + 1 in s.server.live;
  }

  lemma ReserveSafe(s: Ends, pick: uint32, id: uint32)
    requires Shaped(s) && Safe(s) && CanHappen(s, ClientReserves(pick, id))
    ensures Shaped(Happen(s, ClientReserves(pick, id))) && Safe(Happen(s, ClientReserves(pick, id)))
  {
    hide Partition, Safe;
    if s.client.free == {} {
      ReserveNewSafe(s, pick, id);
    } else {
      ReserveFreedSafe(s, pick, id);
    }
    ReservedShaped(s, Happen(s, ClientReserves(pick, id)), pick);
  }

  lemma InsertSafe(s: Ends, id: uint32)
    requires Shaped(s) && Safe(s) && id in s.client.reserved
    ensures Shaped(Happen(s, ClientInserts(id))) && Safe(Happen(s, ClientInserts(id)))
  {
    InsertKeeps(s.client, id);
  }

  lemma CloseSafe(s: Ends, id: uint32)
    requires Shaped(s) && Safe(s) && id in s.client.objects
    ensures Shaped(Happen(s, ClientCloses(id))) && Safe(Happen(s, ClientCloses(id)))
  {
    RemoveKeeps(s.client, id);
  }

  lemma EventSafe(s: Ends, e: Event)
    requires Shaped(s) && Safe(s) && CanHappen(s, e) && !e.ServerDeletes?
    ensures Shaped(Happen(s, e)) && Safe(Happen(s, e))
  {
    hide Shaped, Safe;
    match e
    case ServerCreates(pick) => CreateSafe(s, pick);
    case CallerTimesOut(id) => TimeOutSafe(s, id);
    case CallerReceives(id) => ReceiveSafe(s, id);
    case ClientReserves(pick, id) => ReserveSafe(s, pick, id);
    case ClientInserts(id) => InsertSafe(s, id);
    case ClientCloses(id) => CloseSafe(s, id);
  }

  lemma {:induction false} SafeStays(es: seq<Event>, more: seq<Event>)
    requires Shaped(HappenAll(es)) && Safe(HappenAll(es)) && NoDeletes(more)
    ensures Shaped(HappenAll(es + more)) && Safe(HappenAll(es + more))
    decreases |more|
  {
    hide Shaped, Safe, Happen, CanHappen;
    if more == [] {
      assert es + more == es;
    } else {
      var k := |more| - 1;
      SafeStays(es, more[..k]);
      assert (es + more)[..|es + more| - 1] == es + more[..k];
      if CanHappen(HappenAll(es + more[..k]), more[k]) {
        EventSafe(HappenAll(es + more[..k]), more[k]);
      }
    }
  }

  // ----- what is not safe breaks -----

  lemma PositiveReply(s: Ends) returns (id: uint32)
    requires UnderWay(s) > 0 && s.granted == multiset{}
    ensures id in s.replies && id > 0
  {
    var positive := s.replies[0 := 0];
    assert |positive| == |s.replies| - s.replies[0];
    id :| id in positive;
  }

  /** A caller under way comes a step nearer to taking an id. */
  lemma ReceiveOne(es: seq<Event>) returns (es': seq<Event>)
    requires UnderWay(HappenAll(es)) > 0 && HappenAll(es).granted == multiset{}
    ensures es <= es' && |es'| == |es| + 1 && NoDeletes(es'[|es|..])
    ensures
      var s, s' := HappenAll(es), HappenAll(es');
      && s'.client == s.client && s'.server == s.server && UnderWay(s') == UnderWay(s)
      && |s'.replies| < |s.replies| && (Shaped(s) ==> Shaped(s'))
  {
    hide Partition;
    var id := PositiveReply(HappenAll(es));
    es' := EventSnoc(es, CallerReceives(id));
  }

  /** A caller takes an id. */
  lemma ReserveOne(es: seq<Event>, pick: uint32) returns (es': seq<Event>)
    requires HappenAll(es).granted != multiset{} && CanReserve(HappenAll(es).client, pick)
    ensures es <= es' && |es'| == |es| + 1 && NoDeletes(es'[|es|..])
    ensures
      var s, s' := HappenAll(es), HappenAll(es');
      && s'.client == Reserved(s.client, pick) && s'.server == s.server && s'.replies == s.replies
      && UnderWay(s') == UnderWay(s) - 1 && |s'.granted| < |s.granted| && (0 !in s.granted ==> 0 !in s'.granted)
  {
    var id :| id in HappenAll(es).granted;
    es' := EventSnoc(es, ClientReserves(pick, id));
  }

  /** The server uses a deleted id again. */
  lemma CreateOne(es: seq<Event>, pick: uint32) returns (es': seq<Event>)
    requires pick in HappenAll(es).server.free && pick > 0
    ensures es <= es' && |es'| == |es| + 1 && NoDeletes(es'[|es|..])
    ensures
      var s, s' := HappenAll(es), HappenAll(es');
      && s'.client == s.client && UnderWay(s') == UnderWay(s) + 1 && s'.server.max == s.server.max
      && s'.server.free == s.server.free - {pick} && (Shaped(s) ==> Shaped(s'))
  {
    hide Partition;
    es' := EventSnoc(es, ServerCreates(pick));
  }

  lemma ReservedShaped(s: Ends, s': Ends, pick: uint32)
    requires Shaped(s) && CanReserve(s.client, pick) && s'.client == Reserved(s.client, pick) && s'.server == s.server
    requires 0 !in s'.granted && (s.client.free != {} || s.client.max < s.server.max)
    ensures Shaped(s')
  {
    ReserveKeepsIff(s.client, pick);
  }

  lemma Later(es: seq<Event>, es1: seq<Event>, es2: seq<Event>)
    requires es <= es1 <= es2 && NoDeletes(es1[|es|..]) && NoDeletes(es2[|es1|..])
    ensures es <= es2 && NoDeletes(es2[|es|..])
  {
    assert forall i :: |es| <= i < |es1| ==> es2[i] == es1[|es|..][i - |es|];
    assert forall i :: |es1| <= i < |es2| ==> es2[i] == es2[|es1|..][i - |es1|];
  }

  /** A freed id is deleted, and a caller can be given it. */
  lemma {:induction false} FreedBreaks(es: seq<Event>, d: uint32) returns (es': seq<Event>)
    requires
      var s := HappenAll(es);
      && Shaped(s) && 0 !in s.server.free && d in s.server.free && d in s.client.free
      && !(UnderWay(s) == 0 && s.server.free == {d})
    ensures es <= es' && NoDeletes(es'[|es|..]) && !Included(HappenAll(es'))
    decreases |HappenAll(es).server.free|, |HappenAll(es).replies|
  {
    hide Partition, Happen, CanHappen;
    var s := HappenAll(es);
    UnderWayAtLeastGranted(s);
    if s.granted != multiset{} {
      es' := ReserveOne(es, d);
      assert d in HappenAll(es').client.reserved;
    } else if UnderWay(s) > 0 {
      var es1 := ReceiveOne(es);
      es' := FreedBreaks(es1, d);
      Later(es, es1, es');
    } else {
      var e := Another(s.server.free, d);
      var es1 := CreateOne(es, e);
      es' := FreedBreaks(es1, d);
      Later(es, es1, es');
    }
  }

  lemma Another(ids: set<uint32>, d: uint32) returns (e: uint32)
    requires d in ids && ids != {d}
    ensures e in ids && e != d
  {
    var rest := ids - {d};
    assert ids == rest + {d};
    e :| e in rest;
  }

  /** One of them takes an id. */
  lemma NewReserves(es: seq<Event>, d: uint32) returns (es': seq<Event>)
    requires
      var s := HappenAll(es);
      Shaped(s) && InReach(s, d) && s.server.free == {d} && d > 0 && s.granted != multiset{}
    ensures es <= es' && NoDeletes(es'[|es|..])
    ensures
      var s, s' := HappenAll(es), HappenAll(es');
      !Included(s')
      || (Shaped(s') && InReach(s', d) && s'.server == s.server && s'.replies == s.replies && |s'.granted| < |s.granted|)
  {
    hide Partition, Happen, CanHappen;
    var s := HappenAll(es);
    var f := if s.client.free == {} then 0 else Some(s.client.free);
    es' := ReserveOne(es, f);
    if s.client.free == {} && s.client.max + 1 == d {
      assert d in HappenAll(es').client.reserved;
    } else {
      ReservedShaped(s, HappenAll(es'), f);
    }
  }

  /** Or gets nearer to taking one, or the server uses another deleted id again. */
  lemma NewNearer(es: seq<Event>, d: uint32) returns (es': seq<Event>)
    requires
      var s := HappenAll(es);
      Shaped(s) && InReach(s, d) && 0 !in s.server.free && (s.server.free != {d} || s.granted == multiset{})
    ensures es <= es' && NoDeletes(es'[|es|..])
    ensures
      var s, s' := HappenAll(es), HappenAll(es');
      && Shaped(s') && InReach(s', d) && 0 !in s'.server.free
      && (s'.server.free < s.server.free || (s'.server == s.server && |s'.replies| < |s.replies|))
  {
    hide Partition, Happen, CanHappen;
    var s := HappenAll(es);
    if s.server.free != {d} {
      var e := Another(s.server.free, d);
      es' := CreateOne(es, e);
    } else {
      es' := ReceiveOne(es);
    }
  }

  lemma {:induction false} NewBreaks(es: seq<Event>, d: uint32) returns (es': seq<Event>)
    requires Shaped(HappenAll(es)) && InReach(HappenAll(es), d) && 0 !in HappenAll(es).server.free
    ensures es <= es' && NoDeletes(es'[|es|..]) && !Included(HappenAll(es'))
    decreases |HappenAll(es).server.free|, |HappenAll(es).replies|, |HappenAll(es).granted|
  {
    hide Shaped, InReach, Included, Happen, CanHappen;
    var s := HappenAll(es);
    var es1;
    ReachedIsFree(s, d);
    if s.server.free == {d} && s.granted != multiset{} {
      es1 := NewReserves(es, d);
    } else {
      es1 := NewNearer(es, d);
      if HappenAll(es1).server.free < s.server.free {
        FewerLeft(HappenAll(es1).server.free, s.server.free);
      }
    }
    if !Included(HappenAll(es1)) {
      es' := es1;
    } else {
      es' := NewBreaks(es1, d);
      Later(es, es1, es');
    }
  }

  lemma ReachedIsFree(s: Ends, d: uint32)
    requires InReach(s, d)
    ensures d in s.server.free
  {
  }

  lemma FewerLeft(a: set<uint32>, b: set<uint32>)
    requires a < b
    ensures |a| < |b|
  {
    assert b == a + (b - a);
  }

  /** More callers are under way than the server has channels for. */
  predicate Overrun(s: Ends) {
    0 !in s.server.free && s.server.max < MAX_UINT32 && !LastIsSafe(s)
  }

  /** Then one of them takes an id. */
  lemma LastReserves(es: seq<Event>) returns (es': seq<Event>)
    requires var s := HappenAll(es); Shaped(s) && Overrun(s) && s.server.free == {} && s.granted != multiset{}
    ensures es <= es' && NoDeletes(es'[|es|..])
    ensures
      var s, s' := HappenAll(es), HappenAll(es');
      !Included(s')
      || (Shaped(s') && Overrun(s') && s'.server == s.server && s'.replies == s.replies && |s'.granted| < |s.granted|)
  {
    hide Partition, Happen, CanHappen;
    var s := HappenAll(es);
    var f := if s.client.free == {} then 0 else Some(s.client.free);
    es' := ReserveOne(es, f);
    if s.client.free == {} && s.client.max == s.server.max {
      assert s.server.max + 1 in HappenAll(es').client.reserved;
    } else {
      ReservedShaped(s, HappenAll(es'), f);
    }
  }

  ghost function Some(ids: set<uint32>): (id: uint32)
    requires ids != {}
    ensures id in ids
  {
    var id :| id in ids;
    id
  }

  lemma {:induction false} LastBreaks(es: seq<Event>) returns (es': seq<Event>)
    requires var s := HappenAll(es); Shaped(s) && Overrun(s)
    ensures es <= es' && NoDeletes(es'[|es|..]) && !Included(HappenAll(es'))
    decreases |HappenAll(es).server.free|, |HappenAll(es).replies|, |HappenAll(es).granted|
  {
    hide Shaped, Included, Happen, CanHappen;
    var s := HappenAll(es);
    var es1;
    if s.server.free != {} {
      es1 := CreateOne(es, Some(s.server.free));
    } else if s.granted == multiset{} {
      es1 := ReceiveOverrun(es);
    } else {
      es1 := LastReserves(es);
    }
    if !Included(HappenAll(es1)) {
      es' := es1;
    } else {
      es' := LastBreaks(es1);
      Later(es, es1, es');
    }
  }

  lemma ReceiveOverrun(es: seq<Event>) returns (es': seq<Event>)
    requires
      var s := HappenAll(es);
      Shaped(s) && Overrun(s) && s.server.free == {} && s.granted == multiset{}
    ensures es <= es' && NoDeletes(es'[|es|..])
    ensures
      var s, s' := HappenAll(es), HappenAll(es');
      Shaped(s') && Overrun(s') && s'.server == s.server && |s'.replies| < |s.replies|
  {
    hide Partition, Happen, CanHappen;
    es' := ReceiveOne(es);
  }

  lemma Breaks(es: seq<Event>) returns (es': seq<Event>)
    requires
      var s := HappenAll(es);
      Shaped(s) && 0 !in s.server.free && s.server.max < MAX_UINT32 && !Safe(s)
    ensures es <= es' && NoDeletes(es'[|es|..]) && !Included(HappenAll(es'))
  {
    hide Partition, Included, HappenAll;
    var s := HappenAll(es);
    if !Included(s) {
      es' := es;
    } else if !FreedAreSafe(s) {
      var d :| d in s.server.free && d in s.client.free && !(UnderWay(s) == 0 && s.server.free == {d});
      es' := FreedBreaks(es, d);
    } else if !NewAreSafe(s) {
      var d :| d in s.server.free && InReach(s, d);
      es' := NewBreaks(es, d);
    } else {
      es' := LastBreaks(es);
    }
  }

  // ----- runs in which nothing has gone wrong so far -----

  predicate IncludedSoFar(es: seq<Event>) {
    forall n :: 0 <= n <= |es| ==> Included(HappenAll(es[..n]))
  }

  predicate SystemStays(es: seq<Event>) {
    ServerDeletes(0) !in es
  }

  lemma CreatedShaped(s: Ends, pick: uint32)
    requires Shaped(s) && CanReserve(s.server, pick)
    ensures
      var s' := Happen(s, ServerCreates(pick));
      Shaped(s') && (0 !in s.server.free ==> 0 !in s'.server.free)
  {
    hide Partition;
  }

  lemma DeletedShaped(s: Ends, id: uint32)
    requires Shaped(s) && id in s.server.objects
    ensures
      var s' := Happen(s, ServerDeletes(id));
      Shaped(s') && (id > 0 && 0 !in s.server.free ==> 0 !in s'.server.free)
  {
    hide Partition;
  }

  lemma CallerShaped(s: Ends, e: Event)
    requires Shaped(s) && CanHappen(s, e) && (e.CallerTimesOut? || e.CallerReceives?)
    ensures Shaped(Happen(s, e))
  {
    hide Partition;
  }

  lemma TakenShaped(s: Ends, pick: uint32, id: uint32)
    requires Shaped(s) && CanHappen(s, ClientReserves(pick, id)) && s.server.max < MAX_UINT32
    requires Included(Happen(s, ClientReserves(pick, id)))
    ensures Shaped(Happen(s, ClientReserves(pick, id)))
  {
    hide Partition;
    var s' := Happen(s, ClientReserves(pick, id));
    if s.client.free == {} {
      assert s.client.max + 1 in s'.client.reserved;
    }
    ReservedShaped(s, s', pick);
  }

  lemma TableShaped(s: Ends, e: Event)
    requires Shaped(s) && CanHappen(s, e) && (e.ClientInserts? || e.ClientCloses?)
    ensures Shaped(Happen(s, e))
  {
    hide Partition;
    if e.ClientInserts? {
      InsertKeeps(s.client, e.id);
    } else {
      RemoveKeeps(s.client, e.id);
    }
  }

  lemma ServerSame(s: Ends, e: Event)
    requires CanHappen(s, e) && !e.ServerCreates? && !e.ServerDeletes?
    ensures Happen(s, e).server == s.server
  {
  }

  lemma ShapedStep(s: Ends, e: Event)
    requires Shaped(s) && CanHappen(s, e) && s.server.max < MAX_UINT32 && Included(Happen(s, e))
    ensures Shaped(Happen(s, e))
    ensures e != ServerDeletes(0) && 0 !in s.server.free ==> 0 !in Happen(s, e).server.free
  {
    hide Shaped, Included, Happen;
    match e {
      case ServerCreates(pick) => CreatedShaped(s, pick);
      case ServerDeletes(id) => DeletedShaped(s, id);
      case CallerTimesOut(id) => CallerShaped(s, e);
      case CallerReceives(id) => CallerShaped(s, e);
      case ClientReserves(pick, id) => TakenShaped(s, pick, id);
      case ClientInserts(id) => TableShaped(s, e);
      case ClientCloses(id) => TableShaped(s, e);
    }
    if !e.ServerCreates? && !e.ServerDeletes? {
      ServerSame(s, e);
    }
  }

  lemma NothingShaped()
    ensures Shaped(NEW_ENDS)
  {
  }

  lemma MaxGrows(s: Ends, e: Event)
    requires CanHappen(s, e)
    ensures Happen(s, e).server.max >= s.server.max
  {
  }

  lemma {:induction false} ShapedSoFar(es: seq<Event>)
    requires IncludedSoFar(es) && SystemStays(es) && HappenAll(es).server.max < MAX_UINT32
    ensures Shaped(HappenAll(es)) && 0 !in HappenAll(es).server.free
    decreases |es|
  {
    hide Partition, Shaped, Included, Happen, CanHappen;
    if es == [] {
      NothingShaped();
    } else {
      var k := |es| - 1;
      assert forall n :: 0 <= n <= k ==> es[..k][..n] == es[..n];
      assert es[..k + 1] == es;
      if CanHappen(HappenAll(es[..k]), es[k]) {
        MaxGrows(HappenAll(es[..k]), es[k]);
      }
      ShapedSoFar(es[..k]);
      if CanHappen(HappenAll(es[..k]), es[k]) {
        ShapedStep(HappenAll(es[..k]), es[k]);
      }
    }
  }

  /** Included in every continuation in which nothing more is deleted. */
  ghost predicate StaysIncluded(es: seq<Event>) {
    forall more: seq<Event> :: NoDeletes(more) ==> Included(HappenAll(es + more))
  }

  /** In a run in which all of the client's ids have been live at the server so far and the
      server has neither used up its ids nor deleted its system channel: they stay so, whatever
      happens but for more deletions, exactly when no deleted id is in use at the client and
      none, nor any the server has not created, is within reach of the callers under way. */
  lemma StaysIncludedIff(es: seq<Event>)
    requires IncludedSoFar(es) && SystemStays(es) && HappenAll(es).server.max < MAX_UINT32
    ensures StaysIncluded(es) <==> Safe(HappenAll(es))
  {
    hide Shaped, Safe, Included, Happen, CanHappen;
    ShapedSoFar(es);
    if Safe(HappenAll(es)) {
      forall more: seq<Event> | NoDeletes(more) ensures Included(HappenAll(es + more)) {
        SafeStays(es, more);
        SafeIncludes(HappenAll(es + more));
      }
    } else {
      var es' := Breaks(es);
      assert es' == es + es'[|es|..];
      assert NoDeletes(es'[|es|..]) && !Included(HappenAll(es + es'[|es|..]));
    }
  }

  lemma SafeIncludes(s: Ends)
    requires Safe(s)
    ensures Included(s)
  {
  }
}
