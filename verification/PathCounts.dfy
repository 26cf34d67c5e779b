/** The per-path counters of the server against its total (server.go:96-103, 238-245;
    statis.go:320-348). */
module PathCounts {
  import opened Packets
  import opened Counters

  /** The path counters and the total. */
  datatype State = State(paths: map<string, Count>, total: Count)

  /** A path that is not registered is counted neither on its own nor in the total. */
  function Added(s: State, path: string, c: Count): State {
    if path in s.paths then State(s.paths[path := Plus(s.paths[path], c)], Plus(s.total, c)) else s
  }

  /** A new counter, whether or not the path had one and whether or not the handler was accepted. */
  function Registered(s: State, path: string): State {
    State(s.paths[path := NONE], s.total)
  }

  class Server {
    var pathCount: map<string, Count>
    var count: Count

    function View(): State
      reads this
    {
      State(pathCount, count)
    }

    constructor ()
      ensures View() == State(map[], NONE)
    {
      pathCount, count := map[], NONE;
    }

    method AddCount(path: string, c: Count)
      modifies this
      ensures View() == Added(old(View()), path, c)
    {
      if path in pathCount {
        pathCount := pathCount[path := Plus(pathCount[path], c)];
        count := Plus(count, c);
      }
    }

    method RegisterHandler(path: string)
      modifies this
      ensures View() == Registered(old(View()), path)
    {
      pathCount := pathCount[path := NONE];
    }
  }

  datatype Event = Add(path: string, c: Count) | Register(path: string)

  function After(events: seq<Event>): State
    decreases |events|
  {
    if events == [] then State(map[], NONE)
    else
      var s := After(events[..|events| - 1]);
      match events[|events| - 1]
      case Add(p, c) => Added(s, p, c)
      case Register(p) => Registered(s, p)
  }

  /** What has been added to a path since it was last registered, oldest first. */
  function Since(events: seq<Event>, path: string): seq<Count>
    decreases |events|
  {
    if events == [] then []
    else
      var front := events[..|events| - 1];
      match events[|events| - 1]
      case Add(p, c) => if p == path && Register(p) in front then Since(front, path) + [c] else Since(front, path)
      case Register(p) => if p == path then [] else Since(front, path)
  }

  /** What has been added to any path that was registered by then. */
  function AllAdded(events: seq<Event>): seq<Count>
    decreases |events|
  {
    if events == [] then []
    else
      var front, e := events[..|events| - 1], events[|events| - 1];
      if e.Add? && Register(e.path) in front then AllAdded(front) + [e.c] else AllAdded(front)
  }

  function SumOf(cs: seq<Count>): Count
    decreases |cs|
  {
    if cs == [] then NONE else Plus(SumOf(cs[..|cs| - 1]), cs[|cs| - 1])
  }

  lemma SumOfMore(cs: seq<Count>, c: Count)
    ensures SumOf(cs + [c]) == Plus(SumOf(cs), c)
  {
    assert (cs + [c])[..|cs|] == cs;
  }

  /** A path has a counter once it has been registered, and that is what has been added to it since;
      the total is all that was added to registered paths. */
  lemma {:induction false} CountersTell(events: seq<Event>, path: string)
    ensures
      var s := After(events);
      && (path in s.paths <==> Register(path) in events)
      && (path in s.paths ==> s.paths[path] == SumOf(Since(events, path)))
      && s.total == SumOf(AllAdded(events))
    decreases |events|
  {
    hide SumOf, Plus;
    SumOfNone();
    if events != [] {
      var front, e := events[..|events| - 1], events[|events| - 1];
      assert events == front + [e];
      CountersTell(front, path);
      if e.Add? {
        CountersTell(front, e.path);
        SumOfMore(Since(front, path), e.c);
        SumOfMore(AllAdded(front), e.c);
      }
    }
  }

  lemma SumOfNone()
    ensures SumOf([]) == NONE
  {
  }

  /** What was added to registered paths and then dropped by registering the path again. */
  function Discarded(events: seq<Event>): Count
    decreases |events|
  {
    if events == [] then NONE
    else
      var front := events[..|events| - 1];
      match events[|events| - 1]
      case Add(_, _) => Discarded(front)
      case Register(p) => Plus(Discarded(front), Held(After(front).paths, p))
  }

  ghost predicate Balanced(s: State, discarded: Count) {
    s.total == Plus(Sum(s.paths, s.paths.Keys), discarded)
  }

  lemma AddBalances(s: State, d: Count, p: string, c: Count)
    requires Balanced(s, d)
    ensures Balanced(Added(s, p, c), d)
  {
    if p in s.paths {
      SumUpdate(s.paths, p, Plus(s.paths[p], c));
    }
  }

  lemma RegisterBalances(s: State, d: Count, p: string)
    requires Balanced(s, d)
    ensures Balanced(Registered(s, p), Plus(d, Held(s.paths, p)))
  {
    SumUpdate(s.paths, p, NONE);
    var m := s.paths[p := NONE];
    PlusShift(Sum(s.paths, s.paths.Keys), Sum(m, m.Keys), Held(s.paths, p), d);
  }

  lemma PlusShift(sum: Count, sum': Count, held: Count, d: Count)
    requires Plus(sum', held) == Plus(sum, NONE)
    ensures Plus(sum, d) == Plus(sum', Plus(d, held))
  {
  }

  /** Over any run the total is the sum of the path counters plus what was discarded. */
  lemma {:induction false} TotalBalances(events: seq<Event>)
    ensures Balanced(After(events), Discarded(events))
    decreases |events|
  {
    if events != [] {
      var front := events[..|events| - 1];
      TotalBalances(front);
      match events[|events| - 1]
      case Add(p, c) => AddBalances(After(front), Discarded(front), p, c);
      case Register(p) => RegisterBalances(After(front), Discarded(front), p);
    }
  }

  predicate NonNegative(c: Count) {
    && c.packetsSent >= 0 && c.packetReceived >= 0 && c.wholePacketSent >= 0 && c.wholePacketReceived >= 0
    && c.bytesSent >= 0 && c.bytesReceived >= 0
  }

  /** Nothing negative is ever added. */
  predicate AllNonNegative(events: seq<Event>) {
    forall i :: 0 <= i < |events| && events[i].Add? ==> NonNegative(events[i].c)
  }

  /** Every registration is of a path that is new, or on which nothing has been counted yet. */
  predicate CleanRegistrations(events: seq<Event>) {
    forall i :: 0 <= i < |events| && events[i].Register? ==> Held(After(events[..i]).paths, events[i].path) == NONE
  }

  lemma {:induction false} PathsNonNegative(events: seq<Event>)
    requires AllNonNegative(events)
    ensures forall p :: p in After(events).paths ==> NonNegative(After(events).paths[p])
    decreases |events|
  {
    if events != [] {
      PathsNonNegative(events[..|events| - 1]);
    }
  }

  lemma {:induction false} DiscardedNoneIff(events: seq<Event>)
    requires AllNonNegative(events)
    ensures NonNegative(Discarded(events)) && (Discarded(events) == NONE <==> CleanRegistrations(events))
    decreases |events|
  {
    hide After, CleanRegistrations;
    if events == [] {
      NoRegistrations();
    } else {
      var k := |events| - 1;
      DiscardedNoneIff(events[..k]);
      PathsNonNegative(events[..k]);
      CleanSoFar(events);
      if events[k].Register? {
        PlusNoneIff(Discarded(events[..k]), Held(After(events[..k]).paths, events[k].path));
      }
    }
  }

  lemma NoRegistrations()
    ensures CleanRegistrations([])
  {
  }

  lemma CleanSoFar(events: seq<Event>)
    requires events != []
    ensures
      var k := |events| - 1;
      CleanRegistrations(events)
      <==> CleanRegistrations(events[..k])
           && (events[k].Register? ==> Held(After(events[..k]).paths, events[k].path) == NONE)
  {
    hide After;
    var k := |events| - 1;
    assert forall i :: 0 <= i < k ==> events[..k][..i] == events[..i];
  }

  predicate IsZero(c: Count) {
    && c.packetsSent == 0 && c.packetReceived == 0 && c.wholePacketSent == 0 && c.wholePacketReceived == 0
    && c.bytesSent == 0 && c.bytesReceived == 0
  }

  lemma ZeroIsNone(c: Count)
    ensures IsZero(c) <==> c == NONE
  {
    assert IsZero(c) ==> c == Count(0, 0, 0, 0, 0, 0);
  }

  lemma PlusNoneIff(a: Count, b: Count)
    requires NonNegative(a) && NonNegative(b)
    ensures NonNegative(Plus(a, b)) && (Plus(a, b) == NONE <==> a == NONE && b == NONE)
  {
    if Plus(a, b) == NONE {
      PartsZero(a, b);
      ZeroIsNone(a);
      ZeroIsNone(b);
    } else if a == NONE && b == NONE {
      PlusNone(NONE);
    }
  }

  lemma PartsZero(a: Count, b: Count)
    requires NonNegative(a) && NonNegative(b) && Plus(a, b) == NONE
    ensures IsZero(a) && IsZero(b)
  {
  }

  /** So, as counts are not negative, the paths add up to the total if and only if every
      registration was of a path that was new or had counted nothing. */
  lemma TotalAgreesIff(events: seq<Event>)
    requires AllNonNegative(events)
    ensures
      var s := After(events);
      s.total == Sum(s.paths, s.paths.Keys) <==> CleanRegistrations(events)
  {
    TotalBalances(events);
    DiscardedNoneIff(events);
    BalancedNone(After(events).total, Sum(After(events).paths, After(events).paths.Keys), Discarded(events));
  }

  lemma BalancedNone(total: Count, sum: Count, d: Count)
    requires total == Plus(sum, d)
    ensures total == sum <==> d == NONE
  {
  }

  /** Registering a path again discards all that was counted on it: a total that agreed with
      its paths no longer does. */
  lemma RegisteredAgain(events: seq<Event>, path: string)
    requires
      var s := After(events);
      s.total == Sum(s.paths, s.paths.Keys) && Held(s.paths, path) != NONE
    ensures
      var s := After(events + [Register(path)]);
      s.total != Sum(s.paths, s.paths.Keys)
  {
    hide After, Sum;
    var s, s' := After(events), After(events + [Register(path)]);
    var sum, sum' := Sum(s.paths, s.paths.Keys), Sum(s'.paths, s'.paths.Keys);
    var held := Held(s.paths, path);
    TotalBalances(events);
    TotalBalances(events + [Register(path)]);
    BalancedNone(s.total, sum, Discarded(events));
    DiscardedMore(events, path);
    PlusNoneLeft(held);
    BalancedNone(s'.total, sum', held);
  }

  lemma DiscardedMore(events: seq<Event>, path: string)
    ensures Discarded(events + [Register(path)]) == Plus(Discarded(events), Held(After(events).paths, path))
  {
    assert (events + [Register(path)])[..|events|] == events;
  }

  // ----- one atomic addition at a time -----

  /** The total is None, a path's counter Some. */
  type Key = Option<string>

  /** AddCount starts its additions under the read lock; RegisterHandler takes the lock, so it
      comes when none is pending. */
  datatype Act = Start(e: Event) | Land(i: nat)

  predicate CanStart(b: Board<Key>, e: Event) {
    e.Register? ==> b.pending == []
  }

  function Started(s: State, b: Board<Key>, e: Event): Board<Key> {
    match e
    case Add(p, c) => if p in s.paths then Posted(b, Fields(Some(p), c) + Fields(None, c)) else b
    case Register(p) => b.(shown := b.shown[Some(p) := NONE])
  }

  /** The events started so far, and the counters as they read. */
  datatype Progress = Progress(events: seq<Event>, board: Board<Key>)

  function Play(acts: seq<Act>): Progress
    decreases |acts|
  {
    if acts == [] then Progress([], Board(map[], []))
    else
      var g := Play(acts[..|acts| - 1]);
      match acts[|acts| - 1]
      case Start(e) =>
        if CanStart(g.board, e) then Progress(g.events + [e], Started(After(g.events), g.board, e)) else g
      case Land(i) => if i < |g.board.pending| then g.(board := Landed(g.board, i)) else g
  }

  function Value(s: State, k: Key): Count {
    match k
    case None => s.total
    case Some(p) => Held(s.paths, p)
  }

  ghost predicate InFull(s: State, b: Board<Key>) {
    forall k :: Full(b, k) == Value(s, k)
  }

  lemma AddInFull(s: State, b: Board<Key>, p: string, c: Count)
    requires InFull(s, b)
    ensures InFull(Added(s, p, c), Started(s, b, Add(p, c)))
  {
    hide Plus, PendingOn, Full, Fields;
    if p in s.paths {
      var items := Fields(Some(p), c) + Fields(None, c);
      forall k: Key ensures Full(Posted(b, items), k) == Value(Added(s, p, c), k) {
        PostedFull(b, items, k);
        PendingBoth(Fields(Some(p), c), Fields(None, c), k);
        FieldsAdd(Some(p), c, k);
        FieldsAdd(None, c, k);
        PlusNone(c);
        PlusNoneLeft(c);
        PlusNone(NONE);
        PlusNone(Full(b, k));
      }
    }
  }

  lemma RegisterInFull(s: State, b: Board<Key>, p: string)
    requires InFull(s, b) && b.pending == []
    ensures InFull(Registered(s, p), Started(s, b, Register(p)))
  {
    hide Plus, PendingOn, Full;
    var b' := Started(s, b, Register(p));
    forall k: Key ensures Full(b', k) == Value(Registered(s, p), k) {
      NothingPending(b, k);
      NothingPending(b', k);
    }
  }

  lemma NothingInFull()
    ensures InFull(After([]), Play([]).board)
  {
    hide Full, Plus;
    forall k: Key ensures Full(Play([]).board, k) == Value(After([]), k) {
      NothingPending(Play([]).board, k);
    }
  }

  /** At every moment, with any number of calls half done, each counter and what is pending on
      it are what the events started so far make it. */
  lemma {:induction false} ShownPlusPending(acts: seq<Act>)
    ensures InFull(After(Play(acts).events), Play(acts).board)
    decreases |acts|
  {
    hide Plus, PendingOn, Full, After, Started;
    if acts == [] {
      NothingInFull();
    } else {
      var g := Play(acts[..|acts| - 1]);
      ShownPlusPending(acts[..|acts| - 1]);
      match acts[|acts| - 1]
      case Start(e) => if CanStart(g.board, e) { StartInFull(g.events, g.board, e); }
      case Land(i) => if i < |g.board.pending| { LandInFull(After(g.events), g.board, i); }
    }
  }

  lemma StartInFull(events: seq<Event>, b: Board<Key>, e: Event)
    requires InFull(After(events), b) && CanStart(b, e)
    ensures InFull(After(events + [e]), Started(After(events), b, e))
  {
    assert (events + [e])[..|events|] == events;
    match e
    case Add(p, c) => AddInFull(After(events), b, p, c);
    case Register(p) => RegisterInFull(After(events), b, p);
  }

  lemma LandInFull(s: State, b: Board<Key>, i: nat)
    requires InFull(s, b) && i < |b.pending|
    ensures InFull(s, Landed(b, i))
  {
    forall k: Key ensures Full(Landed(b, i), k) == Value(s, k) {
      LandedFull(b, i, k);
    }
  }

  /** What the paths read and what is pending on them. */
  ghost function FullPaths(s: State, b: Board<Key>): map<string, Count> {
    map p | p in s.paths :: Full(b, Some(p))
  }

  /** So at every moment the total is the sum of the paths plus what was discarded, counting in
      what is pending; and with nothing pending as they read. */
  lemma TotalBalancesThroughout(acts: seq<Act>)
    ensures
      var g := Play(acts);
      var paths := FullPaths(After(g.events), g.board);
      && Full(g.board, None) == Plus(Sum(paths, paths.Keys), Discarded(g.events))
      && (g.board.pending == [] ==> Held(g.board.shown, None) == Plus(Sum(paths, paths.Keys), Discarded(g.events)))
  {
    hide Plus, PendingOn, Full, After, Play, Sum;
    var g := Play(acts);
    ShownPlusPending(acts);
    TotalBalances(g.events);
    assert FullPaths(After(g.events), g.board) == After(g.events).paths by {
      forall p | p in After(g.events).paths ensures Full(g.board, Some(p)) == After(g.events).paths[p] {
        assert Full(g.board, Some(p)) == Value(After(g.events), Some(p));
      }
    }
    assert Full(g.board, None) == Value(After(g.events), None);
    if g.board.pending == [] {
      NothingPending(g.board, None);
    }
  }

  /** Every update that is half done can be finished, and then any path can be registered. */
  lemma {:induction false} CanFinish(acts: seq<Act>, path: string) returns (more: seq<Act>)
    ensures acts <= more
    ensures
      var g := Play(more);
      g.board.pending == [] && g.events == Play(acts).events && CanStart(g.board, Register(path))
    decreases |Play(acts).board.pending|
  {
    hide After, Started, Full;
    if Play(acts).board.pending == [] {
      more := acts;
    } else {
      assert (acts + [Land(0)])[..|acts|] == acts;
      more := CanFinish(acts + [Land(0)], path);
    }
  }
}
