/** Client.connections against Client.connCount when the steps of newConnection,
    removeConnection and getTaskChannel interleave (client.go:211-276, lbclient.go:96-130). */
module ConnectionCounts {
  import opened Slices

  /** connections, connCount, the connections appended but not yet counted, the callers that
      have passed the limit check but not yet appended, and connIndex. */
  datatype Pool = Pool(list: seq<nat>, count: int, uncounted: set<nat>, dialing: nat, index: nat)

  const EMPTY := Pool([], 0, {}, 0, 0)

  /** MaxConnections and the number of goroutines that may be inside newConnection at once. */
  datatype Limits = Limits(max: int, callers: nat)

  /** One critical section or atomic operation each. */
  datatype Act =
    | Check              // the length read under the lock is below the limit
    | DialFails
    | Append(c: nat)
    | CountUp(c: nat)
    | Remove(c: nat)     // removeConnection's locked section
    | Rotate             // getTaskChannel's locked section

  predicate Enabled(p: Pool, act: Act, limits: Limits) {
    match act
    case Check => |p.list| < limits.max && p.dialing < limits.callers
    case DialFails => p.dialing > 0
    case Append(c) => p.dialing > 0 && c !in p.list && c !in p.uncounted
    case CountUp(c) => c in p.uncounted
    case Remove(_) => true
    case Rotate => true
  }

  /** The index getTaskChannel goes to next. */
  function NextIndex(index: nat, count: int): nat {
    if index + 1 >= count then 0 else index + 1
  }

  ghost function Do(p: Pool, act: Act): Pool
    requires act.DialFails? || act.Append? ==> p.dialing > 0
  {
    match act
    case Check => p.(dialing := p.dialing + 1)
    case DialFails => p.(dialing := p.dialing - 1)
    case Append(c) => p.(list := p.list + [c], uncounted := p.uncounted + {c}, dialing := p.dialing - 1)
    case CountUp(c) => p.(count := p.count + 1, uncounted := p.uncounted - {c})
    case Remove(c) => if c in p.list then p.(list := RemoveFirst(p.list, c), count := p.count - 1) else p
    case Rotate => p.(index := NextIndex(p.index, p.count))
  }

  /** The acts of a run, each enabled in its turn, lead from p to q. */
  ghost predicate Run(p: Pool, acts: seq<Act>, q: Pool, limits: Limits)
    decreases |acts|
  {
    if acts == [] then p == q
    else Enabled(p, acts[0], limits) && Run(Do(p, acts[0]), acts[1..], q, limits)
  }

  ghost predicate Inv(p: Pool, limits: Limits) {
    && |p.list| == p.count + |p.uncounted|
    && p.dialing <= limits.callers
    && (|p.list| + p.dialing < limits.max + limits.callers || |p.list| + p.dialing == 0)
  }

  lemma RemovedLength<T>(s: seq<T>, x: T)
    requires x in s
    ensures |RemoveFirst(s, x)| == |s| - 1
  {
  }

  lemma DoKeepsInv(p: Pool, act: Act, limits: Limits)
    requires Inv(p, limits) && Enabled(p, act, limits)
    ensures Inv(Do(p, act), limits)
  {
  }

  lemma {:induction false} RunKeepsInv(p: Pool, acts: seq<Act>, q: Pool, limits: Limits)
    requires Inv(p, limits) && Run(p, acts, q, limits)
    ensures Inv(q, limits)
    decreases |acts|
  {
    if acts != [] {
      DoKeepsInv(p, acts[0], limits);
      RunKeepsInv(Do(p, acts[0]), acts[1..], q, limits);
    }
  }

  /** At every point of every run the list is as long as connCount plus the connections not
      yet counted, so the next index is in range exactly when the list is not empty. */
  lemma IndexInRangeIff(acts: seq<Act>, q: Pool, limits: Limits)
    requires Run(EMPTY, acts, q, limits)
    ensures |q.list| == q.count + |q.uncounted|
    ensures NextIndex(q.index, q.count) < |q.list| <==> q.list != []
  {
    RunKeepsInv(EMPTY, acts, q, limits);
  }

  function Rotations(k: nat): (acts: seq<Act>)
    ensures |acts| == k && forall i :: 0 <= i < k ==> acts[i] == Rotate
  {
    seq(k, _ => Rotate)
  }

  /** As long as the count stays, calls in a row go round the list from the place after the last, so
      that as many of them as there are connections come to each once; an index beyond the end
      comes to the start. */
  lemma {:induction false} RotatesRound(p: Pool, k: nat, q: Pool, limits: Limits)
    requires Run(p, Rotations(k), q, limits) && 0 < k <= p.count
    ensures q == p.(index := q.index)
    ensures p.index < p.count ==> q.index == if p.index + k < p.count then p.index + k else p.index + k - p.count
    ensures p.index >= p.count ==> q.index == k - 1
    decreases k
  {
    assert Rotations(k)[1..] == Rotations(k - 1);
    if k > 1 {
      RotatesRound(Do(p, Rotate), k - 1, q, limits);
    }
  }

  /** From every reachable state the callers under way can give up or finish, and then connCount is
      the length of the list. */
  lemma {:induction false} CanSettle(p: Pool, limits: Limits) returns (acts: seq<Act>, q: Pool)
    requires Inv(p, limits)
    ensures Run(p, acts, q, limits) && q.dialing == 0 && q.list == p.list && q.count == |q.list|
    decreases p.dialing + |p.uncounted|
  {
    if p.dialing == 0 && p.uncounted == {} {
      acts, q := [], p;
    } else {
      var act := DialFails;
      if p.dialing == 0 {
        var c :| c in p.uncounted;
        act := CountUp(c);
      }
      var rest;
      rest, q := CanSettle(Do(p, act), limits);
      acts := [act] + rest;
      assert acts[1..] == rest;
    }
  }

  lemma {:induction false} EmptiedBy(p: Pool, limits: Limits) returns (acts: seq<Act>, q: Pool)
    ensures Run(p, acts, q, limits) && q.list == [] && q.index == p.index
    ensures NextIndex(q.index, q.count) >= |q.list|
    decreases |p.list|
  {
    if p.list == [] {
      acts, q := [], p;
    } else {
      RemovedLength(p.list, p.list[0]);
      var act := Remove(p.list[0]);
      var rest;
      rest, q := EmptiedBy(Do(p, act), limits);
      acts := [act] + rest;
      assert acts[1..] == rest;
    }
  }

  /** getTaskChannel compares connCount with serverKeepConns before it takes the lock. Any
      list that meets any such bound can be emptied in between. */
  lemma EmptiedAfterCheck(p: Pool, limits: Limits)
    ensures exists acts, q :: Run(p, acts, q, limits) && NextIndex(q.index, q.count) >= |q.list|
  {
    var acts, q := EmptiedBy(p, limits);
  }

  /** connCount can be negative for a moment: a connection that fails is taken off the list
      before newConnection has counted it. */
  lemma CountBelowZero(limits: Limits)
    requires limits.max > 0 && limits.callers > 0
    ensures exists acts, q :: Run(EMPTY, acts, q, limits) && q.count == -1
  {
    var c: nat := 0;
    var p1 := Do(EMPTY, Check);
    var p2 := Do(p1, Append(c));
    var q := Do(p2, Remove(c));
    RemovedLength(p2.list, c);
    assert Run(q, [], q, limits);
    RunPrepend(p2, Remove(c), [], q, limits);
    RunPrepend(p1, Append(c), [Remove(c)], q, limits);
    RunPrepend(EMPTY, Check, [Append(c), Remove(c)], q, limits);
  }

  lemma RunPrepend(p: Pool, act: Act, acts: seq<Act>, q: Pool, limits: Limits)
    requires Enabled(p, act, limits) && Run(Do(p, act), acts, q, limits)
    ensures Run(p, [act] + acts, q, limits)
  {
  }

  lemma {:induction false} RunAppend(p: Pool, acts: seq<Act>, q: Pool, act: Act, limits: Limits)
    requires Run(p, acts, q, limits) && Enabled(q, act, limits)
    ensures Run(p, acts + [act], Do(q, act), limits)
    decreases |acts|
  {
    if acts == [] {
      assert Run(Do(q, act), [], Do(q, act), limits);
      RunPrepend(q, act, [], Do(q, act), limits);
    } else {
      RunAppend(Do(p, acts[0]), acts[1..], q, act, limits);
      assert (acts + [act])[1..] == acts[1..] + [act];
    }
  }

  /** The limit is read in one critical section and the connection appended in another: the
      list never exceeds the limit by as much as the number of concurrent callers. */
  lemma ListWithinLimit(acts: seq<Act>, q: Pool, limits: Limits)
    requires Run(EMPTY, acts, q, limits)
    ensures q.list != [] ==> |q.list| <= limits.max + limits.callers - 1
  {
    RunKeepsInv(EMPTY, acts, q, limits);
  }

  /** k connections in turn, then d callers past the check. */
  lemma {:induction false} Fill(k: nat, d: nat, limits: Limits) returns (acts: seq<Act>, q: Pool)
    requires k < limits.max && d <= limits.callers && limits.callers > 0
    ensures Run(EMPTY, acts, q, limits) && |q.list| == k && q.dialing == d
    ensures forall c :: c in q.list || c in q.uncounted ==> c < k
    decreases k, d
  {
    if d > 0 {
      var acts0, q0 := Fill(k, d - 1, limits);
      RunAppend(EMPTY, acts0, q0, Check, limits);
      acts, q := acts0 + [Check], Do(q0, Check);
    } else if k > 0 {
      var acts0, q0 := Fill(k - 1, 1, limits);
      RunAppend(EMPTY, acts0, q0, Append(k - 1), limits);
      acts, q := acts0 + [Append(k - 1)], Do(q0, Append(k - 1));
    } else {
      acts, q := [], EMPTY;
    }
  }

  lemma {:induction false} Land(acts0: seq<Act>, q0: Pool, limits: Limits) returns (acts: seq<Act>, q: Pool)
    requires Run(EMPTY, acts0, q0, limits)
    requires forall c :: c in q0.list || c in q0.uncounted ==> c < |q0.list|
    ensures Run(EMPTY, acts, q, limits) && |q.list| == |q0.list| + q0.dialing
    decreases q0.dialing
  {
    if q0.dialing == 0 {
      acts, q := acts0, q0;
    } else {
      var act := Append(|q0.list|);
      RunAppend(EMPTY, acts0, q0, act, limits);
      acts, q := Land(acts0 + [act], Do(q0, act), limits);
    }
  }

  /** And that bound is reached, whatever the limit and the number of callers. */
  lemma LimitIsOverrun(limits: Limits)
    requires limits.max > 0 && limits.callers > 0
    ensures exists acts, q :: Run(EMPTY, acts, q, limits) && |q.list| == limits.max + limits.callers - 1
  {
    var acts0, q0 := Fill(limits.max - 1, limits.callers, limits);
    var acts, q := Land(acts0, q0, limits);
  }
}
