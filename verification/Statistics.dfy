/** TimeCount and Measure as the objects that are updated in place (statis.go:82-194, 208-258). */
module Statistics {
  import opened Windows

  class TimeCount {
    var rangeCount: seq<RangeStatis>

    constructor ()
      ensures rangeCount == NoRanges()
    {
      rangeCount := NoRanges();
    }

    method Clear()
      modifies this
      ensures rangeCount == NoRanges()
    {
      rangeCount := NoRanges();
    }

    method Record(duration: int, timeRange: int)
      requires |rangeCount| == 8
      modifies this
      ensures rangeCount == Recorded(old(rangeCount), Sample(1, duration, timeRange))
      ensures forall b: nat :: b < 8 ==>
                rangeCount[b] == if InRange(timeRange, b)
                                 then RangeStatis(old(rangeCount[b].duration) + duration, old(rangeCount[b].count) + 1)
                                 else old(rangeCount[b])
    {
      var b := 7;
      if timeRange == 0 {
        b := 0;
      } else if timeRange == 1 {
        b := 1;
      } else if timeRange == 2 {
        b := 2;
      } else if timeRange == 3 {
        b := 3;
      } else if timeRange == 4 {
        b := 4;
      } else if timeRange == 5 {
        b := 5;
      } else if timeRange == 6 {
        b := 6;
      }
      rangeCount := rangeCount[b := RangeStatis(rangeCount[b].duration + duration, rangeCount[b].count + 1)];
    }
  }

  /** All samples so far, in order. */
  function Samples(events: seq<Event>): seq<Sample>
    decreases |events|
  {
    if events == [] then []
    else
      var front := Samples(events[..|events| - 1]);
      match events[|events| - 1]
      case Tick => front
      case Add(s, _) => front + [s]
  }

  lemma AfterAdd(events: seq<Event>, s: Sample, late: lateness)
    ensures After(events + [Add(s, late)]) == Sampled(After(events), s, late)
    ensures CellOf(Samples(events + [Add(s, late)])) == Added(CellOf(Samples(events)), s)
  {
  }

  /** AddObj on each of the eight ranges. */
  function AddRanges(rs: seq<RangeStatis>, more: seq<RangeStatis>): (sum: seq<RangeStatis>)
    requires |rs| == |more| == 8
    ensures |sum| == 8
    ensures forall b :: 0 <= b < 8 ==>
              sum[b] == RangeStatis(rs[b].duration + more[b].duration, rs[b].count + more[b].count)
  {
    seq(8, b requires 0 <= b < 8 => RangeStatis(rs[b].duration + more[b].duration, rs[b].count + more[b].count))
  }

  function AddCells(c: Cell, d: Cell): (sum: Cell)
    requires |c.ranges| == |d.ranges| == 8
    ensures |sum.ranges| == 8
  {
    Cell(c.requests + d.requests, c.duration + d.duration, AddRanges(c.ranges, d.ranges))
  }

  ghost predicate SumsVisited(r: Ring, c: Cell, n: nat)
    requires Shaped(r) && n <= 300 && |c.ranges| == 8
  {
    forall f :: Get(c, f) == Visited(r, f, n)
  }

  /** One turn of the summing loop. */
  lemma AddedUp(r: Ring, c: Cell, n: nat)
    requires Shaped(r) && n < 300 && |c.ranges| == 8 && SumsVisited(r, c, n)
    ensures SumsVisited(r, AddCells(c, r.cells[Visit(r.current, n)]), n + 1)
  {
    var d := r.cells[Visit(r.current, n)];
    forall f ensures Get(AddCells(c, d), f) == Get(c, f) + Get(d, f) {
    }
  }

  class Measure {
    const requests: array<int>
    const durations: array<int>
    const timeCounts: array<TimeCount>
    const allTimeCount: TimeCount
    var allRequests: int
    var allDuration: int
    var currentSecond: nat
    var timeRange: int -> int

    /** The ticks and additions so far. */
    ghost var events: seq<Event>

    ghost predicate Separate()
      reads timeCounts
    {
      && requests.Length == durations.Length == timeCounts.Length == SLOTS && requests != durations
      && (forall i, j :: 0 <= i < j < SLOTS ==> timeCounts[i] != timeCounts[j])
      && (forall i :: 0 <= i < SLOTS ==> timeCounts[i] != allTimeCount)
    }

    /** The slots hold what the ring r says. */
    ghost predicate Shows(r: Ring)
      requires Shaped(r) && Separate()
      reads this`currentSecond, requests, durations, timeCounts, timeCounts[..]
    {
      && currentSecond == r.current
      && forall i :: 0 <= i < SLOTS ==> r.cells[i] == Cell(requests[i], durations[i], timeCounts[i].rangeCount)
    }

    /** The ring is that of the events so far, and so are the all-time totals. */
    ghost predicate Valid()
      reads this, requests, durations, timeCounts, timeCounts[..], allTimeCount
    {
      Separate() && Shows(After(events)) && Totals() == CellOf(Samples(events))
    }

    /** The all-time numbers. */
    function Totals(): Cell
      reads this`allRequests, this`allDuration, allTimeCount
    {
      Cell(allRequests, allDuration, allTimeCount.rangeCount)
    }

    constructor (timeRange: int -> int)
      ensures Valid() && events == [] && this.timeRange == timeRange
    {
      requests := new int[SLOTS](_ => 0);
      durations := new int[SLOTS](_ => 0);
      allTimeCount := new TimeCount();
      var first := new TimeCount();
      timeCounts := new TimeCount[SLOTS](_ => first);
      allRequests, allDuration, currentSecond, events := 0, 0, 0, [];
      this.timeRange := timeRange;
      new;
      var i := 0;
      while i < SLOTS
        invariant i <= SLOTS && fresh(timeCounts) && fresh(allTimeCount) && allTimeCount.rangeCount == NoRanges()
        invariant requests.Length == durations.Length == timeCounts.Length == SLOTS && requests != durations
        invariant forall j :: 0 <= j < SLOTS ==> requests[j] == 0 && durations[j] == 0
        invariant forall j :: 0 <= j < i ==> fresh(timeCounts[j]) && timeCounts[j].rangeCount == NoRanges()
        invariant forall j :: 0 <= j < i ==> timeCounts[j] != allTimeCount
        invariant forall j, k :: 0 <= j < k < i ==> timeCounts[j] != timeCounts[k]
        invariant currentSecond == allRequests == allDuration == 0 && events == [] && this.timeRange == timeRange
        modifies timeCounts
      {
        var c := new TimeCount();
        timeCounts[i] := c;
        i := i + 1;
      }
    }

    method SetTimeRangeFunc(f: int -> int)
      requires Valid()
      modifies this
      ensures Valid() && events == old(events) && timeRange == f
    {
      timeRange := f;
    }

    /** One turn of tickTack in which the second has changed. */
    method TickTack()
      requires Valid()
      modifies this, requests, durations, timeCounts[..]
      ensures Valid() && events == old(events) + [Tick] && timeRange == old(timeRange)
    {
      ghost var r := After(events);
      var idx := currentSecond;
      idx := idx + 1;
      if idx > 300 {
        idx := 0;
      }
      currentSecond := idx;
      var idxNext := idx + 1;
      if idxNext > 300 {
        idxNext := 0;
      }
      requests[idxNext] := 0;
      durations[idxNext] := 0;
      timeCounts[idxNext].Clear();
      events := events + [Tick];
      assert events[..|events| - 1] == old(events);
      assert Shows(Ticked(r));
    }

    /** The part of Add that updates the slot. */
    method AddToSlot(idx: nat, ghost late: lateness, s: Sample, ghost r: Ring)
      requires Shaped(r) && Separate() && Shows(r) && idx == Behind(currentSecond, late)
      modifies requests, durations, timeCounts[idx]
      ensures Shows(Sampled(r, s, late))
    {
      assert timeCounts[idx].rangeCount == r.cells[idx].ranges;
      requests[idx] := requests[idx] + s.count;
      durations[idx] := durations[idx] + s.duration;
      timeCounts[idx].Record(s.duration, s.timeRange);
    }

    /** The part of Add that updates the all-time numbers. */
    method AddToTotals(s: Sample)
      requires |allTimeCount.rangeCount| == 8
      modifies this`allRequests, this`allDuration, allTimeCount
      ensures Totals() == Added(old(Totals()), s)
    {
      allRequests := allRequests + s.count;
      allDuration := allDuration + s.duration;
      allTimeCount.Record(s.duration, s.timeRange);
    }

    /** What Add does once it has read the current slot, late ticks ago. */
    method AddAt(idx: nat, ghost late: lateness, cnt: int, dur: int)
      requires Valid() && currentSecond < SLOTS && idx == Behind(currentSecond, late)
      modifies this`allRequests, this`allDuration, this`events, requests, durations, timeCounts[..], allTimeCount
      ensures Valid()
      ensures events == old(events) + [Event.Add(Sample(cnt, dur, timeRange(dur)), late)]
    {
      hide After, Samples, CellOf, Sampled, Added;
      var s := Sample(cnt, dur, timeRange(dur));
      ghost var r, all := After(events), CellOf(Samples(events));
      AddToSlot(idx, late, s, r);
      assert Totals() == all;
      AddToTotals(s);
      assert Shows(Sampled(r, s, late));
      AfterAdd(events, s, late);
      events := events + [Event.Add(s, late)];
    }

    method Add(cnt: int, dur: int)
      requires Valid()
      modifies this`allRequests, this`allDuration, this`events, requests, durations, timeCounts[..], allTimeCount
      ensures Valid()
      ensures events == old(events) + [Event.Add(Sample(cnt, dur, timeRange(dur)), 0)]
    {
      var idx := currentSecond;
      AddAt(idx, 0, cnt, dur);
    }

    /** The summing loop of String. */
    method Report() returns (c: Cell)
      requires Valid()
      ensures |c.ranges| == 8 && SumsVisited(After(events), c, 300)
    {
      ghost var r := After(events);
      var idx := currentSecond;
      var req5, dur5 := 0, 0;
      var ranges := NoRanges();
      var i := 0;
      while i < 300
        invariant i <= 300 && |ranges| == 8
        invariant i < 300 ==> idx == Visit(r.current, i)
        invariant SumsVisited(r, Cell(req5, dur5, ranges), i)
      {
        AddedUp(r, Cell(req5, dur5, ranges), i);
        assert r.cells[idx] == Cell(requests[idx], durations[idx], timeCounts[idx].rangeCount);
        dur5 := dur5 + durations[idx];
        req5 := req5 + requests[idx];
        ranges := AddRanges(ranges, timeCounts[idx].rangeCount);
        idx := idx + 1;
        if idx >= 300 {
          idx := 0;
        }
        i := i + 1;
      }
      c := Cell(req5, dur5, ranges);
    }
  }
}
