/** The five-minute window of the statistics as values: the ring of 301 slots against the log
    of what was added in each tick, and the histogram of durations (statis.go:16-122, 156-194). */
module Windows {
  /** One of the eight ranges of a histogram. */
  type range8 = b: nat | b < 8

  datatype RangeStatis = RangeStatis(duration: int, count: int)

  /** What one slot of the ring holds: a request count, a duration and a histogram. */
  datatype Cell = Cell(requests: int, duration: int, ranges: seq<RangeStatis>)

  /** One call of Measure.Add, with the value the range function gave for its duration. */
  datatype Sample = Sample(count: int, duration: int, timeRange: int)

  const SLOTS := 301

  function NoRanges(): (rs: seq<RangeStatis>)
    ensures |rs| == 8
  {
    var z := RangeStatis(0, 0);
    [z, z, z, z, z, z, z, z]
  }

  const ZERO := Cell(0, 0, NoRanges())

  /** The switch in Record: anything that is not one of the first seven goes to the last. */
  function RangeIndex(timeRange: int): range8 {
    if 0 <= timeRange <= 6 then timeRange else 7
  }

  function Recorded(rs: seq<RangeStatis>, s: Sample): (rs': seq<RangeStatis>)
    requires |rs| == 8
    ensures |rs'| == 8
  {
    var b := RangeIndex(s.timeRange);
    rs[b := RangeStatis(rs[b].duration + s.duration, rs[b].count + 1)]
  }

  function Added(c: Cell, s: Sample): (c': Cell)
    requires |c.ranges| == 8
    ensures |c'.ranges| == 8
  {
    Cell(c.requests + s.count, c.duration + s.duration, Recorded(c.ranges, s))
  }

  /** What a cell holds after these samples. */
  function CellOf(samples: seq<Sample>): (c: Cell)
    ensures |c.ranges| == 8
    decreases |samples|
  {
    if samples == [] then ZERO
    else Added(CellOf(samples[..|samples| - 1]), samples[|samples| - 1])
  }

  /** The first seven ranges are those of their own number, the last takes every other. */
  predicate InRange(timeRange: int, b: range8) {
    if b < 7 then timeRange == b else timeRange < 0 || timeRange > 6
  }

  /** The samples of range b, in order. */
  function Those(samples: seq<Sample>, b: range8): seq<Sample>
    decreases |samples|
  {
    if samples == [] then []
    else
      var s := samples[|samples| - 1];
      Those(samples[..|samples| - 1], b) + if InRange(s.timeRange, b) then [s] else []
  }

  function Durations(samples: seq<Sample>): int
    decreases |samples|
  {
    if samples == [] then 0 else Durations(samples[..|samples| - 1]) + samples[|samples| - 1].duration
  }

  function Counts(samples: seq<Sample>): int
    decreases |samples|
  {
    if samples == [] then 0 else Counts(samples[..|samples| - 1]) + samples[|samples| - 1].count
  }

  /** A cell holds the counts and durations of its samples, and each range of its histogram the
      number and the total duration of the samples in that range. */
  lemma {:induction false} CellHolds(samples: seq<Sample>)
    ensures
      var c := CellOf(samples);
      && c.requests == Counts(samples) && c.duration == Durations(samples)
      && forall b: nat :: b < 8 ==> c.ranges[b] == RangeStatis(Durations(Those(samples, b)), |Those(samples, b)|)
    decreases |samples|
  {
    hide Recorded, Those, InRange;
    if samples == [] {
      NothingInRange();
    } else {
      var front, s := samples[..|samples| - 1], samples[|samples| - 1];
      assert samples == front + [s];
      CellHolds(front);
      forall b: nat | b < 8
        ensures CellOf(samples).ranges[b] == RangeStatis(Durations(Those(samples, b)), |Those(samples, b)|)
      {
        MoreInRange(front, s, b);
        RecordedIn(CellOf(front).ranges, s, b);
      }
    }
  }

  lemma NothingInRange()
    ensures forall b: nat :: b < 8 ==> Those([], b) == [] && NoRanges()[b] == RangeStatis(0, 0)
  {
  }

  lemma RecordedIn(rs: seq<RangeStatis>, s: Sample, b: range8)
    requires |rs| == 8
    ensures Recorded(rs, s)[b] == if InRange(s.timeRange, b) then RangeStatis(rs[b].duration + s.duration, rs[b].count + 1) else rs[b]
  {
  }

  lemma MoreInRange(front: seq<Sample>, s: Sample, b: range8)
    ensures Those(front + [s], b) == Those(front, b) + if InRange(s.timeRange, b) then [s] else []
    ensures Durations(Those(front + [s], b)) == Durations(Those(front, b)) + if InRange(s.timeRange, b) then s.duration else 0
  {
    assert (front + [s])[..|front|] == front;
    var those := Those(front, b);
    assert (those + [s])[..|those|] == those;
    assert those + [] == those;
  }

  datatype Ring = Ring(cells: seq<Cell>, current: nat)

  ghost predicate Shaped(r: Ring) {
    && |r.cells| == SLOTS && r.current < SLOTS
    && forall i :: 0 <= i < SLOTS ==> |r.cells[i].ranges| == 8
  }

  function Next(i: nat): nat {
    if i + 1 > 300 then 0 else i + 1
  }

  /** The slot k places behind slot i. */
  function Behind(i: nat, k: nat): nat
    requires i < SLOTS && k < SLOTS
  {
    if i >= k then i - k else i + SLOTS - k
  }

  function New(): (r: Ring)
    ensures Shaped(r) && r.current == 0 && forall i :: 0 <= i < SLOTS ==> r.cells[i] == ZERO
  {
    Ring(seq(SLOTS, _ => ZERO), 0)
  }

  function Ticked(r: Ring): (r': Ring)
    requires Shaped(r)
    ensures Shaped(r')
  {
    var i := Next(r.current);
    Ring(r.cells[Next(i) := ZERO], i)
  }

  /** How many ticks pass between an addition's reading the current slot and its updating it. */
  type lateness = k: nat | k < 300

  function Sampled(r: Ring, s: Sample, late: lateness): (r': Ring)
    requires Shaped(r)
    ensures Shaped(r')
  {
    var i := Behind(r.current, late);
    Ring(r.cells[i := Added(r.cells[i], s)], r.current)
  }

  datatype Event = Tick | Add(s: Sample, late: lateness)

  function After(events: seq<Event>): (r: Ring)
    ensures Shaped(r)
    decreases |events|
  {
    if events == [] then New()
    else
      var r := After(events[..|events| - 1]);
      match events[|events| - 1]
      case Tick => Ticked(r)
      case Add(s, late) => Sampled(r, s, late)
  }

  /** The log: for each tick, the samples whose addition read the slot before the next one;
      nothing was added in the ticks before the first. */
  function Log(events: seq<Event>): (h: seq<seq<Sample>>)
    ensures |h| >= 300
    decreases |events|
  {
    if events == [] then seq(300, _ => [])
    else
      var h := Log(events[..|events| - 1]);
      match events[|events| - 1]
      case Tick => h + [[]]
      case Add(s, late) => h[|h| - 1 - late := h[|h| - 1 - late] + [s]]
  }

  /** What was added during the k-th last tick. */
  function Ago(h: seq<seq<Sample>>, k: nat): seq<Sample> {
    if k < |h| then h[|h| - 1 - k] else []
  }

  ghost predicate Refines(r: Ring, h: seq<seq<Sample>>)
    requires Shaped(r)
  {
    && r.cells[Next(r.current)] == ZERO
    && forall k: nat :: k < 300 ==> r.cells[Behind(r.current, k)] == CellOf(Ago(h, k))
  }

  lemma TickRefines(r: Ring, h: seq<seq<Sample>>)
    requires Shaped(r) && Refines(r, h) && |h| > 0
    ensures Refines(Ticked(r), h + [[]])
  {
    var r' := Ticked(r);
    forall k: nat | k < 300 ensures r'.cells[Behind(r'.current, k)] == CellOf(Ago(h + [[]], k)) {
      if k > 0 {
        assert Behind(r'.current, k) == Behind(r.current, k - 1);
        assert Ago(h + [[]], k) == Ago(h, k - 1);
      }
    }
  }

  lemma SampleRefines(r: Ring, h: seq<seq<Sample>>, s: Sample, late: lateness)
    requires Shaped(r) && Refines(r, h) && |h| >= 300
    ensures Refines(Sampled(r, s, late), h[|h| - 1 - late := h[|h| - 1 - late] + [s]])
  {
    var h' := h[|h| - 1 - late := h[|h| - 1 - late] + [s]];
    var r' := Sampled(r, s, late);
    forall k: nat | k < 300 ensures r'.cells[Behind(r'.current, k)] == CellOf(Ago(h', k)) {
      assert Behind(r.current, k) == Behind(r.current, late) <==> k == late;
      if k == late {
        assert Ago(h', k) == Ago(h, k) + [s];
      } else {
        assert Ago(h', k) == Ago(h, k);
      }
    }
  }

  lemma NothingRefines()
    ensures Refines(New(), seq(300, _ => []))
  {
    var h: seq<seq<Sample>> := seq(300, _ => []);
    forall k: nat | k < 300 ensures New().cells[Behind(0, k)] == CellOf(Ago(h, k)) {
      assert Ago(h, k) == [];
    }
  }

  /** After any ticks and additions, with ticks in the middle of additions, the slot k places
      behind the current one holds exactly what was added during the k-th last tick, for the
      last 300 ticks, and the slot ahead of it is empty. */
  lemma {:induction false} RingRefinesLog(events: seq<Event>)
    ensures Refines(After(events), Log(events))
    decreases |events|
  {
    hide Refines, Ticked, Sampled;
    if events == [] {
      NothingRefines();
    } else {
      var front := events[..|events| - 1];
      RingRefinesLog(front);
      match events[|events| - 1]
      case Tick => TickRefines(After(front), Log(front));
      case Add(s, late) => SampleRefines(After(front), Log(front), s, late);
    }
  }

  /** A cell as eighteen numbers. */
  datatype Field = Requests | Duration | RangeCount(b: range8) | RangeDuration(b: range8)

  function Get(c: Cell, f: Field): int
    requires |c.ranges| == 8
  {
    match f
    case Requests => c.requests
    case Duration => c.duration
    case RangeCount(b) => c.ranges[b].count
    case RangeDuration(b) => c.ranges[b].duration
  }

  lemma SameFields(c: Cell, d: Cell)
    requires |c.ranges| == 8 && |d.ranges| == 8 && forall f :: Get(c, f) == Get(d, f)
    ensures c == d
  {
    assert Get(c, Requests) == Get(d, Requests) && Get(c, Duration) == Get(d, Duration);
    forall b: nat | b < 8 ensures c.ranges[b] == d.ranges[b] {
      assert Get(c, RangeCount(b)) == Get(d, RangeCount(b)) && Get(c, RangeDuration(b)) == Get(d, RangeDuration(b));
    }
  }

  function Total(r: Ring, f: Field, lo: nat, hi: nat): int
    requires Shaped(r) && lo <= hi <= SLOTS
    decreases hi
  {
    if lo == hi then 0 else Total(r, f, lo, hi - 1) + Get(r.cells[hi - 1], f)
  }

  lemma {:induction false} TotalSplit(r: Ring, f: Field, lo: nat, mid: nat, hi: nat)
    requires Shaped(r) && lo <= mid <= hi <= SLOTS
    ensures Total(r, f, lo, hi) == Total(r, f, lo, mid) + Total(r, f, mid, hi)
    decreases hi
  {
    if mid < hi {
      TotalSplit(r, f, lo, mid, hi - 1);
    }
  }

  lemma TotalFirst(r: Ring, f: Field, lo: nat, hi: nat)
    requires Shaped(r) && lo < hi <= SLOTS
    ensures Total(r, f, lo, hi) == Get(r.cells[lo], f) + Total(r, f, lo + 1, hi)
  {
    TotalSplit(r, f, lo, lo + 1, hi);
  }

  /** What was added in the last n ticks. */
  function LogTotal(h: seq<seq<Sample>>, f: Field, n: nat): int
    decreases n
  {
    if n == 0 then 0 else LogTotal(h, f, n - 1) + Get(CellOf(Ago(h, n - 1)), f)
  }

  lemma RefinesAt(r: Ring, h: seq<seq<Sample>>, k: nat)
    requires Shaped(r) && Refines(r, h) && k < 300
    ensures r.cells[Behind(r.current, k)] == CellOf(Ago(h, k))
  {
  }

  /** The slots behind the current one, down to the start of the ring. */
  lemma {:induction false} RecentTotal(r: Ring, h: seq<seq<Sample>>, f: Field, n: nat)
    requires Shaped(r) && Refines(r, h) && n <= 300 && n <= r.current + 1
    ensures LogTotal(h, f, n) == Total(r, f, r.current + 1 - n, r.current + 1)
    decreases n
  {
    hide Refines, CellOf;
    if n > 0 {
      RecentTotal(r, h, f, n - 1);
      var lo := r.current + 1 - n;
      assert Behind(r.current, n - 1) == lo;
      RefinesAt(r, h, n - 1);
      TotalFirst(r, f, lo, r.current + 1);
    }
  }

  /** The slots that come after the wrap. */
  lemma {:induction false} OlderTotal(r: Ring, h: seq<seq<Sample>>, f: Field, n: nat)
    requires Shaped(r) && Refines(r, h) && r.current + 1 <= n <= 300
    ensures LogTotal(h, f, n) == LogTotal(h, f, r.current + 1) + Total(r, f, r.current + 1 + SLOTS - n, SLOTS)
    decreases n
  {
    hide Refines, CellOf;
    if n > r.current + 1 {
      OlderTotal(r, h, f, n - 1);
      var lo := r.current + 1 + SLOTS - n;
      assert Behind(r.current, n - 1) == lo;
      RefinesAt(r, h, n - 1);
      TotalFirst(r, f, lo, SLOTS);
    }
  }

  lemma ZeroField(f: Field)
    ensures Get(ZERO, f) == 0
  {
  }

  /** The whole ring holds the last 300 ticks and nothing else. */
  lemma RingTotal(r: Ring, h: seq<seq<Sample>>, f: Field)
    requires Shaped(r) && Refines(r, h)
    ensures Total(r, f, 0, SLOTS) == LogTotal(h, f, 300)
  {
    ZeroField(f);
    var i := Next(r.current);
    TotalSplit(r, f, 0, i, SLOTS);
    TotalFirst(r, f, i, SLOTS);
    if r.current == 300 {
      RecentTotal(r, h, f, 300);
    } else {
      RecentTotal(r, h, f, r.current + 1);
      OlderTotal(r, h, f, 300);
    }
  }

  /** The summing loop of String starts at the current slot and wraps at 300. */
  function Visit(current: nat, i: nat): nat
    requires current < SLOTS && i < 300
  {
    if current == 300 then (if i == 0 then 300 else i - 1)
    else if current + i < 300 then current + i else current + i - 300
  }

  function Visited(r: Ring, f: Field, n: nat): int
    requires Shaped(r) && n <= 300
    decreases n
  {
    if n == 0 then 0 else Visited(r, f, n - 1) + Get(r.cells[Visit(r.current, n - 1)], f)
  }

  /** The slot the loop never comes to. */
  function Skipped(current: nat): nat {
    if current == 300 then 299 else 300
  }

  lemma {:induction false} VisitedUp(r: Ring, f: Field, n: nat)
    requires Shaped(r) && n <= 300 && r.current < 300
    ensures r.current + n <= 300 ==> Visited(r, f, n) == Total(r, f, r.current, r.current + n)
    ensures r.current + n > 300 ==>
      Visited(r, f, n) == Total(r, f, r.current, 300) + Total(r, f, 0, r.current + n - 300)
    decreases n
  {
    if n > 0 {
      VisitedUp(r, f, n - 1);
    }
  }

  lemma {:induction false} VisitedLast(r: Ring, f: Field, n: nat)
    requires Shaped(r) && 0 < n <= 300 && r.current == 300
    ensures Visited(r, f, n) == Get(r.cells[300], f) + Total(r, f, 0, n - 1)
    decreases n
  {
    if n > 1 {
      VisitedLast(r, f, n - 1);
    }
  }

  /** What String reports is what was added in the last 300 ticks less what the skipped slot holds. */
  lemma ReportedTotal(events: seq<Event>, f: Field)
    ensures var r := After(events); Visited(r, f, 300) == LogTotal(Log(events), f, 300) - Get(r.cells[Skipped(r.current)], f)
  {
    var r := After(events);
    RingRefinesLog(events);
    RingTotal(r, Log(events), f);
    if r.current == 300 {
      VisitedLast(r, f, 300);
    } else {
      VisitedUp(r, f, 300);
      TotalSplit(r, f, 0, r.current, 300);
    }
  }

  /** How many ticks ago the skipped slot was the current one. */
  function MissedTick(current: nat): nat {
    if current == 300 then 1 else current + 1
  }

  function CountSum(rs: seq<RangeStatis>, n: nat): int
    requires n <= |rs|
    decreases n
  {
    if n == 0 then 0 else CountSum(rs, n - 1) + rs[n - 1].count
  }

  function DurationSum(rs: seq<RangeStatis>, n: nat): int
    requires n <= |rs|
    decreases n
  {
    if n == 0 then 0 else DurationSum(rs, n - 1) + rs[n - 1].duration
  }

  lemma {:induction false} RecordSums(rs: seq<RangeStatis>, s: Sample, n: nat)
    requires |rs| == 8 && n <= 8
    ensures CountSum(Recorded(rs, s), n) == CountSum(rs, n) + if RangeIndex(s.timeRange) < n then 1 else 0
    ensures DurationSum(Recorded(rs, s), n) == DurationSum(rs, n) + if RangeIndex(s.timeRange) < n then s.duration else 0
    decreases n
  {
    if n > 0 {
      RecordSums(rs, s, n - 1);
    }
  }

  lemma {:induction false} NoSums(n: nat)
    requires n <= 8
    ensures CountSum(NoRanges(), n) == 0 && DurationSum(NoRanges(), n) == 0
    decreases n
  {
    if n > 0 {
      NoSums(n - 1);
    }
  }

  /** Whatever the range function returns, the histogram's counts add up to the number of
      samples and its durations to their total duration. */
  lemma {:induction false} HistogramConserves(samples: seq<Sample>)
    ensures CountSum(CellOf(samples).ranges, 8) == |samples|
    ensures DurationSum(CellOf(samples).ranges, 8) == CellOf(samples).duration
    ensures forall b: nat :: b < 8 ==> CellOf(samples).ranges[b].count >= 0
    decreases |samples|
  {
    if samples == [] {
      NoSums(8);
    } else {
      var front := samples[..|samples| - 1];
      HistogramConserves(front);
      RecordSums(CellOf(front).ranges, samples[|samples| - 1], 8);
    }
  }

  /** Every sample is counted in some range, so a cell is empty only if nothing was added. */
  lemma ZeroIffNone(samples: seq<Sample>)
    ensures CellOf(samples) == ZERO <==> samples == []
  {
    HistogramConserves(samples);
    NoSums(8);
  }

  /** Every number of the report is the true total of the last 300 ticks. */
  ghost predicate ReportExact(events: seq<Event>) {
    forall f :: Visited(After(events), f, 300) == LogTotal(Log(events), f, 300)
  }

  lemma MissedCell(events: seq<Event>)
    ensures
      var r := After(events);
      r.cells[Skipped(r.current)] ==
        if r.current == 299 then ZERO else CellOf(Ago(Log(events), MissedTick(r.current)))
  {
    RingRefinesLog(events);
    var r := After(events);
    if r.current != 299 {
      assert Behind(r.current, MissedTick(r.current)) == Skipped(r.current);
    }
  }

  lemma ExactIffZero(events: seq<Event>, missed: Cell)
    requires missed == After(events).cells[Skipped(After(events).current)]
    ensures ReportExact(events) <==> missed == ZERO
  {
    hide After, Log, Visited, LogTotal;
    forall f ensures Visited(After(events), f, 300) == LogTotal(Log(events), f, 300) - Get(missed, f) && Get(ZERO, f) == 0 {
      ReportedTotal(events, f);
      ZeroField(f);
    }
    if ReportExact(events) {
      forall f ensures Get(missed, f) == Get(ZERO, f) {
        assert Visited(After(events), f, 300) == LogTotal(Log(events), f, 300);
      }
      SameFields(missed, ZERO);
    }
  }

  /** The report is right exactly when the current slot is 299 or nothing was added during the
      one tick it leaves out. */
  lemma ReportExactIff(events: seq<Event>)
    ensures
      var current := After(events).current;
      ReportExact(events) <==> current == 299 || Ago(Log(events), MissedTick(current)) == []
  {
    MissedCell(events);
    ZeroIffNone(Ago(Log(events), MissedTick(After(events).current)));
    ExactIffZero(events, After(events).cells[Skipped(After(events).current)]);
  }

  function Ticks(n: nat): (events: seq<Event>)
    ensures |events| == n
  {
    seq(n, _ => Tick)
  }

  lemma {:induction false} TicksTo(n: nat)
    requires n <= 300
    ensures After(Ticks(n)).current == n && Log(Ticks(n))[|Log(Ticks(n))| - 1] == []
    decreases n
  {
    if n > 0 {
      TicksTo(n - 1);
      assert Ticks(n)[..n - 1] == Ticks(n - 1);
    }
  }

  lemma {:induction false} TicksLog(events: seq<Event>, k: nat)
    requires k < SLOTS
    ensures Ago(Log(events + Ticks(k)), k) == Ago(Log(events), 0)
    decreases k
  {
    hide After;
    if k == 0 {
      assert events + Ticks(0) == events;
    } else {
      TicksLog(events, k - 1);
      TickMore(events, k);
    }
  }

  lemma TickMore(events: seq<Event>, k: nat)
    requires k > 0
    ensures events + Ticks(k) == (events + Ticks(k - 1)) + [Tick]
    ensures Log(events + Ticks(k)) == Log(events + Ticks(k - 1)) + [[]]
    ensures After(events + Ticks(k)) == Ticked(After(events + Ticks(k - 1)))
  {
    hide Ticked;
    assert (events + Ticks(k))[..|events| + k - 1] == events + Ticks(k - 1);
  }

  lemma {:induction false} TicksAfter(events: seq<Event>, k: nat)
    requires k < SLOTS
    ensures After(events + Ticks(k)).current ==
            var c := After(events).current; if c + k < SLOTS then c + k else c + k - SLOTS
    decreases k
  {
    hide After, Log;
    if k == 0 {
      assert events + Ticks(0) == events;
    } else {
      TicksAfter(events, k - 1);
      TickMore(events, k);
    }
  }

  /** A sample at slot lead, then k more ticks. */
  function SampleThenTicks(lead: nat, s: Sample, k: nat): seq<Event> {
    Ticks(lead) + [Add(s, 0)] + Ticks(k)
  }

  lemma SampleAgo(lead: nat, s: Sample, k: nat)
    requires lead <= 300 && k < SLOTS
    ensures
      var events := SampleThenTicks(lead, s, k);
      Ago(Log(events), k) == [s] && After(events).current == if lead + k < SLOTS then lead + k else lead + k - SLOTS
  {
    hide After, Log;
    var events := Ticks(lead) + [Add(s, 0)];
    AddedLast(lead, s);
    TicksAfter(events, k);
    TicksLog(events, k);
  }

  lemma AddedNow(events: seq<Event>, s: Sample)
    ensures Ago(Log(events + [Add(s, 0)]), 0) == Ago(Log(events), 0) + [s]
    ensures After(events + [Add(s, 0)]).current == After(events).current
  {
    assert (events + [Add(s, 0)])[..|events|] == events;
  }

  lemma AddedLast(lead: nat, s: Sample)
    requires lead <= 300
    ensures
      var events := Ticks(lead) + [Add(s, 0)];
      Ago(Log(events), 0) == [s] && After(events).current == lead
  {
    hide After, Log;
    TicksTo(lead);
    AddedNow(Ticks(lead), s);
    assert [] + [s] == [s];
  }

  /** Exact in every history only at slot 299: at any other slot a sample added the right
      number of ticks before is missing from the report. */
  lemma ReportMisses(current: nat, s: Sample)
    requires current <= 300 && current != 299
    ensures exists events :: After(events).current == current && !ReportExact(events)
  {
    var k := MissedTick(current);
    SampleAgo(Skipped(current), s, k);
    ReportExactIff(SampleThenTicks(Skipped(current), s, k));
  }

  /** What a range's count is divided by: the total, or 1 when that is 0. */
  function Divisor(rs: seq<RangeStatis>): int
    requires |rs| == 8
  {
    if CountSum(rs, 8) == 0 then 1 else CountSum(rs, 8)
  }

  function PercentSum(rs: seq<RangeStatis>, n: nat): int
    requires |rs| == 8 && n <= 8 && Divisor(rs) > 0
    decreases n
  {
    if n == 0 then 0 else PercentSum(rs, n - 1) + rs[n - 1].count * 100 / Divisor(rs)
  }

  lemma PercentStep(t: nat, p: int, count: int, x: nat, n: int)
    requires t > 0 && t * p <= 100 * count <= t * p + (n - 1) * (t - 1)
    ensures t * (p + x * 100 / t) <= 100 * (count + x) <= t * (p + x * 100 / t) + n * (t - 1)
  {
  }

  lemma {:induction false} PercentBounds(rs: seq<RangeStatis>, n: nat, t: nat)
    requires |rs| == 8 && n <= 8 && forall b: nat :: b < 8 ==> rs[b].count >= 0
    requires t == Divisor(rs) && t > 0
    ensures t * PercentSum(rs, n) <= 100 * CountSum(rs, n) <= t * PercentSum(rs, n) + n * (t - 1)
    decreases n
  {
    if n > 0 {
      PercentBounds(rs, n - 1, t);
      PercentStep(t, PercentSum(rs, n - 1), CountSum(rs, n - 1), rs[n - 1].count, n);
    }
  }

  lemma LessThanTimes(t: nat, p: int)
    requires t > 0 && t * p <= 100 * t <= t * p + 8 * (t - 1)
    ensures 93 <= p <= 100
  {
  }

  lemma {:induction false} CountSumPositive(rs: seq<RangeStatis>, n: nat)
    requires n <= |rs| && forall b: nat :: b < |rs| ==> rs[b].count >= 0
    ensures CountSum(rs, n) >= 0
    decreases n
  {
    if n > 0 {
      CountSumPositive(rs, n - 1);
    }
  }

  /** The eight floored percentages lose at most seven points between them. */
  lemma PercentagesAddUp(rs: seq<RangeStatis>)
    requires |rs| == 8 && forall b: nat :: b < 8 ==> rs[b].count >= 0
    ensures Divisor(rs) > 0
    ensures if CountSum(rs, 8) == 0 then PercentSum(rs, 8) == 0 else 93 <= PercentSum(rs, 8) <= 100
  {
    CountSumPositive(rs, 8);
    PercentBounds(rs, 8, Divisor(rs));
    if CountSum(rs, 8) > 0 {
      LessThanTimes(CountSum(rs, 8), PercentSum(rs, 8));
    }
  }

  /** Seven points can be lost: one sample in each of seven ranges and ten in the last. */
  lemma SevenPointsLost()
    ensures exists rs: seq<RangeStatis> ::
              && |rs| == 8 && (forall b: nat :: b < 8 ==> rs[b].count >= 0)
              && Divisor(rs) > 0 && PercentSum(rs, 8) == 93
  {
    var r := RangeStatis(0, 1);
    var rs := [r, r, r, r, r, r, r, RangeStatis(0, 10)];
    assert CountSum(rs, 4) == 4;
    assert CountSum(rs, 8) == 17;
    assert PercentSum(rs, 4) == 20;
    assert PercentSum(rs, 8) == 93;
  }
}
