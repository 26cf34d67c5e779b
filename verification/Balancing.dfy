/** Backend selection of the load balancer (lbclient.go:265-299, 372-411). */
module Balancing {
  import opened Packets
  import opened Weights

  const MIN64 := -0x8000_0000_0000_0000
  const MAX64 := 0x7fff_ffff_ffff_ffff

  type int64 = x: int | MIN64 <= x <= MAX64

  const TWO64 := 0x1_0000_0000_0000_0000

  /** Go's ++, which wraps around. */
  function Increment(x: int64): (y: int64)
    ensures y == x + 1 || y == x + 1 - TWO64
  {
    if x == MAX64 then MIN64 else x + 1
  }

  /** Go's %, which truncates toward zero. */
  function Remainder(x: int, n: nat): int
    requires n > 0
  {
    if x >= 0 then x % n else -((-x) % n)
  }

  /** The backend at an index, no backend alive, or an index outside the list (a panic). */
  datatype Choice = Chosen(index: nat) | NoneAlive | Panic

  /** A multiple of n stays one under negation. */
  lemma NegatedRemainder(x: int, n: nat)
    requires n > 0
    ensures -x % n == 0 <==> x % n == 0
  {
    var q, q' := x / n, -x / n;
    assert x == n * q + x % n && -x == n * q' + -x % n;
    assert x % n + -x % n == n * -(q + q');
    if x % n + -x % n > 0 {
      MultipleBetween(x % n + -x % n, n, -(q + q'));
    }
  }

  /** Between 0 and 2n there is one multiple of n. */
  lemma MultipleBetween(x: int, n: nat, q: int)
    requires 0 < x == n * q < 2 * n
    ensures x == n
  {
    if q >= 2 {
      AtLeastOnce(q - 1, n);
    } else if q <= 0 {
      AtLeastOnce(1 - q, n);
    }
  }

  lemma AtLeastOnce(a: int, n: nat)
    requires a >= 1
    ensures a * n >= n
  {
  }

  /** The round robin choice: the index modulo the list, truncated toward zero as Go does, and a
      panic where that is negative. */
  function Picked(idx: int64, n: nat): (c: Choice)
    requires n > 0
    ensures c.Chosen? ==> c.index < n
    ensures idx >= 0 ==> c == Chosen(idx % n)
    ensures idx < 0 ==> c == if idx % n == 0 then Chosen(0) else Panic
  {
    NegatedRemainder(idx, n);
    var i := Remainder(idx, n);
    if i < 0 then Panic else Chosen(i)
  }

  /** The position d places after s on a ring of n. */
  function At(s: nat, d: nat, n: nat): (i: nat)
    requires s < n && d <= n
    ensures i < n
  {
    if s + d < n then s + d else s + d - n
  }

  /** Among the eligible, i has the least load and is the first such on the ring from s. */
  ghost predicate FirstLeast(loads: seq<int>, eligible: seq<bool>, s: nat, i: nat)
    requires |loads| == |eligible| && s < |loads|
  {
    exists d: nat :: d < |loads| && i == At(s, d, |loads|) && LeastAt(loads, eligible, s, d, |loads|)
  }

  /** The same among the first k positions of the ring. */
  ghost predicate LeastAt(loads: seq<int>, eligible: seq<bool>, s: nat, d: nat, k: nat)
    requires |loads| == |eligible| && s < |loads| && d < k <= |loads|
  {
    && eligible[At(s, d, |loads|)]
    && forall e: nat :: e < k && eligible[At(s, e, |loads|)] ==>
         && loads[At(s, d, |loads|)] <= loads[At(s, e, |loads|)]
         && (e < d ==> loads[At(s, d, |loads|)] < loads[At(s, e, |loads|)])
  }

  ghost predicate NoneBelow(eligible: seq<bool>, s: nat, k: nat)
    requires s < |eligible| && k <= |eligible|
  {
    forall e: nat :: e < k ==> !eligible[At(s, e, |eligible|)]
  }

  lemma NoneBelowNext(eligible: seq<bool>, s: nat, k: nat)
    requires s < |eligible| && k < |eligible| && (k == 0 || NoneBelow(eligible, s, k))
    ensures NoneBelow(eligible, s, k) && (NoneBelow(eligible, s, k + 1) <==> !eligible[At(s, k, |eligible|)])
  {
  }

  /** The scan comes to the next place: the least so far stays, or that place is the least. */
  lemma LeastNext(loads: seq<int>, eligible: seq<bool>, s: nat, d: nat, k: nat)
    requires |loads| == |eligible| && s < |loads| && d < k < |loads| && LeastAt(loads, eligible, s, d, k)
    ensures
      var n := |loads|;
      if eligible[At(s, k, n)] && loads[At(s, k, n)] < loads[At(s, d, n)] then LeastAt(loads, eligible, s, k, k + 1)
      else LeastAt(loads, eligible, s, d, k + 1)
    ensures !NoneBelow(eligible, s, k + 1)
  {
  }

  lemma FirstEligible(loads: seq<int>, eligible: seq<bool>, s: nat, k: nat)
    requires |loads| == |eligible| && s < |loads| && k < |loads|
    requires NoneBelow(eligible, s, k) && eligible[At(s, k, |loads|)]
    ensures LeastAt(loads, eligible, s, k, k + 1)
  {
  }

  lemma ThereIsOne(eligible: seq<bool>, s: nat, k: nat)
    requires s < |eligible| && k <= |eligible| && !NoneBelow(eligible, s, k)
    ensures true in eligible
  {
  }

  /** The ring passes every position. */
  lemma NoneLeft(eligible: seq<bool>, s: nat)
    requires s < |eligible| && NoneBelow(eligible, s, |eligible|)
    ensures true !in eligible
  {
    var n := |eligible|;
    forall i | 0 <= i < n ensures !eligible[i] {
      assert i == At(s, if i >= s then i - s else i - s + n, n);
    }
  }

  /** The early exit: where no load is negative, nothing is below zero. */
  lemma LeastOfTheRest(loads: seq<int>, eligible: seq<bool>, s: nat, d: nat, k: nat)
    requires |loads| == |eligible| && s < |loads| && d < k <= |loads| && LeastAt(loads, eligible, s, d, k)
    requires NonNegative(loads) && (k == |loads| || loads[At(s, d, |loads|)] == 0)
    ensures FirstLeast(loads, eligible, s, At(s, d, |loads|))
  {
  }

  ghost predicate NonNegative(loads: seq<int>) {
    forall i :: 0 <= i < |loads| ==> loads[i] >= 0
  }

  function All(n: nat): (s: seq<bool>)
    ensures |s| == n && forall i :: 0 <= i < n ==> s[i]
  {
    seq(n, _ => true)
  }

  predicate AllAbove(loads: seq<int>, x: int) {
    forall i :: 0 <= i < |loads| ==> x < loads[i]
  }

  /** The backend at the start if it has no load or, at the second look, less than any other;
      else the first least loaded one. */
  ghost predicate MinPendingChoice(loads: seq<int>, again: int, s: nat, i: nat)
    requires s < |loads|
  {
    if loads[s] <= 0 || AllAbove(loads, again) then i == s else FirstLeast(loads, All(|loads|), s, i)
  }

  lemma LowestIsBelow(loads: seq<int>, x: int, s: nat, d: nat)
    requires s < |loads| && d < |loads| && LeastAt(loads, All(|loads|), s, d, |loads|)
    ensures AllAbove(loads, x) <==> x < loads[At(s, d, |loads|)]
  {
    var n := |loads|;
    forall j | 0 <= j < n ensures loads[At(s, d, n)] <= loads[j] {
      assert j == At(s, if j >= s then j - s else j - s + n, n);
    }
  }

  /** One call of getTaskClient: the scan starts at the place after the last, wrapping at the end of
      the list even when the list has become shorter, and leaves the index at the place it came to. */
  ghost predicate TaskCall(loads: seq<int>, eligible: seq<bool>, before: int64, c: Choice, after: int64)
    requires |loads| == |eligible|
  {
    if before < -1 || before == MAX64 || loads == [] then
      c == Panic && after == if loads == [] && -1 <= before < MAX64 then 0 else Increment(before)
    else
      var s: nat := if before + 1 < |loads| then before + 1 else 0;
      && c != Panic && (c == NoneAlive <==> true !in eligible)
      && (c.Chosen? ==> c.index < |loads|)
      && (NonNegative(loads) && c.Chosen? ==> FirstLeast(loads, eligible, s, c.index))
      && after == if c.Chosen? && loads[c.index] == 0 then c.index else At(s, |loads| - 1, |loads|)
  }

  class Balancer {
    var roundrobinIndex: int64

    constructor ()
      ensures roundrobinIndex == 0
    {
      roundrobinIndex := 0;
    }

    method SelectBackendRoundrobin(n: nat) returns (c: Choice)
      requires n > 0
      modifies this
      ensures roundrobinIndex == Increment(old(roundrobinIndex))
      ensures c == Picked(old(roundrobinIndex), n)
    {
      var idx: int := roundrobinIndex;
      roundrobinIndex := Increment(roundrobinIndex);
      idx := Remainder(idx, n);
      c := if idx < 0 then Panic else Chosen(idx);
    }

    /** loads are what the backends read when the scan comes to them, and again what the first
        of them reads when the scan comes to it a second time: they may change in between. */
    method SelectBackendMinPending(loads: seq<int>, again: int) returns (c: Choice)
      requires |loads| > 0
      modifies this
      ensures roundrobinIndex == Increment(old(roundrobinIndex))
      ensures
        match Picked(old(roundrobinIndex), |loads|)
        case Chosen(s) => c.Chosen? && MinPendingChoice(loads, again, s, c.index)
        case other => c == other
    {
      var n := |loads|;
      var idx: int := roundrobinIndex;
      roundrobinIndex := Increment(roundrobinIndex);
      idx := Remainder(idx, n);
      if idx < 0 {
        return Panic;
      }
      ghost var s := idx;
      var minIdx := idx;
      var minPending := loads[minIdx];
      if minPending > 0 {
        ghost var d := 0;
        var i := 0;
        while i < n
          invariant i <= n && 0 <= d < n && idx == At(s, i, n)
          invariant i < n ==> d <= i && minIdx == At(s, d, n) && minPending == loads[minIdx]
          invariant i == n ==> minIdx == if again < loads[At(s, d, n)] then s else At(s, d, n)
          invariant LeastAt(loads, All(n), s, d, if i < n then i + 1 else n)
        {
          idx := idx + 1;
          if idx >= n {
            idx := 0;
          }
          var pr := if i < n - 1 then loads[idx] else again;
          if pr < minPending {
            minPending := pr;
            minIdx := idx;
            if i < n - 1 {
              d := i + 1;
            }
          }
          i := i + 1;
        }
        LowestIsBelow(loads, again, s, d);
      }
      return Chosen(minIdx);
    }

    /** eligible tells which backends are not paused, or have been idle for five seconds, and
        loads what they read, each when the scan comes to it: it comes to none of them twice. */
    method GetTaskClient(loads: seq<int>, eligible: seq<bool>) returns (c: Choice)
      requires |loads| == |eligible| <= MAX64
      modifies this
      ensures TaskCall(loads, eligible, old(roundrobinIndex), c, roundrobinIndex)
    {
      hide LeastAt, NoneBelow, NonNegative, FirstLeast;
      var n := |loads|;
      var idx: int := roundrobinIndex;
      var iterCnt := 0;
      var minN := 0;
      var minC := NoneAlive;
      ghost var s: nat := if 0 <= roundrobinIndex + 1 < n then roundrobinIndex + 1 else 0;
      ghost var d: nat := 0;
      var more := true;
      while more
        invariant more ==> iterCnt == 0 || iterCnt < n
        invariant iterCnt == 0 ==> more && idx == roundrobinIndex == old(roundrobinIndex) && minC == NoneAlive
        invariant iterCnt > 0 ==> -1 <= old(roundrobinIndex) < MAX64 && s < n
        invariant iterCnt > 0 ==> iterCnt <= n && idx == roundrobinIndex == At(s, iterCnt - 1, n)
        invariant iterCnt > 0 ==> (minC == NoneAlive <==> NoneBelow(eligible, s, iterCnt))
        invariant minC != Panic
        invariant minC.Chosen? ==> d < iterCnt && minC.index == At(s, d, n) && minN == loads[minC.index]
        invariant minC.Chosen? ==> LeastAt(loads, eligible, s, d, iterCnt)
        invariant minC.Chosen? && minN == 0 ==> !more && idx == minC.index
        invariant !more ==> iterCnt == n || (minC.Chosen? && minN == 0)
        decreases if more then n + 1 - iterCnt else 0
      {
        iterCnt := iterCnt + 1;
        idx := Increment(idx);
        if idx >= n {
          idx := 0;
        }
        roundrobinIndex := idx;
        if idx < 0 || idx >= n {
          return Panic;
        }
        if minC == NoneAlive {
          NoneBelowNext(eligible, s, iterCnt - 1);
        } else {
          LeastNext(loads, eligible, s, d, iterCnt - 1);
        }
        if eligible[idx] {
          if minC == NoneAlive {
            FirstEligible(loads, eligible, s, iterCnt - 1);
            minC := Chosen(idx);
            minN := loads[idx];
            d := iterCnt - 1;
          } else {
            var pr := loads[idx];
            if minN > pr {
              minC := Chosen(idx);
              minN := pr;
              d := iterCnt - 1;
            }
          }
          if minN == 0 {
            more := false;
          }
        }
        if iterCnt >= n {
          more := false;
        }
      }
      if minC.Chosen? {
        if NonNegative(loads) {
          LeastOfTheRest(loads, eligible, s, d, iterCnt);
        }
        ThereIsOne(eligible, s, iterCnt);
      } else {
        NoneLeft(eligible, s);
      }
      return minC;
    }
  }

  /** There is at most one first least backend, so the scans are fully specified. */
  lemma FirstLeastUnique(loads: seq<int>, eligible: seq<bool>, s: nat, i: nat, j: nat)
    requires |loads| == |eligible| && s < |loads|
    requires FirstLeast(loads, eligible, s, i) && FirstLeast(loads, eligible, s, j)
    ensures i == j
  {
  }

  /** The early exit of selectBackendMinPending, taken when the load at the start is not
      positive, returns the first least backend exactly when no load is below that one. */
  lemma EarlyExitIff(loads: seq<int>, s: nat)
    requires s < |loads|
    ensures FirstLeast(loads, All(|loads|), s, s) <==> forall j :: 0 <= j < |loads| ==> loads[s] <= loads[j]
  {
    var n, all := |loads|, All(|loads|);
    assert At(s, 0, n) == s;
    if FirstLeast(loads, all, s, s) {
      var d: nat :| d < n && s == At(s, d, n) && LeastAt(loads, all, s, d, n);
      forall j | 0 <= j < n ensures loads[s] <= loads[j] {
        assert j == At(s, if j >= s then j - s else j - s + n, n);
      }
    } else {
      assert !LeastAt(loads, all, s, 0, n);
    }
  }

  /** The entries at k places in a row on the ring, from place p. */
  function Served<T>(active: seq<T>, p: nat, k: nat): (s: seq<T>)
    requires p < |active|
    ensures |s| == k
    decreases k
  {
    if k == 0 then [] else [active[p]] + Served(active, At(p, 1, |active|), k - 1)
  }

  lemma {:induction false} ServedTail<T>(active: seq<T>, p: nat, k: nat, rest: nat)
    requires p < |active| && k <= |active| - p
    ensures Served(active, p, k + rest) == active[p..p + k] + Served(active, if p + k < |active| then p + k else 0, rest)
    decreases k
  {
    if k == 1 {
      assert active[p..p + 1] == [active[p]];
    } else if k > 1 {
      ServedTail(active, p + 1, k - 1, rest);
      assert active[p..p + k] == [active[p]] + active[p + 1..p + k];
    }
  }

  /** Once round the ring. */
  lemma ServedRound<T>(active: seq<T>, p: nat, rest: nat)
    requires p < |active|
    ensures Served(active, p, |active| + rest) == active[p..] + active[..p] + Served(active, p, rest)
  {
    ServedTail(active, p, |active| - p, p + rest);
    ServedTail(active, 0, p, rest);
    assert active[p..] == active[p..p + (|active| - p)] && active[..p] == active[0..0 + p];
    Regroup(active[p..], active[..p], Served(active, p, rest));
  }

  lemma Regroup<T>(a: seq<T>, b: seq<T>, c: seq<T>)
    ensures a + (b + c) == a + b + c
  {
  }

  lemma RoundCounts<T>(active: seq<T>, p: nat, x: T)
    requires p <= |active|
    ensures Times(active[p..] + active[..p], x) == Times(active, x)
  {
    hide Times;
    CountBoth(active[p..], active[..p], x);
    CountBoth(active[..p], active[p..], x);
    assert active == active[..p] + active[p..];
  }

  function Multiple(m: nat, n: nat): (k: nat)
    decreases m
  {
    if m == 0 then 0 else n + Multiple(m - 1, n)
  }

  lemma {:induction false} MultipleIs(m: nat, n: nat)
    ensures Multiple(m, n) == m * n
    decreases m
  {
    if m > 0 {
      MultipleIs(m - 1, n);
    }
  }

  lemma {:induction false} ServedRounds<T>(active: seq<T>, p: nat, m: nat, x: T)
    requires p < |active|
    ensures Times(Served(active, p, Multiple(m, |active|)), x) == Multiple(m, Times(active, x))
    decreases m
  {
    if m > 0 {
      var rest := Multiple(m - 1, |active|);
      ServedRounds(active, p, m - 1, x);
      ServedRound(active, p, rest);
      CountBoth(active[p..] + active[..p], Served(active, p, rest), x);
      RoundCounts(active, p, x);
    }
  }

  lemma RemainderIs(x: nat, n: nat, q: int, r: nat)
    requires r < n && x == q * n + r
    ensures x % n == r
  {
    var d := x / n - q;
    assert d * n == r - x % n;
    if d >= 1 {
      AtLeastOnce(d, n);
    } else if d <= -1 {
      AtLeastOnce(-d, n);
    }
  }

  lemma NextPlace(c: nat, n: nat)
    requires n > 0
    ensures (c + 1) % n == At(c % n, 1, n)
  {
    var q, r := c / n, c % n;
    assert (q + 1) * n == q * n + n;
    if r + 1 < n {
      RemainderIs(c + 1, n, q, r + 1);
    } else {
      RemainderIs(c + 1, n, q + 1, 0);
    }
  }

  /** What k calls in a row choose, each starting from the counter the last one left. */
  function Calls(idx: int64, n: nat, k: nat): (cs: seq<Choice>)
    requires n > 0
    ensures |cs| == k
    decreases k
  {
    if k == 0 then [] else [Picked(idx, n)] + Calls(Increment(idx), n, k - 1)
  }

  /** What those calls choose from the list. */
  function ChosenFrom<T>(active: seq<T>, cs: seq<Choice>): seq<T>
    requires forall j :: 0 <= j < |cs| ==> cs[j].Chosen? && cs[j].index < |active|
    decreases |cs|
  {
    if cs == [] then [] else [active[cs[0].index]] + ChosenFrom(active, cs[1..])
  }

  ghost predicate AllChosen(cs: seq<Choice>, n: nat) {
    forall j :: 0 <= j < |cs| ==> cs[j].Chosen? && cs[j].index < n
  }

  /** Until the 64-bit counter wraps, calls in a row go round the ring. */
  lemma {:induction false} CallsServe<T>(active: seq<T>, c: int64, k: nat)
    requires active != [] && 0 <= c && c + k <= MAX64 + 1
    ensures AllChosen(Calls(c, |active|, k), |active|)
    ensures ChosenFrom(active, Calls(c, |active|, k)) == Served(active, c % |active|, k)
    decreases k
  {
    if k > 0 {
      var cs := Calls(c, |active|, k);
      assert cs[1..] == Calls(Increment(c), |active|, k - 1);
      NextPlace(c, |active|);
      if k > 1 {
        CallsServe(active, c + 1, k - 1);
      }
    }
  }

  /** Every place of a list of n, in order. */
  function Places(n: nat): (ps: seq<nat>)
    ensures |ps| == n && forall i :: 0 <= i < n ==> ps[i] == i
  {
    seq(n, i => i)
  }

  lemma {:induction false} OncePlaced(n: nat, i: nat)
    requires i < n
    ensures Times(Places(n), i) == 1
    decreases n
  {
    var front := Places(n - 1);
    assert Places(n) == front + [n - 1];
    TimesSnoc<nat>(front, n - 1, i);
    if i < n - 1 {
      OncePlaced(n - 1, i);
    } else {
      NeverPlaced(n - 1, i);
    }
  }

  lemma {:induction false} NeverPlaced(n: nat, i: nat)
    requires i >= n
    ensures Times(Places(n), i) == 0
    decreases n
  {
    if n > 0 {
      assert Places(n) == Places(n - 1) + [n - 1];
      TimesSnoc<nat>(Places(n - 1), n - 1, i);
      NeverPlaced(n - 1, i);
    }
  }

  function Idle(n: nat): (loads: seq<int>)
    ensures |loads| == n && forall i :: 0 <= i < n ==> loads[i] == 0
  {
    seq(n, _ => 0)
  }

  /** Calls of getTaskClient one after the other, with idxs the indices between them and all n
      backends eligible and idle at each. */
  ghost predicate IdleCalls(n: nat, idxs: seq<int64>, cs: seq<Choice>) {
    && |idxs| == |cs| + 1
    && forall j :: 0 <= j < |cs| ==> TaskCall(Idle(n), All(n), idxs[j], cs[j], idxs[j + 1])
  }

  lemma IdleCall(n: nat, before: int64, c: Choice, after: int64)
    requires n > 0 && -1 <= before < MAX64 && TaskCall(Idle(n), All(n), before, c, after)
    ensures var s := if before + 1 < n then before + 1 else 0; c == Chosen(s) && after == s
  {
    assert All(n)[0];
    var s: nat := if before + 1 < n then before + 1 else 0;
    assert All(n)[At(s, 0, n)] && Idle(n)[At(s, 0, n)] == 0;
  }

  lemma IdleCallsAfter(n: nat, idxs: seq<int64>, cs: seq<Choice>)
    requires IdleCalls(n, idxs, cs) && cs != []
    ensures IdleCalls(n, idxs[1..], cs[1..])
  {
    hide TaskCall;
    forall j | 0 <= j < |cs[1..]| ensures TaskCall(Idle(n), All(n), idxs[1..][j], cs[1..][j], idxs[1..][j + 1]) {
      assert TaskCall(Idle(n), All(n), idxs[j + 1], cs[j + 1], idxs[j + 2]);
    }
  }

  lemma {:induction false} IdleCallsServe(n: nat, idxs: seq<int64>, cs: seq<Choice>)
    requires n > 0 && IdleCalls(n, idxs, cs) && n <= MAX64 && -1 <= idxs[0] < MAX64
    ensures AllChosen(cs, n)
    ensures ChosenFrom(Places(n), cs) == Served(Places(n), if idxs[0] + 1 < n then idxs[0] + 1 else 0, |cs|)
    decreases |cs|
  {
    if cs != [] {
      IdleCall(n, idxs[0], cs[0], idxs[1]);
      IdleCallsAfter(n, idxs, cs);
      IdleCallsServe(n, idxs[1..], cs[1..]);
      assert forall j :: 0 < j < |cs| ==> cs[j] == cs[1..][j - 1];
    }
  }

  /** With all backends idle getTaskClient goes round the list: any m times n calls in a row choose
      each of the n backends exactly m times. */
  lemma IdleRotation(n: nat, idxs: seq<int64>, cs: seq<Choice>, m: nat, i: nat)
    requires 0 < n <= MAX64 && IdleCalls(n, idxs, cs) && -1 <= idxs[0] < MAX64
    requires |cs| == m * n && i < n
    ensures AllChosen(cs, n) && Times(ChosenFrom(Places(n), cs), i) == m
  {
    IdleCallsServe(n, idxs, cs);
    MultipleIs(m, n);
    ServedRounds(Places(n), if idxs[0] + 1 < n then idxs[0] + 1 else 0, m, i);
    OncePlaced(n, i);
    MultipleIs(m, 1);
  }

  lemma ShareOf<T>(active: seq<T>, c: int64, m: nat, x: T)
    requires active != [] && 0 <= c && c + Multiple(m, |active|) <= MAX64 + 1
    ensures AllChosen(Calls(c, |active|, Multiple(m, |active|)), |active|)
    ensures Times(ChosenFrom(active, Calls(c, |active|, Multiple(m, |active|))), x) == Multiple(m, Times(active, x))
  {
    CallsServe(active, c, Multiple(m, |active|));
    ServedRounds(active, c % |active|, m, x);
  }

  /** Over any m times the total weight calls in a row entry i is chosen m times its weight. */
  lemma ProportionalShare(w: seq<int>, c: int64, m: nat, k: nat, i: nat)
    requires (forall j :: 0 <= j < |w| ==> w[j] >= 0) && i < |w| && Sum(w, |w|) > 0
    requires k == m * Sum(w, |w|) && 0 <= c && c + k <= MAX64 + 1
    ensures |Expansion(w)| == Sum(w, |w|) && AllChosen(Calls(c, Sum(w, |w|), k), Sum(w, |w|))
    ensures Times(ChosenFrom(Expansion(w), Calls(c, Sum(w, |w|), k)), i) == m * w[i]
  {
    ExpansionLength(w);
    ListedByWeight(w);
    MultipleIs(m, Sum(w, |w|));
    MultipleIs(m, w[i]);
    ShareOf(Expansion(w), c, m, i);
  }
}
