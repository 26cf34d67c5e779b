/** Weight expansion and round robin of the load balancer (lbclient.go:265-271, 583-600). */
module Weights {

  /** The entries below k with weight above r, in order: what turn r of the outer loop
      appends while the inner loop is at k. */
  function RoundUpTo(w: seq<int>, r: nat, k: nat): seq<nat>
    requires k <= |w|
    decreases k
  {
    if k == 0 then []
    else if w[k - 1] > r then RoundUpTo(w, r, k - 1) + [k - 1]
    else RoundUpTo(w, r, k - 1)
  }

  function Rounds(w: seq<int>, n: nat): seq<nat>
    decreases n
  {
    if n == 0 then [] else Rounds(w, n - 1) + RoundUpTo(w, n - 1, |w|)
  }

  /** What is left of weight x after r rounds. */
  function Left(x: int, r: nat): int {
    if x <= 0 then x else if x > r then x - r else 0
  }

  ghost predicate IsTop(w: seq<int>, n: nat) {
    && (forall k :: 0 <= k < |w| ==> w[k] <= n)
    && (n > 0 ==> exists k :: 0 <= k < |w| && w[k] == n)
  }

  lemma {:induction false} TopExists(w: seq<int>)
    ensures exists n: nat :: IsTop(w, n)
    decreases |w|
  {
    if w == [] {
      assert IsTop(w, 0);
    } else {
      var last := |w| - 1;
      TopExists(w[..last]);
      var n: nat :| IsTop(w[..last], n);
      if w[last] > n {
        assert IsTop(w, w[last]);
      } else {
        if n > 0 {
          var k :| 0 <= k < last && w[..last][k] == n;
          assert w[k] == n;
        }
        assert IsTop(w, n);
      }
    }
  }

  /** The largest weight, at least 0: the number of rounds that list anything. */
  ghost function Top(w: seq<int>): (n: nat)
    ensures IsTop(w, n)
  {
    TopExists(w);
    var n: nat :| IsTop(w, n);
    n
  }

  ghost function Expansion(w: seq<int>): seq<nat> {
    Rounds(w, Top(w))
  }

  /** One turn of the outer loop, turn r on weights that were w: the weights are decremented in
      place; more is the source's flag exists for another turn. */
  method OneTurn(weights: array<int>, active: seq<nat>, ghost w: seq<int>, ghost r: nat)
    returns (longer: seq<nat>, more: bool)
    requires weights.Length == |w| && forall k :: 0 <= k < |w| ==> weights[k] == Left(w[k], r)
    modifies weights
    ensures longer == active + RoundUpTo(w, r, |w|)
    ensures forall k :: 0 <= k < |w| ==> weights[k] == Left(w[k], r + 1)
    ensures more <==> exists k :: 0 <= k < |w| && w[k] > r + 1
  {
    longer, more := active, false;
    var i := 0;
    while i < weights.Length
      invariant i <= weights.Length
      invariant longer == active + RoundUpTo(w, r, i)
      invariant forall k :: 0 <= k < i ==> weights[k] == Left(w[k], r + 1)
      invariant forall k :: i <= k < |w| ==> weights[k] == Left(w[k], r)
      invariant more <==> exists k :: 0 <= k < i && w[k] > r + 1
    {
      if weights[i] > 0 {
        weights[i] := weights[i] - 1;
        longer := longer + [i];
        if weights[i] > 0 {
          more := true;
        }
      }
      i := i + 1;
    }
  }

  method Expand(weights: array<int>) returns (active: seq<nat>)
    modifies weights
    ensures active == Expansion(old(weights[..]))
    ensures forall k :: 0 <= k < weights.Length ==> weights[k] == if old(weights[k]) > 0 then 0 else old(weights[k])
  {
    ghost var w := weights[..];
    ghost var r: nat := 0;
    active := [];
    var again := true;
    while again
      invariant active == Rounds(w, r)
      invariant forall k :: 0 <= k < |w| ==> weights[k] == Left(w[k], r)
      invariant again ==> r == 0 || exists k :: 0 <= k < |w| && w[k] > r
      invariant !again ==> r > 0 && (r == 1 || exists k :: 0 <= k < |w| && w[k] >= r)
      invariant !again ==> forall k :: 0 <= k < |w| ==> w[k] <= r
      decreases again, Top(w) + 1 - r
    {
      active, again := OneTurn(weights, active, w, r);
      r := r + 1;
    }
    TopReached(w, r);
  }

  lemma RoundNothing(w: seq<int>, r: nat, k: nat)
    requires k <= |w| && forall j :: 0 <= j < k ==> w[j] <= r
    ensures RoundUpTo(w, r, k) == []
    decreases k
  {
  }

  lemma TopReached(w: seq<int>, r: nat)
    requires r > 0 && (r == 1 || exists k :: 0 <= k < |w| && w[k] >= r) && forall k :: 0 <= k < |w| ==> w[k] <= r
    ensures Rounds(w, r) == Expansion(w)
  {
    var n := Top(w);
    if n < r {
      assert n == 0 && r == 1;
      RoundNothing(w, 0, |w|);
      assert Rounds(w, 1) == Rounds(w, 0);
    }
  }

  /** How often x occurs in s. */
  function Times<T(==)>(s: seq<T>, x: T): nat
    decreases |s|
  {
    if s == [] then 0
    else if s[|s| - 1] == x then Times(s[..|s| - 1], x) + 1
    else Times(s[..|s| - 1], x)
  }

  lemma TimesSnoc<T>(s: seq<T>, y: T, x: T)
    ensures Times(s + [y], x) == Times(s, x) + if y == x then 1 else 0
  {
  }

  lemma TimesNone<T>(x: T)
    ensures Times([], x) == 0
  {
  }

  lemma {:induction false} CountBoth<T>(a: seq<T>, b: seq<T>, x: T)
    ensures Times(a + b, x) == Times(a, x) + Times(b, x)
    decreases |b|
  {
    if b == [] {
      assert a + b == a;
    } else {
      var n := |b| - 1;
      CountBoth(a, b[..n], x);
      TimesSnoc(a + b[..n], b[n], x);
      assert a + b == a + b[..n] + [b[n]];
    }
  }

  lemma {:induction false} RoundCount(w: seq<int>, r: nat, k: nat, i: nat)
    requires k <= |w|
    ensures Times(RoundUpTo(w, r, k), i) == if i < k && w[i] > r then 1 else 0
    decreases k
  {
    hide Times;
    if k == 0 {
      TimesNone<nat>(i);
    } else {
      RoundCount(w, r, k - 1, i);
      TimesSnoc<nat>(RoundUpTo(w, r, k - 1), k - 1, i);
    }
  }

  lemma {:induction false} RoundsCount(w: seq<int>, n: nat, i: nat)
    requires i < |w|
    ensures Times(Rounds(w, n), i) == if w[i] < 0 then 0 else if w[i] < n then w[i] else n
    decreases n
  {
    hide Times, RoundUpTo;
    if n == 0 {
      TimesNone<nat>(i);
    } else {
      RoundsCount(w, n - 1, i);
      RoundCount(w, n - 1, |w|, i);
      CountBoth<nat>(Rounds(w, n - 1), RoundUpTo(w, n - 1, |w|), i);
    }
  }

  ghost predicate Ascending(s: seq<nat>) {
    forall a, b :: 0 <= a < b < |s| ==> s[a] < s[b]
  }

  lemma AscendingSnoc(s: seq<nat>, x: nat)
    requires Ascending(s) && forall y :: y in s ==> y < x
    ensures Ascending(s + [x])
  {
    assert forall a :: 0 <= a < |s| ==> s[a] in s;
  }

  /** Round r lists exactly the entries with weight above r, in the order of the list. */
  lemma {:induction false} RoundLists(w: seq<int>, r: nat, k: nat)
    requires k <= |w|
    ensures Ascending(RoundUpTo(w, r, k))
    ensures forall x: nat :: x in RoundUpTo(w, r, k) <==> x < k && w[x] > r
    decreases k
  {
    if k > 0 {
      hide Ascending;
      var s := RoundUpTo(w, r, k - 1);
      RoundLists(w, r, k - 1);
      AscendingSnoc(s, k - 1);
    } else {
      assert RoundUpTo(w, r, 0) == [];
    }
  }

  lemma {:induction false} RoundsInRange(w: seq<int>, n: nat)
    ensures forall x :: x in Rounds(w, n) ==> x < |w|
    decreases n
  {
    if n > 0 {
      RoundsInRange(w, n - 1);
      RoundLists(w, n - 1, |w|);
    }
  }

  /** Every entry is listed exactly as often as its weight says, and nothing else is. */
  lemma ListedByWeight(w: seq<int>)
    ensures forall i: nat :: i < |w| ==> Times(Expansion(w), i) == if w[i] < 0 then 0 else w[i]
    ensures forall x :: x in Expansion(w) ==> x < |w|
  {
    forall i: nat | i < |w| ensures Times(Expansion(w), i) == if w[i] < 0 then 0 else w[i] {
      RoundsCount(w, Top(w), i);
    }
    RoundsInRange(w, Top(w));
  }

  /** How often the entry at place p of a list is listed before it. */
  function Turn(s: seq<nat>, p: nat): nat
    requires p < |s|
  {
    Times(s[..p], s[p])
  }

  /** Whose turn comes first: entries listed less often before, and among these the lower ones. */
  ghost predicate Precedes(s: seq<nat>, p: nat, q: nat)
    requires p < |s| && q < |s|
  {
    Turn(s, p) < Turn(s, q) || (Turn(s, p) == Turn(s, q) && s[p] < s[q])
  }

  lemma {:induction false} TimesZero(s: seq<nat>, x: nat)
    requires x !in s
    ensures Times(s, x) == 0
    decreases |s|
  {
    if s != [] {
      TimesZero(s[..|s| - 1], x);
    }
  }

  /** Every place of round n is its entry's n-th turn. */
  lemma TurnInRound(w: seq<int>, n: nat, p: nat)
    requires |Rounds(w, n)| <= p < |Rounds(w, n + 1)|
    ensures
      var round := RoundUpTo(w, n, |w|);
      && Turn(Rounds(w, n + 1), p) == n && Rounds(w, n + 1)[p] == round[p - |Rounds(w, n)|]
      && Rounds(w, n + 1)[p] < |w| && w[Rounds(w, n + 1)[p]] > n
  {
    var before, round := Rounds(w, n), RoundUpTo(w, n, |w|);
    var k := p - |before|;
    RoundLists(w, n, |w|);
    assert round[k] in round;
    assert Rounds(w, n + 1)[..p] == before + round[..k];
    CountBoth(before, round[..k], round[k]);
    RoundsCount(w, n, round[k]);
    TimesZero(round[..k], round[k]);
  }

  lemma {:induction false} TurnsInOrder(w: seq<int>, n: nat, p: nat, q: nat)
    requires p < q < |Rounds(w, n)|
    ensures Turn(Rounds(w, n), q) < n && Precedes(Rounds(w, n), p, q)
    decreases n
  {
    hide Times, RoundUpTo;
    if n > 0 {
      var before, all := Rounds(w, n - 1), Rounds(w, n);
      SameTurn(before, all, p);
      SameTurn(before, all, q);
      if q < |before| {
        TurnsInOrder(w, n - 1, p, q);
      } else {
        TurnInRound(w, n - 1, q);
        if p < |before| {
          EarlierTurn(w, n - 1, p);
        } else {
          TurnInRound(w, n - 1, p);
          RoundLists(w, n - 1, |w|);
        }
      }
    }
  }

  lemma SameTurn(before: seq<nat>, all: seq<nat>, p: nat)
    requires before <= all && p < |all|
    ensures p < |before| ==> Turn(all, p) == Turn(before, p) && all[p] == before[p]
  {
    assert p < |before| ==> all[..p] == before[..p];
  }

  lemma {:induction false} EarlierTurn(w: seq<int>, n: nat, p: nat)
    requires p < |Rounds(w, n)|
    ensures Turn(Rounds(w, n), p) < n
    decreases n
  {
    hide Times, RoundUpTo;
    SameTurn(Rounds(w, n - 1), Rounds(w, n), p);
    if p < |Rounds(w, n - 1)| {
      EarlierTurn(w, n - 1, p);
    } else {
      TurnInRound(w, n - 1, p);
    }
  }

  /** The list goes in turns: an entry comes for the (k+1)-th time after all that come for the k-th
      and, within a turn, after all lower ones. */
  lemma InTurns(w: seq<int>, p: nat, q: nat)
    requires p < q < |Expansion(w)|
    ensures Precedes(Expansion(w), p, q)
  {
    TurnsInOrder(w, Top(w), p, q);
  }

  /** A part of round n adds no more to an entry than the round. */
  lemma PartOfRound(w: seq<int>, n: nat, k: nat, x: nat)
    requires k <= |RoundUpTo(w, n, |w|)| && x < |w|
    ensures
      var times := Times(Rounds(w, n) + RoundUpTo(w, n, |w|)[..k], x);
      times <= n + 1 && if w[x] < n then w[x] <= times else n <= times
  {
    hide Times, RoundUpTo, Rounds;
    var round := RoundUpTo(w, n, |w|);
    RoundsCount(w, n, x);
    CountBoth(Rounds(w, n), round[..k], x);
    CountBoth(round[..k], round[k..], x);
    assert round == round[..k] + round[k..];
    RoundCount(w, n, |w|, x);
  }

  lemma {:induction false} NoneIsAheadIn(w: seq<int>, m: nat, n: nat, i: nat, j: nat)
    requires n <= |Rounds(w, m)| && i < |w| && j < |w| && Times(Rounds(w, m)[..n], j) < w[j]
    ensures Times(Rounds(w, m)[..n], i) <= Times(Rounds(w, m)[..n], j) + 1
    decreases m
  {
    hide Times, RoundUpTo;
    if m == 0 {
      TimesNone<nat>(i);
      assert Rounds(w, m)[..n] == [];
    } else {
      var before, round := Rounds(w, m - 1), RoundUpTo(w, m - 1, |w|);
      if n <= |before| {
        assert Rounds(w, m)[..n] == before[..n];
        NoneIsAheadIn(w, m - 1, n, i, j);
      } else {
        var k := n - |before|;
        assert Rounds(w, m)[..n] == before + round[..k];
        PartOfRound(w, m - 1, k, i);
        PartOfRound(w, m - 1, k, j);
      }
    }
  }

  /** So in no beginning of the list is an entry more than one ahead of another whose weight is not
      used up. */
  lemma NoneIsAhead(w: seq<int>, n: nat, i: nat, j: nat)
    requires n <= |Expansion(w)| && i < |w| && j < |w| && Times(Expansion(w)[..n], j) < w[j]
    ensures Times(Expansion(w)[..n], i) <= Times(Expansion(w)[..n], j) + 1
  {
    NoneIsAheadIn(w, Top(w), n, i, j);
  }

  function Sum(w: seq<int>, k: nat): int
    requires k <= |w|
    decreases k
  {
    if k == 0 then 0 else Sum(w, k - 1) + w[k - 1]
  }

  function SumLeast(w: seq<int>, n: nat, k: nat): int
    requires k <= |w|
    decreases k
  {
    if k == 0 then 0 else SumLeast(w, n, k - 1) + if w[k - 1] < n then w[k - 1] else n
  }

  lemma {:induction false} RoundLength(w: seq<int>, r: nat, k: nat)
    requires k <= |w|
    ensures |RoundUpTo(w, r, k)| == SumLeast(w, r + 1, k) - SumLeast(w, r, k)
    decreases k
  {
    if k > 0 {
      RoundLength(w, r, k - 1);
    }
  }

  lemma {:induction false} LeastOfNone(w: seq<int>, k: nat)
    requires k <= |w| && forall j :: 0 <= j < k ==> w[j] >= 0
    ensures SumLeast(w, 0, k) == 0
    decreases k
  {
    if k > 0 {
      LeastOfNone(w, k - 1);
    }
  }

  lemma {:induction false} LeastOfAll(w: seq<int>, n: nat, k: nat)
    requires k <= |w| && forall j :: 0 <= j < k ==> w[j] <= n
    ensures SumLeast(w, n, k) == Sum(w, k)
    decreases k
  {
    if k > 0 {
      LeastOfAll(w, n, k - 1);
    }
  }

  lemma {:induction false} RoundsLength(w: seq<int>, n: nat)
    requires forall k :: 0 <= k < |w| ==> w[k] >= 0
    ensures |Rounds(w, n)| == SumLeast(w, n, |w|)
    decreases n
  {
    if n == 0 {
      LeastOfNone(w, |w|);
    } else {
      RoundsLength(w, n - 1);
      RoundLength(w, n - 1, |w|);
    }
  }

  /** The list is as long as the weights together. */
  lemma ExpansionLength(w: seq<int>)
    requires forall k :: 0 <= k < |w| ==> w[k] >= 0
    ensures |Expansion(w)| == Sum(w, |w|)
  {
    RoundsLength(w, Top(w));
    LeastOfAll(w, Top(w), |w|);
  }
}
