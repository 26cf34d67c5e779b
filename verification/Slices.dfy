/** A Go slice that is spliced in place while a range loop over its old header runs:
    Client.removeConnection (client.go:256-271) under Client.Close (client.go:143-147). */
module Slices {

  /** i is the first position of x, or the length when x does not occur. */
  ghost predicate IsIndexOf<T>(s: seq<T>, x: T, i: nat) {
    i <= |s| && (i < |s| ==> s[i] == x) && x !in s[..i]
  }

  lemma {:induction false} IndexExists<T>(s: seq<T>, x: T)
    ensures exists i: nat :: IsIndexOf(s, x, i)
    decreases |s|
  {
    if s == [] || s[0] == x {
      assert IsIndexOf(s, x, 0);
    } else {
      IndexExists(s[1..], x);
      var i: nat :| IsIndexOf(s[1..], x, i);
      assert s[..i + 1] == [s[0]] + s[1..][..i];
      assert IsIndexOf(s, x, i + 1);
    }
  }

  ghost function IndexOf<T>(s: seq<T>, x: T): (i: nat)
    ensures IsIndexOf(s, x, i)
  {
    IndexExists(s, x);
    var i: nat :| IsIndexOf(s, x, i);
    i
  }

  ghost function RemoveFirst<T>(s: seq<T>, x: T): seq<T> {
    var i := IndexOf(s, x);
    if i == |s| then s else s[..i] + s[i + 1..]
  }

  /** append(b[:i], b[i+1:len]...): the elements up to len move down, the rest stays. */
  function Splice<T>(b: seq<T>, len: nat, i: nat): (b': seq<T>)
    requires i < len <= |b|
    ensures |b'| == |b|
    ensures forall j :: 0 <= j < i ==> b'[j] == b[j]
    ensures forall j :: i <= j < len - 1 ==> b'[j] == b[j + 1]
    ensures forall j :: len - 1 <= j < |b| ==> b'[j] == b[j]
  {
    b[..i] + b[i + 1..len] + b[len - 1..]
  }

  lemma IndexUnique<T>(s: seq<T>, x: T, i: nat)
    requires i <= |s| && (i < |s| ==> s[i] == x) && forall j :: 0 <= j < i ==> s[j] != x
    ensures IndexOf(s, x) == i
  {
  }

  lemma IndexAbsent<T>(s: seq<T>, x: T)
    requires x !in s
    ensures IndexOf(s, x) == |s|
  {
  }

  lemma SpliceFront<T>(b: seq<T>, m: nat, len: nat, i: nat)
    requires i < len <= m <= |b|
    ensures Splice(b, len, i)[..m] == Splice(b[..m], len, i)
  {
  }

  ghost predicate Distinct<T>(s: seq<T>) {
    forall i, j :: 0 <= i < j < |s| ==> s[i] != s[j]
  }

  /** Splicing takes out exactly the element at i; the others stay, in order. */
  lemma SplicedList<T>(b: seq<T>, len: nat, i: nat)
    requires i < len <= |b| && Distinct(b[..len])
    ensures Splice(b, len, i)[..len - 1] == b[..i] + b[i + 1..len]
    ensures Distinct(b[..i] + b[i + 1..len]) && b[i] !in b[..i] + b[i + 1..len]
  {
  }

  /** The backing array, the slice's length and the elements closed so far. */
  datatype Sweep<T> = Sweep(backing: seq<T>, len: nat, closed: set<T>)

  /** Closing x takes it off the slice; closing it again does nothing. */
  ghost function CloseOne<T>(s: Sweep<T>, x: T): (s': Sweep<T>)
    requires s.len <= |s.backing|
    ensures s'.len <= |s'.backing| == |s.backing|
  {
    if x in s.closed then s
    else
      var i := IndexOf(s.backing[..s.len], x);
      if i == s.len then s.(closed := s.closed + {x})
      else Sweep(Splice(s.backing, s.len, i), s.len - 1, s.closed + {x})
  }

  /** Closing an open x, seen on an array of which the slice's array is the first part. */
  lemma CloseOneMatches<T>(whole: seq<T>, s: Sweep<T>, x: T)
    requires s.len <= |s.backing| <= |whole| && s.backing == whole[..|s.backing|] && x !in s.closed
    ensures
      var i, s' := IndexOf(whole[..s.len], x), CloseOne(s, x);
      if i < s.len then s'.backing == Splice(whole, s.len, i)[..|s.backing|] && s'.len == s.len - 1
      else s'.backing == s.backing && s'.len == s.len
  {
    assert whole[..s.len] == s.backing[..s.len];
    var i := IndexOf(whole[..s.len], x);
    if i < s.len {
      SpliceFront(whole, |s.backing|, s.len, i);
    }
  }

  lemma CloseOneCloses<T>(s: Sweep<T>, x: T)
    requires s.len <= |s.backing|
    ensures x in s.closed ==> CloseOne(s, x) == s
    ensures CloseOne(s, x).closed == s.closed + {x}
    ensures forall y :: y in CloseOne(s, x).backing ==> y in s.backing
  {
    if x !in s.closed && IndexOf(s.backing[..s.len], x) < s.len {
      SpliceElements(s.backing, s.len, IndexOf(s.backing[..s.len], x));
    }
  }

  lemma SpliceElements<T>(b: seq<T>, n: nat, i: nat)
    requires i < n <= |b|
    ensures forall y :: y in Splice(b, n, i) ==> y in b
  {
  }

  /** The first i turns of a range loop over the slice as it was at the start. */
  ghost function SweepUpTo<T>(b: seq<T>, i: nat): (s: Sweep<T>)
    requires i <= |b|
    ensures s.len <= |s.backing| == |b|
    decreases i
  {
    if i == 0 then Sweep(b, |b|, {})
    else
      var s := SweepUpTo(b, i - 1);
      CloseOne(s, s.backing[i - 1])
  }

  /** After i turns, i at most half of n rounded up, the odd positions have moved to the
      front and the tail repeats the last element. */
  ghost predicate HalfMoved<T>(b: seq<T>, i: nat, s: Sweep<T>) {
    var n := |b|;
    && 2 * i <= n + 1 && s.len == n - i && |s.backing| == n
    && (forall j :: 0 <= j < i && j < n - i ==> s.backing[j] == b[2 * j + 1])
    && (forall j :: i <= j < n - i ==> s.backing[j] == b[i + j])
    && (forall j :: n - i <= j < n ==> s.backing[j] == b[n - 1])
  }

  /** The even positions below 2i are closed. */
  ghost predicate HalfClosed<T>(b: seq<T>, i: nat, closed: set<T>) {
    forall k :: 0 <= k < |b| ==> (b[k] in closed <==> k % 2 == 0 && k < 2 * i)
  }

  lemma HalfIndex<T>(b: seq<T>, i: nat, s: Sweep<T>)
    requires Distinct(b) && HalfMoved(b, i, s) && 2 * i < |b|
    ensures s.backing[i] == b[2 * i] && IndexOf(s.backing[..s.len], s.backing[i]) == i
  {
  }

  lemma HalfMove<T>(b: seq<T>, i: nat, s: Sweep<T>, closed: set<T>)
    requires HalfMoved(b, i, s) && 2 * i < |b|
    ensures HalfMoved(b, i + 1, Sweep(Splice(s.backing, s.len, i), s.len - 1, closed))
  {
  }

  lemma HalfClose<T>(b: seq<T>, i: nat, closed: set<T>)
    requires Distinct(b) && HalfClosed(b, i, closed) && 2 * i < |b|
    ensures b[2 * i] !in closed && HalfClosed(b, i + 1, closed + {b[2 * i]})
  {
  }

  lemma HalfStep<T>(b: seq<T>, i: nat, s: Sweep<T>)
    requires Distinct(b) && 2 * i < |b| && HalfMoved(b, i, s) && HalfClosed(b, i, s.closed)
    ensures var s' := CloseOne(s, s.backing[i]); HalfMoved(b, i + 1, s') && HalfClosed(b, i + 1, s'.closed)
  {
    HalfIndex(b, i, s);
    HalfClose(b, i, s.closed);
    HalfMove(b, i, s, s.closed + {b[2 * i]});
  }

  lemma {:induction false} SweepHalf<T>(b: seq<T>, i: nat)
    requires Distinct(b) && 2 * i <= |b| + 1
    ensures HalfMoved(b, i, SweepUpTo(b, i)) && HalfClosed(b, i, SweepUpTo(b, i).closed)
    decreases i
  {
    if i > 0 {
      SweepHalf(b, i - 1);
      HalfStep(b, i - 1, SweepUpTo(b, i - 1));
    }
  }

  /** From then on every turn meets the last element. */
  ghost predicate FullyMoved<T>(b: seq<T>, s: Sweep<T>) {
    var n := |b|;
    && |s.backing| == n && s.len == (if n % 2 == 0 then n / 2 - 1 else n / 2)
    && (forall j :: 0 <= j < s.len ==> s.backing[j] == b[2 * j + 1])
    && (forall j :: n / 2 <= j < n ==> s.backing[j] == b[n - 1])
  }

  ghost predicate FullyClosed<T>(b: seq<T>, closed: set<T>) {
    forall k :: 0 <= k < |b| ==> (b[k] in closed <==> k % 2 == 0 || k == |b| - 1)
  }

  lemma LastIndex<T>(b: seq<T>, i: nat, s: Sweep<T>)
    requires Distinct(b) && |b| > 1 && |b| == 2 * i && HalfMoved(b, i, s)
    ensures s.len == i && s.backing[i] == b[|b| - 1] && IndexOf(s.backing[..i], s.backing[i]) == i - 1
  {
    var front := s.backing[..i];
    assert front[i - 1] == b[2 * (i - 1) + 1];
    forall j | 0 <= j < i - 1 ensures front[j] != front[i - 1] {
      assert front[j] == b[2 * j + 1];
    }
    IndexUnique(front, front[i - 1], i - 1);
  }

  /** For an even number of elements the turn after the first half closes the last one. */
  lemma LastStep<T>(b: seq<T>, i: nat, s: Sweep<T>)
    requires Distinct(b) && |b| > 1 && |b| == 2 * i && HalfMoved(b, i, s) && HalfClosed(b, i, s.closed)
    ensures var s' := CloseOne(s, s.backing[i]); FullyMoved(b, s') && FullyClosed(b, s'.closed)
  {
    LastIndex(b, i, s);
    var x := b[|b| - 1];
    assert x !in s.closed;
    assert CloseOne(s, x) == Sweep(Splice(s.backing, i, i - 1), i - 1, s.closed + {x});
    forall k | 0 <= k < |b| - 1 ensures b[k] != x {
    }
  }

  /** For an odd number the first half is all there is. */
  lemma OddSettled<T>(b: seq<T>, i: nat, s: Sweep<T>)
    requires |b| > 1 && |b| == 2 * i - 1 && HalfMoved(b, i, s) && HalfClosed(b, i, s.closed)
    ensures FullyMoved(b, s) && FullyClosed(b, s.closed)
  {
  }

  lemma AtHalfEven<T>(b: seq<T>, i: nat)
    requires Distinct(b) && |b| > 1 && |b| == 2 * i
    ensures FullyMoved(b, SweepUpTo(b, i + 1)) && FullyClosed(b, SweepUpTo(b, i + 1).closed)
  {
    SweepHalf(b, i);
    LastStep(b, i, SweepUpTo(b, i));
  }

  lemma AtHalfOdd<T>(b: seq<T>, i: nat)
    requires Distinct(b) && |b| > 1 && |b| == 2 * i - 1
    ensures FullyMoved(b, SweepUpTo(b, i)) && FullyClosed(b, SweepUpTo(b, i).closed)
  {
    SweepHalf(b, i);
    OddSettled(b, i, SweepUpTo(b, i));
  }

  lemma RestStep<T>(b: seq<T>, i: nat, s: Sweep<T>)
    requires 1 < |b| && |b| / 2 <= i < |b| && FullyMoved(b, s) && FullyClosed(b, s.closed)
    ensures CloseOne(s, s.backing[i]) == s
  {
  }

  lemma {:induction false} SweepRest<T>(b: seq<T>, start: nat, i: nat)
    requires 1 < |b| && |b| / 2 <= start <= i <= |b|
    requires FullyMoved(b, SweepUpTo(b, start)) && FullyClosed(b, SweepUpTo(b, start).closed)
    ensures FullyMoved(b, SweepUpTo(b, i)) && FullyClosed(b, SweepUpTo(b, i).closed)
    decreases i
  {
    if i > start {
      SweepRest(b, start, i - 1);
      RestStep(b, i - 1, SweepUpTo(b, i - 1));
    }
  }

  lemma SweepSettles<T>(b: seq<T>)
    requires Distinct(b) && |b| > 1
    ensures FullyMoved(b, SweepUpTo(b, |b|)) && FullyClosed(b, SweepUpTo(b, |b|).closed)
  {
    var i := (|b| + 1) / 2;
    if |b| == 2 * i {
      AtHalfEven(b, i);
      SweepRest(b, i + 1, |b|);
    } else {
      AtHalfOdd(b, i);
      SweepRest(b, i, |b|);
    }
  }

  /** Ranging over a slice that each turn splices in place closes every second element and
      the last one; the others stay on the slice, in order. */
  lemma SweepCloses<T>(b: seq<T>)
    requires Distinct(b)
    ensures
      var n, s := |b|, SweepUpTo(b, |b|);
      && (forall k :: 0 <= k < n ==> (b[k] in s.closed <==> k % 2 == 0 || k == n - 1))
      && s.len == (if n % 2 == 1 || n == 0 then n / 2 else n / 2 - 1)
      && (forall j :: 0 <= j < s.len ==> s.backing[j] == b[2 * j + 1])
  {
    if |b| == 1 {
      SweepHalf(b, 1);
    } else if |b| > 1 {
      SweepSettles(b);
    }
  }

  /** So it closes everything exactly when there are at most two elements. */
  lemma SweepClosesAllIff<T>(b: seq<T>)
    requires Distinct(b)
    ensures (forall k :: 0 <= k < |b| ==> b[k] in SweepUpTo(b, |b|).closed) <==> |b| <= 2
  {
    SweepCloses(b);
    if |b| > 2 {
      assert b[1] !in SweepUpTo(b, |b|).closed;
    }
  }
}
