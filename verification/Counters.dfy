/** Count, the six counters kept at every level, and counters that are added to one atomic
    operation at a time (statis.go:320-348). */
module Counters {
  datatype Count = Count(packetsSent: int, packetReceived: int, wholePacketSent: int, wholePacketReceived: int,
                         bytesSent: int, bytesReceived: int)

  const NONE := Count(0, 0, 0, 0, 0, 0)

  function Plus(a: Count, b: Count): Count {
    Count(a.packetsSent + b.packetsSent, a.packetReceived + b.packetReceived,
          a.wholePacketSent + b.wholePacketSent, a.wholePacketReceived + b.wholePacketReceived,
          a.bytesSent + b.bytesSent, a.bytesReceived + b.bytesReceived)
  }

  /** The counters of the paths in ps added up, in any order. */
  ghost function Sum<K>(m: map<K, Count>, ps: set<K>): Count
    requires ps <= m.Keys
    decreases |ps|
  {
    if ps == {} then NONE
    else
      var p :| p in ps;
      Plus(m[p], Sum(m, ps - {p}))
  }

  lemma {:induction false} SumTakeOut<K>(m: map<K, Count>, ps: set<K>, p: K)
    requires ps <= m.Keys && p in ps
    ensures Sum(m, ps) == Plus(m[p], Sum(m, ps - {p}))
    decreases |ps|
  {
    var q :| q in ps && Sum(m, ps) == Plus(m[q], Sum(m, ps - {q}));
    if q != p {
      var rest := ps - {p} - {q};
      assert ps - {q} - {p} == rest;
      SumTakeOut(m, ps - {q}, p);
      SumTakeOut(m, ps - {p}, q);
      PlusSwap(m[p], m[q], Sum(m, rest));
    }
  }

  lemma PlusAssoc(a: Count, b: Count, c: Count)
    ensures Plus(Plus(a, b), c) == Plus(a, Plus(b, c))
  {
  }

  lemma PlusSwap(a: Count, b: Count, c: Count)
    ensures Plus(a, Plus(b, c)) == Plus(b, Plus(a, c))
  {
  }

  lemma {:induction false} SumSame<K>(m: map<K, Count>, m': map<K, Count>, ps: set<K>)
    requires ps <= m.Keys && ps <= m'.Keys && forall p :: p in ps ==> m[p] == m'[p]
    ensures Sum(m, ps) == Sum(m', ps)
    decreases |ps|
  {
    if ps != {} {
      var p :| p in ps && Sum(m, ps) == Plus(m[p], Sum(m, ps - {p}));
      SumSame(m, m', ps - {p});
      SumTakeOut(m', ps, p);
    }
  }

  function Held<K>(m: map<K, Count>, path: K): Count {
    if path in m then m[path] else NONE
  }

  /** Writing one counter changes the sum by the difference. */
  lemma SumUpdate<K>(m: map<K, Count>, path: K, c: Count)
    ensures Plus(Sum(m[path := c], m[path := c].Keys), Held(m, path)) == Plus(Sum(m, m.Keys), c)
  {
    var m' := m[path := c];
    var rest := m.Keys - {path};
    assert m'.Keys - {path} == rest;
    SumTakeOut(m', m'.Keys, path);
    SumSame(m, m', rest);
    if path in m {
      SumTakeOut(m, m.Keys, path);
    } else {
      assert rest == m.Keys;
    }
  }

  lemma SumNew<K>(m: map<K, Count>, path: K)
    requires path !in m
    ensures Sum(m[path := NONE], m[path := NONE].Keys) == Sum(m, m.Keys)
  {
    SumUpdate(m, path, NONE);
    PlusNone(Sum(m, m.Keys));
    PlusNone(Sum(m[path := NONE], m[path := NONE].Keys));
  }

  lemma PlusNoneLeft(a: Count)
    ensures Plus(NONE, a) == a
  {
  }

  lemma PlusNone(a: Count)
    ensures Plus(a, NONE) == a
  {
  }

  // ----- increments that have not landed yet -----

  /** Counters as they read, and the increments that have been started and not made yet. */
  datatype Board<!K> = Board(shown: map<K, Count>, pending: seq<(K, Count)>)

  function PendingOn<K(==)>(ps: seq<(K, Count)>, k: K): Count
    decreases |ps|
  {
    if ps == [] then NONE
    else
      var before := PendingOn(ps[..|ps| - 1], k);
      if ps[|ps| - 1].0 == k then Plus(before, ps[|ps| - 1].1) else before
  }

  /** What counter k reads once everything started on it is made. */
  function Full<K>(b: Board<K>, k: K): Count {
    Plus(Held(b.shown, k), PendingOn(b.pending, k))
  }

  function Posted<K>(b: Board<K>, items: seq<(K, Count)>): Board<K> {
    b.(pending := b.pending + items)
  }

  /** One atomic addition. */
  function Landed<K>(b: Board<K>, i: nat): Board<K>
    requires i < |b.pending|
  {
    var (k, d) := b.pending[i];
    Board(b.shown[k := Plus(Held(b.shown, k), d)], b.pending[..i] + b.pending[i + 1..])
  }

  lemma {:induction false} PendingBoth<K>(a: seq<(K, Count)>, b: seq<(K, Count)>, k: K)
    ensures PendingOn(a + b, k) == Plus(PendingOn(a, k), PendingOn(b, k))
    decreases |b|
  {
    hide Plus;
    if b == [] {
      assert a + b == a;
      PlusNone(PendingOn(a, k));
    } else {
      var n := |b| - 1;
      assert (a + b)[..|a + b| - 1] == a + b[..n];
      PendingBoth(a, b[..n], k);
      PlusAssoc(PendingOn(a, k), PendingOn(b[..n], k), b[n].1);
    }
  }

  lemma PendingOne<K>(p: (K, Count), k: K)
    ensures PendingOn([p], k) == if p.0 == k then p.1 else NONE
  {
    assert [p][..0] == [];
    PlusNoneLeft(p.1);
  }

  lemma PostedFull<K>(b: Board<K>, items: seq<(K, Count)>, k: K)
    ensures Full(Posted(b, items), k) == Plus(Full(b, k), PendingOn(items, k))
  {
    hide Plus, PendingOn;
    PendingBoth(b.pending, items, k);
    PlusAssoc(Held(b.shown, k), PendingOn(b.pending, k), PendingOn(items, k));
  }

  lemma TakenOut<K>(front: seq<(K, Count)>, p: (K, Count), back: seq<(K, Count)>, k: K)
    ensures PendingOn(front + [p] + back, k)
         == if p.0 == k then Plus(p.1, PendingOn(front + back, k)) else PendingOn(front + back, k)
  {
    hide Plus, PendingOn;
    PendingBoth(front + [p], back, k);
    PendingBoth(front, [p], k);
    PendingBoth(front, back, k);
    PendingOne(p, k);
    var a, b := PendingOn(front, k), PendingOn(back, k);
    PlusNone(a);
    PlusAssoc(a, p.1, b);
    PlusSwap(a, p.1, b);
  }

  /** An increment that is made changes nothing in full. */
  lemma LandedFull<K>(b: Board<K>, i: nat, k: K)
    requires i < |b.pending|
    ensures Full(Landed(b, i), k) == Full(b, k)
  {
    hide Plus, PendingOn;
    var p, front, back := b.pending[i], b.pending[..i], b.pending[i + 1..];
    assert b.pending == front + [p] + back;
    TakenOut(front, p, back, k);
    PlusAssoc(Held(b.shown, k), p.1, PendingOn(front + back, k));
  }

  /** With nothing pending the counters read what they are in full. */
  lemma NothingPending<K>(b: Board<K>, k: K)
    requires b.pending == []
    ensures Full(b, k) == Held(b.shown, k)
  {
    hide Plus;
    PlusNone(Held(b.shown, k));
  }

  /** The single fields of a count that Count.Add adds to one after the other. */
  function Fields<K>(k: K, c: Count): seq<(K, Count)> {
    [(k, NONE.(packetsSent := c.packetsSent)), (k, NONE.(packetReceived := c.packetReceived)),
     (k, NONE.(wholePacketSent := c.wholePacketSent)), (k, NONE.(wholePacketReceived := c.wholePacketReceived)),
     (k, NONE.(bytesSent := c.bytesSent)), (k, NONE.(bytesReceived := c.bytesReceived))]
  }

  lemma FieldsAdd<K>(key: K, c: Count, k: K)
    ensures PendingOn(Fields(key, c), k) == if k == key then c else NONE
  {
    hide PendingOn;
    var f := Fields(key, c);
    PendingBoth(f[..3], f[3..], k);
    assert f == f[..3] + f[3..];
    ThreeAdd(f[..3], k);
    ThreeAdd(f[3..], k);
  }

  lemma ThreeAdd<K>(f: seq<(K, Count)>, k: K)
    requires |f| == 3 && f[0].0 == f[1].0 == f[2].0
    ensures PendingOn(f, k) == if k == f[0].0 then Plus(Plus(f[0].1, f[1].1), f[2].1) else NONE
  {
    hide Plus, PendingOn;
    PendingBoth([f[0], f[1]], [f[2]], k);
    PendingBoth([f[0]], [f[1]], k);
    assert f == [f[0], f[1]] + [f[2]] && [f[0], f[1]] == [f[0]] + [f[1]];
    PendingOne(f[0], k);
    PendingOne(f[1], k);
    PendingOne(f[2], k);
    PlusNone(NONE);
  }
}
