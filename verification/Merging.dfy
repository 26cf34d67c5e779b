/** Putting packets back together: the channel loops handleServerLoop and
    handleClientLoop (protocol.go:341-490) and the answer the server gives (handle.go:167-209). */
module Merging {
  import opened Packets
  import opened Statuses
  import opened Chunks

  /** pktWholeRequest (or pktWholeResponse) and the messages completed so far. */
  datatype Merge = Merge(whole: Option<Packet>, delivered: seq<Message>)

  const NOTHING_MERGED := Merge(None, [])

  function Joined(whole: Option<Packet>, pkt: Packet): Packet {
    match whole
    case None => pkt
    case Some(w) => w.(data := w.data + pkt.data, status := pkt.status)
  }

  /** One turn of a channel loop on a packet from a sender with the given role. */
  function MergeStep(role: Role, s: Merge, pkt: Packet): Merge {
    var w := Joined(s.whole, pkt);
    if Completed(role, pkt.status) then Merge(None, s.delivered + [Message(w.path, w.data)])
    else Merge(Some(w), s.delivered)
  }

  function MergeAll(role: Role, s: Merge, ps: seq<Packet>): Merge {
    if ps == [] then s
    else MergeStep(role, MergeAll(role, s, ps[..|ps| - 1]), ps[|ps| - 1])
  }

  lemma {:induction false} MergeAllAppend(role: Role, s: Merge, a: seq<Packet>, b: seq<Packet>)
    ensures MergeAll(role, s, a + b) == MergeAll(role, MergeAll(role, s, a), b)
    decreases |b|
  {
    if b == [] {
      assert a + b == a;
    } else {
      var n := |b| - 1;
      assert (a + b)[..|a + b| - 1] == a + b[..n];
      MergeAllAppend(role, s, a, b[..n]);
    }
  }

  lemma {:induction false} DataOfSnoc(ps: seq<Packet>, p: Packet)
    ensures DataOf(ps + [p]) == DataOf(ps) + p.data
    decreases |ps|
  {
    if ps == [] {
      assert DataOf([p]) == p.data + DataOf([]);
    } else {
      assert (ps + [p])[1..] == ps[1..] + [p];
      DataOfSnoc(ps[1..], p);
    }
  }

  /** The merge state after the first n chunks of a message. */
  lemma {:induction false} MergeChunks(role: Role, id: uint32, m: Message, delivered: seq<Message>, n: nat)
    requires m.data != [] && n <= |ChunksOf(role, id, m)|
    ensures
      var cs := ChunksOf(role, id, m);
      var s := MergeAll(role, Merge(None, delivered), cs[..n]);
      s == if n == 0 then Merge(None, delivered)
           else if n < |cs| then Merge(Some(Packet(cs[n - 1].status, m.path, id, DataOf(cs[..n]))), delivered)
           else Merge(None, delivered + [m])
    decreases n
  {
    var cs := ChunksOf(role, id, m);
    if n > 0 {
      hide ChunksOf, DataOf;
      MergeChunks(role, id, m, delivered, n - 1);
      NthChunk(role, id, m, n);
      assert cs[..n][..n - 1] == cs[..n - 1];
    }
  }

  lemma NthChunk(role: Role, id: uint32, m: Message, n: nat)
    requires m.data != [] && 0 < n <= |ChunksOf(role, id, m)|
    ensures
      var cs := ChunksOf(role, id, m);
      var p := cs[n - 1];
      && p.path == m.path && p.channelId == id && (Completed(role, p.status) <==> n == |cs|)
      && DataOf(cs[..n]) == DataOf(cs[..n - 1]) + p.data
      && (n == 1 ==> DataOf(cs[..n]) == p.data) && (n == |cs| ==> DataOf(cs[..n]) == m.data)
  {
    var cs := ChunksOf(role, id, m);
    ChunksOfMessage(role, id, m);
    assert cs[..n] == cs[..n - 1] + [cs[n - 1]];
    DataOfSnoc(cs[..n - 1], cs[n - 1]);
    if n == 1 {
      assert DataOf(cs[..0]) == [];
      assert [] + cs[0].data == cs[0].data;
    }
    if n == |cs| {
      assert cs[..n] == cs;
    }
  }

  /** The packets pushed for a list of messages, sent one after the other on a channel. */
  function PushedAll(role: Role, mode: SendMode, id: uint32, ms: seq<Message>): seq<Packet>
    requires forall m :: m in ms ==> WellFormed(m)
  {
    if ms == [] then []
    else
      assert WellFormed(ms[0]);
      PushedFor(role, mode, id, ms[0]) + PushedAll(role, mode, id, ms[1..])
  }

  lemma {:induction false} PushedAllSnoc(role: Role, mode: SendMode, id: uint32, ms: seq<Message>, m: Message)
    requires WellFormed(m) && forall x :: x in ms ==> WellFormed(x)
    ensures PushedAll(role, mode, id, ms + [m]) == PushedAll(role, mode, id, ms) + PushedFor(role, mode, id, m)
    decreases |ms|
  {
    if ms == [] {
      assert PushedAll(role, mode, id, [m]) == PushedFor(role, mode, id, m) + PushedAll(role, mode, id, []);
    } else {
      assert (ms + [m])[1..] == ms[1..] + [m];
      PushedAllSnoc(role, mode, id, ms[1..], m);
    }
  }

  predicate AllSendable(ps: seq<Packet>) {
    forall i :: 0 <= i < |ps| ==> Sendable(ps[i])
  }

  lemma AllSendableAppend(a: seq<Packet>, b: seq<Packet>)
    ensures AllSendable(a + b) <==> AllSendable(a) && AllSendable(b)
  {
    if AllSendable(a + b) {
      forall i | 0 <= i < |a| ensures Sendable(a[i]) { assert a[i] == (a + b)[i]; }
      forall i | 0 <= i < |b| ensures Sendable(b[i]) { assert b[i] == (a + b)[|a| + i]; }
    }
  }

  /** A received prefix either lies within the first message or covers it. */
  lemma PrefixSplit(role: Role, mode: SendMode, id: uint32, ms: seq<Message>, q: seq<Packet>)
    returns (cs: seq<Packet>)
    requires forall m :: m in ms ==> WellFormed(m)
    requires q != [] && q <= PushedAll(role, mode, id, ms) && AllSendable(q)
    ensures ms != [] && WellFormed(ms[0]) && Fits(mode, ms[0]) && cs == ChunksOf(role, id, ms[0])
    ensures |q| <= |cs| ==> q == cs[..|q|]
    ensures |q| > |cs| ==> q == cs + q[|cs|..] && q[|cs|..] <= PushedAll(role, mode, id, ms[1..])
  {
    hide ChunksOf, Sendable, Fits;
    PushedForShape(role, mode, id, ms[0]);
    cs := PushedFor(role, mode, id, ms[0]);
    assert PushedAll(role, mode, id, ms) == cs + PushedAll(role, mode, id, ms[1..]);
    SplitOff(q, cs, PushedAll(role, mode, id, ms[1..]));
    assert q[0] == cs[0] && Sendable(q[0]);
  }

  lemma SplitOff<T>(q: seq<T>, a: seq<T>, b: seq<T>)
    requires q <= a + b
    ensures |q| <= |a| ==> q == a[..|q|]
    ensures |q| > |a| ==> q == a + q[|a|..] && q[|a|..] <= b
  {
    assert q == (a + b)[..|q|];
  }

  lemma MergeMessage(role: Role, id: uint32, m: Message, done: seq<Message>, q: seq<Packet>)
    requires m.data != []
    ensures MergeAll(role, Merge(None, done), ChunksOf(role, id, m) + q) == MergeAll(role, Merge(None, done + [m]), q)
  {
    var cs := ChunksOf(role, id, m);
    ChunksOfMessage(role, id, m);
    MergeChunks(role, id, m, done, |cs|);
    assert cs[..|cs|] == cs;
    MergeAllAppend(role, Merge(None, done), cs, q);
  }

  lemma CoversFirst(role: Role, id: uint32, m: Message, done: seq<Message>, q: seq<Packet>)
    requires m.data != []
    requires var cs := ChunksOf(role, id, m); |q| >= |cs| && q == cs + q[|cs|..]
    ensures MergeAll(role, Merge(None, done), q)
         == MergeAll(role, Merge(None, done + [m]), q[|ChunksOf(role, id, m)|..])
  {
    hide MergeAll, ChunksOf;
    MergeMessage(role, id, m, done, q[|ChunksOf(role, id, m)|..]);
  }

  lemma NothingMerges(role: Role, done: seq<Message>)
    ensures MergeAll(role, Merge(None, done), []) == Merge(None, done)
  {
  }

  lemma TakeAfter<T>(done: seq<T>, ms: seq<T>, k: nat)
    requires 0 < k <= |ms|
    ensures done + ms[..k] == done + [ms[0]] + ms[1..][..k - 1]
  {
  }

  /** What a channel loop makes of a prefix of the packets pushed for ms: the first k of ms. */
  lemma {:induction false} PrefixDelivers(role: Role, mode: SendMode, id: uint32, ms: seq<Message>,
                                          q: seq<Packet>, done: seq<Message>)
    returns (k: nat)
    requires forall m :: m in ms ==> WellFormed(m)
    requires q <= PushedAll(role, mode, id, ms) && AllSendable(q)
    ensures k <= |ms| && MergeAll(role, Merge(None, done), q).delivered == done + ms[..k]
    ensures forall i :: 0 <= i < k ==> Fits(mode, ms[i])
    decreases |ms|
  {
    hide PushedAll, MergeAll, ChunksOf, Fits, Sendable;
    k := 0;
    if q == [] {
      NothingMerges(role, done);
    } else {
      var cs := PrefixSplit(role, mode, id, ms, q);
      if |q| < |cs| {
        MergeChunks(role, id, ms[0], done, |q|);
      } else {
        var rest := q[|cs|..];
        CoversFirst(role, id, ms[0], done, q);
        k := PrefixDelivers(role, mode, id, ms[1..], rest, done + [ms[0]]);
        k := k + 1;
        TakeAfter(done, ms, k);
      }
    }
  }

  /** And all of ms from all of the packets, with nothing left in the merge buffer. */
  lemma {:induction false} WholeDelivers(role: Role, mode: SendMode, id: uint32, ms: seq<Message>, done: seq<Message>)
    requires forall m :: m in ms ==> WellFormed(m) && Fits(mode, m)
    ensures MergeAll(role, Merge(None, done), PushedAll(role, mode, id, ms)) == Merge(None, done + ms)
    decreases |ms|
  {
    if ms == [] {
      assert done + ms == done;
    } else {
      assert ms[0] in ms;
      PushedForShape(role, mode, id, ms[0]);
      MergeMessage(role, id, ms[0], done, PushedAll(role, mode, id, ms[1..]));
      WholeDelivers(role, mode, id, ms[1..], done + [ms[0]]);
      assert done + [ms[0]] + ms[1..] == done + ms;
    }
  }

  /** A list of messages fits exactly when every packet pushed for it can be sent. */
  lemma {:induction false} FitsIffSendable(role: Role, mode: SendMode, id: uint32, ms: seq<Message>)
    requires forall m :: m in ms ==> WellFormed(m)
    ensures AllSendable(PushedAll(role, mode, id, ms)) <==> forall m :: m in ms ==> Fits(mode, m)
    decreases |ms|
  {
    if ms != [] {
      assert WellFormed(ms[0]);
      var ps, qs := PushedFor(role, mode, id, ms[0]), PushedAll(role, mode, id, ms[1..]);
      PushedForShape(role, mode, id, ms[0]);
      FitsIffSendable(role, mode, id, ms[1..]);
      AllSendableAppend(ps, qs);
      assert AllSendable(ps) <==> Sendable(ps[0]);
      assert forall m :: m in ms <==> m == ms[0] || m in ms[1..];
    }
  }

  lemma NothingAccepted(role: Role, prev: byte)
    ensures Accepts(role, prev, StatusesOf([]))
  {
  }

  lemma PartAccepted(role: Role, id: uint32, m: Message, prev: byte, n: nat)
    requires m.data != [] && n <= |ChunksOf(role, id, m)| && (prev == STATUS_NONE || Completed(role, prev))
    ensures Accepts(role, prev, StatusesOf(ChunksOf(role, id, m)[..n]))
  {
    hide ChunksOf, Accepts;
    ChunksOfMessage(role, id, m);
    var cs := ChunksOf(role, id, m);
    assert StatusesOf(cs[..n]) == StatusesOf(cs)[0..n];
    MessageAccepted(role, prev, StatusesOf(cs), 0, n);
  }

  lemma WholeCompletes(role: Role, id: uint32, m: Message) returns (last: byte)
    requires m.data != []
    ensures var cs := ChunksOf(role, id, m); cs != [] && last == StatusesOf(cs)[|cs| - 1] && Completed(role, last)
  {
    hide ChunksOf;
    ChunksOfMessage(role, id, m);
    last := StatusesOf(ChunksOf(role, id, m))[|ChunksOf(role, id, m)| - 1];
  }

  lemma AcceptsAfter(role: Role, prev: byte, cs: seq<Packet>, q: seq<Packet>, last: byte)
    requires cs != [] && last == StatusesOf(cs)[|cs| - 1]
    requires Accepts(role, prev, StatusesOf(cs)) && Accepts(role, last, StatusesOf(q))
    ensures Accepts(role, prev, StatusesOf(cs + q))
  {
    hide Accepts;
    StatusesOfAppend(cs, q);
    AcceptsAppend(role, prev, StatusesOf(cs), StatusesOf(q));
  }

  /** The statuses of such a prefix are what the peer's check expects. */
  lemma {:induction false} PrefixAccepted(role: Role, mode: SendMode, id: uint32, ms: seq<Message>, q: seq<Packet>, prev: byte)
    requires forall m :: m in ms ==> WellFormed(m)
    requires q <= PushedAll(role, mode, id, ms) && AllSendable(q)
    requires prev == STATUS_NONE || Completed(role, prev)
    ensures Accepts(role, prev, StatusesOf(q))
    decreases |ms|
  {
    hide PushedAll, Accepts, StatusesOf, ChunksOf, Fits, Sendable;
    if q == [] {
      NothingAccepted(role, prev);
    } else {
      var cs := PrefixSplit(role, mode, id, ms, q);
      if |q| <= |cs| {
        PartAccepted(role, id, ms[0], prev, |q|);
      } else {
        PartAccepted(role, id, ms[0], prev, |cs|);
        assert cs[..|cs|] == cs;
        var q' := q[|cs|..];
        var last := WholeCompletes(role, id, ms[0]);
        PrefixAccepted(role, mode, id, ms[1..], q', last);
        AcceptsAfter(role, prev, cs, q', last);
      }
    }
  }

  /** The fewest packets that can carry the messages. */
  function Cost(ms: seq<Message>): nat {
    if ms == [] then 0 else Cost(ms[..|ms| - 1]) + ChunkCount(|ms[|ms| - 1].data|)
  }

  lemma CostSnoc(ms: seq<Message>, m: Message)
    ensures Cost(ms + [m]) == Cost(ms) + ChunkCount(|m.data|)
  {
  }

  /** No loop delivers messages from fewer packets than it takes to carry them. */
  lemma {:induction false} DeliveryNeedsPackets(role: Role, ps: seq<Packet>) returns (w: nat)
    requires AllSendable(ps)
    ensures var s := MergeAll(role, NOTHING_MERGED, ps);
            && Cost(s.delivered) + w == |ps|
            && (s.whole.Some? ==> |s.whole.value.data| <= Capacity(w))
    decreases |ps|
  {
    if ps == [] {
      w := 0;
    } else {
      var n := |ps| - 1;
      var w0 := DeliveryNeedsPackets(role, ps[..n]);
      var s := MergeAll(role, NOTHING_MERGED, ps[..n]);
      var j := Joined(s.whole, ps[n]);
      assert |j.data| <= Capacity(w0 + 1);
      if Completed(role, ps[n].status) {
        ChunkCountBound(|j.data|, w0 + 1);
        CostSnoc(s.delivered, Message(j.path, j.data));
        w := w0 + 1 - ChunkCount(|j.data|);
      } else {
        w := w0 + 1;
      }
    }
  }

  lemma {:induction false} PushedAllLength(role: Role, mode: SendMode, id: uint32, ms: seq<Message>)
    requires forall m :: m in ms ==> WellFormed(m)
    ensures |PushedAll(role, mode, id, ms)| <= Cost(ms)
    decreases |ms|
  {
    if ms != [] {
      var n := |ms| - 1;
      assert ms[..n] + [ms[n]] == ms;
      PushedAllSnoc(role, mode, id, ms[..n], ms[n]);
      PushedAllLength(role, mode, id, ms[..n]);
      PushedForShape(role, mode, id, ms[n]);
    }
  }

  // ----- what is left of a list of messages -----

  /** The packets merged since the last message was completed. */
  function Partial(role: Role, ps: seq<Packet>): seq<Packet> {
    if ps == [] || Completed(role, ps[|ps| - 1].status) then []
    else Partial(role, ps[..|ps| - 1]) + [ps[|ps| - 1]]
  }

  lemma {:induction false} PartialAfter(role: Role, a: seq<Packet>, b: seq<Packet>)
    requires a != [] && Completed(role, a[|a| - 1].status)
    ensures Partial(role, a + b) == Partial(role, b)
    decreases |b|
  {
    if b == [] {
      assert a + b == a;
    } else {
      assert (a + b)[..|a + b| - 1] == a + b[..|b| - 1];
      PartialAfter(role, a, b[..|b| - 1]);
    }
  }

  lemma {:induction false} AllPartial(role: Role, ps: seq<Packet>)
    requires forall i :: 0 <= i < |ps| ==> !Completed(role, ps[i].status)
    ensures Partial(role, ps) == ps
    decreases |ps|
  {
    if ps != [] {
      AllPartial(role, ps[..|ps| - 1]);
    }
  }

  lemma {:induction false} PushedAllAppend(role: Role, mode: SendMode, id: uint32, a: seq<Message>, b: seq<Message>)
    requires (forall m :: m in a ==> WellFormed(m)) && (forall m :: m in b ==> WellFormed(m))
    ensures PushedAll(role, mode, id, a + b) == PushedAll(role, mode, id, a) + PushedAll(role, mode, id, b)
    decreases |a|
  {
    if a == [] {
      assert a + b == b;
    } else {
      assert (a + b)[1..] == a[1..] + b;
      PushedAllAppend(role, mode, id, a[1..], b);
    }
  }

  /** q holds the packets of the first k messages of ms, and a part. */
  predicate InParts(role: Role, mode: SendMode, id: uint32, ms: seq<Message>, q: seq<Packet>, done: seq<Message>, k: nat)
    requires forall m :: m in ms ==> WellFormed(m)
  {
    && k <= |ms| && |MergeAll(role, Merge(None, done), q).delivered| == |done| + k
    && q == PushedAll(role, mode, id, ms[..k]) + Partial(role, q)
  }

  /** A prefix of the packets of ms: those of the messages it completes, then a part. */
  lemma {:induction false} PrefixParts(role: Role, mode: SendMode, id: uint32, ms: seq<Message>,
                                       q: seq<Packet>, done: seq<Message>)
    returns (k: nat)
    requires forall m :: m in ms ==> WellFormed(m)
    requires q <= PushedAll(role, mode, id, ms) && AllSendable(q)
    ensures InParts(role, mode, id, ms, q, done, k)
    decreases |ms|
  {
    hide InParts;
    if q == [] {
      k := 0;
      NoParts(role, mode, id, ms, done);
    } else {
      var cs := PrefixSplit(role, mode, id, ms, q);
      if |q| < |cs| {
        k := 0;
        PartOfFirst(role, mode, id, ms, q, done);
      } else {
        k := PrefixParts(role, mode, id, ms[1..], q[|cs|..], done + [ms[0]]);
        assert q == cs + q[|cs|..];
        MoreParts(role, mode, id, ms, q[|cs|..], done, k);
        k := k + 1;
      }
    }
  }

  lemma NoParts(role: Role, mode: SendMode, id: uint32, ms: seq<Message>, done: seq<Message>)
    requires forall m :: m in ms ==> WellFormed(m)
    ensures InParts(role, mode, id, ms, [], done, 0)
  {
  }

  lemma PartOfFirst(role: Role, mode: SendMode, id: uint32, ms: seq<Message>, q: seq<Packet>, done: seq<Message>)
    requires ms != [] && forall m :: m in ms ==> WellFormed(m)
    requires ms[0].data != [] && |q| < |ChunksOf(role, id, ms[0])| && q == ChunksOf(role, id, ms[0])[..|q|]
    ensures InParts(role, mode, id, ms, q, done, 0)
  {
    hide MergeAll, ChunksOf, Partial;
    ChunksOfMessage(role, id, ms[0]);
    MergeChunks(role, id, ms[0], done, |q|);
    AllPartial(role, q);
    assert [] + q == q;
  }

  lemma MoreParts(role: Role, mode: SendMode, id: uint32, ms: seq<Message>, rest: seq<Packet>, done: seq<Message>, k: nat)
    requires ms != [] && (forall m :: m in ms ==> WellFormed(m)) && WellFormed(ms[0]) && Fits(mode, ms[0])
    requires InParts(role, mode, id, ms[1..], rest, done + [ms[0]], k)
    ensures InParts(role, mode, id, ms, ChunksOf(role, id, ms[0]) + rest, done, k + 1)
  {
    hide MergeAll, PushedAll, Partial, ChunksOf;
    var cs := ChunksOf(role, id, ms[0]);
    MergeMessage(role, id, ms[0], done, rest);
    AfterFirst(role, id, ms[0], rest);
    FirstOfMore(role, mode, id, ms, k + 1);
    JoinParts(cs + rest, cs, rest, PushedAll(role, mode, id, ms[1..][..k]), Partial(role, rest));
  }

  lemma AfterFirst(role: Role, id: uint32, m: Message, rest: seq<Packet>)
    requires m.data != []
    ensures Partial(role, ChunksOf(role, id, m) + rest) == Partial(role, rest)
  {
    ChunksOfMessage(role, id, m);
    PartialAfter(role, ChunksOf(role, id, m), rest);
  }

  lemma FirstOfMore(role: Role, mode: SendMode, id: uint32, ms: seq<Message>, k: nat)
    requires 0 < k <= |ms| && (forall m :: m in ms ==> WellFormed(m)) && WellFormed(ms[0]) && Fits(mode, ms[0])
    ensures PushedAll(role, mode, id, ms[..k]) == ChunksOf(role, id, ms[0]) + PushedAll(role, mode, id, ms[1..][..k - 1])
  {
    PushedForShape(role, mode, id, ms[0]);
    assert ms[..k][1..] == ms[1..][..k - 1];
  }

  lemma JoinParts<T>(all: seq<T>, a: seq<T>, rest: seq<T>, b: seq<T>, c: seq<T>)
    requires all == a + rest && rest == b + c
    ensures all == (a + b) + c
  {
  }

  lemma Cancel<T>(a: seq<T>, b: seq<T>, c: seq<T>, d: seq<T>)
    requires (a + b) + c == a + d
    ensures b + c == d
  {
    assert ((a + b) + c)[|a|..] == b + c;
    assert (a + d)[|a|..] == d;
  }

  /** When q has been merged and way is still to come, the part in the merge buffer and way
      are the packets of exactly the messages not delivered yet. */
  lemma RestOfPackets(role: Role, mode: SendMode, id: uint32, ms: seq<Message>, q: seq<Packet>, way: seq<Packet>)
    requires (forall m :: m in ms ==> WellFormed(m)) && AllSendable(q) && q + way == PushedAll(role, mode, id, ms)
    ensures
      var k := |MergeAll(role, NOTHING_MERGED, q).delivered|;
      k <= |ms| && Partial(role, q) + way == PushedAll(role, mode, id, ms[k..])
  {
    hide MergeAll, PushedAll, Partial;
    var k := PrefixParts(role, mode, id, ms, q, []);
    assert ms == ms[..k] + ms[k..];
    PushedAllAppend(role, mode, id, ms[..k], ms[k..]);
    Cancel(PushedAll(role, mode, id, ms[..k]), Partial(role, q), way, PushedAll(role, mode, id, ms[k..]));
  }
}
