/** What the link's invariant means for the users of a channel. */
module EndToEnd {
  import opened Packets
  import opened Frames
  import opened Statuses
  import opened Chunks
  import opened Reading
  import opened Merging
  import opened Links
  import opened LinkProofs

  /** A link no run has touched yet, after any run. */
  function After(role: Role, mode: SendMode, steps: seq<Step>): Link {
    Run(FreshLink(role, mode), steps)
  }

  lemma AfterInv(role: Role, mode: SendMode, steps: seq<Step>)
    ensures Inv(After(role, mode, steps))
  {
    assert Inv(FreshLink(role, mode));
    RunKeepsInv(FreshLink(role, mode), steps);
  }

  lemma HeadOfPrefix<T>(a: seq<T>, b: seq<T>, c: seq<T>, all: seq<T>)
    requires (a + b) + c <= all
    ensures a <= all
  {
  }

  lemma DeliveredOfInv(l: Link, id: uint32) returns (k: nat)
    requires Inv(l) && id in l.chans && l.chans[id].lost == 0
    ensures var ch := l.chans[id];
            k <= |ch.sent| && ch.merge.delivered == ch.sent[..k] && forall i :: 0 <= i < k ==> Fits(l.mode, ch.sent[i])
  {
    var ch := l.chans[id];
    assert ChanInv(l, id);
    HeadOfPrefix(ch.consumed, ch.queue, On(id, l.onWire), PushedAll(l.role, l.mode, id, ch.sent));
    AllSendableAppend(ch.consumed, ch.queue);
    k := PrefixDelivers(l.role, l.mode, id, ch.sent, ch.consumed, []);
    assert [] + ch.sent[..k] == ch.sent[..k];
  }

  /** End to end: in every reachable state, for any number of channels sharing the
      connection and any interleaving of their packets and bytes, a channel none of whose
      pushes timed out has delivered the first few of the messages sent on it, in order
      and unchanged, and every one of them fits. */
  lemma DeliversPrefix(role: Role, mode: SendMode, steps: seq<Step>, id: uint32)
    requires id in After(role, mode, steps).chans && After(role, mode, steps).chans[id].lost == 0
    ensures
      var ch := After(role, mode, steps).chans[id];
      && ch.merge.delivered <= ch.sent
      && forall i :: 0 <= i < |ch.merge.delivered| ==> Fits(mode, ch.sent[i])
  {
    AfterInv(role, mode, steps);
    KeepsRoleAndMode(FreshLink(role, mode), steps);
    var _ := DeliveredOfInv(After(role, mode, steps), id);
  }

  lemma {:induction false} KeepsRoleAndMode(l: Link, steps: seq<Step>)
    ensures Run(l, steps).role == l.role && Run(l, steps).mode == l.mode
    decreases |steps|
  {
    if steps != [] {
      KeepsRoleAndMode(l, steps[..|steps| - 1]);
    }
  }

  lemma DrainedDelivery(l: Link, id: uint32)
    requires Inv(l) && id in l.chans && !l.sendClosed && Drained(l, id)
    ensures l.chans[id].merge.delivered == l.chans[id].sent <==> l.chans[id].lost == 0
  {
    var ch := l.chans[id];
    assert ChanInv(l, id);
    assert Received(ch) == ch.consumed && Front(l, id) == ch.consumed;
    if ch.lost == 0 {
      assert Front(l, id) + Back(l, id) == ch.consumed;
      FitsIffSendable(l.role, l.mode, id, ch.sent);
      WholeDelivers(l.role, l.mode, id, ch.sent, []);
      assert [] + ch.sent == ch.sent;
    }
    if ch.merge.delivered == ch.sent {
      var w := DeliveryNeedsPackets(l.role, ch.consumed);
      PushedAllLength(l.role, l.mode, id, ch.sent);
    }
  }

  /** Once a channel of a connection that is still open has drained, it has delivered
      exactly what was sent if and only if none of its pushes timed out. */
  lemma DrainedDeliversAll(role: Role, mode: SendMode, steps: seq<Step>, id: uint32)
    requires
      var l := After(role, mode, steps);
      id in l.chans && !l.sendClosed && Drained(l, id)
    ensures
      var ch := After(role, mode, steps).chans[id];
      ch.merge.delivered == ch.sent <==> ch.lost == 0
  {
    AfterInv(role, mode, steps);
    DrainedDelivery(After(role, mode, steps), id);
  }

  predicate Lossless(l: Link) {
    forall id :: id in l.chans ==> l.chans[id].lost == 0
  }

  predicate NoTimeOuts(steps: seq<Step>) {
    forall i :: 0 <= i < |steps| ==> !steps[i].TimeOut?
  }

  /** The reading end uses the id of a channel again when the old one has got some, not all,
      of the packets of a message. */
  predicate Cuts(l: Link, s: Step) {
    s.Reuse? && s.at.Reading? && Enabled(l, s) && !Between(l, s.id)
  }

  predicate NoCuts(role: Role, mode: SendMode, steps: seq<Step>) {
    forall n :: 0 <= n < |steps| ==> !Cuts(After(role, mode, steps[..n]), steps[n])
  }

  lemma NoCutsBefore(role: Role, mode: SendMode, steps: seq<Step>, k: nat)
    requires NoCuts(role, mode, steps) && k <= |steps|
    ensures NoCuts(role, mode, steps[..k])
  {
    hide Cuts, After;
    forall n | 0 <= n < k ensures !Cuts(After(role, mode, steps[..k][..n]), steps[..k][n]) {
      assert steps[..k][..n] == steps[..n];
    }
  }

  lemma {:induction false} NoTimeOutNoLoss(role: Role, mode: SendMode, steps: seq<Step>)
    requires NoTimeOuts(steps) && NoCuts(role, mode, steps)
    ensures Lossless(After(role, mode, steps))
    decreases |steps|
  {
    hide Cuts, NoCuts, Lossless;
    if steps == [] {
      NothingLostYet(role, mode);
    } else {
      var k := |steps| - 1;
      NoCutsBefore(role, mode, steps, k);
      NoTimeOutNoLoss(role, mode, steps[..k]);
      LastIsNoCut(role, mode, steps);
      StepLosesNothing(After(role, mode, steps[..k]), steps[k]);
    }
  }

  lemma NothingLostYet(role: Role, mode: SendMode)
    ensures Lossless(After(role, mode, []))
  {
  }

  lemma LastIsNoCut(role: Role, mode: SendMode, steps: seq<Step>)
    requires NoCuts(role, mode, steps) && steps != []
    ensures !Cuts(After(role, mode, steps[..|steps| - 1]), steps[|steps| - 1])
  {
    hide Cuts, After;
  }

  lemma StepLosesNothing(l: Link, s: Step)
    requires Lossless(l) && !s.TimeOut? && !Cuts(l, s)
    ensures Enabled(l, s) ==> Lossless(Apply(l, s))
  {
    if s.Read? {
      DeliverFacts(l.role, StatusMap(l), l.arrived);
    }
  }

  /** Where nothing has been lost, one turn of the read loop closes the connection exactly when
      the oldest packet on the wire is for a channel closed at this end and enough of it is
      at hand to tell. */
  lemma ReaderClosesIff(role: Role, mode: SendMode, steps: seq<Step>)
    requires Lossless(After(role, mode, steps)) && !After(role, mode, steps).recvClosed
    ensures ReadOnce(After(role, mode, steps)).recvClosed <==> Refuses(After(role, mode, steps))
  {
    AfterInv(role, mode, steps);
    RefusedIff(After(role, mode, steps));
    DeliverFacts(role, StatusMap(After(role, mode, steps)), After(role, mode, steps).arrived);
  }

  /** Step n of the run reads such a packet. */
  predicate RefusedAt(role: Role, mode: SendMode, steps: seq<Step>, n: nat) {
    && n < |steps| && steps[n] == Read
    && !After(role, mode, steps[..n]).recvClosed && Refuses(After(role, mode, steps[..n]))
  }

  lemma RefusedInside(role: Role, mode: SendMode, steps: seq<Step>, n: nat)
    requires RefusedAt(role, mode, steps, n)
    ensures n < |steps|
  {
  }

  lemma OnlyReadCloses(l: Link, s: Step)
    requires Enabled(l, s) && s != Read
    ensures Apply(l, s).recvClosed == l.recvClosed
  {
  }

  lemma LastStepCloses(role: Role, mode: SendMode, steps: seq<Step>)
    requires steps != [] && Lossless(After(role, mode, steps[..|steps| - 1]))
    ensures After(role, mode, steps).recvClosed
        <==> After(role, mode, steps[..|steps| - 1]).recvClosed || RefusedAt(role, mode, steps, |steps| - 1)
  {
    var k := |steps| - 1;
    var l, s := After(role, mode, steps[..k]), steps[k];
    if s == Read {
      if !l.recvClosed {
        ReaderClosesIff(role, mode, steps[..k]);
      }
    } else if Enabled(l, s) {
      OnlyReadCloses(l, s);
    }
  }

  lemma RefusedBefore(role: Role, mode: SendMode, steps: seq<Step>, k: nat, n: nat)
    requires n < k <= |steps|
    ensures RefusedAt(role, mode, steps[..k], n) <==> RefusedAt(role, mode, steps, n)
  {
    assert steps[..k][..n] == steps[..n];
  }

  /** So in a run without time-outs, in which no id is used again in the middle of a message,
      the reading end has closed the connection if and only if it has read a packet for a
      channel it had closed; no other frame is ever refused. */
  lemma {:induction false} ReaderClosedIff(role: Role, mode: SendMode, steps: seq<Step>)
    requires NoTimeOuts(steps) && NoCuts(role, mode, steps)
    ensures After(role, mode, steps).recvClosed <==> exists n: nat :: RefusedAt(role, mode, steps, n)
    decreases |steps|
  {
    if steps != [] {
      hide After, Lossless, NoCuts, RefusedAt;
      var k := |steps| - 1;
      NoCutsBefore(role, mode, steps, k);
      NoTimeOutNoLoss(role, mode, steps[..k]);
      ReaderClosedIff(role, mode, steps[..k]);
      LastStepCloses(role, mode, steps);
      forall n: nat | n < k ensures RefusedAt(role, mode, steps[..k], n) <==> RefusedAt(role, mode, steps, n) {
        RefusedBefore(role, mode, steps, k, n);
      }
      forall n: nat | RefusedAt(role, mode, steps, n) ensures n <= k {
        RefusedInside(role, mode, steps, n);
      }
      forall n: nat | RefusedAt(role, mode, steps[..k], n) ensures n < k {
        RefusedInside(role, mode, steps[..k], n);
      }
    }
  }

  /** In such a place the next packet of the channel is one the new channel refuses: it goes on
      with a message that the new channel has not seen begin. */
  lemma CutIsRefused(l: Link, id: uint32)
    requires Inv(l) && MayReuse(l, id, Reading) && l.chans[id].lost == 0 && !Between(l, id) && On(id, l.onWire) != []
    ensures !Check(l.role, ReusedAt(l, id, Reading).chans[id].status, On(id, l.onWire)[0].status).Accepted?
  {
    hide Accepts, On;
    var ch, next := l.chans[id], On(id, l.onWire);
    ChannelInOrder(l, id);
    InTheMiddle(l, id);
    OnSendable(id, l.onWire);
    FirstAccepted(l.role, ch.status, next);
    assert Sendable(next[0]);
    ContinuesOnly(l.role, ch.status, next[0].status);
  }

  lemma InTheMiddle(l: Link, id: uint32)
    requires id in l.chans && ChanInv(l, id) && l.chans[id].lost == 0 && !Between(l, id)
    ensures !Completed(l.role, l.chans[id].status) && l.chans[id].status != STATUS_NONE
  {
    hide MergeAll, FrameBytes, On, Accepts, PushedAll;
    var ch, got := l.chans[id], Received(l.chans[id]);
    var n := |got| - 1;
    PrefixAccepted(l.role, l.mode, id, ch.sent, got, ch.start);
    var st := StatusesOf(got);
    assert st == st[..n] + [st[n]];
    AcceptsAppend(l.role, ch.start, st[..n], [st[n]]);
    AcceptedIsKnown(l.role, if n == 0 then ch.start else st[n - 1], st[n]);
  }

  lemma AcceptedIsKnown(role: Role, prev: byte, status: byte)
    requires Accepts(role, prev, [status])
    ensures status != STATUS_NONE
  {
  }

  lemma FirstAccepted(role: Role, prev: byte, ps: seq<Packet>)
    requires ps != [] && Accepts(role, prev, StatusesOf(ps))
    ensures Check(role, prev, ps[0].status).Accepted?
  {
  }

  lemma ContinuesOnly(role: Role, prev: byte, status: byte)
    requires prev != STATUS_NONE && !Completed(role, prev) && status != STATUS_CLOSE && Check(role, prev, status).Accepted?
    ensures !Check(role, STATUS_NONE, status).Accepted?
  {
  }

  /** The merge buffer of a channel loop holds a packet exactly when the last packet taken
      left its message uncompleted. */
  lemma BufferIffUncompleted(role: Role, mode: SendMode, steps: seq<Step>, id: uint32)
    requires id in After(role, mode, steps).chans
    ensures
      var ch := After(role, mode, steps).chans[id];
      ch.merge.whole.Some? <==> ch.consumed != [] && !Completed(role, ch.consumed[|ch.consumed| - 1].status)
  {
    AfterInv(role, mode, steps);
    KeepsRoleAndMode(FreshLink(role, mode), steps);
    assert ChanInv(After(role, mode, steps), id);
  }

  /** Byte counting: over all the channel objects that have had the id at either end, and with
      what each is about to count, BytesSent exceeds BytesReceived by exactly the frames on the
      wire. */
  lemma BytesConserved(role: Role, mode: SendMode, steps: seq<Step>, id: uint32)
    requires id in After(role, mode, steps).chans
    ensures var l := After(role, mode, steps); BytesKept(l.chans[id].bytes, FrameBytes(On(id, l.onWire)))
  {
    AfterInv(role, mode, steps);
    assert ChanInv(After(role, mode, steps), id);
  }

  /** So once everything written has been read and counted, the counters of the two ends agree
      if and only if those of the older objects of the id do. */
  lemma BytesAgreeIff(role: Role, mode: SendMode, steps: seq<Step>, id: uint32)
    requires id in After(role, mode, steps).chans
    requires
      var l := After(role, mode, steps);
      On(id, l.onWire) == [] && l.chans[id].bytes.sentPending == l.chans[id].bytes.receivedPending == 0
    ensures
      var b := After(role, mode, steps).chans[id].bytes;
      b.sent == b.received <==> b.oldSent == b.oldReceived
  {
    BytesConserved(role, mode, steps, id);
  }

  predicate NeverAgain(steps: seq<Step>, id: uint32) {
    forall at :: Reopen(id, at) !in steps && Reuse(id, at) !in steps
  }

  predicate NoOldBytes(l: Link, id: uint32) {
    id in l.chans ==> l.chans[id].bytes.oldSent == l.chans[id].bytes.oldReceived == l.chans[id].bytes.oldQueued == 0
  }

  lemma {:induction false} NoOlderObjects(role: Role, mode: SendMode, steps: seq<Step>, id: uint32)
    requires NeverAgain(steps, id)
    ensures NoOldBytes(After(role, mode, steps), id)
    decreases |steps|
  {
    if steps != [] {
      var k := |steps| - 1;
      NoOlderObjects(role, mode, steps[..k], id);
      if Enabled(After(role, mode, steps[..k]), steps[k]) {
        StepAddsNone(After(role, mode, steps[..k]), steps[k], id);
      }
    }
  }

  lemma StepAddsNone(l: Link, s: Step, id: uint32)
    requires Enabled(l, s) && NoOldBytes(l, id)
    requires forall at :: s != Reopen(id, at) && s != Reuse(id, at)
    ensures NoOldBytes(Apply(l, s), id)
  {
    if s.Read? {
      DeliverFacts(l.role, StatusMap(l), l.arrived);
    }
  }

  /** On an id that is not used again the sender's BytesSent exceeds the receiver's BytesReceived,
      with what each is about to count, by exactly the frames on the wire, at every moment. */
  lemma BytesAgree(role: Role, mode: SendMode, steps: seq<Step>, id: uint32)
    requires id in After(role, mode, steps).chans && NeverAgain(steps, id)
    ensures
      var l := After(role, mode, steps);
      var b := l.chans[id].bytes;
      && b.sent + b.sentPending == b.received + b.receivedPending + FrameBytes(On(id, l.onWire))
      && (On(id, l.onWire) == [] && b.sentPending == b.receivedPending == 0 ==> b.sent == b.received)
  {
    BytesConserved(role, mode, steps, id);
    NoOlderObjects(role, mode, steps, id);
  }

  // ----- runs one after the other -----

  lemma {:induction false} RunAppend(l: Link, a: seq<Step>, b: seq<Step>)
    ensures Run(l, a + b) == Run(Run(l, a), b)
    decreases |b|
  {
    if b == [] {
      assert a + b == a;
    } else {
      assert (a + b)[..|a + b| - 1] == a + b[..|b| - 1];
      RunAppend(l, a, b[..|b| - 1]);
    }
  }

  lemma RunOne(l: Link, s: Step)
    requires Enabled(l, s)
    ensures Run(l, [s]) == Apply(l, s)
  {
  }

  lemma RunSnoc(l: Link, steps: seq<Step>, s: Step)
    requires Enabled(Run(l, steps), s)
    ensures Run(l, steps + [s]) == Apply(Run(l, steps), s)
  {
    RunAppend(l, steps, [s]);
    RunOne(Run(l, steps), s);
  }

  // ----- sendPacket as a run -----

  /** The steps of one call of sendPacket whose k-th push times out iff timedOut(k). */
  function SendSteps(id: uint32, m: Message, n: nat, timedOut: nat -> bool): seq<Step> {
    if n == 0 then [Begin(id, m)]
    else SendSteps(id, m, n - 1, timedOut) + [if timedOut(n - 1) then TimeOut(id) else Push(id)]
  }

  function Fates(n: nat, timedOut: nat -> bool): seq<bool> {
    if n == 0 then [] else Fates(n - 1, timedOut) + [timedOut(n - 1)]
  }

  /** l after the first n pushes of the packets ps of m. */
  predicate PartlySent(l: Link, l': Link, id: uint32, m: Message, ps: seq<Packet>, n: nat, timedOut: nat -> bool)
    requires id in l.chans && n <= |ps|
  {
    var ch, kept := l.chans[id], Survivors(ps[..n], timedOut);
    && |kept| <= n
    && l' == l.(writeQ := l.writeQ + kept,
                chans := l.chans[id := ch.(
                  sent := ch.sent + [m], outbox := ps[n..],
                  timedOut := ch.timedOut + Fates(n, timedOut), lost := ch.lost + n - |kept|)])
  }

  lemma PartlySentStep(l: Link, l1: Link, id: uint32, m: Message, ps: seq<Packet>, n: nat, timedOut: nat -> bool)
    requires id in l.chans && !l.sendClosed && n < |ps| && PartlySent(l, l1, id, m, ps, n, timedOut)
    ensures var s := if timedOut(n) then TimeOut(id) else Push(id);
            Enabled(l1, s) && PartlySent(l, Apply(l1, s), id, m, ps, n + 1, timedOut)
  {
    assert ps[..n + 1][..n] == ps[..n];
    assert ps[n..][1..] == ps[n + 1..];
    SnocAfter(l.writeQ, Survivors(ps[..n], timedOut), ps[n]);
    SnocAfter(l.chans[id].timedOut, Fates(n, timedOut), timedOut(n));
  }

  lemma NothingPushed(l: Link, id: uint32, m: Message, timedOut: nat -> bool)
    requires Enabled(l, Begin(id, m))
    ensures PartlySent(l, Run(l, [Begin(id, m)]), id, m, PushedFor(l.role, l.mode, id, m), 0, timedOut)
  {
    assert l.chans[id].timedOut + [] == l.chans[id].timedOut;
  }

  /** What SendSide.SendPacket does in one call is what these steps do one by one: the
      surviving packets reach the queue and the others are counted as lost. */
  lemma {:induction false} SendPacketIsARun(l: Link, id: uint32, m: Message, n: nat, timedOut: nat -> bool)
    requires Enabled(l, Begin(id, m)) && n <= |PushedFor(l.role, l.mode, id, m)|
    ensures PartlySent(l, Run(l, SendSteps(id, m, n, timedOut)), id, m, PushedFor(l.role, l.mode, id, m), n, timedOut)
    decreases n
  {
    hide Run, Apply, PushedFor, PartlySent, Survivors;
    var ps := PushedFor(l.role, l.mode, id, m);
    if n == 0 {
      NothingPushed(l, id, m, timedOut);
    } else {
      SendPacketIsARun(l, id, m, n - 1, timedOut);
      var step := if timedOut(n - 1) then TimeOut(id) else Push(id);
      PartlySentStep(l, Run(l, SendSteps(id, m, n - 1, timedOut)), id, m, ps, n - 1, timedOut);
      RunSnoc(l, SendSteps(id, m, n - 1, timedOut), step);
    }
  }

  // ----- when can everything be delivered? -----

  predicate AllFit(l: Link) {
    forall id, m :: id in l.chans && m in l.chans[id].sent ==> Fits(l.mode, m)
  }

  predicate Healthy(l: Link) {
    Inv(l) && !l.sendClosed && !l.recvClosed && Lossless(l)
  }

  /** Nothing is on its way to a channel that is closed at the reading end. */
  predicate NothingShutOut(l: Link) {
    forall id :: id in l.chans && l.chans[id].readShut ==> Back(l, id) == [] && On(id, l.onWire) == []
  }

  predicate NoReopen(steps: seq<Step>) {
    forall i :: 0 <= i < |steps| ==> !steps[i].Reopen? && !steps[i].Reuse?
  }

  predicate AllMove(steps: seq<Step>) {
    forall i :: 0 <= i < |steps| ==> Moves(steps[i])
  }

  /** What the steps that only move packets leave alone. */
  predicate Kept(l: Link, l': Link) {
    && l'.role == l.role && l'.mode == l.mode
    && l'.sendClosed == l.sendClosed && l'.recvClosed == l.recvClosed
    && l'.chans.Keys == l.chans.Keys
    && forall id :: id in l.chans ==>
         && l'.chans[id].sent == l.chans[id].sent && l'.chans[id].lost == l.chans[id].lost
         && l'.chans[id].readShut == l.chans[id].readShut && l'.chans[id].sendShut == l.chans[id].sendShut
  }

  lemma Chain(l: Link, s: Step, rest: seq<Step>) returns (steps: seq<Step>)
    requires Enabled(l, s) && !s.Reopen? && !s.Reuse? && NoReopen(rest)
    ensures Run(l, steps) == Run(Apply(l, s), rest) && NoReopen(steps)
    ensures Moves(s) && AllMove(rest) ==> AllMove(steps)
  {
    steps := [s] + rest;
    RunAppend(l, [s], rest);
    RunOne(l, s);
  }

  /** The five phases of emptying a link: push, write, convey, read, take. */
  lemma {:induction false} PushOut(l: Link, id: uint32) returns (steps: seq<Step>)
    requires id in l.chans && !l.sendClosed
    ensures var l' := Run(l, steps);
            && NoReopen(steps) && AllMove(steps) && Kept(l, l') && l'.chans[id].outbox == []
            && forall c :: c in l.chans && c != id ==> l'.chans[c] == l.chans[c]
    decreases |l.chans[id].outbox|
  {
    steps := [];
    if l.chans[id].outbox != [] {
      steps := PushOut(PushOn(l, id), id);
      steps := Chain(l, Push(id), steps);
    }
  }

  lemma {:induction false} PushOutAll(l: Link, ids: set<uint32>) returns (steps: seq<Step>)
    requires ids <= l.chans.Keys && !l.sendClosed
    ensures var l' := Run(l, steps);
            && NoReopen(steps) && AllMove(steps) && Kept(l, l')
            && forall c :: c in l.chans && (c in ids || l.chans[c].outbox == []) ==> l'.chans[c].outbox == []
    decreases |ids|
  {
    steps := [];
    if ids != {} {
      var id :| id in ids;
      var a := PushOut(l, id);
      var b := PushOutAll(Run(l, a), ids - {id});
      steps := a + b;
      RunAppend(l, a, b);
    }
  }

  predicate NothingToPush(l: Link) {
    forall id :: id in l.chans ==> l.chans[id].outbox == []
  }

  predicate Writable(l: Link) {
    forall i :: 0 <= i < |l.writeQ| ==> l.writeQ[i].channelId in l.chans && Encode(l.writeQ[i]).Ok?
  }

  lemma {:induction false} OnContains(ps: seq<Packet>, i: nat)
    requires i < |ps|
    ensures ps[i] in On(ps[i].channelId, ps)
    decreases i
  {
    if i > 0 {
      OnContains(ps[1..], i - 1);
    }
  }

  lemma FitMeansSendable(l: Link, id: uint32)
    requires Healthy(l) && AllFit(l) && id in l.chans
    ensures AllSendable(On(id, l.writeQ))
  {
    assert ChanInv(l, id);
    FitsIffSendable(l.role, l.mode, id, l.chans[id].sent);
    AllSendableAppend(Front(l, id), Back(l, id));
    AllSendableAppend(On(id, l.writeQ), l.chans[id].outbox);
  }

  /** In a link whose messages all fit, every packet waiting can be written. */
  lemma FitMeansWritable(l: Link)
    requires Healthy(l) && AllFit(l)
    ensures Writable(l)
  {
    forall i | 0 <= i < |l.writeQ| ensures Encode(l.writeQ[i]).Ok? {
      OnContains(l.writeQ, i);
      FitMeansSendable(l, l.writeQ[i].channelId);
    }
  }

  lemma {:induction false} WriteOut(l: Link) returns (steps: seq<Step>)
    requires !l.sendClosed && Writable(l) && NothingToPush(l)
    ensures var l' := Run(l, steps); NoReopen(steps) && AllMove(steps) && Kept(l, l') && NothingToPush(l') && l'.writeQ == []
    decreases |l.writeQ|
  {
    hide Run, Writable, NothingToPush, Written, Kept;
    steps := [];
    if l.writeQ == [] {
      RunNothing(l);
    } else {
      WrittenKeeps(l);
      steps := WriteOut(Written(l));
      steps := Chain(l, Write, steps);
      KeptOn(l, Written(l), Run(l, steps));
    }
  }

  lemma RunNothing(l: Link)
    ensures Run(l, []) == l && Kept(l, l) && forall id :: OnlyAt(l, l, id)
  {
  }

  lemma KeptOn(l: Link, l1: Link, l2: Link)
    requires Kept(l, l1) && Kept(l1, l2)
    ensures Kept(l, l2)
  {
  }

  lemma WrittenKeeps(l: Link)
    requires !l.sendClosed && Writable(l) && NothingToPush(l) && l.writeQ != []
    ensures Enabled(l, Write) && Writable(Written(l)) && NothingToPush(Written(l)) && Kept(l, Written(l))
    ensures Written(l).writeQ == l.writeQ[1..] && !Written(l).sendClosed
  {
  }

  predicate NothingToWrite(l: Link) {
    NothingToPush(l) && l.writeQ == []
  }

  /** What is on the wire of a healthy link is what the read loop expects. */
  lemma WireInOrder(l: Link)
    requires Healthy(l) && NothingShutOut(l)
    ensures InOrder(l.role, StatusMap(l), l.onWire)
  {
    hide ChanInv, Accepts;
    forall i | 0 <= i < |l.onWire| ensures l.onWire[i].channelId in StatusMap(l) {
      OnContains(l.onWire, i);
    }
    forall id | id in l.chans ensures Accepts(l.role, l.chans[id].status, StatusesOf(On(id, l.onWire))) {
      ChannelInOrder(l, id);
    }
  }

  lemma ChannelInOrder(l: Link, id: uint32)
    requires Inv(l) && id in l.chans && l.chans[id].lost == 0
    ensures Accepts(l.role, l.chans[id].status, StatusesOf(On(id, l.onWire)))
  {
    assert ChanInv(l, id);
    var ch, got, wire := l.chans[id], Received(l.chans[id]), On(id, l.onWire);
    OnSendable(id, l.onWire);
    AllSendableAppend(got, wire);
    PrefixAccepted(l.role, l.mode, id, ch.sent, got + wire, ch.start);
    StatusesOfAppend(got, wire);
    AcceptsAppend(l.role, ch.start, StatusesOf(got), StatusesOf(wire));
  }

  lemma {:induction false} OnSendable(id: uint32, ps: seq<Packet>)
    requires AllSendable(ps)
    ensures AllSendable(On(id, ps))
    decreases |ps|
  {
    if ps != [] {
      OnSendable(id, ps[1..]);
    }
  }

  ghost predicate Readable(l: Link) {
    InOrder(l.role, StatusMap(l), l.onWire) && l.arrived == LayoutAll(l.onWire) && l.flight == []
  }

  lemma ReadsHead(l: Link)
    requires Readable(l) && l.onWire != []
    ensures l.onWire[0].channelId in l.chans
    ensures ReadOnce(l) == ReadInto(l, l.onWire[0], LayoutAll(l.onWire[1..]))
  {
    InOrderStep(l.role, StatusMap(l), l.onWire);
    ReadLayout(l.role, StatusMap(l), l.onWire[0], LayoutAll(l.onWire[1..]));
  }

  lemma StaysReadable(l: Link)
    requires Readable(l) && l.onWire != [] && l.onWire[0].channelId in l.chans
    ensures Readable(ReadInto(l, l.onWire[0], LayoutAll(l.onWire[1..])))
  {
    hide StatusMap, LayoutAll;
    var p := l.onWire[0];
    InOrderStep(l.role, StatusMap(l), l.onWire);
    HeadIsOpen(l);
    StatusAfterRead(l, p, LayoutAll(l.onWire[1..]));
  }

  lemma HeadIsOpen(l: Link)
    requires Readable(l) && l.onWire != [] && l.onWire[0].channelId in l.chans
    ensures !l.chans[l.onWire[0].channelId].readShut
  {
    hide LayoutAll;
    assert l.onWire[0].channelId in StatusMap(l);
  }

  lemma StatusAfterRead(l: Link, p: Packet, rest: seq<byte>)
    requires p.channelId in l.chans && !l.chans[p.channelId].readShut
    ensures StatusMap(ReadInto(l, p, rest)) == StatusMap(l)[p.channelId := p.status]
  {
  }

  lemma {:induction false} ReadOut(l: Link) returns (steps: seq<Step>)
    requires NothingToWrite(l) && !l.recvClosed && Readable(l)
    ensures var l' := Run(l, steps); NoReopen(steps) && AllMove(steps) && Kept(l, l') && NothingToWrite(l') && l'.onWire == []
    decreases |l.onWire|
  {
    steps := [];
    if l.onWire != [] {
      ReadsHead(l);
      StaysReadable(l);
      steps := ReadOut(ReadOnce(l));
      steps := Chain(l, Read, steps);
    }
  }

  predicate NothingToRead(l: Link) {
    NothingToWrite(l) && l.onWire == []
  }

  /** Only channel id has changed, and kept what it sent. */
  predicate OnlyAt(l: Link, l': Link, id: uint32) {
    Kept(l, l') && forall c :: c in l.chans && c != id ==> l'.chans[c] == l.chans[c]
  }

  lemma OneTaken(l: Link, id: uint32)
    requires Enabled(l, Take(id)) && NothingToRead(l)
    ensures var l' := TakeOn(l, id);
            OnlyAt(l, l', id) && NothingToRead(l') && |l'.chans[id].queue| == |l.chans[id].queue| - 1
  {
  }

  lemma OnlyAtHasIt(l: Link, l': Link, id: uint32)
    requires OnlyAt(l, l', id) && id in l.chans
    ensures id in l'.chans
  {
  }

  lemma OnlyAtOn(a: Link, b: Link, c: Link, id: uint32)
    requires OnlyAt(a, b, id) && OnlyAt(b, c, id)
    ensures OnlyAt(a, c, id)
  {
  }

  lemma {:induction false} TakeOut(l: Link, id: uint32) returns (steps: seq<Step>)
    requires id in l.chans && NothingToRead(l)
    ensures var l' := Run(l, steps);
            && NoReopen(steps) && OnlyAt(l, l', id) && NothingToRead(l') && l'.chans[id].queue == []
    decreases |l.chans[id].queue|
  {
    hide Run, TakeOn, NothingToRead, OnlyAt;
    steps := [];
    if l.chans[id].queue == [] {
      RunNothing(l);
    } else {
      OneTaken(l, id);
      OnlyAtHasIt(l, TakeOn(l, id), id);
      steps := TakeOut(TakeOn(l, id), id);
      steps := Chain(l, Take(id), steps);
      OnlyAtOn(l, TakeOn(l, id), Run(l, steps), id);
    }
  }

  lemma {:induction false} TakeOutAll(l: Link, ids: set<uint32>) returns (steps: seq<Step>)
    requires ids <= l.chans.Keys && NothingToRead(l)
    ensures var l' := Run(l, steps);
            && NoReopen(steps) && Kept(l, l') && NothingToRead(l')
            && forall c :: c in l.chans && (c in ids || l.chans[c].queue == []) ==> l'.chans[c].queue == []
    decreases |ids|
  {
    steps := [];
    if ids != {} {
      var id :| id in ids;
      var a := TakeOut(l, id);
      var b := TakeOutAll(Run(l, a), ids - {id});
      steps := a + b;
      RunAppend(l, a, b);
    }
  }

  predicate AllDelivered(l: Link, l': Link) {
    forall id :: id in l.chans ==> id in l'.chans && l.chans[id].sent <= l'.chans[id].merge.delivered
  }

  lemma KeptFits(l: Link, l': Link)
    requires AllFit(l) && Kept(l, l')
    ensures AllFit(l')
  {
  }

  lemma Pushed(l: Link) returns (steps: seq<Step>)
    requires Healthy(l) && AllFit(l)
    ensures var l' := Run(l, steps); NoReopen(steps) && AllMove(steps) && Kept(l, l') && NothingToPush(l') && Healthy(l') && Writable(l')
  {
    steps := PushOutAll(l, l.chans.Keys);
    RunKeepsInv(l, steps);
    KeptFits(l, Run(l, steps));
    FitMeansWritable(Run(l, steps));
  }

  lemma Conveyed(l: Link) returns (steps: seq<Step>)
    requires Healthy(l) && NothingToWrite(l) && NothingShutOut(l)
    ensures var l' := Run(l, steps); NoReopen(steps) && AllMove(steps) && Kept(l, l') && NothingToWrite(l') && Readable(l')
  {
    steps := [Convey(|l.flight|)];
    RunOne(l, Convey(|l.flight|));
    var l' := Run(l, steps);
    MoveBytes(l.arrived, l.flight, |l.flight|);
    assert l'.arrived + [] == l'.arrived;
    WireInOrder(l);
    assert StatusMap(l') == StatusMap(l);
  }

  /** Nothing of a channel closed at the reading end is read any more. */
  lemma {:induction false} ShutStaysUnread(l: Link, steps: seq<Step>, id: uint32)
    requires id in l.chans && l.chans[id].readShut && NoReopen(steps)
    ensures id in Run(l, steps).chans && Run(l, steps).chans[id].readShut
    ensures |Received(Run(l, steps).chans[id])| == |Received(l.chans[id])|
    decreases |steps|
  {
    if steps != [] {
      var l' := Run(l, steps[..|steps| - 1]);
      ShutStaysUnread(l, steps[..|steps| - 1], id);
      if Enabled(l', steps[|steps| - 1]) {
        ShutStaysUnreadStep(l', steps[|steps| - 1], id);
      }
    }
  }

  lemma ShutStaysUnreadStep(l: Link, s: Step, id: uint32)
    requires id in l.chans && l.chans[id].readShut && !s.Reopen? && !s.Reuse? && Enabled(l, s)
    ensures id in Apply(l, s).chans && Apply(l, s).chans[id].readShut
    ensures |Received(Apply(l, s).chans[id])| == |Received(l.chans[id])|
  {
    if s.Read? {
      DeliverFacts(l.role, StatusMap(l), l.arrived);
    }
  }

  /** In a healthy link the packets of a channel are those it has received, those on the wire
      and those to be written. */
  lemma PacketsOf(l: Link, id: uint32)
    requires Healthy(l) && id in l.chans
    ensures Wellformed(l.chans[id].sent)
    ensures |PushedAll(l.role, l.mode, id, l.chans[id].sent)|
         == |Received(l.chans[id])| + |On(id, l.onWire)| + |Back(l, id)|
  {
    assert ChanInv(l, id);
  }

  lemma ShutOutStaysOn(l: Link, steps: seq<Step>, id: uint32)
    requires Healthy(l) && NothingShutOut(l) && NoReopen(steps) && Kept(l, Run(l, steps)) && Healthy(Run(l, steps))
    requires id in l.chans && l.chans[id].readShut
    ensures Back(Run(l, steps), id) == [] && On(id, Run(l, steps).onWire) == []
  {
    hide Run, Healthy, PushedAll, Back, On, Received, Wellformed;
    ShutStaysUnread(l, steps, id);
    PacketsOf(l, id);
    PacketsOf(Run(l, steps), id);
  }

  lemma ShutOutStays(l: Link, steps: seq<Step>)
    requires Healthy(l) && NothingShutOut(l) && NoReopen(steps) && Kept(l, Run(l, steps)) && Healthy(Run(l, steps))
    ensures NothingShutOut(Run(l, steps))
  {
    hide Run, Healthy, Back, On;
    var l' := Run(l, steps);
    forall id | id in l'.chans && l'.chans[id].readShut ensures Back(l', id) == [] && On(id, l'.onWire) == [] {
      ShutOutStaysOn(l, steps, id);
    }
  }

  lemma StaysHealthy(l: Link, l': Link)
    requires Healthy(l) && Kept(l, l') && Inv(l')
    ensures Healthy(l')
  {
    hide Inv;
  }

  lemma MovesJoin(a: seq<Step>, b: seq<Step>)
    requires NoReopen(a) && AllMove(a) && NoReopen(b) && AllMove(b)
    ensures NoReopen(a + b) && AllMove(a + b)
  {
  }

  /** All that is on its way in a healthy link can be brought to the channel loops. */
  lemma Flushed(l: Link) returns (steps: seq<Step>)
    requires Healthy(l) && AllFit(l) && NothingShutOut(l)
    ensures var l' := Run(l, steps);
            && NoReopen(steps) && AllMove(steps) && Kept(l, l') && NothingToRead(l') && Healthy(l')
  {
    hide Run, Inv, Kept, NothingShutOut, Lossless, NothingToPush, Writable, NothingToRead, NoReopen, AllMove;
    var a := Pushed(l);
    var l1 := Run(l, a);
    ShutOutStays(l, a);
    var b := WriteOut(l1);
    RunKeepsInv(l1, b);
    var l2 := Run(l1, b);
    StaysHealthy(l1, l2);
    ShutOutStays(l1, b);
    var c := AllRead(l2);
    RunKeepsInv(l2, c);
    StaysHealthy(l2, Run(l2, c));
    MovesJoin(a, b);
    MovesJoin(a + b, c);
    steps := a + b + c;
    RunAppend(l, a + b, c);
    RunAppend(l, a, b);
    KeptTwice(l, l1, l2);
    KeptTwice(l, l2, Run(l, steps));
  }

  /** Nothing is ever stuck: a healthy link whose messages all fit, and with nothing on its
      way to a closed channel, can be run until every channel has delivered everything. */
  lemma CanDrain(l: Link) returns (steps: seq<Step>)
    requires Healthy(l) && AllFit(l) && NothingShutOut(l)
    ensures NoReopen(steps) && Lossless(Run(l, steps)) && AllDelivered(l, Run(l, steps))
  {
    hide Run, ChanInv, NothingShutOut;
    var a := Flushed(l);
    var l1 := Run(l, a);
    var b := TakeOutAll(l1, l1.chans.Keys);
    steps := a + b;
    RunAppend(l, a, b);
    RunKeepsInv(l, steps);
    KeptTwice(l, l1, Run(l, steps));
    DrainedEverywhere(Run(l, steps));
  }

  lemma KeptTwice(a: Link, b: Link, c: Link)
    requires Kept(a, b) && Kept(b, c)
    ensures Kept(a, c)
  {
  }

  /** Everything written is conveyed and read. */
  lemma AllRead(l: Link) returns (steps: seq<Step>)
    requires Healthy(l) && NothingToWrite(l) && NothingShutOut(l)
    ensures NoReopen(steps) && AllMove(steps) && Kept(l, Run(l, steps)) && NothingToRead(Run(l, steps))
  {
    hide Run, Inv, Kept, Readable, NothingShutOut;
    var a := Conveyed(l);
    var b := ReadOut(Run(l, a));
    steps := a + b;
    RunAppend(l, a, b);
    KeptTwice(l, Run(l, a), Run(l, steps));
  }

  lemma DrainedEverywhere(l: Link)
    requires Healthy(l) && NothingToRead(l) && forall id :: id in l.chans ==> l.chans[id].queue == []
    ensures forall id :: id in l.chans ==> l.chans[id].merge.delivered == l.chans[id].sent
  {
    forall id | id in l.chans ensures l.chans[id].merge.delivered == l.chans[id].sent {
      DrainedDelivery(l, id);
    }
  }

  lemma StepOnlySends(l: Link, s: Step, id: uint32)
    requires id in l.chans && !s.Reopen? && !s.Reuse? && Enabled(l, s)
    ensures id in Apply(l, s).chans && l.chans[id].sent <= Apply(l, s).chans[id].sent
  {
    if s.Read? {
      DeliverFacts(l.role, StatusMap(l), l.arrived);
    }
  }

  lemma {:induction false} RunOnlySends(l: Link, steps: seq<Step>, id: uint32)
    requires id in l.chans && NoReopen(steps)
    ensures id in Run(l, steps).chans && l.chans[id].sent <= Run(l, steps).chans[id].sent
    decreases |steps|
  {
    if steps != [] {
      hide Apply, Enabled;
      RunOnlySends(l, steps[..|steps| - 1], id);
      var l' := Run(l, steps[..|steps| - 1]);
      if Enabled(l', steps[|steps| - 1]) {
        StepOnlySends(l', steps[|steps| - 1], id);
      }
    }
  }

  /** Some continuation without losses delivers all that was sent on all channels. */
  ghost predicate CanDeliverAll(l: Link) {
    exists steps :: NoReopen(steps) && Lossless(Run(l, steps)) && AllDelivered(l, Run(l, steps))
  }

  lemma DeliveredFits(l: Link, steps: seq<Step>, id: uint32, m: Message)
    requires Inv(l) && NoReopen(steps) && Lossless(Run(l, steps)) && AllDelivered(l, Run(l, steps))
    requires id in l.chans && m in l.chans[id].sent
    ensures Fits(l.mode, m)
  {
    var l' := Run(l, steps);
    RunKeepsInv(l, steps);
    KeepsRoleAndMode(l, steps);
    RunOnlySends(l, steps, id);
    var k := DeliveredOfInv(l', id);
    var i :| 0 <= i < |l.chans[id].sent| && l.chans[id].sent[i] == m;
    assert l'.chans[id].sent[i] == m;
  }

  lemma {:induction false} CostPrefix(a: seq<Message>, b: seq<Message>)
    requires a <= b
    ensures Cost(a) <= Cost(b)
    decreases |b|
  {
    if a == b {
    } else {
      CostPrefix(a, b[..|b| - 1]);
    }
  }

  /** A channel cannot have delivered messages from fewer packets than were pushed for them. */
  lemma DeliveredNeedsReceived(l: Link, id: uint32, ms: seq<Message>)
    requires Inv(l) && id in l.chans && ms <= l.chans[id].merge.delivered && Wellformed(ms)
    ensures |PushedAll(l.role, l.mode, id, ms)| <= |Received(l.chans[id])|
  {
    var ch := l.chans[id];
    assert ChanInv(l, id);
    AllSendableAppend(ch.consumed, ch.queue);
    var w := DeliveryNeedsPackets(l.role, ch.consumed);
    CostPrefix(ms, ch.merge.delivered);
    PushedAllLength(l.role, l.mode, id, ms);
  }

  lemma ShutOutBlocks(l: Link, steps: seq<Step>, id: uint32)
    requires Healthy(l) && NoReopen(steps) && AllDelivered(l, Run(l, steps)) && id in l.chans && l.chans[id].readShut
    ensures Back(l, id) == [] && On(id, l.onWire) == []
  {
    RunKeepsInv(l, steps);
    KeepsRoleAndMode(l, steps);
    ShutStaysUnread(l, steps, id);
    PacketsOf(l, id);
    DeliveredNeedsReceived(Run(l, steps), id, l.chans[id].sent);
  }

  /** Everything sent can still arrive if and only if every message fits and nothing is on
      its way to a channel closed at the reading end. With the code as it stands (PushPacket,
      DontChunk) a message fits when it is not longer than MAX_PACKET_SIZE and its path not
      longer than MAX_PATH_LEN; pushing the chunks instead (PushChunk) would lift the first limit. */
  lemma DeliverableIffAllFit(l: Link)
    requires Healthy(l)
    ensures CanDeliverAll(l) <==> AllFit(l) && NothingShutOut(l)
  {
    if AllFit(l) && NothingShutOut(l) {
      var steps := CanDrain(l);
    }
    if CanDeliverAll(l) {
      var steps :| NoReopen(steps) && Lossless(Run(l, steps)) && AllDelivered(l, Run(l, steps));
      forall id, m | id in l.chans && m in l.chans[id].sent ensures Fits(l.mode, m) {
        DeliveredFits(l, steps, id, m);
      }
      forall id | id in l.chans && l.chans[id].readShut ensures Back(l, id) == [] && On(id, l.onWire) == [] {
        ShutOutBlocks(l, steps, id);
      }
    }
  }

  // ----- runs that show the limits -----

  lemma AfterSnoc(role: Role, mode: SendMode, steps: seq<Step>, s: Step)
    requires Enabled(After(role, mode, steps), s)
    ensures After(role, mode, steps + [s]) == Apply(After(role, mode, steps), s)
  {
    RunSnoc(FreshLink(role, mode), steps, s);
  }

  /** A message is begun on a fresh connection and its first packet pushed. */
  lemma FirstPushed(role: Role, mode: SendMode, id: uint32, m: Message) returns (steps: seq<Step>)
    requires WellFormed(m)
    ensures steps == [Open(id), Begin(id, m), Push(id)]
    ensures
      var l, ps := After(role, mode, steps), PushedFor(role, mode, id, m);
      && ps != [] && l.chans.Keys == {id}
      && l.chans[id] == FRESH_CHAN.(sent := [m], outbox := ps[1..], timedOut := [false])
      && l == FreshLink(role, mode).(chans := l.chans, writeQ := [ps[0]])
  {
    hide Run, PushedFor, ChunksOf, Sendable, Fits;
    PushedForShape(role, mode, id, m);
    steps := [];
    RunNothing(FreshLink(role, mode));
    AfterSnoc(role, mode, steps, Open(id));
    steps := steps + [Open(id)];
    AfterSnoc(role, mode, steps, Begin(id, m));
    steps := steps + [Begin(id, m)];
    AfterSnoc(role, mode, steps, Push(id));
    steps := steps + [Push(id)];
  }

  /** And, if it fits, written and received. */
  lemma FirstArrived(role: Role, mode: SendMode, id: uint32, m: Message) returns (steps: seq<Step>, p: Packet)
    requires WellFormed(m) && Fits(mode, m)
    ensures NoTimeOuts(steps) && p == PushedFor(role, mode, id, m)[0] && Sendable(p) && p.channelId == id
    ensures
      var l := After(role, mode, steps);
      && l.role == role && l.chans.Keys == {id} && l.onWire == [p] && l.arrived == Layout(p) && !l.recvClosed
      && l.chans[id].lost == 0 && l.chans[id].status == STATUS_NONE && !l.chans[id].readShut
      && l.chans[id].bytes == NO_BYTES.(sentPending := |Layout(p)|)
      && l.writeQ == [] && l.chans[id].outbox == PushedFor(role, mode, id, m)[1..]
  {
    steps := FirstPushed(role, mode, id, m);
    PushedForShape(role, mode, id, m);
    p := PushedFor(role, mode, id, m)[0];
    AfterSnoc(role, mode, steps, Write);
    steps := steps + [Write];
    var n := |Layout(p)|;
    assert After(role, mode, steps).flight == Layout(p);
    AfterSnoc(role, mode, steps, Convey(n));
    steps := steps + [Convey(n)];
    assert After(role, mode, steps).arrived == [] + Layout(p)[..n];
  }

  /** A channel is closed while a message for it is on its way: the reading end closes the
      connection, and with it all other channels, although nothing has been lost. */
  lemma ClosedChannelRefused(role: Role, mode: SendMode, id: uint32, m: Message) returns (steps: seq<Step>)
    requires WellFormed(m) && Fits(mode, m)
    ensures NoTimeOuts(steps) && After(role, mode, steps).recvClosed
  {
    var p;
    steps, p := FirstArrived(role, mode, id, m);
    AfterSnoc(role, mode, steps, Shut(id, Reading));
    steps := steps + [Shut(id, Reading)];
    AfterSnoc(role, mode, steps, Read);
    ReaderClosesIff(role, mode, steps);
    steps := steps + [Read];
  }

  /** The first packet has been read. */
  lemma FirstRead(role: Role, mode: SendMode, id: uint32, m: Message) returns (steps: seq<Step>, n: nat)
    requires WellFormed(m) && Fits(mode, m)
    ensures n > 0
    ensures
      var l := After(role, mode, steps);
      && id in l.chans && l.chans[id].bytes == NO_BYTES.(sentPending := n, receivedPending := n)
      && l.onWire == [] && l.writeQ == [] && l.chans[id].outbox == PushedFor(role, mode, id, m)[1..]
  {
    var p;
    steps, p := FirstArrived(role, mode, id, m);
    n := |Layout(p)|;
    var l := After(role, mode, steps);
    PushedForShape(role, mode, id, m);
    ChunksOfMessage(role, id, m);
    assert Layout(p) == Layout(p) + [];
    ReadLayout(role, StatusMap(l), p, []);
    AfterSnoc(role, mode, steps, Read);
    steps := steps + [Read];
  }

  /** The peer can count a frame before its sender has. */
  lemma ReceivedBeforeSent(role: Role, mode: SendMode, id: uint32, m: Message) returns (steps: seq<Step>)
    requires WellFormed(m) && Fits(mode, m)
    ensures
      var l := After(role, mode, steps);
      id in l.chans && l.chans[id].bytes.sent == 0 < l.chans[id].bytes.received
  {
    hide PushedFor;
    var n;
    steps, n := FirstRead(role, mode, id, m);
    AfterSnoc(role, mode, steps, Count(id, Reading, n));
    steps := steps + [Count(id, Reading, n)];
  }

  /** And an id used again at the sending end counts from zero there while its peer goes on:
      with nothing on its way or left to count the two do not agree. */
  lemma ReuseLosesAgreement(role: Role, mode: SendMode, id: uint32, m: Message) returns (steps: seq<Step>)
    requires WellFormed(m) && Fits(DontChunk, m)
    ensures
      var l := After(role, mode, steps);
      && id in l.chans && On(id, l.onWire) == [] && Back(l, id) == []
      && l.chans[id].bytes.sentPending == l.chans[id].bytes.receivedPending == 0
      && l.chans[id].bytes.sent == 0 < l.chans[id].bytes.received
  {
    hide PushedFor;
    var n;
    OnePacket(role, mode, id, m);
    steps, n := FirstRead(role, mode, id, m);
    AfterSnoc(role, mode, steps, Count(id, Reading, n));
    steps := steps + [Count(id, Reading, n)];
    AfterSnoc(role, mode, steps, Count(id, Sending, n));
    steps := steps + [Count(id, Sending, n)];
    AfterSnoc(role, mode, steps, Shut(id, Sending));
    steps := steps + [Shut(id, Sending)];
    AfterSnoc(role, mode, steps, Reuse(id, Sending));
    steps := steps + [Reuse(id, Sending)];
  }

  lemma OnePacket(role: Role, mode: SendMode, id: uint32, m: Message)
    requires WellFormed(m) && Fits(DontChunk, m)
    ensures Fits(mode, m) && |PushedFor(role, mode, id, m)| == 1
  {
  }

  /** A message that does not fit, sent on a fresh connection: its first packet closes the
      connection before a byte is written. With PushPacket this is any response longer
      than MAX_PACKET_SIZE. */
  lemma OversizeClosesConnection(role: Role, mode: SendMode, id: uint32, m: Message)
    requires WellFormed(m) && !Fits(mode, m)
    ensures
      var l := After(role, mode, [Open(id), Begin(id, m), Push(id), Write]);
      l.sendClosed && l.flight == [] && l.onWire == [] && id in l.chans && l.chans[id].sent == [m]
  {
    var steps := FirstPushed(role, mode, id, m);
    PushedForShape(role, mode, id, m);
    AfterSnoc(role, mode, steps, Write);
    assert steps + [Write] == [Open(id), Begin(id, m), Push(id), Write];
  }
}
