/** The load counters of one backend under interleaved requests, and when it is paused
    (lbclient.go:92-94, 132-151, 468-515). */
module Pending {
  import opened Packets
  import opened Balancing

  /** pendingRequests and healthCheckFailCount; how many DoRequest2 calls have counted
      themselves but not entered, are inside, or have left EvaluatedClient.DoRequest; how many
      DoRequest calls are inside it; and the fail counts read but not yet stored back halved. */
  datatype Backend = Backend(pending: int, failCount: int, entering: nat, inside: nat, leaving: nat, direct: nat,
                             halving: multiset<int>)

  const IDLE := Backend(0, 0, 0, 0, 0, 0, multiset{})

  /** One atomic operation each. */
  datatype Act =
    | CountOuter | CountInner | UncountInner | UncountOuter
    | CountDirect | UncountDirect
    | Unhealthy
    | ReadFailCount
    | StoreHalf(read: int)

  predicate Enabled(b: Backend, act: Act) {
    match act
    case CountInner => b.entering > 0
    case UncountInner => b.inside > 0
    case UncountOuter => b.leaving > 0
    case UncountDirect => b.direct > 0
    case StoreHalf(read) => read in b.halving
    case _ => true
  }

  /** Go's division truncates toward zero. */
  function Half(x: int): (h: int)
    ensures x >= 0 ==> 2 * h <= x < 2 * h + 2
    ensures x <= 0 ==> 2 * h - 2 < x <= 2 * h
  {
    if x >= 0 then x / 2 else -((-x) / 2)
  }

  function Do(b: Backend, act: Act): Backend
    requires Enabled(b, act)
  {
    match act
    case CountOuter => b.(pending := b.pending + 1, entering := b.entering + 1)
    case CountInner => b.(pending := b.pending + 1, entering := b.entering - 1, inside := b.inside + 1)
    case UncountInner => b.(pending := b.pending - 1, inside := b.inside - 1, leaving := b.leaving + 1)
    case UncountOuter => b.(pending := b.pending - 1, leaving := b.leaving - 1)
    case CountDirect => b.(pending := b.pending + 1, direct := b.direct + 1)
    case UncountDirect => b.(pending := b.pending - 1, direct := b.direct - 1)
    case Unhealthy => b.(failCount := b.failCount + 1)
    case ReadFailCount => b.(halving := b.halving + multiset{b.failCount})
    case StoreHalf(read) => b.(failCount := Half(read), halving := b.halving - multiset{read})
  }

  ghost predicate Run(b: Backend, acts: seq<Act>, b': Backend)
    decreases |acts|
  {
    if acts == [] then b == b' else Enabled(b, acts[0]) && Run(Do(b, acts[0]), acts[1..], b')
  }

  ghost predicate Inv(b: Backend) {
    && b.pending == 2 * b.inside + b.entering + b.leaving + b.direct
    && b.failCount >= 0
    && forall x :: x in b.halving ==> x >= 0
  }

  lemma {:induction false} RunKeepsInv(b: Backend, acts: seq<Act>, b': Backend)
    requires Inv(b) && Run(b, acts, b')
    ensures Inv(b')
    decreases |acts|
  {
    if acts != [] {
      RunKeepsInv(Do(b, acts[0]), acts[1..], b');
    }
  }

  function Load(b: Backend): int {
    b.pending + b.failCount
  }

  lemma LoadOf(b: Backend)
    requires Inv(b)
    ensures b.pending == 2 * b.inside + b.entering + b.leaving + b.direct
    ensures Load(b) >= 0
    ensures Load(b) == 0 <==> b.inside + b.entering + b.leaving + b.direct == 0 && b.failCount == 0
  {
  }

  /** In every run a request through DoRequest2 weighs two while it is inside DoRequest and
      one just before and after, a plain DoRequest weighs one, and no load is negative. */
  lemma PendingCountsInFlight(acts: seq<Act>, b: Backend)
    requires Run(IDLE, acts, b)
    ensures b.pending == 2 * b.inside + b.entering + b.leaving + b.direct
    ensures Load(b) >= 0
    ensures Load(b) == 0 <==> b.inside + b.entering + b.leaving + b.direct == 0 && b.failCount == 0
  {
    RunKeepsInv(IDLE, acts, b);
    LoadOf(b);
  }

  /** The next act of the calls under way. */
  function NextAct(b: Backend): (act: Act)
    requires b.entering + b.inside + b.leaving + b.direct > 0
    ensures Enabled(b, act)
  {
    if b.entering > 0 then CountInner
    else if b.inside > 0 then UncountInner
    else if b.leaving > 0 then UncountOuter
    else UncountDirect
  }

  /** From every reachable state the calls under way can end, and then nothing is pending. */
  lemma {:induction false} CanGoIdle(b: Backend) returns (acts: seq<Act>, b': Backend)
    requires Inv(b)
    ensures Run(b, acts, b') && b'.pending == 0 && b'.failCount == b.failCount
    decreases 3 * b.entering + 2 * b.inside + b.leaving + b.direct
  {
    if b.entering + b.inside + b.leaving + b.direct == 0 {
      acts, b' := [], b;
    } else {
      var act, rest := NextAct(b), [];
      rest, b' := CanGoIdle(Do(b, act));
      acts := [act] + rest;
      assert acts[1..] == rest;
    }
  }

  /** What becomes of a request: no channel to send it on, an error on the channel, a response. */
  datatype Outcome = NoChannel(error: string) | Failed | Answered

  /** What EvaluatedClient keeps besides its counters. */
  datatype Health = Health(paused: bool, errors: nat, err: Option<string>, lastRequest: int)

  const HEALTHY := Health(false, 0, None, 0)

  const MAX_ERRORS := 5

  /** EvaluatedClient.DoRequest at time now. */
  function Requested(h: Health, o: Outcome, now: int): Health {
    if o.NoChannel? then h.(err := Some(o.error), paused := true) else h.(paused := false, lastRequest := now)
  }

  /** LoadBalanceClient.DoRequest after it. */
  function Judged(h: Health, o: Outcome): Health {
    if !o.Answered? then h.(errors := h.errors + 1, paused := h.paused || h.errors + 1 > MAX_ERRORS)
    else h.(errors := 0, err := if h.paused then None else h.err, paused := false)
  }

  /** A backend as the methods update it. */
  class EvaluatedClient {
    var pendingRequests: int
    var healthCheckFailCount: int
    var paused: bool
    var requestErrorCount: nat
    var err: Option<string>
    var lastRequest: int

    constructor ()
      ensures pendingRequests == healthCheckFailCount == 0 && View() == HEALTHY
    {
      pendingRequests, healthCheckFailCount := 0, 0;
      paused, requestErrorCount, err, lastRequest := false, 0, None, 0;
    }

    function View(): Health
      reads this
    {
      Health(paused, requestErrorCount, err, lastRequest)
    }

    /** Counted for as long as it lasts, whichever way it returns. */
    method DoRequest(o: Outcome, now: int)
      modifies this`pendingRequests, this`paused, this`err, this`lastRequest
      ensures pendingRequests == old(pendingRequests)
      ensures View() == Requested(old(View()), o, now)
    {
      pendingRequests := pendingRequests + 1;
      if o.NoChannel? {
        err := Some(o.error);
        paused := true;
      } else {
        paused := false;
        lastRequest := now;
      }
      pendingRequests := pendingRequests - 1;
    }

    /** What LoadBalanceClient.DoRequest does with the backend once it has an outcome. */
    method Judge(o: Outcome)
      modifies this`requestErrorCount, this`err, this`paused
      ensures View() == Judged(old(View()), o)
      ensures o.Answered? ==> !paused && requestErrorCount == 0 && err == if old(paused) then None else old(err)
    {
      if !o.Answered? {
        requestErrorCount := requestErrorCount + 1;
        if requestErrorCount > MAX_ERRORS {
          paused := true;
        }
      } else {
        if requestErrorCount > 0 {
          requestErrorCount := 0;
        }
        if requestErrorCount == 0 && paused {
          err := None;
          paused := false;
        }
      }
    }

    /** LoadBalanceClient.DoRequest2 on the backend it has selected; healthy is what the health
        check says of the outcome. */
    method DoRequest2(o: Outcome, now: int, healthy: bool)
      modifies this
      ensures pendingRequests == old(pendingRequests)
      ensures View() == Requested(old(View()), o, now)
      ensures healthCheckFailCount == Checked(old(healthCheckFailCount), healthy)
      ensures !healthy ==> healthCheckFailCount == old(healthCheckFailCount) + 1
      ensures healthy && old(healthCheckFailCount) >= 0 ==>
                2 * healthCheckFailCount <= old(healthCheckFailCount) < 2 * healthCheckFailCount + 2
    {
      pendingRequests := pendingRequests + 1;
      DoRequest(o, now);
      pendingRequests := pendingRequests - 1;
      if !healthy {
        healthCheckFailCount := healthCheckFailCount + 1;
      } else {
        healthCheckFailCount := Half(healthCheckFailCount);
      }
    }
  }

  // ----- when a backend is paused -----

  /** A backend after these requests, one after the other. */
  function AfterRequests(rs: seq<(Outcome, int)>): Health
    decreases |rs|
  {
    if rs == [] then HEALTHY
    else
      var (o, now) := rs[|rs| - 1];
      Judged(Requested(AfterRequests(rs[..|rs| - 1]), o, now), o)
  }

  /** The requests without a response since the last response. */
  function Unanswered(rs: seq<(Outcome, int)>): nat
    decreases |rs|
  {
    if rs == [] || rs[|rs| - 1].0.Answered? then 0 else 1 + Unanswered(rs[..|rs| - 1])
  }

  /** The error of the last request there was no channel for. */
  function LastNoChannel(rs: seq<(Outcome, int)>): Option<string>
    decreases |rs|
  {
    if rs == [] then None
    else if rs[|rs| - 1].0.NoChannel? then Some(rs[|rs| - 1].0.error)
    else LastNoChannel(rs[..|rs| - 1])
  }

  lemma {:induction false} ErrorsAre(rs: seq<(Outcome, int)>)
    ensures AfterRequests(rs).errors == Unanswered(rs)
    decreases |rs|
  {
    if rs != [] {
      ErrorsAre(rs[..|rs| - 1]);
    }
  }

  /** After any requests a backend is paused if and only if there was no channel for the last of
      them, or that one failed and at least six in a row have. */
  lemma PausedIff(rs: seq<(Outcome, int)>)
    ensures
      AfterRequests(rs).paused
      <==> && rs != []
           && var o := rs[|rs| - 1].0;
              o.NoChannel? || (o.Failed? && Unanswered(rs) >= 6)
  {
    ErrorsAre(rs);
  }

  /** An error is never cleared: a request that gets a channel has already ended the pause when
      the branch that clears the error asks for one. */
  lemma {:induction false} ErrorIsKept(rs: seq<(Outcome, int)>)
    ensures AfterRequests(rs).err == LastNoChannel(rs)
    decreases |rs|
  {
    if rs != [] {
      ErrorIsKept(rs[..|rs| - 1]);
    }
  }

  /** The time of the last request there was a channel for. */
  function LastChannel(rs: seq<(Outcome, int)>): int
    decreases |rs|
  {
    if rs == [] then 0
    else if rs[|rs| - 1].0.NoChannel? then LastChannel(rs[..|rs| - 1])
    else rs[|rs| - 1].1
  }

  lemma {:induction false} LastRequestIs(rs: seq<(Outcome, int)>)
    ensures AfterRequests(rs).lastRequest == LastChannel(rs)
    decreases |rs|
  {
    if rs != [] {
      LastRequestIs(rs[..|rs| - 1]);
    }
  }

  /** Five seconds, in nanoseconds. */
  const RETRY_AFTER := 5_000_000_000

  /** What getTaskClient asks of a backend at time now (lbclient.go:386). */
  predicate Eligible(h: Health, now: int) {
    !h.paused || now - h.lastRequest > RETRY_AFTER
  }

  /** A backend is passed over if and only if its last request found no channel, or failed as at
      least the sixth in a row, and one has got a channel within the last five seconds. */
  lemma PassedOverIff(rs: seq<(Outcome, int)>, now: int)
    ensures
      !Eligible(AfterRequests(rs), now)
      <==> && rs != []
           && (var o := rs[|rs| - 1].0; o.NoChannel? || (o.Failed? && Unanswered(rs) >= 6))
           && now - LastChannel(rs) <= 5_000_000_000
  {
    hide AfterRequests;
    PausedIff(rs);
    LastRequestIs(rs);
  }

  function Checked(failCount: int, healthy: bool): int {
    if healthy then Half(failCount) else failCount + 1
  }

  function RequestSteps(b: Backend, healthy: bool): seq<Act> {
    [CountOuter, CountInner, UncountInner, UncountOuter]
    + if healthy then [ReadFailCount, StoreHalf(b.failCount)] else [Unhealthy]
  }

  lemma RunPrepend(b: Backend, act: Act, acts: seq<Act>, b': Backend)
    requires Enabled(b, act) && Run(Do(b, act), acts, b')
    ensures Run(b, [act] + acts, b')
  {
    assert ([act] + acts)[1..] == acts;
  }

  lemma CheckIsARun(b: Backend, healthy: bool)
    ensures Run(b, if healthy then [ReadFailCount, StoreHalf(b.failCount)] else [Unhealthy],
                b.(failCount := Checked(b.failCount, healthy)))
  {
    var b' := b.(failCount := Checked(b.failCount, healthy));
    if healthy {
      var act := StoreHalf(b.failCount);
      assert Do(Do(b, ReadFailCount), act) == b';
      RunPrepend(Do(b, ReadFailCount), act, [], b');
      RunPrepend(b, ReadFailCount, [act], b');
    } else {
      RunPrepend(b, Unhealthy, [], b');
    }
  }

  /** What DoRequest2 does in one call is what these steps do one by one, from any state. */
  lemma RequestIsARun(b: Backend, healthy: bool)
    ensures Run(b, RequestSteps(b, healthy), b.(failCount := Checked(b.failCount, healthy)))
  {
    var b' := b.(failCount := Checked(b.failCount, healthy));
    var rest := if healthy then [ReadFailCount, StoreHalf(b.failCount)] else [Unhealthy];
    var b1 := Do(b, CountOuter);
    var b2 := Do(b1, CountInner);
    var b3 := Do(b2, UncountInner);
    assert Do(b3, UncountOuter) == b;
    CheckIsARun(b, healthy);
    RunPrepend(b3, UncountOuter, rest, b');
    RunPrepend(b2, UncountInner, [UncountOuter] + rest, b');
    RunPrepend(b1, CountInner, [UncountInner] + ([UncountOuter] + rest), b');
    RunPrepend(b, CountOuter, [CountInner] + ([UncountInner] + ([UncountOuter] + rest)), b');
    assert RequestSteps(b, healthy) == [CountOuter] + ([CountInner] + ([UncountInner] + ([UncountOuter] + rest)));
  }

  /** PendingRequests reads the pending requests and then the fail count, each when it is. */
  ghost predicate Readable(load: int) {
    exists acts, more, b, b' :: Run(IDLE, acts, b) && Run(b, more, b') && load == b.pending + b'.failCount
  }

  lemma ReadableNonNegative(load: int)
    requires Readable(load)
    ensures load >= 0
  {
    var acts, more, b, b' :| Run(IDLE, acts, b) && Run(b, more, b') && load == b.pending + b'.failCount;
    PendingCountsInFlight(acts, b);
    RunKeepsInv(IDLE, acts, b);
    RunKeepsInv(b, more, b');
  }

  /** So on any loads that can be read selectBackendMinPending chooses the first least loaded
      backend on the ring from the round robin start, early exit included, unless the load at
      the start falls below every one of them during the scan. */
  lemma LeastPendingChoice(loads: seq<int>, again: int, s: nat, i: nat)
    requires forall j :: 0 <= j < |loads| ==> Readable(loads[j])
    requires s < |loads| && i < |loads| && MinPendingChoice(loads, again, s, i)
    ensures NonNegative(loads) && (FirstLeast(loads, All(|loads|), s, i) || (AllAbove(loads, again) && i == s))
  {
    forall j | 0 <= j < |loads| ensures loads[j] >= 0 {
      ReadableNonNegative(loads[j]);
    }
    if loads[s] <= 0 {
      EarlyExitIff(loads, s);
    }
  }

  /** Reading the fail count and storing its half are two steps: a failure in between is lost. */
  lemma FailureLost(b: Backend)
    requires Inv(b) && b.failCount <= 1
    ensures exists b' :: Run(b, [ReadFailCount, Unhealthy, StoreHalf(b.failCount)], b') && b'.failCount == 0
  {
    var store := StoreHalf(b.failCount);
    var b1 := Do(b, ReadFailCount);
    var b2 := Do(b1, Unhealthy);
    var b3 := Do(b2, store);
    RunPrepend(b2, store, [], b3);
    RunPrepend(b1, Unhealthy, [store], b3);
    RunPrepend(b, ReadFailCount, [Unhealthy] + [store], b3);
    assert [ReadFailCount, Unhealthy, store] == [ReadFailCount] + ([Unhealthy] + [store]);
  }
}
