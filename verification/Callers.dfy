/** Who is handed the answers: the callers waiting in DoRequest, each on the response channel of its
    own request (client.go:329-374, protocol.go:443-487). */
module Callers {
  import opened Packets
  import opened Chunks
  import opened Links
  import opened Sessions
  import opened SessionProofs
  import opened Pipelining

  function Askers(answered: seq<(Request, Message)>): (rs: seq<Request>)
    ensures |rs| == |answered|
  {
    seq(|answered|, i requires 0 <= i < |answered| => answered[i].0)
  }

  /** The requests answered, held by the client loop and queued, in the order they were made. */
  function Line(u: User): seq<Request> {
    Askers(u.answered) + Unanswered(u)
  }

  function Unanswered(u: User): seq<Request> {
    HeldRequest(u) + u.queue
  }

  predicate AtMostOnce(rs: seq<Request>, r: Request) {
    forall i, j :: 0 <= i < j < |rs| ==> !(rs[i] == rs[j] == r)
  }

  /** Each call makes a request object of its own. */
  predicate PushedOnce(acts: seq<Act>, id: uint32, r: Request) {
    forall i, j :: 0 <= i < j < |acts| ==> !(acts[i] == acts[j] == PushTail(id, r))
  }

  /** The callers that have left while they waited: they have given up, or their packet could not
      be sent. */
  function Left(mode: SendMode, acts: seq<Act>, id: uint32): set<Request>
    decreases |acts|
  {
    if acts == [] then {}
    else
      var front, a := acts[..|acts| - 1], acts[|acts| - 1];
      Left(mode, front, id) + if CanAct(Played(mode, front), a) then Leaving(Played(mode, front), a, id) else {}
  }

  function Leaving(s: Session, a: Act, id: uint32): set<Request>
    requires CanAct(s, a)
  {
    match a
    case GiveUp(c, r) => if c == id then {r} else {}
    case SendFail(c) => if c == id && s.users[id].pushing.value in s.users[id].waiting then {s.users[id].pushing.value} else {}
    case _ => {}
  }

  /** Where request r of the channel has got: pushed tells whether it was ever pushed, left whether
      its caller has left. */
  ghost predicate CallerInv(u: User, r: Request, pushed: bool, left: bool) {
    && AtMostOnce(Line(u), r)
    && (r in Line(u) || r in u.waiting || u.pushing == Some(r) ==> pushed)
    && (r in u.waiting ==> !left && r !in Askers(u.answered))
    && (r in Unanswered(u) && !left ==> r in u.waiting)
    && (r in u.results <==> r in Askers(u.answered) && !left)
  }

  // ----- one lemma for each act that changes the user -----

  lemma ReadsPlain(a: seq<(Request, Message)>, r: Request, m: Message)
    ensures Askers(a + [(r, m)]) == Askers(a) + [r]
  {
  }

  lemma PushTailKeepsCaller(u: User, req: Request, r: Request, pushed: bool, left: bool)
    requires CallerInv(u, r, pushed, left) && (pushed ==> req != r) && (left ==> pushed)
    ensures CallerInv(PushTailOn(u, req), r, pushed || req == r, left)
  {
    var u' := PushTailOn(u, req);
    assert Unanswered(u') == Unanswered(u) + [req];
    assert Line(u') == Line(u) + [req];
    if req == r {
      assert r !in Line(u);
    }
  }

  lemma PrefixOnce(a: seq<Request>, b: seq<Request>, r: Request)
    requires AtMostOnce(b, r) && a <= b
    ensures AtMostOnce(a, r)
  {
  }

  lemma RollBackKeepsCaller(u: User, r: Request, pushed: bool, left: bool)
    requires CallerInv(u, r, pushed, left) && u.pushing.Some?
    ensures CallerInv(RollBack(u), r, pushed, left || (u.pushing == Some(r) && r in u.waiting))
  {
    var u' := RollBack(u);
    if u.queue != [] {
      var q := u.queue[..|u.queue| - 1];
      assert Unanswered(u) == Unanswered(u') + [u.queue[|u.queue| - 1]];
      assert Line(u) == Line(u') + [u.queue[|u.queue| - 1]];
    } else {
      assert Unanswered(u') == Unanswered(u) && Line(u') == Line(u);
    }
    PrefixOnce(Line(u'), Line(u), r);
    assert forall x :: x in Unanswered(u') ==> x in Unanswered(u);
  }

  lemma PopHeadKeepsCaller(u: User, answer: Option<Message>, r: Request, pushed: bool, left: bool)
    requires CallerInv(u, r, pushed, left) && u.held == None
    ensures CallerInv(PopHeadOf(u, answer), r, pushed, left)
  {
    var u' := PopHeadOf(u, answer);
    assert Unanswered(u') == Unanswered(u);
    assert Line(u') == Line(u);
  }

  lemma FinishKeepsCaller(u: User, r: Request, pushed: bool, left: bool)
    requires CallerInv(u, r, pushed, left) && u.held.Some?
    ensures CallerInv(FinishOn(u), r, pushed, left)
  {
    var u', h := FinishOn(u), u.held.value;
    match h.answer {
      case None =>
        assert Unanswered(u') == Unanswered(u);
        assert Line(u') == Line(u);
      case Some(m) =>
        ReadsPlain(u.answered, h.req, m);
        assert Unanswered(u) == [h.req] + Unanswered(u');
        assert Line(u') == Line(u);
        OnceInTwo(Askers(u.answered), h.req, Unanswered(u'), r);
    }
  }

  /** A request that is listed at most once is in one part of the line only. */
  lemma OnceInTwo(a: seq<Request>, x: Request, b: seq<Request>, r: Request)
    requires AtMostOnce(a + ([x] + b), r)
    ensures r == x ==> r !in a && r !in b
  {
    var all := a + ([x] + b);
    if r == x {
      assert all[|a|] == r;
      forall i | 0 <= i < |a| ensures a[i] != r {
        assert all[i] == a[i];
      }
      forall i | 0 <= i < |b| ensures b[i] != r {
        assert all[|a| + 1 + i] == b[i];
      }
    }
  }

  lemma GiveUpKeepsCaller(u: User, req: Request, r: Request, pushed: bool, left: bool)
    requires CallerInv(u, r, pushed, left) && req in u.waiting
    ensures CallerInv(u.(waiting := u.waiting - {req}), r, pushed, left || req == r)
  {
    var u' := u.(waiting := u.waiting - {req});
    assert Unanswered(u') == Unanswered(u);
    assert Line(u') == Line(u);
  }

  lemma NewObjectKeepsCaller(u: User, r: Request, pushed: bool, left: bool)
    requires u.queue == [] && u.held == None && u.pushing == None && u.waiting == {} && u.results == map[] && u.answered == []
    ensures CallerInv(u, r, pushed, left)
  {
    assert Line(u) == [];
  }

  // ----- every act, and every run -----

  lemma SameCaller(u: User, u': User, r: Request, pushed: bool, left: bool)
    requires CallerInv(u, r, pushed, left)
    requires u'.queue == u.queue && u'.held == u.held && u'.answered == u.answered && u'.waiting == u.waiting
    requires u'.results == u.results && (u'.pushing == u.pushing || u'.pushing == None)
    ensures CallerInv(u', r, pushed, left)
  {
    assert Unanswered(u') == Unanswered(u);
    assert Line(u') == Line(u);
  }

  /** The act changes nothing that concerns who is handed what on the channel. */
  predicate LeavesCallers(s: Session, a: Act, id: uint32)
    requires CanAct(s, a)
  {
    !((a.NewChannel? || a.PushTail? || a.SendFail? || a.Receive? || a.Finish? || a.GiveUp? || a.ReopenAt? || a.ReuseAt?)
      && a.id == id)
  }

  lemma OtherActs(s: Session, a: Act, id: uint32)
    requires CanAct(s, a) && LeavesCallers(s, a, id) && id in Perform(s, a).users
    ensures
      id in s.users
      && var u, u' := s.users[id], Perform(s, a).users[id];
         && u'.queue == u.queue && u'.held == u.held && u'.answered == u.answered && u'.waiting == u.waiting
         && u'.results == u.results && (u'.pushing == u.pushing || u'.pushing == None)
    ensures Leaving(s, a, id) == {}
  {
    hide TakeOn, BeginOn, ShutAt, Apply, Enabled, ReopenedAt, ReusedAt, ReplyTo, Completing;
  }

  lemma ActKeepsCaller(s: Session, a: Act, id: uint32, r: Request, pushed: bool, left: bool)
    requires CanAct(s, a) && (id in s.users ==> CallerInv(s.users[id], r, pushed, left)) && (left ==> pushed)
    requires a == PushTail(id, r) ==> !pushed
    requires id in Perform(s, a).users
    ensures CallerInv(Perform(s, a).users[id], r, pushed || a == PushTail(id, r), left || r in Leaving(s, a, id))
  {
    hide CallerInv, ReusedAt, ReopenedAt, TakeOn, Apply;
    if LeavesCallers(s, a, id) {
      OtherActs(s, a, id);
      SameCaller(s.users[id], Perform(s, a).users[id], r, pushed, left);
    } else if a.NewChannel? || a.ReopenAt? || a.ReuseAt? {
      NewObjectKeepsCaller(Perform(s, a).users[id], r, pushed, left);
    } else {
      match a
      case PushTail(_, req) => PushTailKeepsCaller(s.users[id], req, r, pushed, left);
      case SendFail(_) => RollBackKeepsCaller(s.users[id], r, pushed, left);
      case Receive(_) => PopHeadKeepsCaller(s.users[id], Completing(s.down, id), r, pushed, left);
      case Finish(_) => FinishKeepsCaller(s.users[id], r, pushed, left);
      case GiveUp(_, req) => GiveUpKeepsCaller(s.users[id], req, r, pushed, left);
      case _ => assert false;
    }
  }

  lemma {:induction false} CallersKept(mode: SendMode, acts: seq<Act>, id: uint32, r: Request)
    requires PushedOnce(acts, id, r)
    ensures r in Left(mode, acts, id) ==> PushTail(id, r) in acts
    ensures
      var s := Played(mode, acts);
      id in s.users ==> CallerInv(s.users[id], r, PushTail(id, r) in acts, r in Left(mode, acts, id))
    decreases |acts|
  {
    hide CallerInv, CanAct, Perform, Leaving;
    if acts != [] {
      var k := |acts| - 1;
      var front, a := acts[..k], acts[k];
      assert forall i :: 0 <= i < k ==> front[i] == acts[i];
      CallersKept(mode, front, id, r);
      var s, pushed, left := Played(mode, front), PushTail(id, r) in front, r in Left(mode, front, id);
      assert acts == front + [a];
      if CanAct(s, a) {
        LeaversWerePushed(s, a, id, r, pushed, left);
        if id in Perform(s, a).users {
          ActKeepsCaller(s, a, id, r, pushed, left);
        }
      } else if id in s.users && a == PushTail(id, r) && !pushed {
        PushedLater(s.users[id], r, left);
      }
    }
  }

  lemma PushedLater(u: User, r: Request, left: bool)
    requires CallerInv(u, r, false, left)
    ensures CallerInv(u, r, true, left)
  {
  }

  lemma LeaversWerePushed(s: Session, a: Act, id: uint32, r: Request, pushed: bool, left: bool)
    requires CanAct(s, a) && (id in s.users ==> CallerInv(s.users[id], r, pushed, left))
    ensures r in Leaving(s, a, id) ==> pushed
  {
    hide AtMostOnce, Line;
  }

  // ----- what the callers get -----

  /** In every run, losses and reused ids included, an answered request has its answer on its
      caller's response channel if the caller has not left before it came, and none if it has. */
  lemma AnswerReachesCaller(mode: SendMode, acts: seq<Act>, id: uint32, i: nat)
    requires id in Played(mode, acts).users && i < |Played(mode, acts).users[id].answered|
    requires PushedOnce(acts, id, Played(mode, acts).users[id].answered[i].0)
    ensures
      var u := Played(mode, acts).users[id];
      var (r, m) := u.answered[i];
      if r in Left(mode, acts, id) then r !in u.results else r in u.results && u.results[r] == m
  {
    hide Played, Left, PushedOnce;
    var u := Played(mode, acts).users[id];
    var r := u.answered[i].0;
    CallersKept(mode, acts, id, r);
    assert Askers(u.answered)[i] == r;
    if r in u.results {
      ResultsAreAnswers(mode, acts, id);
      var j :| 0 <= j < |u.answered| && u.answered[j] == (r, u.results[r]);
      assert Line(u)[i] == Line(u)[j] == r;
    }
  }

  lemma ResultsAreAnswers(mode: SendMode, acts: seq<Act>, id: uint32)
    requires id in Played(mode, acts).users
    ensures Resulted(Played(mode, acts).users[id])
  {
    hide LinksInv, Asked, Served, Handed, Matched, Resulted;
    PlayKeeps(mode, acts);
  }

  /** And one that has no answer yet has its caller waiting, unless the caller has left. */
  lemma WaitsUntilAnswered(mode: SendMode, acts: seq<Act>, id: uint32, r: Request)
    requires id in Played(mode, acts).users && PushedOnce(acts, id, r)
    requires r in Unanswered(Played(mode, acts).users[id])
    ensures
      var u := Played(mode, acts).users[id];
      r !in u.results && (r in u.waiting <==> r !in Left(mode, acts, id))
  {
    hide Played, Left, PushedOnce, Unanswered;
    CallersKept(mode, acts, id, r);
    var u := Played(mode, acts).users[id];
    NotTwice(Askers(u.answered), Unanswered(u), r);
  }

  lemma NotTwice(a: seq<Request>, b: seq<Request>, r: Request)
    requires AtMostOnce(a + b, r) && r in b
    ensures r !in a
  {
    var j :| 0 <= j < |b| && b[j] == r;
    assert (a + b)[|a| + j] == r;
    forall i | 0 <= i < |a| ensures a[i] != r {
      assert (a + b)[i] == a[i];
    }
  }

  /** With nothing lost and nothing outstanding when the channel got its id: the i-th caller, if it
      is still there, gets what the server replied to its own request. */
  lemma CallerGetsOwnReply(mode: SendMode, acts: seq<Act>, id: uint32, i: nat)
    requires LosslessOn(Played(mode, acts), id) && Clean(Played(mode, acts).users[id])
    requires i < |Played(mode, acts).users[id].answered|
    ensures
      var u := Played(mode, acts).users[id];
      && i < |u.asked| && u.gone + i < |u.served| && u.served[u.gone + i].0 == u.asked[i].msg
      && (PushedOnce(acts, id, u.asked[i]) && u.asked[i] !in Left(mode, acts, id)
          ==> u.asked[i] in u.results && u.results[u.asked[i]] == u.served[u.gone + i].1)
  {
    hide Played, Left, PushedOnce, LosslessOn, Clean;
    EachAnswerIsItsOwn(mode, acts, id, i);
    LosslessHasUser(Played(mode, acts), id);
    var u := Played(mode, acts).users[id];
    if PushedOnce(acts, id, u.asked[i]) {
      AnswerReachesCaller(mode, acts, id, i);
    }
  }

  lemma LosslessHasUser(s: Session, id: uint32)
    requires LosslessOn(s, id)
    ensures id in s.users
  {
  }
}
