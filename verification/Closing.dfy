/** What a channel closed at one end still does: Channel.Close takes it off the map and then marks it
    (protocol.go:493-511), at either end, and the handler may do so in the middle of a request. */
module Closing {
  import opened Packets
  import opened Chunks
  import opened Links
  import opened Sessions
  import opened SessionProofs
  import opened Pipelining

  predicate HasChannel(s: Session, id: uint32) {
    id in s.users && id in s.up.chans && id in s.down.chans
  }

  /** After both steps of Channel.Close at the end with the given role, which can come at any
      moment. */
  function Closed(s: Session, id: uint32, role: Role): (s': Session)
    requires HasChannel(s, id)
    ensures HasChannel(s', id) && s'.users == s.users
  {
    Perform(Perform(s, CloseAt(id, role)), InvalidateAt(id, role))
  }

  /** At the client: no request can be sent any more and the one being sent fails, and the id can be
      used again as soon as the last push is over. */
  lemma ClosedClient(s: Session, id: uint32)
    requires HasChannel(s, id)
    ensures
      var s' := Closed(s, id, Client);
      && !CanAct(s', SendOk(id)) && (s.users[id].pushing.Some? ==> CanAct(s', SendFail(id)))
      && (CanAct(s', ReuseAt(id)) <==> s.up.chans[id].outbox == [] && !s.down.recvClosed)
      && s'.up.chans[id].sent == s.up.chans[id].sent && s'.down.chans[id].queue == s.down.chans[id].queue
  {
  }

  /** Between the two steps the channel is off the map, but a request can still be sent on it. */
  lemma HalfClosedClient(s: Session, id: uint32)
    requires HasChannel(s, id)
    ensures
      var s' := Perform(s, CloseAt(id, Client));
      (CanAct(s', SendOk(id)) <==> CanAct(s, SendOk(id))) && id !in StatusMap(s'.down)
  {
  }

  /** At the server: what is still served gets no reply, whatever the handler returns, and the read
      loop does not know the channel any more. */
  lemma ClosedServer(s: Session, id: uint32, result: HandlerResult, path: seq<byte>, closes: bool)
    requires HasChannel(s, id)
    ensures
      var s' := Closed(s, id, Server);
      && id !in StatusMap(s'.up)
      && (CanAct(s', Serve(id, result, path, closes)) ==>
            Perform(s', Serve(id, result, path, closes)).down.chans[id].sent == s.down.chans[id].sent)
  {
    hide ReplyTo, Completing, TakeOn, BeginOn;
  }

  /** The handler can close the channel of any request: the request is served all the same, it gets no
      reply, and the channel is closed from then on. */
  lemma HandlerMayClose(s: Session, id: uint32, result: HandlerResult, path: seq<byte>)
    requires CanAct(s, Serve(id, result, path, false)) && HasChannel(s, id)
    ensures CanAct(s, Serve(id, result, path, true))
    ensures
      var s', open := Perform(s, Serve(id, result, path, true)), Perform(s, Serve(id, result, path, false));
      && HasChannel(s', id) && s'.down.chans[id].sent == s.down.chans[id].sent
      && id !in StatusMap(s'.up) && s'.down.chans[id].sendShut
      && (forall c :: c in s.users ==> c in open.users && c in s'.users && Asks(s'.users[c].served) == Asks(open.users[c].served))
  {
    hide ReplyTo, Completing, MayReopen, MayReuse, BeginOn;
  }

  lemma NewCanReopen(s: Session, id: uint32)
    requires CanAct(s, NewChannel(id))
    requires s.up.writeQ == s.up.onWire == s.down.writeQ == s.down.onWire == []
    ensures
      var s1 := Perform(s, NewChannel(id));
      && HasChannel(s1, id)
      && var s2 := Closed(s1, id, Client);
         CanAct(s2, ReopenAt(id, Client)) && Perform(s2, ReopenAt(id, Client)).users[id] == FRESH_USER
  {
  }

  /** A closed channel with nothing on its way can be opened again with its histories fresh. */
  lemma ClosedCanReopen(mode: SendMode, id: uint32) returns (acts: seq<Act>)
    ensures
      var s := Played(mode, acts);
      CanAct(s, ReopenAt(id, Client)) && Perform(s, ReopenAt(id, Client)).users[id] == FRESH_USER
  {
    acts := [];
    NewCanReopen(FreshSession(mode), id);
    hide Perform, CanAct;
    PlaySnoc(mode, acts, NewChannel(id));
    acts := acts + [NewChannel(id)];
    PlaySnoc(mode, acts, CloseAt(id, Client));
    acts := acts + [CloseAt(id, Client)];
    PlaySnoc(mode, acts, InvalidateAt(id, Client));
    acts := acts + [InvalidateAt(id, Client)];
  }

  /** The connection can break at any moment: what is queued is dropped, nothing more is
      begun, pushed or written on it, and what is on its way can still arrive. */
  lemma BrokenConnection(l: Link)
    ensures Enabled(l, Disconnect)
    ensures
      var l' := Apply(l, Disconnect);
      && l'.writeQ == [] && l'.flight == l.flight && l'.arrived == l.arrived && l'.onWire == l.onWire && l'.chans == l.chans
      && (forall s: Step :: Enabled(l', s) ==> !s.Begin? && !s.Push? && !s.TimeOut? && !s.Write?)
      && (forall s: Step :: s.Convey? || s.Read? || s.Take? ==> (Enabled(l', s) <==> Enabled(l, s)))
  {
  }

  lemma InTwoParts<T>(a: seq<T>, f: seq<T>, n: nat)
    requires n <= |f|
    ensures a + f[..n] + f[n..][..|f| - n] == a + f[..|f|] && f[n..][|f| - n..] == f[|f|..]
  {
    assert f[n..][..|f| - n] == f[n..];
    assert f == f[..n] + f[n..];
    assert a + f[..n] + f[n..] == a + (f[..n] + f[n..]);
  }

  /** The network may cut what is in flight anywhere. */
  lemma CutAnywhere(l: Link, n: nat)
    requires n <= |l.flight|
    ensures Enabled(l, Convey(n)) && Enabled(l, Convey(|l.flight|))
    ensures
      var l' := Apply(l, Convey(n));
      && Enabled(l', Convey(|l.flight| - n))
      && Apply(l', Convey(|l.flight| - n)) == Apply(l, Convey(|l.flight|))
  {
    InTwoParts(l.arrived, l.flight, n);
  }
}
