/** The loops of the two ends of a channel as they update their state: handleServerLoop
    (protocol.go:341-421), handleClientLoop (protocol.go:423-490) and the sending part of
    DoRequest and DoStreamRequest (client.go:341-359, 406-419). */
module Loops {
  import opened Packets
  import opened Statuses
  import opened Chunks
  import opened Merging
  import opened Sessions

  /** What the server does with a path: parsePath, and the handlers behind serverHandler.Handle
      (path, data so far, whether the data is complete). */
  datatype Service = Service(parse: seq<byte> -> seq<byte>, handle: (seq<byte>, seq<byte>, bool) -> HandlerResult)

  /** PathNewChannel and PathDeleteChannel (consts.go:14-15). */
  const NEW_CHANNEL := Bytes("/sys/new_channel")
  const DELETE_CHANNEL := Bytes("/sys/delete_channel")

  /** The channel is still open when the loop has handled pkt: Handle closes the channel of a
      request with the second of these paths. */
  predicate OpenAfter(sv: Service, open: bool, s: Merge, pkt: Packet) {
    open && sv.parse(Joined(s.whole, pkt).path) != DELETE_CHANNEL
  }

  /** parsePath changes the path of the packet object a message begins with; replies take the
      path of the packet at hand. */
  function ReplyPath(sv: Service, s: Merge, pkt: Packet): seq<byte> {
    if s.whole == None then sv.parse(pkt.path) else pkt.path
  }

  /** The reply the server loop sends after merging pkt into s. */
  function ReplyAfter(sv: Service, open: bool, s: Merge, pkt: Packet): Option<Message> {
    var w := Joined(s.whole, pkt);
    var completed := Completed(Client, w.status);
    if !OpenAfter(sv, open, s, pkt) then None else
    match ResponseData(sv.handle(w.path, w.data, completed), completed)
    case None => None
    case Some(data) => Some(Message(ReplyPath(sv, s, pkt), data))
  }

  predicate OpenThrough(sv: Service, open: bool, s: Merge, ps: seq<Packet>) {
    if ps == [] then open
    else
      var n := |ps| - 1;
      OpenAfter(sv, OpenThrough(sv, open, s, ps[..n]), MergeAll(Client, s, ps[..n]), ps[n])
  }

  /** All the replies to a run of packets, oldest first. */
  function RepliesTo(sv: Service, open: bool, s: Merge, ps: seq<Packet>): (rs: seq<Message>)
    ensures |rs| <= |ps|
  {
    if ps == [] then []
    else
      var n := |ps| - 1;
      var before := RepliesTo(sv, open, s, ps[..n]);
      match ReplyAfter(sv, OpenThrough(sv, open, s, ps[..n]), MergeAll(Client, s, ps[..n]), ps[n])
      case None => before
      case Some(m) => before + [m]
  }

  /** The server's end of a channel: its loop's merge buffer, whether the channel is open (its
      err is nil), and whether the loop has ended. */
  class ServerLoop {
    const service: Service
    var pktWholeRequest: Option<Packet>
    ghost var delivered: seq<Message>
    var open: bool
    var ended: bool

    constructor (service: Service)
      ensures this.service == service && open && !ended && View() == NOTHING_MERGED
    {
      this.service := service;
      pktWholeRequest, delivered, open, ended := None, [], true, false;
    }

    ghost function View(): Merge
      reads this
    {
      Merge(pktWholeRequest, delivered)
    }

    /** serverHandler.Handle: the delete request closes the channel. */
    method Handle(path: seq<byte>, data: seq<byte>, completed: bool) returns (ret: HandlerResult)
      modifies this`open
      ensures open == (old(open) && service.parse(path) != DELETE_CHANNEL) && ret == service.handle(path, data, completed)
    {
      if service.parse(path) == DELETE_CHANNEL {
        open := false;
      }
      ret := service.handle(path, data, completed);
    }

    /** One turn of the loop on a received packet. */
    method HandlePacket(pkt: Packet) returns (reply: Option<Message>)
      modifies this
      ensures pkt.status == STATUS_CLOSE ==> ended && !open && reply == None && View() == old(View())
      ensures pkt.status != STATUS_CLOSE ==>
                && ended == old(ended)
                && open == OpenAfter(service, old(open), old(View()), pkt)
                && View() == MergeStep(Client, old(View()), pkt)
                && reply == ReplyAfter(service, old(open), old(View()), pkt)
      ensures pkt.status != STATUS_CLOSE ==>
                var path := if old(pktWholeRequest).Some? then old(pktWholeRequest).value.path else pkt.path;
                && (open <==> old(open) && service.parse(path) != Bytes("/sys/delete_channel"))
                && (IsClientStatusCompleted(pkt.status) ==> (reply.Some? <==> open))
    {
      reply := None;
      if pkt.status == STATUS_CLOSE {
        open, ended := false, true;
        return;
      }
      var first := pktWholeRequest == None;
      if first {
        pktWholeRequest := Some(pkt);
      } else {
        var w := pktWholeRequest.value;
        w := w.(data := w.data + pkt.data);
        w := w.(status := pkt.status);
        pktWholeRequest := Some(w);
      }
      var whole := pktWholeRequest.value;
      var ret := Handle(whole.path, whole.data, IsClientStatusCompleted(whole.status));
      var err: Option<seq<byte>> := None;
      if IsClientStatusCompleted(whole.status) {
        if ret.Failure? {
          err := Some(HANDLE_ERROR);
        } else if ret.data == [] {
          err := Some(NO_RESPONSE);
        }
      } else if ret.Failure? {
        err := Some(HANDLE_ERROR);
      }
      if (err == None && ret.data != []) || err != None {
        var retPkt := Message(if first then service.parse(pkt.path) else pkt.path, if err == None then ret.data else err.value);
        if open {
          reply := Some(retPkt);
        }
      }
      if IsClientStatusCompleted(pkt.status) {
        delivered := delivered + [Message(whole.path, whole.data)];
        pktWholeRequest := None;
      }
    }
  }

  /** The handler keeps silent on the part of m its first n packets make. */
  predicate SilentOn(sv: Service, id: uint32, m: Message, n: nat)
    requires m.data != [] && n <= |ChunksOf(Client, id, m)|
  {
    sv.handle(m.path, DataOf(ChunksOf(Client, id, m)[..n]), false) == Reply([])
  }

  predicate SilentUpTo(sv: Service, id: uint32, m: Message, n: nat)
    requires m.data != [] && n <= |ChunksOf(Client, id, m)|
  {
    forall k :: 0 < k <= n ==> SilentOn(sv, id, m, k)
  }

  /** And on every incomplete part. */
  predicate SilentUntilComplete(sv: Service, id: uint32, m: Message)
    requires m.data != []
  {
    forall k :: 0 < k < |ChunksOf(Client, id, m)| ==> SilentOn(sv, id, m, k)
  }

  /** What the handler sees with the packet after the first n of m. */
  lemma WholeSoFar(id: uint32, m: Message, done: seq<Message>, n: nat)
    requires m.data != [] && n < |ChunksOf(Client, id, m)|
    ensures
      var cs := ChunksOf(Client, id, m);
      && Joined(MergeAll(Client, Merge(None, done), cs[..n]).whole, cs[n])
         == Packet(cs[n].status, m.path, id, DataOf(cs[..n + 1]))
      && cs[n].path == m.path && (Completed(Client, cs[n].status) <==> n == |cs| - 1)
      && (n == |cs| - 1 ==> DataOf(cs[..n + 1]) == m.data)
      && (MergeAll(Client, Merge(None, done), cs[..n]).whole == None <==> n == 0)
  {
    hide ChunksOf, MergeAll, DataOf;
    MergeChunks(Client, id, m, done, n);
    NthChunk(Client, id, m, n + 1);
  }

  /** What the reply to a complete request says. */
  function ReplyText(result: HandlerResult): (data: seq<byte>)
    ensures data != []
  {
    match result
    case Failure => Bytes("{\"code\":102,\"message\":\"handle error\"}")
    case Reply(data) => if data != [] then data else Bytes("{\"code\":101,\"message\":\"handle no response\"}")
  }

  /** And to an incomplete part, if the handler returns anything. */
  function PartText(result: HandlerResult): seq<byte> {
    if result.Failure? then Bytes("{\"code\":102,\"message\":\"handle error\"}") else result.data
  }

  lemma ReplyToChunk(sv: Service, open: bool, id: uint32, m: Message, done: seq<Message>, n: nat)
    requires m.data != [] && n < |ChunksOf(Client, id, m)|
    ensures
      var cs := ChunksOf(Client, id, m);
      var s := MergeAll(Client, Merge(None, done), cs[..n]);
      var reply := ReplyAfter(sv, open, s, cs[n]);
      && (OpenAfter(sv, open, s, cs[n]) <==> open && sv.parse(m.path) != DELETE_CHANNEL)
      && if !open || sv.parse(m.path) == DELETE_CHANNEL then reply == None
         else if n < |cs| - 1 then
           && (reply.Some? <==> !SilentOn(sv, id, m, n + 1))
           && (reply.Some? ==> reply.value == Message(if n == 0 then sv.parse(m.path) else m.path,
                                                      PartText(sv.handle(m.path, DataOf(cs[..n + 1]), false))))
         else reply == Some(Message(if n == 0 then sv.parse(m.path) else m.path, ReplyText(sv.handle(m.path, m.data, true))))
  {
    hide ChunksOf, MergeAll, DataOf;
    WholeSoFar(id, m, done, n);
  }

  lemma {:induction false} StaysOpen(sv: Service, open: bool, id: uint32, m: Message, done: seq<Message>, n: nat)
    requires m.data != [] && n <= |ChunksOf(Client, id, m)|
    ensures OpenThrough(sv, open, Merge(None, done), ChunksOf(Client, id, m)[..n])
        <==> open && (n > 0 ==> sv.parse(m.path) != DELETE_CHANNEL)
    decreases n
  {
    var cs := ChunksOf(Client, id, m);
    if n > 0 {
      hide ChunksOf;
      StaysOpen(sv, open, id, m, done, n - 1);
      ReplyToChunk(sv, OpenThrough(sv, open, Merge(None, done), cs[..n - 1]), id, m, done, n - 1);
      assert cs[..n][..n - 1] == cs[..n - 1] && cs[..n][n - 1] == cs[n - 1];
    }
  }

  /** The replies up to and including that to the n-th packet. */
  lemma RepliesMore(sv: Service, open: bool, id: uint32, m: Message, done: seq<Message>, n: nat)
    requires m.data != [] && 0 < n <= |ChunksOf(Client, id, m)|
    ensures
      var cs, s0 := ChunksOf(Client, id, m), Merge(None, done);
      var o := OpenThrough(sv, open, s0, cs[..n - 1]);
      RepliesTo(sv, open, s0, cs[..n])
      == RepliesTo(sv, open, s0, cs[..n - 1]) + AsReplies(ReplyAfter(sv, o, MergeAll(Client, s0, cs[..n - 1]), cs[n - 1]))
  {
    hide ChunksOf, ReplyAfter, MergeAll, OpenThrough;
    var cs := ChunksOf(Client, id, m);
    assert cs[..n][..n - 1] == cs[..n - 1] && cs[..n][n - 1] == cs[n - 1];
  }

  function AsReplies(reply: Option<Message>): seq<Message> {
    if reply.Some? then [reply.value] else []
  }

  /** A request that closes its channel gets no reply, nor does any on a closed channel. */
  lemma {:induction false} NoReplyWhenClosed(sv: Service, open: bool, id: uint32, m: Message, done: seq<Message>, n: nat)
    requires m.data != [] && n <= |ChunksOf(Client, id, m)| && (!open || sv.parse(m.path) == DELETE_CHANNEL)
    ensures RepliesTo(sv, open, Merge(None, done), ChunksOf(Client, id, m)[..n]) == []
    decreases n
  {
    hide ChunksOf, ReplyAfter, MergeAll, OpenThrough, RepliesTo;
    if n > 0 {
      NoReplyWhenClosed(sv, open, id, m, done, n - 1);
      RepliesMore(sv, open, id, m, done, n);
      ReplyToChunk(sv, OpenThrough(sv, open, Merge(None, done), ChunksOf(Client, id, m)[..n - 1]), id, m, done, n - 1);
      StaysOpen(sv, open, id, m, done, n - 1);
    } else {
      NothingYet(sv, open, id, m, done);
    }
  }

  lemma SilentReply(sv: Service, id: uint32, m: Message, done: seq<Message>, n: nat)
    requires m.data != [] && 0 < n < |ChunksOf(Client, id, m)| && sv.parse(m.path) != DELETE_CHANNEL
    ensures
      var cs, s0 := ChunksOf(Client, id, m), Merge(None, done);
      RepliesTo(sv, true, s0, cs[..n]) == [] <==> RepliesTo(sv, true, s0, cs[..n - 1]) == [] && SilentOn(sv, id, m, n)
  {
    hide ChunksOf, ReplyAfter, MergeAll, OpenThrough, RepliesTo, SilentOn;
    RepliesMore(sv, true, id, m, done, n);
    StaysOpen(sv, true, id, m, done, n - 1);
    ReplyToChunk(sv, true, id, m, done, n - 1);
  }

  /** On an open channel, before a message that does not close it is complete, there is no
      reply as long as, and only as long as, the handler returns nothing on the parts. */
  lemma {:induction false} NoReplyWhileSilent(sv: Service, id: uint32, m: Message, done: seq<Message>, n: nat)
    requires m.data != [] && n < |ChunksOf(Client, id, m)| && sv.parse(m.path) != DELETE_CHANNEL
    ensures RepliesTo(sv, true, Merge(None, done), ChunksOf(Client, id, m)[..n]) == [] <==> SilentUpTo(sv, id, m, n)
    decreases n
  {
    hide ChunksOf, RepliesTo, SilentOn;
    if n > 0 {
      NoReplyWhileSilent(sv, id, m, done, n - 1);
      SilentReply(sv, id, m, done, n);
    } else {
      NothingYet(sv, true, id, m, done);
    }
  }

  lemma NothingYet(sv: Service, open: bool, id: uint32, m: Message, done: seq<Message>)
    requires m.data != []
    ensures RepliesTo(sv, open, Merge(None, done), ChunksOf(Client, id, m)[..0]) == []
  {
    assert ChunksOf(Client, id, m)[..0] == [];
  }

  /** The last packet of a message that does not close its channel is always answered. */
  lemma LastReply(sv: Service, id: uint32, m: Message, done: seq<Message>)
    requires m.data != [] && sv.parse(m.path) != DELETE_CHANNEL
    ensures
      var cs := ChunksOf(Client, id, m);
      var reply := Message(if |cs| == 1 then sv.parse(m.path) else m.path, ReplyText(sv.handle(m.path, m.data, true)));
      RepliesTo(sv, true, Merge(None, done), cs) == RepliesTo(sv, true, Merge(None, done), cs[..|cs| - 1]) + [reply]
  {
    var cs := ChunksOf(Client, id, m);
    ChunksOfMessage(Client, id, m);
    hide ChunksOf, ReplyAfter, MergeAll, OpenThrough, RepliesTo;
    var n := |cs| - 1;
    assert cs[..n + 1] == cs;
    RepliesMore(sv, true, id, m, done, n + 1);
    StaysOpen(sv, true, id, m, done, n);
    ReplyToChunk(sv, true, id, m, done, n);
  }

  /** A request of any number of packets leaves an open channel open, and gets a reply, if and
      only if its path is not the one that deletes the channel; it gets exactly one if and only if,
      besides, the handler returns nothing on its incomplete parts. The last reply is the handler's
      answer to the whole request (or an error text), never empty. */
  lemma OneReplyIffSilent(sv: Service, open: bool, id: uint32, m: Message, done: seq<Message>)
    requires m.data != []
    ensures
      var cs := ChunksOf(Client, id, m);
      var replies := RepliesTo(sv, open, Merge(None, done), cs);
      var stays := open && sv.parse(m.path) != Bytes("/sys/delete_channel");
      && (OpenThrough(sv, open, Merge(None, done), cs) <==> stays)
      && (replies != [] <==> stays)
      && (|replies| == 1 <==> stays && SilentUntilComplete(sv, id, m))
      && (replies != [] ==>
            replies[|replies| - 1]
            == Message(if |cs| == 1 then sv.parse(m.path) else m.path, ReplyText(sv.handle(m.path, m.data, true))))
  {
    var cs := ChunksOf(Client, id, m);
    ChunksOfMessage(Client, id, m);
    hide ChunksOf, RepliesTo, OpenThrough, ReplyText;
    StaysOpen(sv, open, id, m, done, |cs|);
    assert cs[..|cs|] == cs;
    if !open || sv.parse(m.path) == DELETE_CHANNEL {
      NoReplyWhenClosed(sv, open, id, m, done, |cs|);
    } else {
      NoReplyWhileSilent(sv, id, m, done, |cs| - 1);
      LastReply(sv, id, m, done);
    }
  }

  /** The first request of every client: its channel stays open and the new id is on its way. */
  lemma NewChannelIsAnswered(sv: Service, id: uint32, data: seq<byte>, done: seq<Message>)
    requires data != [] && sv.parse(NEW_CHANNEL) == NEW_CHANNEL
    ensures
      var cs := ChunksOf(Client, id, Message(Bytes("/sys/new_channel"), data));
      OpenThrough(sv, true, Merge(None, done), cs) && RepliesTo(sv, true, Merge(None, done), cs) != []
  {
    OneReplyIffSilent(sv, true, id, Message(NEW_CHANNEL, data), done);
    assert |NEW_CHANNEL| != |DELETE_CHANNEL|;
  }

  /** The request that deletes a channel: complete, its handler answers, and no reply is sent. */
  lemma DeleteGetsNoReply(sv: Service, id: uint32, data: seq<byte>, done: seq<Message>)
    requires data != [] && sv.parse(DELETE_CHANNEL) == DELETE_CHANNEL
    ensures RepliesTo(sv, true, Merge(None, done), ChunksOf(Client, id, Message(DELETE_CHANNEL, data))) == []
  {
    OneReplyIffSilent(sv, true, id, Message(DELETE_CHANNEL, data), done);
  }

  /** The client's end of a channel; stuck means its loop has closed the channel and returned. */
  class ClientChannel {
    var uncompletedRequestQueue: seq<Request>
    var pktWholeResponse: Option<Packet>
    var waiting: set<Request>
    var results: map<Request, Message>
    var stuck: bool
    ghost var delivered: seq<Message>
    ghost var answered: seq<(Request, Message)>

    constructor ()
      ensures View() == FRESH_USER && Buffer() == NOTHING_MERGED
    {
      uncompletedRequestQueue, pktWholeResponse := [], None;
      waiting, results, stuck := {}, map[], false;
      delivered, answered := [], [];
    }

    ghost function View(): User
      reads this
    {
      FRESH_USER.(queue := uncompletedRequestQueue, waiting := waiting, results := results, stuck := stuck,
                  answered := answered)
    }

    ghost function Buffer(): Merge
      reads this
    {
      Merge(pktWholeResponse, delivered)
    }

    /** Queue the request, send its packet, and take it off again if that fails. */
    method Send(request: Request, sendFails: bool) returns (ok: bool)
      modifies this`uncompletedRequestQueue, this`waiting
      ensures ok == !sendFails
      ensures View() == var u := PushTailOn(old(View()), request); if ok then u.(pushing := None) else RollBack(u)
      ensures !ok ==> uncompletedRequestQueue == old(uncompletedRequestQueue)
    {
      uncompletedRequestQueue := uncompletedRequestQueue + [request];
      waiting := waiting + {request};
      ok := !sendFails;
      if !ok {
        uncompletedRequestQueue := uncompletedRequestQueue[..|uncompletedRequestQueue| - 1];
        waiting := waiting - {request};
      }
    }

    /** One turn of handleClientLoop on a received packet. */
    method HandlePacket(pkt: Packet)
      requires !stuck
      modifies this
      ensures pkt.status == STATUS_CLOSE ==> View() == old(View()).(stuck := true) && Buffer() == old(Buffer())
      ensures pkt.status != STATUS_CLOSE ==> Buffer() == MergeStep(Server, old(Buffer()), pkt)
      ensures pkt.status != STATUS_CLOSE ==>
        var w := Joined(old(pktWholeResponse), pkt);
        var answer := if Completed(Server, pkt.status) then Some(Message(w.path, w.data)) else None;
        var u := PopHeadOf(old(View()), answer);
        View() == if u.held.Some? then FinishOn(u) else u
    {
      if pkt.status == STATUS_CLOSE {
        stuck := true;
        return;
      }
      if pktWholeResponse == None {
        pktWholeResponse := Some(pkt);
      } else {
        var w := pktWholeResponse.value;
        pktWholeResponse := Some(w.(data := w.data + pkt.data, status := pkt.status));
      }
      var whole := pktWholeResponse.value;
      if Completed(Server, pkt.status) {
        delivered := delivered + [Message(whole.path, whole.data)];
      }
      if uncompletedRequestQueue == [] {
        stuck := true;
        if Completed(Server, pkt.status) {
          pktWholeResponse := None;
        }
        return;
      }
      var req := uncompletedRequestQueue[0];
      uncompletedRequestQueue := uncompletedRequestQueue[1..];
      if IsServerStatusCompleted(pkt.status) {
        if req in waiting {
          results := results[req := Message(whole.path, whole.data)];
        }
        waiting := waiting - {req};
        answered := answered + [(req, Message(whole.path, whole.data))];
        pktWholeResponse := None;
      } else {
        uncompletedRequestQueue := [req] + uncompletedRequestQueue;
      }
    }
  }
}
