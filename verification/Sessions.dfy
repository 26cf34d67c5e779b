/** Both directions of a connection, with the request pipelining of the client and the
    answering loop of the server on top (client.go:310-422, protocol.go:341-490,
    handle.go:167-209). */
module Sessions {
  import opened Packets
  import opened Statuses
  import opened Chunks
  import opened Merging
  import opened Links

  /** Read back as characters the bytes are the text. */
  function Bytes(s: string): (b: seq<byte>)
    ensures |b| == |s| && forall i :: 0 <= i < |s| && s[i] as int < 256 ==> b[i] as char == s[i]
  {
    seq(|s|, i requires 0 <= i < |s| => s[i] as int % 256)
  }

  /** What serverHandler.Handle returns: data, or an error. */
  datatype HandlerResult = Reply(data: seq<byte>) | Failure

  /** The JSON of ErrHandleError and ErrHandleNoResponse (variants.go:15-16). */
  const HANDLE_ERROR := Bytes("{\"code\":102,\"message\":\"handle error\"}")
  const NO_RESPONSE := Bytes("{\"code\":101,\"message\":\"handle no response\"}")

  /** The data of the response packet, if one is sent (protocol.go:372-404). */
  function ResponseData(result: HandlerResult, completed: bool): Option<seq<byte>> {
    match result
    case Failure => Some(HANDLE_ERROR)
    case Reply(data) =>
      if data != [] then Some(data)
      else if completed then Some(NO_RESPONSE)
      else None
  }

  /** id stands for the identity of the request object. */
  datatype Request = Request(id: nat, msg: Message)

  /** A request the client loop has popped, with its answer once that is complete. */
  datatype Held = Held(req: Request, answer: Option<Message>)

  /** One channel as its users see it. queue is the uncompletedRequestQueue; pushing is the
      request whose sender holds sendRequestLock; waiting are the callers that have not
      timed out. asked and answered record the run of the client's channel object: the
      requests given to sendPacket and the pairs its loop has matched. The rest records the
      run since the id was last opened with nothing outstanding: before, the requests asked on
      older objects, gone, how many replies these got, served, the requests completed at the
      server with the reply to each, and unreplied, how many of these replies were not sent
      because channel or connection were closed there. */
  datatype User = User(
    queue: seq<Request>,
    pushing: Option<Request>,
    held: Option<Held>,
    waiting: set<Request>,
    results: map<Request, Message>,
    stuck: bool,
    asked: seq<Request>,
    served: seq<(Message, Message)>,
    unreplied: nat,
    answered: seq<(Request, Message)>,
    before: seq<Message>,
    gone: nat)

  const FRESH_USER := User([], None, None, {}, map[], false, [], [], 0, [], [], 0)

  function Messages(rs: seq<Request>): (ms: seq<Message>)
    ensures |ms| == |rs|
  {
    seq(|rs|, i requires 0 <= i < |rs| => rs[i].msg)
  }

  datatype Session = Session(up: Link, down: Link, users: map<uint32, User>)

  function FreshSession(mode: SendMode): Session {
    Session(FreshLink(Client, DontChunk), FreshLink(Server, mode), map[])
  }

  /** PushTail to GiveUp are steps of the two ends of channel id; Close, Invalidate, Reopen and
      Reuse are about its channel object at one end: Close and Invalidate are the two steps of
      Channel.Close, Reuse is about the client's, which takes the id of a closed channel whatever
      is outstanding on it; Up and Down are the steps that move packets
      in one direction. closes says whether the handler has closed the channel. */
  datatype Act =
    | NewChannel(id: uint32)
    | PushTail(id: uint32, req: Request)
    | SendOk(id: uint32)
    | SendFail(id: uint32)
    | Serve(id: uint32, result: HandlerResult, path: seq<byte>, closes: bool)
    | Receive(id: uint32)
    | Finish(id: uint32)
    | GiveUp(id: uint32, req: Request)
    | CloseAt(id: uint32, role: Role)
    | InvalidateAt(id: uint32, role: Role)
    | ReopenAt(id: uint32, role: Role)
    | ReuseAt(id: uint32)
    | Up(step: Step)
    | Down(step: Step)

  function Head(l: Link, id: uint32): Packet
    requires Enabled(l, Take(id))
  {
    l.chans[id].queue[0]
  }

  /** The reply to the packet at the head of the server's queue, if any. */
  function ReplyTo(s: Session, id: uint32, result: HandlerResult): Option<seq<byte>>
    requires Enabled(s.up, Take(id))
  {
    ResponseData(result, Completed(s.up.role, Head(s.up, id).status))
  }

  /** What the given end is of the up direction, and of the other. */
  function UpEnd(role: Role): End {
    if role.Client? then Sending else Reading
  }

  function DownEnd(role: Role): End {
    if role.Client? then Reading else Sending
  }

  /** The server's end of the channel, or of the connection, is closed: no reply is sent. */
  predicate Muted(s: Session, id: uint32)
    requires id in s.down.chans
  {
    s.down.sendClosed || s.down.chans[id].sendShut
  }

  predicate CanAct(s: Session, a: Act) {
    match a
    case NewChannel(id) => id !in s.users && Enabled(s.up, Open(id)) && Enabled(s.down, Open(id))
    case PushTail(id, req) => id in s.users && s.users[id].pushing == None && WellFormed(req.msg)
    case SendOk(id) => id in s.users && s.users[id].pushing.Some? && Enabled(s.up, Begin(id, s.users[id].pushing.value.msg))
    case SendFail(id) =>
      id in s.users && s.users[id].pushing.Some? && id in s.up.chans && (s.up.sendClosed || s.up.chans[id].sendShut)
    case Serve(id, result, path, closes) =>
      && id in s.users && Enabled(s.up, Take(id)) && id in s.down.chans && s.down.chans[id].outbox == []
      && (ReplyTo(s, id, result).Some? ==> WellFormed(Message(path, ReplyTo(s, id, result).value)))
    case Receive(id) => id in s.users && Enabled(s.down, Take(id)) && s.users[id].held == None && !s.users[id].stuck
    case Finish(id) => id in s.users && s.users[id].held.Some?
    case GiveUp(id, req) => id in s.users && req in s.users[id].waiting
    case CloseAt(id, role) => id in s.users && id in s.up.chans && id in s.down.chans
    case InvalidateAt(id, role) =>
      && id in s.users && id in s.up.chans && id in s.down.chans
      && (if role.Client? then s.down.chans[id].readShut else s.up.chans[id].readShut)
    case ReopenAt(id, role) =>
      && id in s.users && s.users[id].pushing == None && s.users[id].held == None
      && MayReopen(s.up, id, UpEnd(role)) && MayReopen(s.down, id, DownEnd(role))
      && (role.Server? ==> s.up.chans[id].sendShut)
    case ReuseAt(id) => id in s.users && MayReuse(s.up, id, Sending) && MayReuse(s.down, id, Reading)
    case Up(step) => Moves(step) && Enabled(s.up, step)
    case Down(step) => Moves(step) && Enabled(s.down, step)
  }

  /** The request is queued before its packet is sent (client.go:345). */
  function PushTailOn(u: User, req: Request): User {
    u.(queue := u.queue + [req], pushing := Some(req), waiting := u.waiting + {req})
  }

  /** PopTail, when sendPacket has failed (client.go:346-350). */
  function RollBack(u: User): User
    requires u.pushing.Some?
  {
    u.(queue := if u.queue == [] then [] else u.queue[..|u.queue| - 1], pushing := None,
       waiting := u.waiting - {u.pushing.value})
  }

  /** The message the packet at the head of the queue completes, if it completes one. */
  function Completing(l: Link, id: uint32): Option<Message>
    requires Enabled(l, Take(id))
  {
    var p := l.chans[id].queue[0];
    if Completed(l.role, p.status) then
      var w := Joined(l.chans[id].merge.whole, p);
      Some(Message(w.path, w.data))
    else None
  }

  /** The end with the given role takes the channel off its map: no packet reaches it. */
  function UnlistedAt(s: Session, id: uint32, role: Role): Session
    requires id in s.up.chans && id in s.down.chans
  {
    if role.Client? then s.(down := ShutAt(s.down, id, Reading)) else s.(up := ShutAt(s.up, id, Reading))
  }

  /** And sets the channel's error: nothing more is sent on it. */
  function InvalidatedAt(s: Session, id: uint32, role: Role): Session
    requires id in s.up.chans && id in s.down.chans
  {
    if role.Client? then s.(up := ShutAt(s.up, id, Sending)) else s.(down := ShutAt(s.down, id, Sending))
  }

  /** Channel.Close, all of it. */
  function ClosedAt(s: Session, id: uint32, role: Role): Session
    requires id in s.up.chans && id in s.down.chans
  {
    InvalidatedAt(UnlistedAt(s, id, role), id, role)
  }

  /** The server loop takes a packet and calls the handler, which may close the channel. */
  function Handled(s: Session, id: uint32, closes: bool): Session
    requires Enabled(s.up, Take(id)) && id in s.down.chans
  {
    var s' := s.(up := TakeOn(s.up, id));
    if closes then ClosedAt(s', id, Server) else s'
  }

  /** Then it sends the reply, which goes nowhere if channel or connection are closed by now. */
  function ServeOn(s: Session, id: uint32, result: HandlerResult, path: seq<byte>, closes: bool): Session
    requires CanAct(s, Serve(id, result, path, closes))
  {
    var reply := ReplyTo(s, id, result);
    var ask := Completing(s.up, id);
    var s' := Handled(s, id, closes);
    var replied := reply.Some? && !Muted(s', id);
    Session(
      s'.up,
      if replied then BeginOn(s'.down, id, Message(path, reply.value)) else s'.down,
      if ask.Some? then s.users[id := ServedOn(s.users[id], ask.value, Message(path, reply.value), replied)]
      else s.users)
  }

  function ServedOn(u: User, ask: Message, reply: Message, replied: bool): User {
    u.(served := u.served + [(ask, reply)], unreplied := if replied then u.unreplied else u.unreplied + 1)
  }

  /** The client loop merges a packet and pops the request it belongs to (protocol.go:444-457). */
  function ReceiveOn(s: Session, id: uint32): Session
    requires CanAct(s, Receive(id))
  {
    s.(down := TakeOn(s.down, id), users := s.users[id := PopHeadOf(s.users[id], Completing(s.down, id))])
  }

  function PopHeadOf(u: User, answer: Option<Message>): User {
    if u.queue == [] then u.(stuck := true)
    else u.(queue := u.queue[1..], held := Some(Held(u.queue[0], answer)))
  }

  /** A complete answer goes to the caller if it still waits; otherwise the request goes
      back to the head of the queue (protocol.go:466-487). */
  function FinishOn(u: User): User
    requires u.held.Some?
  {
    var h := u.held.value;
    match h.answer
    case None => u.(queue := [h.req] + u.queue, held := None)
    case Some(m) =>
      u.(held := None,
         answered := u.answered + [(h.req, m)],
         results := if h.req in u.waiting then u.results[h.req := m] else u.results,
         waiting := u.waiting - {h.req})
  }

  /** The new channel object has a queue of its own. */
  function ReusedBy(u: User, gone: nat): User {
    FRESH_USER.(before := u.before + Messages(u.asked), gone := u.gone + gone, served := u.served, unreplied := u.unreplied)
  }

  function ReuseOn(s: Session, id: uint32): Session
    requires CanAct(s, ReuseAt(id))
  {
    var down' := ReusedAt(s.down, id, Reading);
    Session(ReusedAt(s.up, id, Sending), down',
            s.users[id := ReusedBy(s.users[id], |s.down.chans[id].sent| - |down'.chans[id].sent|)])
  }

  function Perform(s: Session, a: Act): Session
    requires CanAct(s, a)
  {
    match a
    case NewChannel(id) => Session(Apply(s.up, Open(id)), Apply(s.down, Open(id)), s.users[id := FRESH_USER])
    case PushTail(id, req) => s.(users := s.users[id := PushTailOn(s.users[id], req)])
    case SendOk(id) =>
      var u := s.users[id];
      var req := u.pushing.value;
      s.(up := BeginOn(s.up, id, req.msg), users := s.users[id := u.(pushing := None, asked := u.asked + [req])])
    case SendFail(id) => s.(users := s.users[id := RollBack(s.users[id])])
    case Serve(id, result, path, closes) => ServeOn(s, id, result, path, closes)
    case Receive(id) => ReceiveOn(s, id)
    case Finish(id) => s.(users := s.users[id := FinishOn(s.users[id])])
    case GiveUp(id, req) => s.(users := s.users[id := s.users[id].(waiting := s.users[id].waiting - {req})])
    case CloseAt(id, role) => UnlistedAt(s, id, role)
    case InvalidateAt(id, role) => InvalidatedAt(s, id, role)
    case ReopenAt(id, role) =>
      Session(ReopenedAt(s.up, id, UpEnd(role)), ReopenedAt(s.down, id, DownEnd(role)), s.users[id := FRESH_USER])
    case ReuseAt(id) => ReuseOn(s, id)
    case Up(step) => s.(up := Apply(s.up, step))
    case Down(step) => s.(down := Apply(s.down, step))
  }

  /** A run of the session; an act that is not possible does nothing. */
  function Play(s: Session, acts: seq<Act>): Session {
    if acts == [] then s
    else
      var s' := Play(s, acts[..|acts| - 1]);
      var a := acts[|acts| - 1];
      if CanAct(s', a) then Perform(s', a) else s'
  }
}
