/** The counters of channels, connections and clients against each other
    (protocol.go:149-158, 258-337, 406-417, 475-484, 785-793, 869). */
module Counting {
  import opened Packets
  import opened Counters

  /** What is counted, where it happens; the last field of a read or written packet is the
      size of its frame. */
  datatype What =
    | FrameWritten(bytes: nat)
    | WholePushed
    | ChunkPushed
    | LastChunkPushed
    | PacketRead(bytes: nat)
    | WholeMerged

  function Delta(what: What): Count {
    match what
    case FrameWritten(bytes) => NONE.(bytesSent := bytes)
    case WholePushed => NONE.(packetsSent := 1, wholePacketSent := 1)
    case ChunkPushed => NONE.(packetsSent := 1)
    case LastChunkPushed => NONE.(wholePacketSent := 1)
    case PacketRead(bytes) => NONE.(packetReceived := 1, bytesReceived := bytes)
    case WholeMerged => NONE.(wholePacketReceived := 1)
  }

  /** A connection's counter and those of all the channels it has had. */
  datatype Conn = Conn(count: Count, channels: map<nat, Count>)

  const NEW_CONN := Conn(NONE, map[])

  /** One end, with all the connections it has had. owner is the client's counter; a server
      counts by path instead. */
  datatype Ledger = Ledger(role: Role, conns: map<nat, Conn>, owner: Count)

  datatype Event =
    | Connect(conn: nat)
    | OpenChannel(conn: nat, channel: nat)
    | Tally(conn: nat, channel: nat, what: What)

  /** The read loop of the server counts a packet on its channel only; everything else is
      counted on the channel, the connection and the client. */
  predicate CountsOnConn(role: Role, what: What) {
    !(role.Server? && what.PacketRead?)
  }

  function TallyOn(role: Role, c: Conn, channel: nat, what: What): Conn
    requires channel in c.channels
  {
    Conn(if CountsOnConn(role, what) then Plus(c.count, Delta(what)) else c.count,
         c.channels[channel := Plus(c.channels[channel], Delta(what))])
  }

  function OpenOn(c: Conn, channel: nat): Conn {
    Conn(c.count, c.channels[channel := NONE])
  }

  function Do(l: Ledger, e: Event): Ledger {
    match e
    case Connect(c) =>
      if c in l.conns then l else l.(conns := l.conns[c := NEW_CONN])
    case OpenChannel(c, ch) =>
      if c !in l.conns || ch in l.conns[c].channels then l
      else l.(conns := l.conns[c := OpenOn(l.conns[c], ch)])
    case Tally(c, ch, what) =>
      if c !in l.conns || ch !in l.conns[c].channels then l
      else
        Ledger(l.role, l.conns[c := TallyOn(l.role, l.conns[c], ch, what)],
               if l.role.Client? && CountsOnConn(l.role, what) then Plus(l.owner, Delta(what)) else l.owner)
  }

  function DoAll(role: Role, es: seq<Event>): Ledger
    decreases |es|
  {
    if es == [] then Ledger(role, map[], NONE) else Do(DoAll(role, es[..|es| - 1]), es[|es| - 1])
  }

  ghost function OfChannels(c: Conn): Count {
    Sum(c.channels, c.channels.Keys)
  }

  function OfConns(conns: map<nat, Conn>): map<nat, Count> {
    map c | c in conns :: conns[c].count
  }

  /** The part of a count that a server's connection leaves out. */
  function Missing(role: Role, c: Count): Count {
    if role.Client? then NONE else NONE.(packetReceived := c.packetReceived, bytesReceived := c.bytesReceived)
  }

  ghost predicate Agrees(role: Role, c: Conn) {
    Plus(c.count, Missing(role, OfChannels(c))) == OfChannels(c)
  }

  lemma TallyAgrees(role: Role, c: Conn, channel: nat, what: What)
    requires channel in c.channels && Agrees(role, c)
    ensures Agrees(role, TallyOn(role, c, channel, what))
    ensures OfChannels(TallyOn(role, c, channel, what)) == Plus(OfChannels(c), Delta(what))
  {
    SumUpdate(c.channels, channel, Plus(c.channels[channel], Delta(what)));
  }

  lemma OpenAgrees(role: Role, c: Conn, channel: nat)
    requires channel !in c.channels && Agrees(role, c)
    ensures OfChannels(OpenOn(c, channel)) == OfChannels(c) && Agrees(role, OpenOn(c, channel))
  {
    SumNew(c.channels, channel);
  }

  /** The client's counter after one connection's has changed. */
  lemma OwnerUpdate(conns: map<nat, Conn>, c: nat, conn: Conn, owner: Count, d: Count)
    requires owner == Sum(OfConns(conns), OfConns(conns).Keys)
    requires conn.count == Plus(Held(OfConns(conns), c), d)
    ensures Plus(owner, d) == Sum(OfConns(conns[c := conn]), OfConns(conns[c := conn]).Keys)
  {
    SumUpdate(OfConns(conns), c, conn.count);
    assert OfConns(conns[c := conn]) == OfConns(conns)[c := conn.count];
  }

  ghost predicate Inv(l: Ledger) {
    && (forall c :: c in l.conns ==> Agrees(l.role, l.conns[c]))
    && (l.role.Client? ==> l.owner == Sum(OfConns(l.conns), OfConns(l.conns).Keys))
  }

  /** One connection changes and its counter and the client's grow alike. */
  lemma ChangeKeepsInv(l: Ledger, c: nat, conn: Conn, owner: Count, d: Count)
    requires Inv(l) && Agrees(l.role, conn)
    requires l.role.Client? ==> conn.count == Plus(Held(OfConns(l.conns), c), d) && owner == Plus(l.owner, d)
    ensures Inv(Ledger(l.role, l.conns[c := conn], owner))
  {
    if l.role.Client? {
      OwnerUpdate(l.conns, c, conn, l.owner, d);
    }
  }

  lemma SameCountKeepsInv(l: Ledger, c: nat, conn: Conn)
    requires Inv(l) && Agrees(l.role, conn) && conn.count == Held(OfConns(l.conns), c)
    ensures Inv(Ledger(l.role, l.conns[c := conn], l.owner))
  {
    PlusNone(conn.count);
    PlusNone(l.owner);
    ChangeKeepsInv(l, c, conn, l.owner, NONE);
  }

  lemma NewAgrees(role: Role)
    ensures Agrees(role, NEW_CONN)
  {
  }

  lemma ConnectKeepsInv(l: Ledger, c: nat)
    requires Inv(l) && c !in l.conns
    ensures Inv(Do(l, Connect(c)))
  {
    NewAgrees(l.role);
    assert NEW_CONN.count == Held(OfConns(l.conns), c);
    SameCountKeepsInv(l, c, NEW_CONN);
    assert Do(l, Connect(c)) == Ledger(l.role, l.conns[c := NEW_CONN], l.owner);
  }

  lemma OpenKeepsInv(l: Ledger, c: nat, ch: nat)
    requires Inv(l) && c in l.conns && ch !in l.conns[c].channels
    ensures Inv(Do(l, OpenChannel(c, ch)))
  {
    OpenAgrees(l.role, l.conns[c], ch);
    SameCountKeepsInv(l, c, OpenOn(l.conns[c], ch));
  }

  lemma TallyKeepsInv(l: Ledger, c: nat, ch: nat, what: What)
    requires Inv(l) && c in l.conns && ch in l.conns[c].channels
    ensures Inv(Do(l, Tally(c, ch, what)))
  {
    TallyAgrees(l.role, l.conns[c], ch, what);
    ChangeKeepsInv(l, c, TallyOn(l.role, l.conns[c], ch, what), Do(l, Tally(c, ch, what)).owner, Delta(what));
  }

  lemma DoKeepsInv(l: Ledger, e: Event)
    requires Inv(l)
    ensures Inv(Do(l, e))
  {
    match e
    case Connect(c) => if c !in l.conns { ConnectKeepsInv(l, c); }
    case OpenChannel(c, ch) => if c in l.conns && ch !in l.conns[c].channels { OpenKeepsInv(l, c, ch); }
    case Tally(c, ch, what) => if c in l.conns && ch in l.conns[c].channels { TallyKeepsInv(l, c, ch, what); }
  }

  lemma {:induction false} CountersAgree(role: Role, es: seq<Event>)
    ensures DoAll(role, es).role == role && Inv(DoAll(role, es))
    decreases |es|
  {
    if es == [] {
      assert OfConns(map[]) == map[];
    } else {
      CountersAgree(role, es[..|es| - 1]);
      DoKeepsInv(DoAll(role, es[..|es| - 1]), es[|es| - 1]);
    }
  }

  /** At the client every counter is the sum of the counters below it, in every run. */
  lemma ClientTotals(es: seq<Event>, c: nat)
    requires c in DoAll(Client, es).conns
    ensures
      var l := DoAll(Client, es);
      l.conns[c].count == OfChannels(l.conns[c]) && l.owner == Sum(OfConns(l.conns), OfConns(l.conns).Keys)
  {
    CountersAgree(Client, es);
  }

  /** How many packets event e reads on connection c. */
  function ReadBy(l: Ledger, e: Event, c: nat): nat {
    if e.Tally? && e.conn == c && c in l.conns && e.channel in l.conns[c].channels && e.what.PacketRead? then 1 else 0
  }

  function Reads(es: seq<Event>, c: nat): nat
    decreases |es|
  {
    if es == [] then 0
    else Reads(es[..|es| - 1], c) + ReadBy(DoAll(Server, es[..|es| - 1]), es[|es| - 1], c)
  }

  ghost predicate HasRead(l: Ledger, c: nat, n: nat) {
    if c !in l.conns then n == 0
    else
      var sum := OfChannels(l.conns[c]);
      sum.packetReceived == n && (n == 0 ==> sum.bytesReceived == 0)
  }

  lemma DoReads(l: Ledger, e: Event, c: nat, n: nat)
    requires Inv(l) && HasRead(l, c, n)
    ensures HasRead(Do(l, e), c, n + ReadBy(l, e, c))
  {
    if e.conn == c && c in l.conns {
      if e.OpenChannel? && e.channel !in l.conns[c].channels {
        OpenAgrees(l.role, l.conns[c], e.channel);
      } else if e.Tally? && e.channel in l.conns[c].channels {
        TallyAgrees(l.role, l.conns[c], e.channel, e.what);
      }
    }
  }

  lemma {:induction false} ReadsAreReceived(es: seq<Event>, c: nat)
    ensures HasRead(DoAll(Server, es), c, Reads(es, c))
    decreases |es|
  {
    if es != [] {
      var front := es[..|es| - 1];
      CountersAgree(Server, front);
      ReadsAreReceived(front, c);
      DoReads(DoAll(Server, front), es[|es| - 1], c, Reads(front, c));
    }
  }

  /** At the server a connection's counter is the sum of its channels' exactly as long as no
      packet has been read on it. */
  lemma ServerTotalsIff(es: seq<Event>, c: nat)
    requires c in DoAll(Server, es).conns
    ensures
      var conn := DoAll(Server, es).conns[c];
      conn.count == OfChannels(conn) <==> Reads(es, c) == 0
  {
    CountersAgree(Server, es);
    ReadsAreReceived(es, c);
  }

  // ----- what the numbers count -----

  /** What has been tallied on an open channel, oldest first. */
  function Tallied(role: Role, es: seq<Event>, c: nat, ch: nat): seq<What>
    decreases |es|
  {
    if es == [] then []
    else
      var e, l := es[|es| - 1], DoAll(role, es[..|es| - 1]);
      Tallied(role, es[..|es| - 1], c, ch)
      + if e.Tally? && e.conn == c && e.channel == ch && IsOpen(l, c, ch) then [e.what] else []
  }

  predicate IsOpen(l: Ledger, c: nat, ch: nat) {
    c in l.conns && ch in l.conns[c].channels
  }

  /** The six numbers of a counter. */
  datatype Number = PacketsSent | WholeSent | PacketsRead | WholeRead | BytesSent | BytesRead

  function Get(n: Count, f: Number): int {
    match f
    case PacketsSent => n.packetsSent
    case WholeSent => n.wholePacketSent
    case PacketsRead => n.packetReceived
    case WholeRead => n.wholePacketReceived
    case BytesSent => n.bytesSent
    case BytesRead => n.bytesReceived
  }

  /** How much one thing that happens is worth in each of them. */
  function Worth(what: What, f: Number): nat {
    match f
    case PacketsSent => if what.WholePushed? || what.ChunkPushed? then 1 else 0
    case WholeSent => if what.WholePushed? || what.LastChunkPushed? then 1 else 0
    case PacketsRead => if what.PacketRead? then 1 else 0
    case WholeRead => if what.WholeMerged? then 1 else 0
    case BytesSent => if what.FrameWritten? then what.bytes else 0
    case BytesRead => if what.PacketRead? then what.bytes else 0
  }

  function WorthOf(ws: seq<What>, f: Number): nat
    decreases |ws|
  {
    if ws == [] then 0 else WorthOf(ws[..|ws| - 1], f) + Worth(ws[|ws| - 1], f)
  }

  ghost predicate Tells(n: Count, ws: seq<What>) {
    forall f :: Get(n, f) == WorthOf(ws, f)
  }

  lemma MoreTold(n: Count, ws: seq<What>, what: What)
    requires Tells(n, ws)
    ensures Tells(Plus(n, Delta(what)), ws + [what])
  {
    assert (ws + [what])[..|ws|] == ws;
  }

  /** The number of packets a channel has sent is the number of pushes, whole packets and chunks
      alike, and so on for each of its six counters. */
  lemma {:induction false} ChannelTells(role: Role, es: seq<Event>, c: nat, ch: nat)
    ensures
      var l := DoAll(role, es);
      if IsOpen(l, c, ch) then Tells(l.conns[c].channels[ch], Tallied(role, es, c, ch)) else Tallied(role, es, c, ch) == []
    decreases |es|
  {
    hide Tells, Do;
    if es != [] {
      var front, e := es[..|es| - 1], es[|es| - 1];
      ChannelTells(role, front, c, ch);
      NothingTold();
      DoTells(DoAll(role, front), e, c, ch, Tallied(role, front, c, ch));
    }
  }

  lemma DoTells(l: Ledger, e: Event, c: nat, ch: nat, ws: seq<What>)
    requires if IsOpen(l, c, ch) then Tells(l.conns[c].channels[ch], ws) else ws == []
    requires Tells(NONE, [])
    ensures
      var l' := Do(l, e);
      var more := if e.Tally? && e.conn == c && e.channel == ch && IsOpen(l, c, ch) then [e.what] else [];
      if IsOpen(l', c, ch) then Tells(l'.conns[c].channels[ch], ws + more) else ws + more == []
  {
    hide Tells, Plus, Delta;
    assert ws + [] == ws;
    if e.Tally? && e.conn == c && e.channel == ch && IsOpen(l, c, ch) {
      MoreTold(l.conns[c].channels[ch], ws, e.what);
    }
  }

  lemma NothingTold()
    ensures Tells(NONE, [])
  {
  }

  // ----- one atomic addition at a time -----

  datatype Target = OnClient | OnConn(conn: nat) | OnChannel(conn: nat, channel: nat)

  /** What one tally adds: each field to the channel, then to the connection, then to the client. */
  function Items(role: Role, c: nat, ch: nat, what: What): seq<(Target, Count)> {
    var d := Delta(what);
    Fields(OnChannel(c, ch), d)
    + (if CountsOnConn(role, what) then Fields(OnConn(c), d) else [])
    + (if role.Client? && CountsOnConn(role, what) then Fields(OnClient, d) else [])
  }

  /** A new counter reads zero; a tally starts its additions. */
  function Started(l: Ledger, b: Board<Target>, e: Event): Board<Target> {
    if e.Tally? && e.conn in l.conns && e.channel in l.conns[e.conn].channels
    then Posted(b, Items(l.role, e.conn, e.channel, e.what))
    else b
  }

  datatype Act = Start(e: Event) | Land(i: nat)

  /** The events started so far, and the counters as they read. */
  datatype Progress = Progress(events: seq<Event>, board: Board<Target>)

  function Play(role: Role, acts: seq<Act>): Progress
    decreases |acts|
  {
    if acts == [] then Progress([], Board(map[], []))
    else
      var g := Play(role, acts[..|acts| - 1]);
      match acts[|acts| - 1]
      case Start(e) => Progress(g.events + [e], Started(DoAll(role, g.events), g.board, e))
      case Land(i) => if i < |g.board.pending| then g.(board := Landed(g.board, i)) else g
  }

  function Value(l: Ledger, t: Target): Count {
    match t
    case OnClient => l.owner
    case OnConn(c) => Held(OfConns(l.conns), c)
    case OnChannel(c, ch) => if c in l.conns then Held(l.conns[c].channels, ch) else NONE
  }

  ghost predicate InFull(l: Ledger, b: Board<Target>) {
    forall t :: Full(b, t) == Value(l, t)
  }

  lemma NoItems(t: Target)
    ensures PendingOn<Target>([], t) == NONE
  {
  }

  lemma ItemsAdd(role: Role, c: nat, ch: nat, what: What, t: Target)
    ensures PendingOn(Items(role, c, ch, what), t)
         == if || t == OnChannel(c, ch)
               || (t == OnConn(c) && CountsOnConn(role, what))
               || (t == OnClient && role.Client? && CountsOnConn(role, what))
            then Delta(what) else NONE
  {
    hide PendingOn, Fields, Plus, Delta, CountsOnConn;
    var d := Delta(what);
    var below := if CountsOnConn(role, what) then Fields(OnConn(c), d) else [];
    var top := if role.Client? && CountsOnConn(role, what) then Fields(OnClient, d) else [];
    PendingBoth(Fields(OnChannel(c, ch), d) + below, top, t);
    PendingBoth(Fields(OnChannel(c, ch), d), below, t);
    FieldsAdd(OnChannel(c, ch), d, t);
    FieldsAdd(OnConn(c), d, t);
    FieldsAdd(OnClient, d, t);
    NoItems(t);
    PlusNone(d);
    PlusNoneLeft(d);
    PlusNone(NONE);
  }

  /** The counters of the ledger change by what a tally adds to them. */
  lemma TallyValue(l: Ledger, c: nat, ch: nat, what: What, t: Target)
    requires c in l.conns && ch in l.conns[c].channels
    ensures Value(Do(l, Tally(c, ch, what)), t) == Plus(Value(l, t), PendingOn(Items(l.role, c, ch, what), t))
  {
    hide PendingOn, Plus, Delta, CountsOnConn, Items;
    ItemsAdd(l.role, c, ch, what, t);
    PlusNone(Value(l, t));
  }

  lemma NewValue(l: Ledger, e: Event, t: Target)
    requires !(e.Tally? && e.conn in l.conns && e.channel in l.conns[e.conn].channels)
    ensures Value(Do(l, e), t) == Value(l, t)
  {
  }

  lemma StartInFull(l: Ledger, b: Board<Target>, e: Event)
    requires InFull(l, b)
    ensures InFull(Do(l, e), Started(l, b, e))
  {
    hide PendingOn, Plus, Full, Do, Value, Items;
    forall t ensures Full(Started(l, b, e), t) == Value(Do(l, e), t) {
      if e.Tally? && e.conn in l.conns && e.channel in l.conns[e.conn].channels {
        TallyValue(l, e.conn, e.channel, e.what, t);
        PostedFull(b, Items(l.role, e.conn, e.channel, e.what), t);
      } else {
        NewValue(l, e, t);
      }
    }
  }

  lemma LandInFull(l: Ledger, b: Board<Target>, i: nat)
    requires InFull(l, b) && i < |b.pending|
    ensures InFull(l, Landed(b, i))
  {
    hide Full, Value, Landed;
    forall t ensures Full(Landed(b, i), t) == Value(l, t) {
      LandedFull(b, i, t);
    }
  }

  lemma NothingInFull(role: Role)
    ensures InFull(DoAll(role, []), Play(role, []).board)
  {
    hide Full, Plus;
    forall t ensures Full(Play(role, []).board, t) == Value(DoAll(role, []), t) {
      NothingPending(Play(role, []).board, t);
    }
  }

  lemma DoMore(role: Role, es: seq<Event>, e: Event)
    ensures DoAll(role, es + [e]) == Do(DoAll(role, es), e)
  {
    hide Do;
    assert (es + [e])[..|es|] == es;
  }

  /** At every moment, with any number of tallies half made, each counter and what is pending
      on it are what the tallies started so far make it. */
  lemma {:induction false} ShownPlusPending(role: Role, acts: seq<Act>)
    ensures InFull(DoAll(role, Play(role, acts).events), Play(role, acts).board)
    decreases |acts|
  {
    hide InFull, DoAll, Started, Landed;
    if acts == [] {
      NothingInFull(role);
    } else {
      var g := Play(role, acts[..|acts| - 1]);
      ShownPlusPending(role, acts[..|acts| - 1]);
      match acts[|acts| - 1]
      case Start(e) =>
        DoMore(role, g.events, e);
        StartInFull(DoAll(role, g.events), g.board, e);
      case Land(i) => if i < |g.board.pending| { LandInFull(DoAll(role, g.events), g.board, i); }
    }
  }

  /** What the channels of a connection read and what is pending on them. */
  function FullChannels(l: Ledger, b: Board<Target>, c: nat): map<nat, Count>
    requires c in l.conns
  {
    map ch | ch in l.conns[c].channels :: Full(b, OnChannel(c, ch))
  }

  function FullConns(l: Ledger, b: Board<Target>): map<nat, Count> {
    map c | c in l.conns :: Full(b, OnConn(c))
  }

  lemma FullIsValue(l: Ledger, b: Board<Target>, t: Target)
    requires InFull(l, b)
    ensures Full(b, t) == Value(l, t)
  {
  }

  lemma FullChannelsAre(l: Ledger, b: Board<Target>, c: nat)
    requires InFull(l, b) && c in l.conns
    ensures FullChannels(l, b, c) == l.conns[c].channels
  {
    hide InFull, Full;
    forall ch | ch in l.conns[c].channels ensures Full(b, OnChannel(c, ch)) == l.conns[c].channels[ch] {
      FullIsValue(l, b, OnChannel(c, ch));
    }
  }

  lemma FullConnsAre(l: Ledger, b: Board<Target>)
    requires InFull(l, b)
    ensures FullConns(l, b) == OfConns(l.conns)
  {
    hide InFull, Full;
    forall c | c in l.conns ensures Full(b, OnConn(c)) == l.conns[c].count {
      FullIsValue(l, b, OnConn(c));
    }
  }

  /** So at the client, at every moment, a connection's counter is the sum of its channels' and
      the client's the sum of the connections', counting in what is pending. */
  lemma ClientTotalsThroughout(acts: seq<Act>, c: nat)
    requires c in DoAll(Client, Play(Client, acts).events).conns
    ensures
      var g := Play(Client, acts);
      var l := DoAll(Client, g.events);
      var channels, conns := FullChannels(l, g.board, c), FullConns(l, g.board);
      && Full(g.board, OnConn(c)) == Sum(channels, channels.Keys)
      && Full(g.board, OnClient) == Sum(conns, conns.Keys)
  {
    hide DoAll, Play, InFull, Full, Sum, FullChannels, FullConns;
    var g := Play(Client, acts);
    var l := DoAll(Client, g.events);
    ShownPlusPending(Client, acts);
    ClientTotals(g.events, c);
    FullIsValue(l, g.board, OnConn(c));
    FullIsValue(l, g.board, OnClient);
    FullChannelsAre(l, g.board, c);
    FullConnsAre(l, g.board);
  }

  /** And at the server a connection's counter is the sum of its channels' exactly until a packet
      is read on it. */
  lemma ServerTotalsThroughoutIff(acts: seq<Act>, c: nat)
    requires c in DoAll(Server, Play(Server, acts).events).conns
    ensures
      var g := Play(Server, acts);
      var channels := FullChannels(DoAll(Server, g.events), g.board, c);
      Full(g.board, OnConn(c)) == Sum(channels, channels.Keys) <==> Reads(g.events, c) == 0
  {
    hide DoAll, Play, InFull, Full, Sum, FullChannels, Reads;
    var g := Play(Server, acts);
    var l := DoAll(Server, g.events);
    ShownPlusPending(Server, acts);
    ServerTotalsIff(g.events, c);
    FullIsValue(l, g.board, OnConn(c));
    FullChannelsAre(l, g.board, c);
  }

  /** Once nothing is pending the counters themselves agree like that. */
  lemma ReadWhenQuiet(role: Role, acts: seq<Act>, t: Target)
    requires Play(role, acts).board.pending == []
    ensures Held(Play(role, acts).board.shown, t) == Value(DoAll(role, Play(role, acts).events), t)
  {
    hide DoAll, Play, Full, Value;
    ShownPlusPending(role, acts);
    NothingPending(Play(role, acts).board, t);
    FullIsValue(DoAll(role, Play(role, acts).events), Play(role, acts).board, t);
  }

  /** Every tally that is half made can be finished. */
  lemma {:induction false} CanFinish(role: Role, acts: seq<Act>) returns (more: seq<Act>)
    ensures acts <= more
    ensures Play(role, more).board.pending == [] && Play(role, more).events == Play(role, acts).events
    decreases |Play(role, acts).board.pending|
  {
    hide DoAll, Started, Full;
    if Play(role, acts).board.pending == [] {
      more := acts;
    } else {
      assert (acts + [Land(0)])[..|acts|] == acts;
      more := CanFinish(role, acts + [Land(0)]);
    }
  }
}
