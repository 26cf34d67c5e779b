/** Closing channels, connections and clients (protocol.go:493-511, 596-641, 708-716;
    client.go:143-147, 249-276): the mutual recursion of Connection.Close and
    Client.removeConnection over the objects it updates. */
module Lifecycle {
  import opened Packets
  import opened Slices

  lemma OneFewer<V>(m: map<uint32, V>, id: uint32)
    requires id in m
    ensures |m - {id}| == |m| - 1 && (m - {id}).Keys == m.Keys - {id}
  {
  }

  class Channel {
    const id: uint32
    const conn: Connection
    var closedMark: bool

    constructor (id: uint32, conn: Connection)
      ensures this.id == id && this.conn == conn && !closedMark
    {
      this.id, this.conn, closedMark := id, conn, false;
    }

    method Close()
      modifies this, conn
      ensures closedMark && conn.closedMark == old(conn.closedMark)
      ensures old(closedMark) ==> unchanged(conn)
      ensures !old(closedMark) ==>
                && conn.channels == old(conn.channels) - {id}
                && conn.freeChannelId == old(conn.freeChannelId) + {id}
                && conn.channelCount == old(conn.channelCount) - 1
    {
      if closedMark {
        return;
      }
      closedMark := true;
      conn.RemoveChannel(this);
    }
  }

  class Connection {
    const client: Client
    var closedMark: bool
    var channels: map<uint32, Channel>
    var freeChannelId: set<uint32>
    var channelCount: int

    constructor (client: Client)
      ensures this.client == client && !closedMark && channels == map[] && freeChannelId == {} && channelCount == 0
      ensures Valid()
    {
      this.client, closedMark, channels, freeChannelId, channelCount := client, false, map[], {}, 0;
    }

    ghost function ChannelSet(): set<Channel>
      reads this
    {
      channels.Values
    }

    /** Each channel in the map is open, belongs here and sits under its own id. */
    ghost predicate Valid()
      reads this, ChannelSet()
    {
      forall id :: id in channels ==> channels[id].id == id && channels[id].conn == this && !channels[id].closedMark
    }

    method RemoveChannel(c: Channel)
      modifies this
      ensures channels == old(channels) - {c.id} && freeChannelId == old(freeChannelId) + {c.id}
      ensures channelCount == old(channelCount) - 1 && closedMark == old(closedMark)
    {
      channels := channels - {c.id};
      channelCount := channelCount - 1;
      freeChannelId := freeChannelId + {c.id};
    }

    method CloseChannel(id: uint32)
      requires Valid() && id in channels
      modifies this, channels[id]
      ensures Valid() && closedMark == old(closedMark) && old(channels[id]).closedMark
      ensures channels == old(channels) - {id} && freeChannelId == old(freeChannelId) + {id}
      ensures channelCount == old(channelCount) - 1 && |channels| == |old(channels)| - 1
    {
      OneFewer(channels, id);
      channels[id].Close();
    }

    /** Part of the way through closing all: those out of the map are closed and their ids free. */
    ghost predicate Closing(all: map<uint32, Channel>, free: set<uint32>, count: int)
      reads this, ChannelSet(), all.Values
    {
      && Valid() && channels.Keys <= all.Keys
      && (forall id :: id in all ==> if id in channels then channels[id] == all[id] else all[id].closedMark)
      && freeChannelId == free + (all.Keys - channels.Keys)
      && channelCount == count - |all| + |channels|
    }

    /** One turn of the loop over m.Channels. */
    method CloseNext(id: uint32, ghost all: map<uint32, Channel>, ghost free: set<uint32>, ghost count: int)
      requires Closing(all, free, count) && id in channels
      modifies this, all.Values
      ensures Closing(all, free, count) && closedMark == old(closedMark) && channels == old(channels) - {id}
    {
      assert channels[id] in all.Values;
      CloseChannel(id);
    }

    /** The loop over m.Channels at the end of Close. */
    method CloseChannels()
      requires Valid()
      modifies this, ChannelSet()
      ensures channels == map[] && freeChannelId == old(freeChannelId + channels.Keys)
      ensures channelCount == old(channelCount) - |old(channels)| && closedMark == old(closedMark)
      ensures forall c :: c in old(ChannelSet()) ==> c.closedMark
    {
      ghost var all, free, count := channels, freeChannelId, channelCount;
      while channels != map[]
        invariant Closing(all, free, count) && closedMark == old(closedMark)
        decreases |channels|
      {
        var id :| id in channels;
        OneFewer(channels, id);
        CloseNext(id, all, free, count);
      }
    }

    /** Close is idempotent; the first call takes the connection off its client's list,
        closes every channel and empties the channel map. It terminates because each
        round of the recursion sets a closed mark or shortens the list. */
    method Close()
      requires Valid() && client.Valid()
      modifies this, ChannelSet(), client, client.conns
      ensures closedMark && client.Valid() && client.conns == old(client.conns)
      ensures old(closedMark) ==>
                unchanged(this) && unchanged(client) && unchanged(client.conns) && unchanged(old(ChannelSet()))
      ensures !old(closedMark) ==>
                && channels == map[] && freeChannelId == old(freeChannelId + channels.Keys)
                && channelCount == old(channelCount) - |old(channels)|
                && (forall c :: c in old(ChannelSet()) ==> c.closedMark)
                && client.Dropped(old(client.conns[..]), old(client.len), old(client.connCount), this)
      decreases if closedMark then 0 else 1, if this in client.List() then 1 else 0, 1
    {
      if closedMark {
        return;
      }
      closedMark := true;
      client.RemoveConnection(this);
      CloseChannels();
    }
  }

  class Client {
    var conns: array<Connection?>
    var len: nat
    var connCount: int

    constructor (capacity: nat)
      ensures Valid() && List() == [] && connCount == 0 && fresh(conns)
    {
      conns := new Connection?[capacity](_ => null);
      len, connCount := 0, 0;
    }

    /** The slice m.connections. */
    ghost function List(): seq<Connection?>
      requires len <= conns.Length
      reads this, conns
    {
      conns[..len]
    }

    ghost predicate Valid()
      reads this, conns
    {
      && len <= conns.Length
      && (forall i :: 0 <= i < len ==> conns[i] != null)
      && Distinct(conns[..len])
    }

    /** Compared with the backing array b, length n and count k of before: c has been spliced
        out of the list in place, the others keeping their order, if it was on it. */
    ghost predicate Dropped(b: seq<Connection?>, n: nat, k: int, c: Connection)
      requires n <= |b|
      reads this, conns
    {
      var i := IndexOf(b[..n], c);
      if i < n then conns[..] == Splice(b, n, i) && len == n - 1 && connCount == k - 1
      else conns[..] == b && len == n && connCount == k
    }

    /** The new element goes behind the last. */
    method PutLast(n: nat, c: Connection)
      requires n == len < conns.Length
      modifies this`len, conns
      ensures len == n + 1 && conns[..len] == old(conns[..n]) + [c]
    {
      conns[n] := c;
      len := n + 1;
    }

    /** append(m.connections, c): in place while the array has room, else in a larger copy. */
    method Append(c: Connection)
      requires Valid() && c !in List()
      modifies this`conns, this`len, conns
      ensures Valid() && List() == old(List()) + [c]
      ensures conns == old(conns) || fresh(conns)
      ensures old(conns[..len]) == old(conns)[..old(len)]
    {
      ghost var was := List();
      if len == conns.Length {
        var larger := new Connection?[2 * len + 1](_ => null);
        var j := 0;
        while j < len
          invariant j <= len && conns == old(conns) && len == old(len)
          invariant larger[..j] == conns[..j] && conns[..] == old(conns[..])
        {
          larger[j] := conns[j];
          j := j + 1;
        }
        conns := larger;
      }
      PutLast(len, c);
      assert List() == was + [c];
    }

    method FindConnection(c: Connection) returns (i: nat)
      requires Valid()
      ensures i == IndexOf(List(), c)
    {
      i := 0;
      while i < len && conns[i] != c
        invariant i <= len && forall j :: 0 <= j < i ==> conns[j] != c
      {
        i := i + 1;
      }
      IndexUnique(List(), c, i);
    }

    /** append(conns[:i], conns[i+1:]...). */
    method SpliceOut(i: nat)
      requires Valid() && i < len
      modifies this`len, conns
      ensures conns[..] == Splice(old(conns[..]), old(len), i) && len == old(len) - 1
    {
      ghost var b := conns[..];
      var j := i;
      while j < len - 1
        invariant len == old(len) && conns == old(conns) && i <= j <= len - 1
        invariant forall k :: 0 <= k < i ==> conns[k] == b[k]
        invariant forall k :: i <= k < j ==> conns[k] == b[k + 1]
        invariant forall k :: j <= k < conns.Length ==> conns[k] == b[k]
      {
        conns[j] := conns[j + 1];
        j := j + 1;
      }
      assert conns[..] == Splice(b, len, i);
      len := len - 1;
    }

    /** The critical section of RemoveConnection. */
    method Unlink(conn: Connection) returns (found: bool)
      requires Valid()
      modifies this, conns
      ensures Valid() && conns == old(conns) && (found <==> conn in old(List())) && conn !in List()
      ensures Dropped(old(conns[..]), old(len), old(connCount), conn)
    {
      var i := FindConnection(conn);
      found := i < len;
      if found {
        ghost var b, n := conns[..], len;
        connCount := connCount - 1;
        SpliceOut(i);
        SplicedList(b, n, i);
        assert List() == b[..i] + b[i + 1..n];
      }
    }

    method RemoveConnection(conn: Connection)
      requires Valid() && conn.Valid() && conn.client == this
      modifies this, conns, conn, conn.ChannelSet()
      ensures Valid() && conns == old(conns)
      ensures Dropped(old(conns[..]), old(len), old(connCount), conn)
      ensures conn !in old(List()) || old(conn.closedMark) ==> unchanged(conn) && unchanged(old(conn.ChannelSet()))
      ensures conn in old(List()) && !old(conn.closedMark) ==>
                && conn.closedMark && conn.channels == map[]
                && conn.freeChannelId == old(conn.freeChannelId + conn.channels.Keys)
                && conn.channelCount == old(conn.channelCount) - |old(conn.channels)|
                && (forall c :: c in old(conn.ChannelSet()) ==> c.closedMark)
      decreases if conn.closedMark then 0 else 1, if conn in List() then 1 else 0, 0
    {
      var found := Unlink(conn);
      if found {
        IndexAbsent(List(), conn);
        conn.Close();
      }
    }

    /** The channels of all the connections listed in b. */
    ghost function ChannelsOf(b: seq<Connection?>): set<Channel>
      requires forall i :: 0 <= i < |b| ==> b[i] != null
      reads b
    {
      set c, id | c in b && c != null && id in c.channels :: c.channels[id]
    }

    /** Every listed connection belongs to this client, is open and has only open channels. */
    ghost predicate AllOpen()
      requires Valid()
      reads this, conns, List(), ChannelsOf(List())
    {
      forall c :: c in List() && c != null ==> c.client == this && !c.closedMark && c.Valid()
    }

    /** The range loop over the list b, as it was when the loop began, has brought the slice
        and the closed marks to s. */
    ghost predicate Swept(b: seq<Connection?>, s: Sweep<Connection?>)
      reads this, conns, b, ChannelsOf(b)
      requires forall i :: 0 <= i < |b| ==> b[i] != null
    {
      && Valid() && |b| == |s.backing| <= conns.Length && conns[..|b|] == s.backing && len == s.len <= |b|
      && (forall x :: x in s.backing ==> x in b)
      && (forall c :: c in b && c != null ==> c.client == this && c.Valid() && (c.closedMark <==> c in s.closed))
      && (forall c :: c in b && c != null && c.closedMark ==> c.channels == map[])
    }

    lemma ChannelsApart(c: Connection, v: Connection)
      requires c.Valid() && v.Valid() && c != v
      ensures c.ChannelSet() !! v.ChannelSet()
    {
    }

    lemma WithoutChannels(c: Connection)
      requires c.channels == map[]
      ensures c.Valid()
    {
    }

    /** One turn of the loop. */
    method CloseListed(v: Connection, ghost b: seq<Connection?>, ghost s: Sweep<Connection?>)
      requires (forall i :: 0 <= i < |b| ==> b[i] != null) && v in b && Swept(b, s)
      modifies this, conns, v, v.ChannelSet()
      ensures conns == old(conns) && Swept(b, CloseOne(s, v))
      ensures connCount - len == old(connCount - len)
      ensures old(v.closedMark) ==> unchanged(v)
    {
      hide CloseOne, IndexOf, Splice, Connection.Valid;
      ghost var before, s' := conns[..], CloseOne(s, v);
      CloseOneCloses(s, v);
      if v !in s.closed {
        CloseOneMatches(before, s, v);
      }
      forall c | c in b && c != null && c != v ensures c.ChannelSet() !! v.ChannelSet() {
        ChannelsApart(c, v);
      }
      v.Close();
      WithoutChannels(v);
    }

    /** A connection has either its channels of before or none. */
    twostate predicate Emptied(b: seq<Connection?>)
      reads b
    {
      forall c :: c in b && c != null ==> c.channels == map[] || c.channels == old(c.channels)
    }

    /** The i-th turn: the element at i is read when the turn begins. */
    method CloseTurn(i: nat, ghost b: seq<Connection?>)
      requires (forall j :: 0 <= j < |b| ==> b[j] != null) && i < |b| && Swept(b, SweepUpTo(b, i))
      modifies this, conns, b, ChannelsOf(b)
      ensures conns == old(conns) && Swept(b, SweepUpTo(b, i + 1)) && connCount - len == old(connCount - len)
      ensures Emptied(b)
    {
      ghost var s := SweepUpTo(b, i);
      var v := conns[i];
      assert v == s.backing[i] && v in b;
      CloseListed(v, b, s);
    }

    lemma AllClosedIff(b: seq<Connection?>)
      requires (forall j :: 0 <= j < |b| ==> b[j] != null) && Distinct(b) && Swept(b, SweepUpTo(b, |b|))
      ensures (forall c :: c in b ==> c != null && c.closedMark) <==> |b| <= 2
    {
      SweepClosesAllIff(b);
      ghost var closed := SweepUpTo(b, |b|).closed;
      if |b| > 2 {
        var k :| 0 <= k < |b| && b[k] !in closed;
        assert b[k] in b;
      }
    }

    twostate lemma FewerChannels(b: seq<Connection?>)
      requires (forall j :: 0 <= j < |b| ==> b[j] != null) && Emptied(b)
      ensures ChannelsOf(b) <= old(ChannelsOf(b))
    {
    }

    lemma SweptAtStart()
      requires Valid() && AllOpen()
      ensures Swept(List(), SweepUpTo(List(), 0))
    {
    }

    /** Ranges over the list as it is at the call, while each Close splices the connection
        out of the array the loop is reading. */
    method Close()
      requires Valid() && AllOpen()
      modifies this, conns, List(), ChannelsOf(List())
      ensures conns == old(conns) && Swept(old(List()), SweepUpTo(old(List()), old(len)))
      ensures connCount - len == old(connCount - len)
      ensures (forall c :: c in old(List()) ==> c != null && c.closedMark) <==> old(len) <= 2
    {
      hide SweepUpTo, CloseOne, Splice, IndexOf, Swept, ChannelsOf, AllOpen;
      ghost var b := List();
      SweptAtStart();
      assert forall j :: 0 <= j < |b| ==> b[j] != null;
      var n := len;
      var i := 0;
      while i < n
        invariant i <= n == |b| && conns == old(conns)
        invariant Swept(b, SweepUpTo(b, i))
        invariant connCount - len == old(connCount - len)
        invariant Emptied(b)
      {
        FewerChannels(b);
        CloseTurn(i, b);
        i := i + 1;
      }
      AllClosedIff(b);
    }
  }
}
