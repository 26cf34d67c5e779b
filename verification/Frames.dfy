/** The frame codec: CreateNetPacket and ReadPacket (protocol.go:72-133). */
module Frames {
  import opened Packets

  /** The number four bytes stand for, the most significant first. */
  function BigEndian(b0: int, b1: int, b2: int, b3: int): int {
    ((b0 * 0x100 + b1) * 0x100 + b2) * 0x100 + b3
  }

  /** encoding/binary's big-endian PutUint32. */
  function PutUint32(n: uint32): (b: seq<byte>)
    ensures |b| == 4
  {
    [n / 0x100_0000, n / 0x1_0000 % 0x100, n / 0x100 % 0x100, n % 0x100]
  }

  /** encoding/binary's big-endian Uint32. */
  function Uint32(b: seq<byte>): uint32
    requires |b| == 4
  {
    var b0: int, b1: int, b2: int, b3: int := b[0], b[1], b[2], b[3];
    b0 * 0x100_0000 + b1 * 0x1_0000 + b2 * 0x100 + b3
  }

  lemma PutsBigEndian(n: uint32)
    ensures var b := PutUint32(n); BigEndian(b[0], b[1], b[2], b[3]) == n
  {
    var m, k := n / 0x100, n / 0x1_0000;
    Digit(n);
    Digit(m);
    Digit(k);
    assert k == m / 0x100 && n / 0x100_0000 == k / 0x100;
  }

  lemma Digit(n: nat)
    ensures n / 0x100 * 0x100 + n % 0x100 == n
  {
  }

  lemma Uint32RoundTrip(n: uint32)
    ensures Uint32(PutUint32(n)) == n
  {
    PutsBigEndian(n);
  }

  /** The bytes of a frame: status, path, NUL, channel id, data length, data. */
  function Layout(p: Packet): (bytes: seq<byte>)
    requires |p.data| <= MAX_PACKET_SIZE
    ensures |bytes| == 1 + |p.path| + 1 + 4 + 4 + |p.data|
  {
    [p.status] + p.path + [0] + PutUint32(p.channelId) + PutUint32(|p.data|) + p.data
  }

  /** Where each field of a frame stands: the id and the length in four bytes each, the most
      significant first. */
  lemma FieldsAt(p: Packet)
    requires |p.data| <= MAX_PACKET_SIZE
    ensures
      var b, k := Layout(p), |p.path|;
      && b[0] == p.status && b[1..k + 1] == p.path && b[k + 1] == 0
      && BigEndian(b[k + 2], b[k + 3], b[k + 4], b[k + 5]) == p.channelId
      && BigEndian(b[k + 6], b[k + 7], b[k + 8], b[k + 9]) == |p.data|
      && b[k + 10..] == p.data
  {
    hide BigEndian, PutUint32;
    var b, k, id, n := Layout(p), |p.path|, PutUint32(p.channelId), PutUint32(|p.data|);
    assert b == [p.status] + p.path + [0] + id + n + p.data;
    assert b[k + 2..k + 6] == id && b[k + 6..k + 10] == n;
    FourBytes(b, k + 2);
    FourBytes(b, k + 6);
    PutsBigEndian(p.channelId);
    PutsBigEndian(|p.data|);
  }

  lemma FourBytes(b: seq<byte>, k: nat)
    requires k + 4 <= |b|
    ensures
      var f := b[k..k + 4];
      f[0] == b[k] && f[1] == b[k + 1] && f[2] == b[k + 2] && f[3] == b[k + 3]
  {
  }

  function Encode(p: Packet): (r: Result<seq<byte>>)
    ensures r == Err(PathTooLarge) <==> |p.path| > MAX_PATH_LEN
    ensures r == Err(DataTooLarge) <==> |p.path| <= MAX_PATH_LEN && |p.data| > MAX_PACKET_SIZE
    ensures r == Err(InvalidPath) <==> p.path == [] && p.status != STATUS_CLOSE && |p.data| <= MAX_PACKET_SIZE
  {
    if |p.path| > MAX_PATH_LEN then Err(PathTooLarge)
    else if |p.data| > MAX_PACKET_SIZE then Err(DataTooLarge)
    else if p.status != STATUS_CLOSE && p.path == [] then Err(InvalidPath)
    else Ok(Layout(p))
  }

  /** CreateNetPacket appends the fields one after the other. */
  method CreateNetPacket(pkt: Packet) returns (r: Result<seq<byte>>)
    ensures r == Encode(pkt)
  {
    hide BigEndian, PutUint32;
    if |pkt.path| > MAX_PATH_LEN {
      return Err(PathTooLarge);
    }
    if |pkt.data| > MAX_PACKET_SIZE {
      return Err(DataTooLarge);
    }
    if pkt.status != STATUS_CLOSE && pkt.path == [] {
      return Err(InvalidPath);
    }
    var pktData: seq<byte> := [];
    pktData := pktData + [pkt.status];
    pktData := pktData + pkt.path;
    pktData := pktData + [0];
    pktData := pktData + PutUint32(pkt.channelId);
    pktData := pktData + PutUint32(|pkt.data|);
    pktData := pktData + pkt.data;
    assert pktData == Layout(pkt);
    r := Ok(pktData);
  }

  /** What one read from the buffered reader yields: the value and what is left,
      too few bytes so far, or a full buffer without the delimiter. */
  datatype Take<+T> = Got(value: T, rest: seq<byte>) | Short | Full

  /** Index of the first NUL, or the length when there is none. */
  function NulAt(s: seq<byte>): (k: nat)
    ensures k <= |s|
    ensures forall i :: 0 <= i < k ==> s[i] != 0
    ensures k < |s| ==> s[k] == 0
  {
    if s == [] || s[0] == 0 then 0 else 1 + NulAt(s[1..])
  }

  function TakeByte(s: seq<byte>): Take<byte> {
    if s == [] then Short else Got(s[0], s[1..])
  }

  /** bufio's ReadSlice(0) on a buffer of PACKET_READ_BUF_SIZE bytes, without the delimiter. */
  function TakePath(s: seq<byte>): Take<seq<byte>> {
    var k := NulAt(s);
    if k < |s| && k < PACKET_READ_BUF_SIZE then Got(s[..k], s[k + 1..])
    else if |s| >= PACKET_READ_BUF_SIZE then Full
    else Short
  }

  function TakeUint32(s: seq<byte>): Take<uint32> {
    if |s| < 4 then Short else Got(Uint32(s[..4]), s[4..])
  }

  function TakeData(s: seq<byte>, n: nat): Take<seq<byte>> {
    if |s| < n then Short else Got(s[..n], s[n..])
  }

  /** ReadPacket on a reader that holds exactly s and then ends. */
  function ReadPacket(s: seq<byte>): Result<Packet> {
    match TakeByte(s)
    case Short => Err(ReadFailed)
    case Full => Err(ReadFailed)
    case Got(status, s1) =>
      match TakePath(s1)
      case Short => Err(ReadFailed)
      case Full => Err(ReadFailed)
      case Got(path, s2) =>
        match TakeUint32(s2)
        case Short => Err(ReadFailed)
        case Full => Err(ReadFailed)
        case Got(channelId, s3) =>
          match TakeUint32(s3)
          case Short => Err(ReadFailed)
          case Full => Err(ReadFailed)
          case Got(dataLen, s4) =>
            match TakeData(s4, dataLen)
            case Short => Err(ReadFailed)
            case Full => Err(ReadFailed)
            case Got(data, rest) => Ok(Packet(status, path, channelId, data))
  }

  lemma TakePathField(path: seq<byte>, rest: seq<byte>)
    requires |path| < PACKET_READ_BUF_SIZE && 0 !in path
    ensures TakePath(path + [0] + rest) == Got(path, rest)
  {
    var s := path + [0] + rest;
    assert s[|path|] == 0 && s[..|path|] == path && s[|path| + 1..] == rest;
    assert forall i :: 0 <= i < |path| ==> s[i] == path[i];
    assert NulAt(s) == |path|;
  }

  lemma TakeUint32Field(n: uint32, rest: seq<byte>)
    ensures TakeUint32(PutUint32(n) + rest) == Got(n, rest)
  {
    Uint32RoundTrip(n);
    var s := PutUint32(n) + rest;
    assert s[..4] == PutUint32(n) && s[4..] == rest;
  }

  /** The reader's view of a frame followed by anything: each field in turn. */
  lemma LayoutFields(p: Packet, rest: seq<byte>)
    requires |p.data| <= MAX_PACKET_SIZE && |p.path| < PACKET_READ_BUF_SIZE && 0 !in p.path
    ensures
      var s0 := Layout(p) + rest;
      var s4 := p.data + rest;
      var s3 := PutUint32(|p.data|) + s4;
      var s2 := PutUint32(p.channelId) + s3;
      var s1 := p.path + [0] + s2;
      && TakeByte(s0) == Got(p.status, s1)
      && TakePath(s1) == Got(p.path, s2)
      && TakeUint32(s2) == Got(p.channelId, s3)
      && TakeUint32(s3) == Got(|p.data|, s4)
      && TakeData(s4, |p.data|) == Got(p.data, rest)
  {
    var s4 := p.data + rest;
    var s3 := PutUint32(|p.data|) + s4;
    var s2 := PutUint32(p.channelId) + s3;
    var s1 := p.path + [0] + s2;
    assert Layout(p) + rest == [p.status] + s1;
    TakePathField(p.path, s2);
    TakeUint32Field(p.channelId, s3);
    TakeUint32Field(|p.data|, s4);
    assert s4[..|p.data|] == p.data && s4[|p.data|..] == rest;
  }

  /** A packet that CreateNetPacket accepts survives ReadPacket exactly when its
      path holds no NUL byte; trailing bytes do not matter. */
  lemma ReadPacketRoundTrip(p: Packet, rest: seq<byte>)
    requires Encode(p).Ok?
    ensures ReadPacket(Encode(p).value + rest) == Ok(p) <==> 0 !in p.path
  {
    if 0 !in p.path {
      LayoutFields(p, rest);
    }
  }

  /** No frame is a proper prefix of another, so encoding is injective. */
  lemma FramesArePrefixFree(p: Packet, q: Packet, tail: seq<byte>)
    requires Encode(p).Ok? && Encode(q).Ok? && 0 !in p.path && 0 !in q.path
    requires Encode(p).value + tail == Encode(q).value
    ensures p == q && tail == []
  {
    ReadPacketRoundTrip(p, tail);
    ReadPacketRoundTrip(q, []);
    assert Encode(q).value + [] == Encode(q).value;
  }
}
