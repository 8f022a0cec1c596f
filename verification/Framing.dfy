/** Packets of the netcode layer and their frames (renetcode2/src/packet.rs). */
module NetcodePackets {
  import opened Base
  import opened Varint

  const U32: nat := 0x1_0000_0000
  const MAC_BYTES: nat := 16
  const TAG_BYTES: nat := 8

  datatype NetPacket =
    | ConnectionRequest(versionInfo: Bytes, protocolId: nat, expireTimestamp: nat, xnonce: Bytes, data: Bytes)
    | ConnectionDenied
    | Challenge(tokenSequence: nat, tokenData: Bytes)
    | Response(tokenSequence: nat, tokenData: Bytes)
    | KeepAlive(clientIndex: nat, maxClients: nat)
    | Payload(payload: Bytes)
    | Disconnect

  datatype NetcodeError =
    | PacketTooSmall
    | InvalidPacketType
    | IoError
    | CryptoError
    | DuplicatedSequence
    | UnavailablePrivateKey

  /** Fields have the widths that their types give them. */
  predicate Typed(p: NetPacket) {
    match p
    case ConnectionRequest(v, id, t, x, d) => |v| == 13 && id < U64 && t < U64 && |x| == 24 && |d| == 1024
    case Challenge(q, d) => q < U64 && |d| == 300
    case Response(q, d) => q < U64 && |d| == 300
    case KeepAlive(i, n) => i < U32 && n < U32
    case _ => true
  }

  function Id(p: NetPacket): (id: nat)
    ensures id < 7
  {
    match p
    case ConnectionRequest(_, _, _, _, _) => 0
    case ConnectionDenied => 1
    case Challenge(_, _) => 2
    case Response(_, _) => 3
    case KeepAlive(_, _) => 4
    case Payload(_) => 5
    case Disconnect => 6
  }

  // ----- Little-endian numbers

  function LittleEndian(v: nat, n: nat): (b: Bytes)
    ensures |b| == n
  {
    if n == 0 then [] else [v % 256] + LittleEndian(v / 256, n - 1)
  }

  function FromLittleEndian(b: Bytes): nat {
    if b == [] then 0 else b[0] + 256 * FromLittleEndian(b[1..])
  }

  lemma {:induction false} LittleEndianBack(v: nat, n: nat)
    requires v < Pow256(n)
    ensures FromLittleEndian(LittleEndian(v, n)) == v
  {
    if n > 0 {
      LittleEndianBack(v / 256, n - 1);
      assert LittleEndian(v, n)[1..] == LittleEndian(v / 256, n - 1);
    }
  }

  // ----- The sequence in as few bytes as it needs

  /** The least number of bytes that hold the sequence. */
  function SequenceLen(sequence: nat): (n: nat)
    requires sequence < U64
    ensures n <= 8 && sequence < Pow256(n) && (n > 0 ==> Pow256(n - 1) <= sequence)
  {
    PowersOf256();
    if sequence < 1 then 0 else if sequence < 0x100 then 1 else if sequence < 0x1_0000 then 2
    else if sequence < 0x100_0000 then 3 else if sequence < 0x1_0000_0000 then 4
    else if sequence < 0x100_0000_0000 then 5 else if sequence < 0x1_0000_0000_0000 then 6
    else if sequence < 0x100_0000_0000_0000 then 7 else 8
  }

  lemma PowersOf256()
    ensures Pow256(0) == 1 && Pow256(1) == 0x100 && Pow256(2) == 0x1_0000 && Pow256(3) == 0x100_0000
    ensures Pow256(4) == 0x1_0000_0000 && Pow256(5) == 0x100_0000_0000 && Pow256(6) == 0x1_0000_0000_0000
    ensures Pow256(7) == 0x100_0000_0000_0000 && Pow256(8) == U64
  {
  }

  lemma {:induction false} PowerGrows(m: nat, n: nat)
    requires m <= n
    ensures Pow256(m) <= Pow256(n)
  {
    if m < n {
      PowerGrows(m, n - 1);
    }
  }

  /** The topmost byte that is not zero, looked for from the top. */
  method SequenceBytesRequired(sequence: nat) returns (n: nat)
    requires sequence < U64
    ensures n == SequenceLen(sequence)
  {
    PowersOf256();
    var unit := Pow256(7);
    for i := 0 to 8
      invariant sequence < Pow256(8 - i)
      invariant i < 8 ==> unit == Pow256(7 - i)
    {
      if sequence / unit % 256 != 0 {
        TopByte(sequence, 8 - i);
        return 8 - i;
      }
      NoTopByte(sequence, 7 - i);
      unit := unit / 256;
    }
    return 0;
  }

  lemma TopByte(sequence: nat, n: nat)
    requires 0 < n <= 8 && sequence < Pow256(n) && sequence / Pow256(n - 1) % 256 != 0
    ensures sequence < U64 && n == SequenceLen(sequence)
  {
    PowersOf256();
    PowerGrows(n, 8);
    var m := SequenceLen(sequence);
    NonzeroQuotient(sequence, Pow256(n - 1));
    if m < n {
      PowerGrows(m, n - 1);
    } else if n < m {
      PowerGrows(n, m - 1);
    }
  }

  lemma NonzeroQuotient(a: nat, b: nat)
    requires b > 0 && a / b != 0
    ensures b <= a
  {
  }

  lemma NoTopByte(sequence: nat, n: nat)
    requires sequence < Pow256(n + 1) && sequence / Pow256(n) % 256 == 0
    ensures sequence < Pow256(n)
  {
    var q := sequence / Pow256(n);
    assert sequence < 256 * Pow256(n);
    assert q < 256;
  }

  // ----- Prefix

  /** The packet type in the low half of the byte, the length of the sequence in the high half. */
  function EncodePrefix(id: nat, sequence: nat): (b: Byte)
    requires id < 16 && sequence < U64
  {
    id + 16 * SequenceLen(sequence)
  }

  function DecodePrefix(b: Byte): (nat, nat) {
    (b % 16, b / 16)
  }

  lemma PrefixRoundTrip(id: nat, sequence: nat)
    requires id < 16 && sequence < U64
    ensures DecodePrefix(EncodePrefix(id, sequence)) == (id, SequenceLen(sequence))
  {
    hide SequenceLen;
  }

  // ----- Body

  function Body(p: NetPacket): Bytes {
    match p
    case ConnectionRequest(v, id, t, x, d) =>
      v + (LittleEndian(id, 8) + (LittleEndian(t, 8) + (x + d)))
    case Challenge(q, d) => LittleEndian(q, 8) + d
    case Response(q, d) => LittleEndian(q, 8) + d
    case KeepAlive(i, n) => LittleEndian(i, 4) + LittleEndian(n, 4)
    case Payload(b) => b
    case _ => []
  }

  function ReadBytes(b: Bytes, n: nat): Result<(Bytes, Bytes), NetcodeError> {
    if |b| < n then Err(IoError) else Ok((b[..n], b[n..]))
  }

  function ReadNumber(b: Bytes, n: nat): Result<(nat, Bytes), NetcodeError> {
    var (raw, rest) :- ReadBytes(b, n);
    Ok((FromLittleEndian(raw), rest))
  }

  /** The body of a packet of the given type; what follows it is ignored, but for a payload. */
  function Read(id: nat, b: Bytes): Result<NetPacket, NetcodeError>
    requires id < 7
  {
    if id == 5 then Ok(Payload(b))
    else if id == 0 then
      var (v, b1) :- ReadBytes(b, 13);
      var (protocol, b2) :- ReadNumber(b1, 8);
      var (expire, b3) :- ReadNumber(b2, 8);
      var (x, b4) :- ReadBytes(b3, 24);
      var (d, _) :- ReadBytes(b4, 1024);
      Ok(ConnectionRequest(v, protocol, expire, x, d))
    else if id == 2 || id == 3 then
      var (q, b1) :- ReadNumber(b, 8);
      var (d, _) :- ReadBytes(b1, 300);
      Ok(if id == 2 then Challenge(q, d) else Response(q, d))
    else if id == 4 then
      var (i, b1) :- ReadNumber(b, 4);
      var (n, _) :- ReadNumber(b1, 4);
      Ok(KeepAlive(i, n))
    else Ok(if id == 1 then ConnectionDenied else Disconnect)
  }

  lemma ReadBytesBack(a: Bytes, rest: Bytes)
    ensures ReadBytes(a + rest, |a|) == Ok((a, rest))
  {
  }

  lemma ReadNumberBack(v: nat, n: nat, rest: Bytes)
    requires v < Pow256(n)
    ensures ReadNumber(LittleEndian(v, n) + rest, n) == Ok((v, rest))
  {
    LittleEndianBack(v, n);
    ReadBytesBack(LittleEndian(v, n), rest);
  }

  lemma BodyRoundTrip(p: NetPacket)
    requires Typed(p)
    ensures Read(Id(p), Body(p)) == Ok(p)
  {
    hide LittleEndian;
    hide ReadNumber;
    hide ReadBytes;
    PowersOf256();
    match p
    case ConnectionRequest(v, id, t, x, d) =>
      ReadBytesBack(v, LittleEndian(id, 8) + (LittleEndian(t, 8) + (x + d)));
      ReadNumberBack(id, 8, LittleEndian(t, 8) + (x + d));
      ReadNumberBack(t, 8, x + d);
      ReadBytesBack(x, d);
      ReadBytesBack(d, []);
      assert d + [] == d;
    case Challenge(q, d) =>
      ReadNumberBack(q, 8, d);
      ReadBytesBack(d, []);
      assert d + [] == d;
    case Response(q, d) =>
      ReadNumberBack(q, 8, d);
      ReadBytesBack(d, []);
      assert d + [] == d;
    case KeepAlive(i, n) =>
      ReadNumberBack(i, 4, LittleEndian(n, 4));
      ReadNumberBack(n, 4, []);
      assert LittleEndian(n, 4) + [] == LittleEndian(n, 4);
    case _ =>
  }
}

/** Frames without encryption, and the replay check on the way in (renetcode2/src/packet.rs). */
module NetcodeFrames {
  import opened Base
  import opened NetcodePackets
  import W = ReplayWindow
  import opened Varint
  import R = ReplayProtecting

  /** Keep-alives, payloads and disconnects are accepted once each. */
  predicate Guarded(id: nat) {
    4 <= id <= 6
  }

  function Head(id: nat, sequence: nat): (b: Bytes)
    requires id < 7 && sequence < U64
    ensures |b| == 1 + SequenceLen(sequence)
  {
    [EncodePrefix(id, sequence)] + LittleEndian(sequence, SequenceLen(sequence))
  }

  /**
   * A frame. Of the 16 bytes kept for a signature only the last 8 are written, with the protocol
   * id; `filler` is what the buffer held in the others.
   */
  function Frame(p: NetPacket, sequence: nat, protocolId: nat, filler: Bytes): Bytes
    requires sequence < U64
  {
    if p.ConnectionRequest? then Head(0, 0) + Body(p)
    else Head(Id(p), sequence) + (Body(p) + (filler + LittleEndian(protocolId, TAG_BYTES)))
  }

  /** The last 8 bytes name the protocol. */
  predicate Authentic(b: Bytes, protocolId: nat)
    requires |b| >= TAG_BYTES
  {
    FromLittleEndian(b[|b| - TAG_BYTES..]) == protocolId
  }

  /** What decoding demands of a frame; on others it panics. */
  predicate Demands(b: Bytes, protocolId: nat, hasKey: bool) {
    |b| >= 2 + MAC_BYTES && hasKey && 0 < b[0] % 16 < 7 ==>
      b[0] / 16 <= 8 && (Authentic(b, protocolId) ==> 1 + b[0] / 16 + MAC_BYTES <= |b|)
  }

  predicate Refuses(window: Option<W.Window>, id: nat, sequence: nat)
    requires window.Some? ==> W.WellFormed(window.value)
  {
    window.Some? && Guarded(id) && W.AlreadyReceived(window.value, sequence)
  }

  function Moved(window: Option<W.Window>, id: nat, sequence: nat): Option<W.Window>
    requires window.Some? ==> W.WellFormed(window.value)
    requires sequence < U64
  {
    if window.Some? && Guarded(id) then Some(W.Advance(window.value, sequence)) else window
  }

  /** What a frame decodes to, and the replay window afterwards. */
  function Decode(b: Bytes, protocolId: nat, hasKey: bool, window: Option<W.Window>)
    : (Result<(nat, NetPacket), NetcodeError>, Option<W.Window>)
    requires Demands(b, protocolId, hasKey)
    requires window.Some? ==> W.WellFormed(window.value)
  {
    if |b| < 2 + MAC_BYTES then (Err(PacketTooSmall), window)
    else
      var (id, n) := DecodePrefix(b[0]);
      if id >= 7 then (Err(InvalidPacketType), window)
      else if id == 0 then
        match Read(0, b[1..])
        case Ok(p) => (Ok((0, p)), window)
        case Err(e) => (Err(e), window)
      else if !hasKey then (Err(UnavailablePrivateKey), window)
      else
        var sequence := FromLittleEndian(b[1..1 + n]);
        if Refuses(window, id, sequence) then (Err(DuplicatedSequence), window)
        else if !Authentic(b, protocolId) then (Err(CryptoError), window)
        else
          SequenceBound(b[1..1 + n]);
          match Read(id, b[1 + n..|b| - MAC_BYTES])
          case Ok(p) => (Ok((sequence, p)), Moved(window, id, sequence))
          case Err(e) => (Err(e), Moved(window, id, sequence))
  }

  lemma {:induction false} ValueBound(b: Bytes)
    ensures FromLittleEndian(b) < Pow256(|b|)
  {
    if b != [] {
      ValueBound(b[1..]);
    }
  }

  lemma SequenceBound(b: Bytes)
    requires |b| <= 8
    ensures FromLittleEndian(b) < U64
  {
    PowersOf256();
    PowerGrows(|b|, 8);
    ValueBound(b);
  }

  // ----- Round trip

  lemma FrameParts(p: NetPacket, sequence: nat, protocolId: nat, filler: Bytes)
    requires !p.ConnectionRequest? && sequence < U64 && protocolId < U64 && |filler| == MAC_BYTES - TAG_BYTES
    ensures var b, n := Frame(p, sequence, protocolId, filler), SequenceLen(sequence);
            && |b| == 1 + n + |Body(p)| + MAC_BYTES
            && b[0] == EncodePrefix(Id(p), sequence)
            && b[1..1 + n] == LittleEndian(sequence, n)
            && b[1 + n..|b| - MAC_BYTES] == Body(p)
            && b[|b| - TAG_BYTES..] == LittleEndian(protocolId, TAG_BYTES)
  {
    hide SequenceLen;
    hide LittleEndian;
    hide Body;
    hide EncodePrefix;
  }

  /**
   * Every packet comes back with its sequence, and a connection request with sequence 0. The one
   * exception is sequence 0 with an empty body, whose frame is a byte short of the least size.
   */
  lemma FrameRoundTrip(p: NetPacket, sequence: nat, protocolId: nat, filler: Bytes, window: Option<W.Window>)
    requires Typed(p) && sequence < U64 && protocolId < U64 && |filler| == MAC_BYTES - TAG_BYTES
    requires window.Some? ==> W.WellFormed(window.value)
    requires !Refuses(window, Id(p), sequence)
    ensures var b := Frame(p, sequence, protocolId, filler);
            && Demands(b, protocolId, true)
            && Decode(b, protocolId, true, window) ==
                 if p.ConnectionRequest? then (Ok((0, p)), window)
                 else if sequence == 0 && Body(p) == [] then (Err(PacketTooSmall), window)
                 else (Ok((sequence, p)), Moved(window, Id(p), sequence))
  {
    hide LittleEndian;
    hide FromLittleEndian;
    hide Body;
    hide Read;
    hide Refuses;
    hide Moved;
    hide SequenceLen;
    var b, n := Frame(p, sequence, protocolId, filler), SequenceLen(sequence);
    BodyRoundTrip(p);
    if p.ConnectionRequest? {
      RequestParts(p, sequence, protocolId, filler);
    } else {
      FrameParts(p, sequence, protocolId, filler);
      PrefixRoundTrip(Id(p), sequence);
      LengthZero(sequence);
      PowersOf256();
      LittleEndianBack(sequence, n);
      LittleEndianBack(protocolId, TAG_BYTES);
    }
  }

  /** The first packet of a connection, if it is the notice that it ends, is never read. */
  lemma FirstDisconnectUnread(protocolId: nat, filler: Bytes)
    requires protocolId < U64 && |filler| == MAC_BYTES - TAG_BYTES
    ensures var b := Frame(Disconnect, 0, protocolId, filler);
            |b| == 17 && Demands(b, protocolId, true) && Decode(b, protocolId, true, None).0 == Err(PacketTooSmall)
  {
    FrameRoundTrip(Disconnect, 0, protocolId, filler, None);
    FrameParts(Disconnect, 0, protocolId, filler);
    LengthZero(0);
  }

  lemma LengthZero(sequence: nat)
    requires sequence < U64
    ensures SequenceLen(sequence) == 0 <==> sequence == 0
    ensures SequenceLen(sequence) <= 8 && sequence < Pow256(SequenceLen(sequence))
  {
  }

  lemma RequestParts(p: NetPacket, sequence: nat, protocolId: nat, filler: Bytes)
    requires p.ConnectionRequest? && Typed(p) && sequence < U64
    ensures var b := Frame(p, sequence, protocolId, filler);
            |b| == 1078 && b[0] == 0 && b[1..] == Body(p)
  {
    hide LittleEndian;
  }

  /** The same frame a second time is refused, whatever else the window holds, if it can be read at all. */
  lemma SecondTimeRefused(p: NetPacket, sequence: nat, protocolId: nat, filler: Bytes, w: W.Window)
    requires Typed(p) && Guarded(Id(p)) && sequence < U64 && protocolId < U64 && |filler| == MAC_BYTES - TAG_BYTES
    requires W.WellFormed(w)
    ensures var b := Frame(p, sequence, protocolId, filler);
            && Demands(b, protocolId, true)
            && Decode(b, protocolId, true, Some(W.Advance(w, sequence))).0 ==
                 Err(if sequence == 0 && Body(p) == [] then PacketTooSmall else DuplicatedSequence)
  {
    hide LittleEndian;
    hide FromLittleEndian;
    hide Body;
    hide Read;
    hide SequenceLen;
    var n := SequenceLen(sequence);
    FrameParts(p, sequence, protocolId, filler);
    PrefixRoundTrip(Id(p), sequence);
    LengthZero(sequence);
    LittleEndianBack(sequence, n);
  }

  /**
   * Whatever its bytes, a frame under the replay check that was authentic and not seen before, even one
   * whose body cannot be read, is refused as a duplicate when it comes again.
   */
  lemma NeverTwice(b: Bytes, protocolId: nat, w: W.Window)
    requires Demands(b, protocolId, true) && W.WellFormed(w) && |b| >= 2 + MAC_BYTES && 4 <= b[0] % 16 <= 6
    ensures var (r, window) := Decode(b, protocolId, true, Some(w));
            && window.Some? && W.WellFormed(window.value)
            && (r.Ok? || r.error == IoError ==>
                  Decode(b, protocolId, true, window).0 == Err(DuplicatedSequence))
            && (r.Err? && r.error != IoError ==> window == Some(w))
  {
    if Authentic(b, protocolId) {
      ReadErrors(b[0] % 16, b[1 + b[0] / 16..|b| - MAC_BYTES]);
    }
    hide Read;
    hide FromLittleEndian;
  }

  lemma ReadErrors(id: nat, b: Bytes)
    requires id < 7
    ensures Read(id, b).Err? ==> Read(id, b).error == IoError
  {
    hide FromLittleEndian;
  }

  /** Without a key nothing but a connection request can be decoded. */
  lemma KeylessIsRequest(b: Bytes, protocolId: nat, window: Option<W.Window>)
    requires window.Some? ==> W.WellFormed(window.value)
    ensures Demands(b, protocolId, false)
    ensures var (r, after) := Decode(b, protocolId, false, window);
            after == window && (r.Ok? ==> r.value.0 == 0 && r.value.1.ConnectionRequest?)
  {
  }

  // ----- Buffers

  /** The fields of a body in the order they are written. */
  function Fields(p: NetPacket): seq<Bytes> {
    match p
    case ConnectionRequest(v, id, t, x, d) => [v, LittleEndian(id, 8), LittleEndian(t, 8), x, d]
    case Challenge(q, d) => [LittleEndian(q, 8), d]
    case Response(q, d) => [LittleEndian(q, 8), d]
    case KeepAlive(i, n) => [LittleEndian(i, 4), LittleEndian(n, 4)]
    case Payload(b) => [b]
    case _ => []
  }

  function Joined(fields: seq<Bytes>): Bytes {
    if fields == [] then [] else fields[0] + Joined(fields[1..])
  }

  lemma JoinedNone()
    ensures Joined([]) == []
  {
  }

  lemma JoinedFront(a: Bytes, rest: seq<Bytes>)
    ensures Joined([a] + rest) == a + Joined(rest) && Joined([a]) == a
  {
    assert ([a] + rest)[1..] == rest;
  }

  lemma BodyIsFields(p: NetPacket)
    ensures Joined(Fields(p)) == Body(p)
  {
    hide LittleEndian;
    match p
    case ConnectionRequest(v, id, t, x, d) =>
      var f := Fields(p);
      JoinedFront(x, [d]);
      JoinedFront(d, []);
      JoinedFront(LittleEndian(t, 8), [x] + [d]);
      JoinedFront(LittleEndian(id, 8), [LittleEndian(t, 8)] + ([x] + [d]));
      JoinedFront(v, [LittleEndian(id, 8)] + ([LittleEndian(t, 8)] + ([x] + [d])));
      assert f == [v] + ([LittleEndian(id, 8)] + ([LittleEndian(t, 8)] + ([x] + [d])));
    case Challenge(q, d) =>
      JoinedFront(LittleEndian(q, 8), [d]);
      JoinedFront(d, []);
      assert Fields(p) == [LittleEndian(q, 8)] + [d];
    case Response(q, d) =>
      JoinedFront(LittleEndian(q, 8), [d]);
      JoinedFront(d, []);
      assert Fields(p) == [LittleEndian(q, 8)] + [d];
    case KeepAlive(i, n) =>
      JoinedFront(LittleEndian(i, 4), [LittleEndian(n, 4)]);
      JoinedFront(LittleEndian(n, 4), []);
      assert Fields(p) == [LittleEndian(i, 4)] + [LittleEndian(n, 4)];
    case Payload(b) => JoinedFront(b, []);
    case _ =>
  }

  /** `after` is `before` with `bytes` written over it from `pos` on. */
  ghost predicate Overwritten(before: Bytes, after: Bytes, pos: nat, bytes: Bytes) {
    pos + |bytes| <= |before| && after == before[..pos] + bytes + before[pos + |bytes|..]
  }

  lemma OverwrittenTwice(b0: Bytes, b1: Bytes, b2: Bytes, pos: nat, x: Bytes, y: Bytes)
    requires Overwritten(b0, b1, pos, x) && Overwritten(b1, b2, pos + |x|, y)
    ensures Overwritten(b0, b2, pos, x + y)
  {
  }

  /** Copies as many of the bytes as there is room for. */
  method Write(buffer: array<Byte>, pos: nat, bytes: Bytes) returns (pos': nat)
    requires pos <= buffer.Length
    modifies buffer
    ensures pos' == if pos + |bytes| <= buffer.Length then pos + |bytes| else buffer.Length
    ensures Overwritten(old(buffer[..]), buffer[..], pos, bytes[..pos' - pos])
  {
    pos' := pos;
    while pos' < buffer.Length && pos' - pos < |bytes|
      invariant pos <= pos' <= buffer.Length && pos' - pos <= |bytes|
      invariant forall k :: pos <= k < pos' ==> buffer[k] == bytes[k - pos]
      invariant forall k :: 0 <= k < buffer.Length && !(pos <= k < pos') ==> buffer[k] == old(buffer[k])
    {
      buffer[pos'] := bytes[pos' - pos];
      pos' := pos' + 1;
    }
  }

  /** Writes field after field; it fails when one does not fit. */
  method WriteAll(buffer: array<Byte>, pos: nat, fields: seq<Bytes>) returns (pos': nat, ok: bool)
    requires pos <= buffer.Length
    modifies buffer
    ensures pos <= pos' <= buffer.Length
    ensures ok <==> pos + |Joined(fields)| <= buffer.Length
    ensures ok ==> pos' == pos + |Joined(fields)| && Overwritten(old(buffer[..]), buffer[..], pos, Joined(fields))
  {
    hide Overwritten;
    hide Joined;
    JoinedNone();
    pos' := pos;
    var rest := fields;
    ghost var written: Bytes := [];
    NothingWritten(buffer[..], pos);
    while rest != []
      invariant pos <= pos' <= buffer.Length && pos' == pos + |written|
      invariant written + Joined(rest) == Joined(fields)
      invariant Overwritten(old(buffer[..]), buffer[..], pos, written)
      decreases |rest|
    {
      ghost var before, tail := buffer[..], Joined(rest[1..]);
      JoinedFront(rest[0], rest[1..]);
      assert rest == [rest[0]] + rest[1..];
      var next := Write(buffer, pos', rest[0]);
      if next - pos' < |rest[0]| {
        return next, false;
      }
      assert rest[0][..next - pos'] == rest[0];
      OverwrittenTwice(old(buffer[..]), before, buffer[..], pos, written, rest[0]);
      Regrouped(written, rest[0], tail);
      written := written + rest[0];
      pos' := next;
      rest := rest[1..];
    }
    assert written == Joined(fields);
    return pos', true;
  }

  lemma NothingWritten(b: Bytes, pos: nat)
    requires pos <= |b|
    ensures Overwritten(b, b, pos, [])
  {
  }

  /** The frame a packet is written as, given what the buffer held before. */
  ghost function Written(p: NetPacket, sequence: nat, protocolId: nat, before: Bytes): Bytes
    requires sequence < U64
    requires !p.ConnectionRequest? ==> 1 + SequenceLen(sequence) + |Body(p)| + MAC_BYTES <= |before|
  {
    if p.ConnectionRequest? then Frame(p, sequence, protocolId, [])
    else
      var end := 1 + SequenceLen(sequence) + |Body(p)|;
      Frame(p, sequence, protocolId, before[end..end + MAC_BYTES - TAG_BYTES])
  }

  /** Whether the frame fits: a connection request has no room kept for a signature. */
  predicate Fits(p: NetPacket, sequence: nat, room: nat)
    requires sequence < U64
  {
    if p.ConnectionRequest? then 1 + |Body(p)| <= room
    else 1 + SequenceLen(sequence) + |Body(p)| + MAC_BYTES <= room
  }

  method EncodeRequest(p: NetPacket, buffer: array<Byte>) returns (r: Result<nat, NetcodeError>)
    requires p.ConnectionRequest?
    modifies buffer
    ensures r == if Fits(p, 0, buffer.Length) then Ok(1 + |Body(p)|) else Err(IoError)
    ensures r.Ok? ==> Overwritten(old(buffer[..]), buffer[..], 0, Frame(p, 0, 0, []))
  {
    hide Overwritten;
    hide Body;
    hide Fields;
    hide LittleEndian;
    BodyIsFields(p);
    NoSequence();
    var prefix := [EncodePrefix(0, 0)];
    var pos, ok := WriteAll(buffer, 0, [prefix]);
    JoinedFront(prefix, []);
    if !ok {
      return Err(IoError);
    }
    ghost var before := buffer[..];
    pos, ok := WriteAll(buffer, pos, Fields(p));
    if !ok {
      return Err(IoError);
    }
    OverwrittenTwice(old(buffer[..]), before, buffer[..], 0, prefix, Body(p));
    return Ok(pos);
  }

  lemma NoSequence()
    ensures Head(0, 0) == [EncodePrefix(0, 0)]
  {
  }

  /** Writes the packet into the buffer; the rest of the buffer stays as it is. */
  method Encode(p: NetPacket, buffer: array<Byte>, protocolId: nat, sequence: Option<nat>)
    returns (r: Result<nat, NetcodeError>)
    requires protocolId < U64 && (sequence.Some? ==> sequence.value < U64)
    modifies buffer
    ensures r.Err? && r.error.UnavailablePrivateKey? <==> !p.ConnectionRequest? && sequence.None?
    ensures p.ConnectionRequest? || sequence.Some? ==>
              var q := if sequence.Some? then sequence.value else 0;
              if !Fits(p, q, buffer.Length) then r == Err(IoError)
              else
                && r == Ok(|Written(p, q, protocolId, old(buffer[..]))|)
                && Overwritten(old(buffer[..]), buffer[..], 0, Written(p, q, protocolId, old(buffer[..])))
  {
    hide Body;
    hide Fields;
    hide LittleEndian;
    hide SequenceLen;
    hide Overwritten;
    if p.ConnectionRequest? {
      NoSequence();
      LengthZero(0);
      r := EncodeRequest(p, buffer);
      return;
    }
    if sequence.None? {
      return Err(UnavailablePrivateKey);
    }
    r := EncodeSigned(p, buffer, protocolId, sequence.value);
  }

  method EncodeSigned(p: NetPacket, buffer: array<Byte>, protocolId: nat, sequence: nat)
    returns (r: Result<nat, NetcodeError>)
    requires !p.ConnectionRequest? && protocolId < U64 && sequence < U64
    modifies buffer
    ensures if !Fits(p, sequence, buffer.Length) then r == Err(IoError)
            else
              && r == Ok(|Written(p, sequence, protocolId, old(buffer[..]))|)
              && Overwritten(old(buffer[..]), buffer[..], 0, Written(p, sequence, protocolId, old(buffer[..])))
  {
    hide Body;
    hide Fields;
    hide LittleEndian;
    hide SequenceLen;
    hide Overwritten;
    hide Written;
    BodyIsFields(p);
    var prefix := [EncodePrefix(Id(p), sequence)];
    ghost var b0 := buffer[..];
    var pos, ok := WriteAll(buffer, 0, [prefix]);
    JoinedFront(prefix, []);
    if !ok {
      return Err(IoError);
    }
    var len := SequenceBytesRequired(sequence);
    var encoded := LittleEndian(sequence, len);
    ghost var b1 := buffer[..];
    var start := Write(buffer, 1, encoded);
    ghost var b2 := buffer[..];
    var end;
    end, ok := WriteAll(buffer, start, Fields(p));
    if !ok || buffer.Length < end + MAC_BYTES {
      return Err(IoError);
    }
    ghost var b3 := buffer[..];
    var tag := LittleEndian(protocolId, TAG_BYTES);
    var done := Write(buffer, end + MAC_BYTES - TAG_BYTES, tag);
    assert encoded[..start - 1] == encoded && tag[..TAG_BYTES] == tag;
    SignedWritten(p, sequence, protocolId, b0, b1, b2, b3, buffer[..]);
    return Ok(done);
  }

  lemma Regrouped(a: Bytes, b: Bytes, c: Bytes)
    ensures a + b + c == a + (b + c)
  {
  }

  /** The four writes, one after the other, leave the frame in the buffer. */
  lemma SignedWritten(p: NetPacket, sequence: nat, protocolId: nat, b0: Bytes, b1: Bytes, b2: Bytes, b3: Bytes,
                      b4: Bytes)
    requires !p.ConnectionRequest? && sequence < U64 && Fits(p, sequence, |b0|)
    requires Overwritten(b0, b1, 0, [EncodePrefix(Id(p), sequence)])
    requires Overwritten(b1, b2, 1, LittleEndian(sequence, SequenceLen(sequence)))
    requires Overwritten(b2, b3, 1 + SequenceLen(sequence), Body(p))
    requires Overwritten(b3, b4, 1 + SequenceLen(sequence) + |Body(p)| + MAC_BYTES - TAG_BYTES,
                         LittleEndian(protocolId, TAG_BYTES))
    ensures |Written(p, sequence, protocolId, b0)| == 1 + SequenceLen(sequence) + |Body(p)| + MAC_BYTES
    ensures Overwritten(b0, b4, 0, Written(p, sequence, protocolId, b0))
  {
    hide Body;
    hide LittleEndian;
    hide SequenceLen;
    hide EncodePrefix;
    hide Overwritten;
    var prefix, tag := [EncodePrefix(Id(p), sequence)], LittleEndian(protocolId, TAG_BYTES);
    var head := Head(Id(p), sequence);
    OverwrittenTwice(b0, b1, b2, 0, prefix, LittleEndian(sequence, SequenceLen(sequence)));
    OverwrittenTwice(b0, b2, b3, 0, head, Body(p));
    AfterGap(b0, b3, b4, head + Body(p), MAC_BYTES - TAG_BYTES, tag);
    var filler := b0[|head + Body(p)|..|head + Body(p)| + MAC_BYTES - TAG_BYTES];
    Regrouped(head, Body(p), filler + tag);
  }

  /** Bytes left out between two writes keep what they were. */
  lemma AfterGap(b0: Bytes, b1: Bytes, b2: Bytes, x: Bytes, gap: nat, y: Bytes)
    requires Overwritten(b0, b1, 0, x) && Overwritten(b1, b2, |x| + gap, y)
    ensures |x| + gap <= |b0| && Overwritten(b0, b2, 0, x + (b0[|x|..|x| + gap] + y))
  {
  }

  /** Reads a frame; an authentic one that was not seen before moves the replay window. */
  method DecodeBuffer(b: Bytes, protocolId: nat, hasKey: bool, replay: R.ReplayProtection?)
    returns (r: Result<(nat, NetPacket), NetcodeError>)
    requires Demands(b, protocolId, hasKey) && (replay != null ==> replay.Valid())
    modifies if replay == null then {} else {replay, replay.receivedPacket}
    ensures replay == null ==> r == Decode(b, protocolId, hasKey, None).0
    ensures replay != null ==>
              replay.Valid() && (r, Some(replay.View())) == Decode(b, protocolId, hasKey, Some(old(replay.View())))
  {
    hide Read;
    hide W.AlreadyReceived;
    hide W.Advance;
    if |b| < 2 + MAC_BYTES {
      return Err(PacketTooSmall);
    }
    var (id, n) := DecodePrefix(b[0]);
    if id >= 7 {
      return Err(InvalidPacketType);
    }
    if id == 0 {
      var request :- Read(0, b[1..]);
      return Ok((0, request));
    }
    if !hasKey {
      return Err(UnavailablePrivateKey);
    }
    var sequence := FromLittleEndian(b[1..1 + n]);
    SequenceBound(b[1..1 + n]);
    if replay != null && Guarded(id) {
      var seen := replay.AlreadyReceived(sequence);
      if seen {
        return Err(DuplicatedSequence);
      }
    }
    if !Authentic(b, protocolId) {
      return Err(CryptoError);
    }
    if replay != null && Guarded(id) {
      replay.AdvanceSequence(sequence);
    }
    var packet :- Read(id, b[1 + n..|b| - MAC_BYTES]);
    return Ok((sequence, packet));
  }
}
