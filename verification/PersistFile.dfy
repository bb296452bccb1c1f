/**
 The file that a broker saves its database to (src/persist.c, src/persist.h): a header and chunks,
 each with a type, the length of its body, and the body.

 The file is a sequence of bytes on a little-endian host: most numbers are written high byte
 first, database ids and times as the host has them.
 */
module PersistFile {
  import opened Topics
  import opened Framing
  import opened Codec

  datatype Chunk =
    | CfgChunk(shutdown: Byte, lastDbId: nat)
    | StoreChunk(id: nat, source: seq<Byte>, sourceMid: nat, mid: nat, topic: seq<Byte>, qos: Byte, retain: Byte,
                 payload: seq<Byte>)
    | MsgChunk(client: seq<Byte>, storeId: nat, mid: nat, qos: Byte, retain: Byte, direction: Byte, state: Byte,
               dup: Byte)
    | RetainChunk(id: nat)
    | SubChunk(client: seq<Byte>, filter: seq<Byte>, qos: Byte)
    | ClientChunk(client: seq<Byte>, lastMid: nat, disconnectT: nat)
    | OtherChunk(tag: nat, body: seq<Byte>)

  function Tag(c: Chunk): nat {
    match c
    case CfgChunk(_, _) => 1
    case StoreChunk(_, _, _, _, _, _, _, _) => 2
    case MsgChunk(_, _, _, _, _, _, _, _) => 3
    case RetainChunk(_) => 4
    case SubChunk(_, _, _) => 5
    case ClientChunk(_, _, _) => 6
    case OtherChunk(tag, _) => tag
  }

  // ----- Numbers -----

  function Uint32(n: nat): (r: seq<Byte>)
    requires n < 0x1_0000_0000
    ensures |r| == 4
  {
    [n / 0x100_0000, n / 0x1_0000 % 256, n / 256 % 256, n % 256]
  }

  // As the host has it, lowest byte first.
  function Host(n: nat, bytes: nat): (r: seq<Byte>)
    ensures |r| == bytes
  {
    if bytes == 0 then [] else [n % 256] + Host(n / 256, bytes - 1)
  }

  function FromHost(s: seq<Byte>): nat {
    if s == [] then 0
    else
      var low: int := s[0];
      low + 256 * FromHost(s[1..])
  }

  function Pow256(k: nat): nat {
    if k == 0 then 1 else 256 * Pow256(k - 1)
  }

  const ID_BYTES := 8

  predicate IsId(n: nat) { n < Pow256(ID_BYTES) }

  lemma {:induction false} HostBack(n: nat, bytes: nat)
    requires n < Pow256(bytes)
    ensures FromHost(Host(n, bytes)) == n
  {
    if bytes > 0 {
      assert n / 256 < Pow256(bytes - 1);
      HostBack(n / 256, bytes - 1);
    }
  }

  function TakeUint32(s: seq<Byte>): (f: Field<nat>)
    ensures f.Field? ==> |f.rest| <= |s|
  {
    if |s| < 4 then Truncated
    else
      var a: int, b: int, c: int, d: int := s[0], s[1], s[2], s[3];
      Field(a * 0x100_0000 + b * 0x1_0000 + c * 256 + d, s[4..])
  }

  function TakeId(s: seq<Byte>): (f: Field<nat>)
    ensures f.Field? ==> |f.rest| <= |s|
  {
    match TakeBytes(s, ID_BYTES)
    case Truncated => Truncated
    case Field(bytes, rest) => Field(FromHost(bytes), rest)
  }

  lemma {:induction false} TakeUint32Back(n: nat, rest: seq<Byte>)
    requires n < 0x1_0000_0000
    ensures TakeUint32(Uint32(n) + rest) == Field(n, rest)
  {
    assert (Uint32(n) + rest)[4..] == rest;
    ByteDigits(n);
  }

  lemma {:induction false} ByteDigits(n: nat)
    ensures n / 0x100_0000 * 0x100_0000 + n / 0x1_0000 % 256 * 0x1_0000 + n / 256 % 256 * 256 + n % 256 == n
  {
    var a, b, c := n / 256, n / 0x1_0000, n / 0x100_0000;
    assert n == a * 256 + n % 256;
    assert a / 256 == b && a == b * 256 + a % 256;
    assert b / 256 == c && b == c * 256 + b % 256;
  }

  lemma {:induction false} TakeIdBack(n: nat, rest: seq<Byte>)
    requires IsId(n)
    ensures TakeId(Host(n, ID_BYTES) + rest) == Field(n, rest)
  {
    HostBack(n, ID_BYTES);
    TakeBytesBack(Host(n, ID_BYTES), rest);
  }

  // ----- Chunks -----

  predicate Name(s: seq<Byte>) { s != [] && |s| < 65536 && NulFree(s) }

  // What a broker has to save fits its fields.
  predicate Writable(c: Chunk) {
    match c
    case CfgChunk(_, lastDbId) => IsId(lastDbId)
    case StoreChunk(id, source, sourceMid, mid, topic, _, _, payload) =>
      && IsId(id) && |source| < 65536 && NulFree(source) && sourceMid < 65536 && mid < 65536
      && Name(topic) && |payload| < 0x8000_0000
    case MsgChunk(client, storeId, mid, _, _, _, _, _) => Name(client) && IsId(storeId) && mid < 65536
    case RetainChunk(id) => IsId(id)
    case SubChunk(client, filter, _) => |client| < 65536 && NulFree(client) && |filter| < 65536 && NulFree(filter)
    case ClientChunk(client, lastMid, disconnectT) => Name(client) && lastMid < 65536 && IsId(disconnectT)
    case OtherChunk(tag, body) => 6 < tag < 65536 && |body| < 0x1_0000_0000
  }

  function Body(c: Chunk): seq<Byte>
    requires Writable(c)
  {
    match c
    case CfgChunk(shutdown, lastDbId) => [shutdown] + ([ID_BYTES] + Host(lastDbId, ID_BYTES))
    case StoreChunk(id, source, sourceMid, mid, topic, qos, retain, payload) =>
      Host(id, ID_BYTES) +
      (Text(source) +
       (Uint16(sourceMid) + (Uint16(mid) + (Text(topic) + ([qos] + ([retain] + (Uint32(|payload|) + payload)))))))
    case MsgChunk(client, storeId, mid, qos, retain, direction, state, dup) =>
      Text(client) +
      (Host(storeId, ID_BYTES) + (Uint16(mid) + ([qos] + ([retain] + ([direction] + ([state] + [dup]))))))
    case RetainChunk(id) => Host(id, ID_BYTES)
    case SubChunk(client, filter, qos) => Text(client) + (Text(filter) + [qos])
    case ClientChunk(client, lastMid, disconnectT) => Text(client) + (Uint16(lastMid) + Host(disconnectT, 8))
    case OtherChunk(_, body) => body
  }

  // The length that the writer announces, from the sizes of the fields.
  function Announced(c: Chunk): nat {
    match c
    case CfgChunk(_, _) => 8 + 1 + 1
    case StoreChunk(_, source, _, _, topic, _, _, payload) =>
      8 + (2 + |source|) + 2 + 2 + (2 + |topic|) + 4 + |payload| + 1 + 1
    case MsgChunk(client, _, _, _, _, _, _, _) => 8 + 2 + 1 + 1 + 1 + 1 + 1 + (2 + |client|)
    case RetainChunk(_) => 8
    case SubChunk(client, filter, _) => 2 + |client| + 2 + |filter| + 1
    case ClientChunk(client, _, _) => 2 + |client| + 2 + 8
    case OtherChunk(_, body) => |body|
  }

  // The length field of every chunk is the size of its body.
  lemma {:induction false} AnnouncedRight(c: Chunk)
    requires Writable(c)
    ensures Announced(c) == |Body(c)| < 0x1_0000_0000
  {
    hide Host, Uint32, Text, Uint16, NulFree;
    match c {
      case StoreChunk(id, source, sourceMid, mid, topic, qos, retain, payload) =>
        assert |Text(source)| == 2 + |source| && |Text(topic)| == 2 + |topic|;
      case MsgChunk(client, storeId, mid, qos, retain, direction, state, dup) => assert |Text(client)| == 2 + |client|;
      case SubChunk(client, filter, qos) => assert |Text(client)| == 2 + |client| && |Text(filter)| == 2 + |filter|;
      case ClientChunk(client, lastMid, disconnectT) => assert |Text(client)| == 2 + |client|;
      case _ =>
    }
  }

  function ChunkBytes(c: Chunk): seq<Byte>
    requires Writable(c)
  {
    AnnouncedRight(c);
    Uint16(Tag(c)) + (Uint32(Announced(c)) + Body(c))
  }

  // What the next chunk of a file says: it may be over, or not make sense.
  datatype Parsed = End | Bad | Next(chunk: Chunk, rest: seq<Byte>)

  function TakeCfg(s: seq<Byte>): (p: Parsed)
    ensures p.Next? ==> |p.rest| <= |s|
    ensures p != End
  {
    match TakeByte(s)
    case Truncated => Bad
    case Field(shutdown, s1) =>
      match TakeByte(s1)
      case Truncated => Bad
      case Field(size, s2) =>
        if size != ID_BYTES then Bad
        else
          match TakeId(s2)
          case Truncated => Bad
          case Field(id, rest) => Next(CfgChunk(shutdown, id), rest)
  }

  // The front of a stored message: id, source, source mid and mid.
  function TakeStoreHead(s: seq<Byte>): (f: Field<(nat, seq<Byte>, nat, nat)>)
    ensures f.Field? ==> |f.rest| <= |s|
  {
    match TakeId(s)
    case Truncated => Truncated
    case Field(id, s1) =>
      match TakeText(s1)
      case Truncated => Truncated
      case Field(source, s2) =>
        match TakeUint16(s2)
        case Truncated => Truncated
        case Field(sourceMid, s3) =>
          match TakeUint16(s3)
          case Truncated => Truncated
          case Field(mid, s4) => Field((id, CString(source), sourceMid, mid), s4)
  }

  // The rest of it: topic, QoS, retain and payload. An empty topic makes no sense.
  function TakeStoreTail(s: seq<Byte>): (f: Field<(seq<Byte>, Byte, Byte, seq<Byte>)>)
    ensures f.Field? ==> |f.rest| <= |s|
  {
    match TakeText(s)
    case Truncated => Truncated
    case Field(topic, s1) =>
      if topic == [] then Truncated
      else
        match TakeByte(s1)
        case Truncated => Truncated
        case Field(qos, s2) =>
          match TakeByte(s2)
          case Truncated => Truncated
          case Field(retain, s3) =>
            match TakeUint32(s3)
            case Truncated => Truncated
            case Field(payloadlen, s4) =>
              match TakeBytes(s4, payloadlen)
              case Truncated => Truncated
              case Field(payload, rest) => Field((CString(topic), qos, retain, payload), rest)
  }

  function TakeStore(s: seq<Byte>): (p: Parsed)
    ensures p.Next? ==> |p.rest| <= |s|
    ensures p != End
  {
    match TakeStoreHead(s)
    case Truncated => Bad
    case Field(h, s1) =>
      match TakeStoreTail(s1)
      case Truncated => Bad
      case Field(t, rest) => Next(StoreChunk(h.0, h.1, h.2, h.3, t.0, t.1, t.2, t.3), rest)
  }

  // The five bytes at the end of a client's message.
  function TakeMsgTail(s: seq<Byte>): (f: Field<(Byte, Byte, Byte, Byte, Byte)>)
    ensures f.Field? ==> |f.rest| <= |s|
  {
    match TakeBytes(s, 5)
    case Truncated => Truncated
    case Field(b, rest) => Field((b[0], b[1], b[2], b[3], b[4]), rest)
  }

  function TakeMsg(s: seq<Byte>): (p: Parsed)
    ensures p.Next? ==> |p.rest| <= |s|
    ensures p != End
  {
    match TakeText(s)
    case Truncated => Bad
    case Field(client, s1) =>
      if client == [] then Bad
      else
        match TakeId(s1)
        case Truncated => Bad
        case Field(storeId, s2) =>
          match TakeUint16(s2)
          case Truncated => Bad
          case Field(mid, s3) =>
            match TakeMsgTail(s3)
            case Truncated => Bad
            case Field(t, rest) => Next(MsgChunk(CString(client), storeId, mid, t.0, t.1, t.2, t.3, t.4), rest)
  }

  function TakeRetain(s: seq<Byte>): (p: Parsed)
    ensures p.Next? ==> |p.rest| <= |s|
    ensures p != End
  {
    match TakeId(s)
    case Truncated => Bad
    case Field(id, rest) => Next(RetainChunk(id), rest)
  }

  function TakeSub(s: seq<Byte>): (p: Parsed)
    ensures p.Next? ==> |p.rest| <= |s|
    ensures p != End
  {
    match TakeText(s)
    case Truncated => Bad
    case Field(client, s1) =>
      match TakeText(s1)
      case Truncated => Bad
      case Field(filter, s2) =>
        match TakeByte(s2)
        case Truncated => Bad
        case Field(qos, rest) => Next(SubChunk(CString(client), CString(filter), qos), rest)
  }

  // The chunks of a file of version 2 lack the time; then it is the time of reading, `v2`.
  function TakeClient(s: seq<Byte>, v2: Option<nat>): (p: Parsed)
    ensures p.Next? ==> |p.rest| <= |s|
    ensures p != End
  {
    match TakeText(s)
    case Truncated => Bad
    case Field(client, s1) =>
      if client == [] then Bad
      else
        match TakeUint16(s1)
        case Truncated => Bad
        case Field(lastMid, s2) =>
          if v2.Some? then Next(ClientChunk(CString(client), lastMid, v2.value), s2)
          else
            match TakeId(s2)
            case Truncated => Bad
            case Field(disconnectT, rest) => Next(ClientChunk(CString(client), lastMid, disconnectT), rest)
  }

  // A chunk of a known type is read field by field, whatever length it announces; any other is
  // skipped by that length, if need be beyond the end.
  function TakeTyped(tag: nat, s: seq<Byte>, v2: Option<nat>): (p: Parsed)
    ensures p.Next? ==> |p.rest| <= |s|
    ensures p != End
  {
    match TakeUint32(s)
    case Truncated => Bad
    case Field(length, s2) =>
      match tag
      case 1 => TakeCfg(s2)
      case 2 => TakeStore(s2)
      case 3 => TakeMsg(s2)
      case 4 => TakeRetain(s2)
      case 5 => TakeSub(s2)
      case 6 => TakeClient(s2, v2)
      case _ => Next(OtherChunk(tag, if length <= |s2| then s2[..length] else s2),
                     if length <= |s2| then s2[length..] else [])
  }

  function TakeChunk(s: seq<Byte>, v2: Option<nat>): (p: Parsed)
    ensures p.Next? ==> |p.rest| < |s|
  {
    match TakeUint16(s)
    case Truncated => End
    case Field(tag, s1) => TakeTyped(tag, s1, v2)
  }

  // ----- What is written is read back -----

  lemma {:induction false} TakeByteBack(b: Byte, rest: seq<Byte>)
    ensures TakeByte([b] + rest) == Field(b, rest)
  {
  }

  lemma {:induction false} CfgBack(c: Chunk, rest: seq<Byte>)
    requires c.CfgChunk? && Writable(c)
    ensures TakeCfg(Body(c) + rest) == Next(c, rest)
  {
    var id := Host(c.lastDbId, ID_BYTES);
    hide Host, TakeId, TakeByte;
    assert Body(c) + rest == [c.shutdown] + ([ID_BYTES] + (id + rest));
    TakeByteBack(c.shutdown, [ID_BYTES] + (id + rest));
    TakeByteBack(ID_BYTES, id + rest);
    TakeIdBack(c.lastDbId, rest);
  }

  lemma {:induction false} StoreHeadBack(id: nat, source: seq<Byte>, sourceMid: nat, mid: nat, rest: seq<Byte>)
    requires IsId(id) && |source| < 65536 && NulFree(source) && sourceMid < 65536 && mid < 65536
    ensures TakeStoreHead(Host(id, ID_BYTES) + (Text(source) + (Uint16(sourceMid) + (Uint16(mid) + rest)))) ==
      Field((id, source, sourceMid, mid), rest)
  {
    var s3 := Uint16(mid) + rest;
    TakeIdBack(id, Text(source) + (Uint16(sourceMid) + s3));
    TakeTextBack(source, Uint16(sourceMid) + s3);
    CStringSame(source);
    TakeUint16Back(sourceMid, s3);
    TakeUint16Back(mid, rest);
    hide Host, Text, Uint16, TakeId, TakeText, TakeUint16, CString;
  }

  lemma {:induction false} StoreTailBack(topic: seq<Byte>, qos: Byte, retain: Byte, payload: seq<Byte>, rest: seq<Byte>)
    requires Name(topic) && |payload| < 0x8000_0000
    ensures TakeStoreTail(Text(topic) + ([qos] + ([retain] + (Uint32(|payload|) + (payload + rest))))) ==
      Field((topic, qos, retain, payload), rest)
  {
    var s3 := Uint32(|payload|) + (payload + rest);
    TakeTextBack(topic, [qos] + ([retain] + s3));
    CStringSame(topic);
    TakeByteBack(qos, [retain] + s3);
    TakeByteBack(retain, s3);
    TakeUint32Back(|payload|, payload + rest);
    TakeBytesBack(payload, rest);
    hide Text, Uint32, TakeText, TakeUint32, TakeBytes, TakeByte, CString;
  }

  lemma {:induction false} StoreBack(c: Chunk, rest: seq<Byte>)
    requires c.StoreChunk? && Writable(c)
    ensures TakeStore(Body(c) + rest) == Next(c, rest)
  {
    hide Host, Text, Uint16, Uint32, TakeStoreHead, TakeStoreTail;
    var tail := Text(c.topic) + ([c.qos] + ([c.retain] + (Uint32(|c.payload|) + (c.payload + rest))));
    StoreHeadBack(c.id, c.source, c.sourceMid, c.mid, tail);
    StoreTailBack(c.topic, c.qos, c.retain, c.payload, rest);
    StoreParts(Host(c.id, ID_BYTES), Text(c.source), Uint16(c.sourceMid), Uint16(c.mid), Text(c.topic), c.qos,
               c.retain, Uint32(|c.payload|), c.payload, rest);
  }

  lemma {:induction false} StoreParts(a: seq<Byte>, b: seq<Byte>, c: seq<Byte>, d: seq<Byte>, e: seq<Byte>, f: Byte,
                                      g: Byte, h: seq<Byte>, i: seq<Byte>, rest: seq<Byte>)
    ensures (a + (b + (c + (d + (e + ([f] + ([g] + (h + i)))))))) + rest ==
        a + (b + (c + (d + (e + ([f] + ([g] + (h + (i + rest))))))))
  {
    var x := e + ([f] + ([g] + (h + i)));
    assert x + rest == e + ([f] + ([g] + (h + (i + rest))));
    assert (a + (b + (c + (d + x)))) + rest == a + (b + (c + (d + (x + rest))));
  }

  lemma {:induction false} MsgBack(c: Chunk, rest: seq<Byte>)
    requires c.MsgChunk? && Writable(c)
    ensures TakeMsg(Body(c) + rest) == Next(c, rest)
  {
    hide Host, Text, Uint16, TakeText, TakeId, TakeUint16, TakeMsgTail, CString, NulFree, IsId;
    var five := [c.qos] + ([c.retain] + ([c.direction] + ([c.state] + [c.dup])));
    var s2 := Uint16(c.mid) + (five + rest);
    var s1 := Host(c.storeId, ID_BYTES) + s2;
    MsgTailBack(c.qos, c.retain, c.direction, c.state, c.dup, rest);
    TakeTextBack(c.client, s1);
    CStringSame(c.client);
    TakeIdBack(c.storeId, s2);
    TakeUint16Back(c.mid, five + rest);
    MsgParts(Text(c.client), Host(c.storeId, ID_BYTES), Uint16(c.mid), five, rest);
  }

  lemma {:induction false} MsgTailBack(qos: Byte, retain: Byte, direction: Byte, state: Byte, dup: Byte,
                                       rest: seq<Byte>)
    ensures TakeMsgTail([qos] + ([retain] + ([direction] + ([state] + [dup]))) + rest) == Field((qos, retain,
          direction, state, dup), rest)
  {
    var five := [qos] + ([retain] + ([direction] + ([state] + [dup])));
    assert five == [qos, retain, direction, state, dup];
    TakeBytesBack(five, rest);
  }

  lemma {:induction false} MsgParts(a: seq<Byte>, b: seq<Byte>, c: seq<Byte>, d: seq<Byte>, rest: seq<Byte>)
    ensures (a + (b + (c + d))) + rest == a + (b + (c + (d + rest)))
  {
  }

  lemma {:induction false} SubBack(c: Chunk, rest: seq<Byte>)
    requires c.SubChunk? && Writable(c)
    ensures TakeSub(Body(c) + rest) == Next(c, rest)
  {
    hide Text, TakeText, TakeByte, CString, NulFree;
    var client, filter := Text(c.client), Text(c.filter);
    assert Body(c) + rest == client + (filter + ([c.qos] + rest));
    TakeTextBack(c.client, filter + ([c.qos] + rest));
    TakeTextBack(c.filter, [c.qos] + rest);
    TakeByteBack(c.qos, rest);
    CStringSame(c.client);
    CStringSame(c.filter);
  }

  lemma {:induction false} ClientBack(c: Chunk, rest: seq<Byte>)
    requires c.ClientChunk? && Writable(c)
    ensures TakeClient(Body(c) + rest, None) == Next(c, rest)
  {
    hide Host, Text, Uint16, TakeText, TakeUint16, TakeId, CString, NulFree;
    var client, mid, time := Text(c.client), Uint16(c.lastMid), Host(c.disconnectT, 8);
    assert Body(c) + rest == client + (mid + (time + rest));
    TakeTextBack(c.client, mid + (time + rest));
    CStringSame(c.client);
    TakeUint16Back(c.lastMid, time + rest);
    TakeIdBack(c.disconnectT, rest);
  }

  lemma {:induction false} ChunkBack(c: Chunk, rest: seq<Byte>)
    requires Writable(c)
    ensures TakeChunk(ChunkBytes(c) + rest, None) == Next(c, rest)
  {
    ChunkHead(c, rest);
    hide TakeChunk, TakeCfg, TakeStore, TakeMsg, TakeRetain, TakeSub, TakeClient, ChunkBytes, Body, Writable;
    match c {
      case CfgChunk(_, _) => CfgBack(c, rest);
      case StoreChunk(_, _, _, _, _, _, _, _) => StoreBack(c, rest);
      case MsgChunk(_, _, _, _, _, _, _, _) => MsgBack(c, rest);
      case RetainChunk(id) => RetainBack(c, rest);
      case SubChunk(_, _, _) => SubBack(c, rest);
      case ClientChunk(_, _, _) => ClientBack(c, rest);
      case OtherChunk(_, _) =>
    }
  }

  // The type says which fields to read.
  lemma {:induction false} ChunkHead(c: Chunk, rest: seq<Byte>)
    requires Writable(c)
    ensures TakeChunk(ChunkBytes(c) + rest, None) ==
      match c
      case CfgChunk(_, _) => TakeCfg(Body(c) + rest)
      case StoreChunk(_, _, _, _, _, _, _, _) => TakeStore(Body(c) + rest)
      case MsgChunk(_, _, _, _, _, _, _, _) => TakeMsg(Body(c) + rest)
      case RetainChunk(_) => TakeRetain(Body(c) + rest)
      case SubChunk(_, _, _) => TakeSub(Body(c) + rest)
      case ClientChunk(_, _, _) => TakeClient(Body(c) + rest, None)
      case OtherChunk(_, _) => Next(c, rest)
  {
    hide Uint16, Uint32, TakeUint16, TakeUint32, TakeCfg, TakeStore, TakeMsg, TakeRetain, TakeSub, TakeClient;
    AnnouncedRight(c);
    var body := Body(c);
    assert c.OtherChunk? ==> body == c.body;
    hide Body;
    assert ChunkBytes(c) + rest == Uint16(Tag(c)) + (Uint32(Announced(c)) + (body + rest));
    TakeUint16Back(Tag(c), Uint32(Announced(c)) + (body + rest));
    TakeUint32Back(Announced(c), body + rest);
    assert (body + rest)[..|body|] == body && (body + rest)[|body|..] == rest;
    assert Tag(c) < 65536;
    hide Announced, ChunkBytes;
  }

  lemma {:induction false} RetainBack(c: Chunk, rest: seq<Byte>)
    requires c.RetainChunk? && Writable(c)
    ensures TakeRetain(Body(c) + rest) == Next(c, rest)
  {
    TakeIdBack(c.id, rest);
  }

  // ----- Whole files -----

  const MAGIC: seq<Byte> := [0, 181, 0, 109, 111, 115, 113, 117, 105, 116, 116, 111, 32, 100, 98]
  const DB_VERSION := 3

  function Header(): seq<Byte> {
    MAGIC + (Uint32(0) + Uint32(DB_VERSION))
  }

  predicate AllWritable(chunks: seq<Chunk>) {
    forall k :: 0 <= k < |chunks| ==> Writable(chunks[k])
  }

  function Concat(chunks: seq<Chunk>): seq<Byte>
    requires AllWritable(chunks)
  {
    if chunks == [] then [] else ChunkBytes(chunks[0]) + Concat(chunks[1..])
  }

  // The chunks of a file behind its header, up to where it ends or makes no sense; then None.
  function TakeAll(s: seq<Byte>, v2: Option<nat>): Option<seq<Chunk>>
    decreases |s|
  {
    match TakeChunk(s, v2)
    case End => Some([])
    case Bad => None
    case Next(c, rest) =>
      match TakeAll(rest, v2)
      case None => None
      case Some(more) => Some([c] + more)
  }

  lemma {:induction false} ConcatTaken(chunks: seq<Chunk>)
    requires AllWritable(chunks)
    ensures TakeAll(Concat(chunks), None) == Some(chunks)
    decreases |chunks|
  {
    if chunks != [] {
      var c, more := chunks[0], chunks[1..];
      ConcatTaken(more);
      ChunkBack(c, Concat(more));
      assert [c] + more == chunks;
      hide TakeChunk, ChunkBytes, Writable;
    }
  }
}
