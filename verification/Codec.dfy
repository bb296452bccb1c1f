/**
 PUBLISH and CONNECT as the client library writes them and as both sides read them
 (sections 3.1 and 3.3 of MQTT 3.1.1; lib/send_mosq.c:255-289, lib/read_handle.c:89-126,
 lib/send_client_mosq.c:45-126, src/read_handle_server.c:97-304).
 */
module Codec {
  import opened Topics
  import opened Framing

  // ----- Fields -----

  // A field taken from the front of some bytes, and what is behind it.
  datatype Field<T> = Field(value: T, rest: seq<Byte>) | Truncated

  function TakeByte(s: seq<Byte>): (f: Field<Byte>)
    ensures f.Field? ==> |f.rest| <= |s|
  {
    if |s| < 1 then Truncated else Field(s[0], s[1..])
  }

  function TakeUint16(s: seq<Byte>): (f: Field<nat>)
    ensures f.Field? ==> |f.rest| + 2 == |s|
  {
    if |s| < 2 then Truncated
    else
      var msb: int, lsb: int := s[0], s[1];
      Field(msb * 256 + lsb, s[2..])
  }

  function TakeBytes(s: seq<Byte>, n: nat): (f: Field<seq<Byte>>)
    ensures f.Field? ==> |f.value| == n && |f.rest| <= |s|
  {
    if |s| < n then Truncated else Field(s[..n], s[n..])
  }

  function TakeText(s: seq<Byte>): (f: Field<seq<Byte>>)
    ensures f.Field? ==> |f.rest| <= |s|
  {
    match TakeUint16(s)
    case Truncated => Truncated
    case Field(len, rest) => TakeBytes(rest, len)
  }

  lemma {:induction false} TextShort(s: seq<Byte>)
    ensures TakeText(s).Field? ==> |TakeText(s).value| < 65536
  {
  }

  // The C string in a buffer: what comes before the first NUL.
  function CString(s: seq<Byte>): (r: seq<Byte>)
    ensures |r| <= |s|
    ensures forall i :: 0 <= i < |r| ==> r[i] == s[i] != 0
    ensures |r| < |s| ==> s[|r|] == 0
  {
    if s == [] || s[0] == 0 then [] else [s[0]] + CString(s[1..])
  }

  predicate NulFree(s: seq<Byte>) {
    forall i :: 0 <= i < |s| ==> s[i] != 0
  }

  lemma {:induction false} CStringSame(s: seq<Byte>)
    requires NulFree(s)
    ensures CString(s) == s
  {
    if s != [] {
      assert forall i :: 0 <= i < |s[1..]| ==> s[1..][i] == s[i + 1];
      CStringSame(s[1..]);
    }
  }

  // What is written is taken back.
  lemma {:induction false} TakeUint16Back(word: nat, rest: seq<Byte>)
    requires word < 65536
    ensures TakeUint16(Uint16(word) + rest) == Field(word, rest)
  {
    assert (Uint16(word) + rest)[2..] == rest;
  }

  lemma {:induction false} TakeBytesBack(bytes: seq<Byte>, rest: seq<Byte>)
    ensures TakeBytes(bytes + rest, |bytes|) == Field(bytes, rest)
  {
    assert (bytes + rest)[..|bytes|] == bytes && (bytes + rest)[|bytes|..] == rest;
  }

  lemma {:induction false} TakeTextBack(str: seq<Byte>, rest: seq<Byte>)
    requires |str| < 65536
    ensures TakeText(Text(str) + rest) == Field(str, rest)
  {
    assert Text(str) + rest == Uint16(|str|) + (str + rest);
    TakeUint16Back(|str|, str + rest);
    TakeBytesBack(str, rest);
  }

  // The packet being taken apart: the body of a received packet and a position in it.
  class InPacket {
    const command: Byte
    const payload: seq<Byte>
    var pos: nat

    constructor (command: Byte, payload: seq<Byte>)
      ensures this.command == command && this.payload == payload && pos == 0
    {
      this.command, this.payload, pos := command, payload, 0;
    }

    function Rest(): seq<Byte>
      requires pos <= |payload|
      reads this
    {
      payload[pos..]
    }

    // The read_ functions of lib/net_mosq.c:505-584. A failed one may have moved the position.
    method ReadByte() returns (r: Option<Byte>)
      requires pos <= |payload|
      modifies this
      ensures pos <= |payload| && Took(TakeByte(old(Rest())), r)
    {
      if pos + 1 > |payload| {
        return None;
      }
      r := Some(payload[pos]);
      pos := pos + 1;
    }

    method ReadUint16() returns (r: Option<nat>)
      requires pos <= |payload|
      modifies this
      ensures pos <= |payload| && Took(TakeUint16(old(Rest())), r)
    {
      if pos + 2 > |payload| {
        return None;
      }
      var msb: int := payload[pos];
      pos := pos + 1;
      var lsb: int := payload[pos];
      pos := pos + 1;
      r := Some(msb * 256 + lsb);
      assert Rest() == old(Rest())[2..];
    }

    method ReadBytes(count: nat) returns (r: Option<seq<Byte>>)
      requires pos <= |payload|
      modifies this
      ensures pos <= |payload| && Took(TakeBytes(old(Rest()), count), r)
    {
      if pos + count > |payload| {
        return None;
      }
      r := Some(payload[pos..pos + count]);
      pos := pos + count;
      assert Rest() == old(Rest())[count..] && r.value == old(Rest())[..count];
    }

    method ReadString() returns (r: Option<seq<Byte>>)
      requires pos <= |payload|
      modifies this
      ensures pos <= |payload| && Took(TakeText(old(Rest())), r)
    {
      var len := ReadUint16();
      if len.None? {
        return None;
      }
      r := ReadBytes(len.value);
    }

    // The method did what the function says.
    predicate Took<T(==)>(f: Field<T>, r: Option<T>)
      requires pos <= |payload|
      reads this
    {
      match f
      case Truncated => r == None
      case Field(value, rest) => r == Some(value) && Rest() == rest
    }
  }

  // ----- PUBLISH -----

  datatype Publish = Publish(dup: bool, qos: nat, retain: bool, topic: seq<Byte>, mid: nat, payload: seq<Byte>)

  function Bit(b: bool, weight: int): int { if b then weight else 0 }

  // The command byte: type 3, then DUP, two bits of QoS, RETAIN.
  function PublishCommand(dup: bool, qos: nat, retain: bool): Byte
    requires qos <= 2
  {
    48 + Bit(dup, 8) + qos * 2 + Bit(retain, 1)
  }

  function PublishBody(m: Publish): seq<Byte>
    requires m.mid < 65536
  {
    Text(m.topic) + (if m.qos > 0 then Uint16(m.mid) else []) + m.payload
  }

  // Both readers. They refuse QoS 3 and empty topics; without QoS there is no id, which reads as 0.
  function ReadPublish(f: Frame): Option<Publish> {
    var dup, qos, retain := f.command / 8 % 2 == 1, f.command / 2 % 4, f.command % 2 == 1;
    match TakeText(f.body)
    case Truncated => None
    case Field(raw, rest) =>
      var topic := CString(raw);
      if qos == 3 || topic == [] then None
      else if qos == 0 then Some(Publish(dup, qos, retain, topic, 0, rest))
      else
        match TakeUint16(rest)
        case Truncated => None
        case Field(mid, payload) => Some(Publish(dup, qos, retain, topic, mid, payload))
  }

  predicate Publishable(m: Publish) {
    && m.qos <= 2 && m.mid < 65536 && (m.qos == 0 ==> m.mid == 0)
    && m.topic != [] && |m.topic| < 65536 && NulFree(m.topic)
  }

  // What is published is what arrives, in all its fields.
  lemma {:induction false} PublishRoundTrip(m: Publish)
    requires Publishable(m)
    ensures ReadPublish(Frame(PublishCommand(m.dup, m.qos, m.retain), PublishBody(m))) == Some(m)
  {
    var ids := if m.qos > 0 then Uint16(m.mid) else [];
    assert PublishBody(m) == Text(m.topic) + (ids + m.payload);
    TakeTextBack(m.topic, ids + m.payload);
    CStringSame(m.topic);
    if m.qos > 0 { TakeUint16Back(m.mid, m.payload); } else { assert ids + m.payload == m.payload; }
    PublishBits(m.dup, m.qos, m.retain);
    hide TakeText, TakeUint16, CString, PublishCommand, Text, Uint16;
  }

  lemma {:induction false} PublishBits(dup: bool, qos: nat, retain: bool)
    requires qos <= 2
    ensures var c := PublishCommand(dup, qos, retain);
      (c / 8 % 2 == 1) == dup && c / 2 % 4 == qos && (c % 2 == 1) == retain && c / 16 == 3
  {
  }

  lemma {:induction false} CommandBits(dup: bool, qos: nat, retain: bool)
    requires qos <= 2
    ensures PublishCommand(dup, qos, retain) == 48 + Bit(dup, 8) + qos * 2 + Bit(retain, 1)
  {
  }

  /**
   _mosquitto_send_real_publish: unless the packet is too long to be framed, it is laid out without
   running over its end, and it is filled exactly if the topic fits its length field.
   */
  method SendRealPublish(mid: nat, topic: seq<Byte>, payload: seq<Byte>, qos: nat, retain: bool,
                         dup: bool) returns (packet: Packet, ok: bool)
    requires mid < 65536 && qos <= 2 && |topic| + |payload| + 4 < 0x8000_0000
    ensures fresh(packet) && (ok <==> 2 + |topic| + |payload| + (if qos > 0 then 2 else 0) < MAX_REMAINING)
    ensures ok ==>
      && packet.pos <= packet.payload.Length == packet.packetLength
      && packet.Laid() == [PublishCommand(dup, qos, retain)] + EncodeLength(packet.remainingLength)
                          + PublishBody(Publish(dup, qos, retain, topic, mid, payload))
      && (packet.pos == packet.packetLength <==> |topic| < 65536)
    ensures ok && |topic| < 65536 ==>
      packet.payload[..] == Encode(Frame(PublishCommand(dup, qos, retain),
                                         PublishBody(Publish(dup, qos, retain, topic, mid, payload))))
  {
    hide EncodeLength, Text, PublishBody, PublishCommand;
    CommandBits(dup, qos, retain);
    var packetlen := 2 + |topic| + |payload|;
    if qos > 0 {
      packetlen := packetlen + 2;
    }
    packet := new Packet(48 + Bit(dup, 8) + qos * 2 + Bit(retain, 1), packetlen);
    ok := packet.Alloc();
    if ok {
      FillPublish(packet, Publish(dup, qos, retain, topic, mid, payload));
      FullPacket(packet, packet.Laid());
    }
  }

  // Its body, behind the header.
  method FillPublish(packet: Packet, m: Publish)
    requires m.mid < 65536 && packet.packetLength == packet.payload.Length
    requires packet.pos + 2 + |m.topic| + |m.payload| + (if m.qos > 0 then 2 else 0) == packet.packetLength
    modifies packet`pos, packet.payload
    ensures packet.pos <= packet.payload.Length == packet.packetLength
    ensures packet.Laid() == old(packet.Laid()) + PublishBody(m)
    ensures packet.pos == packet.packetLength <==> |m.topic| < 65536
  {
    hide Text, Uint16, PublishBody, Packet.Laid;
    PublishLaid(packet.Laid(), m);
    packet.WriteString(m.topic);
    if m.qos > 0 {
      packet.WriteUint16(m.mid);
    }
    if |m.payload| > 0 {
      packet.WriteBytes(m.payload);
    }
  }

  // The fields of a PUBLISH, one behind the other.
  lemma {:induction false} PublishLaid(header: seq<Byte>, m: Publish)
    requires m.mid < 65536
    ensures header + PublishBody(m) ==
      if m.qos > 0 then
        (if |m.payload| > 0 then header + Text(m.topic) + Uint16(m.mid) + m.payload
         else header + Text(m.topic) + Uint16(m.mid))
      else if |m.payload| > 0 then header + Text(m.topic) + m.payload else header + Text(m.topic)
    ensures |m.topic| < 65536 ==> |PublishBody(m)| == 2 + |m.topic| + |m.payload| + if m.qos > 0 then 2 else 0
  {
    var ids := if m.qos > 0 then Uint16(m.mid) else [];
    assert header + PublishBody(m) == ((header + Text(m.topic)) + ids) + m.payload;
    assert (header + Text(m.topic)) + [] == header + Text(m.topic);
  }

  lemma {:induction false} FullPacket(p: Packet, laid: seq<Byte>)
    requires p.pos <= p.payload.Length && laid == p.Laid()
    ensures p.pos == p.payload.Length ==> p.payload[..] == laid
  {
  }

  // The reading side (lib/read_handle.c:89-126; src/read_handle.c:89-110, 224-252 takes the same fields).
  method HandlePublish(packet: InPacket) returns (r: Option<Publish>)
    requires packet.pos == 0
    modifies packet
    ensures r == ReadPublish(Frame(packet.command, packet.payload))
  {
    hide TakeText, TakeUint16, TakeBytes;
    assert packet.Rest() == packet.payload;
    var header := packet.command;
    var dup, qos, retain := header / 8 % 2 == 1, header / 2 % 4, header % 2 == 1;
    var topic := packet.ReadString();
    if topic.None? {
      return None;
    }
    if CString(topic.value) == [] {
      return None;
    }
    var mid := 0;
    if qos > 0 {
      var word := packet.ReadUint16();
      if word.None? {
        return None;
      }
      mid := word.value;
    }
    var payloadlen := |packet.payload| - packet.pos;
    assert packet.Rest() == [] <==> payloadlen == 0;
    var payload := [];
    if payloadlen > 0 {
      payload := packet.payload[packet.pos..];
      packet.pos := packet.pos + payloadlen;
    }
    if qos == 3 {
      return None;
    }
    r := Some(Publish(dup, qos, retain, CString(topic.value), mid, payload));
  }

  // ----- CONNECT -----

  datatype Will = Will(topic: seq<Byte>, payload: seq<Byte>, qos: nat, retain: bool)

  datatype Connect = Connect(
    clientId: seq<Byte>, keepalive: nat, clean: bool, will: Option<Will>,
    username: Option<seq<Byte>>, password: Option<seq<Byte>>)

  // "MQIsdp" and "MQTT"
  const NAME_V31: seq<Byte> := [77, 81, 73, 115, 100, 112]
  const NAME_V311: seq<Byte> := [77, 81, 84, 84]

  const CONNECT: Byte := 16

  function ConnectFlags(c: Connect): Byte
    requires c.will.Some? ==> c.will.value.qos <= 2
  {
    Bit(c.clean, 2)
    + (if c.will.Some? then 4 + c.will.value.qos * 8 + Bit(c.will.value.retain, 32) else 0)
    + (if c.username.Some? then 128 + Bit(c.password.Some?, 64) else 0)
  }

  function WillText(c: Connect): seq<Byte> {
    if c.will.Some? then Text(c.will.value.topic) + Text(c.will.value.payload) else []
  }

  // A password without a user name is not sent.
  function UserText(c: Connect): seq<Byte> {
    if c.username.None? then []
    else if c.password.None? then Text(c.username.value)
    else Text(c.username.value) + Text(c.password.value)
  }

  function ConnectBody(c: Connect): seq<Byte>
    requires c.keepalive < 65536 && (c.will.Some? ==> c.will.value.qos <= 2)
  {
    Text(NAME_V31) + ([3, ConnectFlags(c)] + (Uint16(c.keepalive) + (Text(c.clientId) + (WillText(c) + UserText(c)))))
  }

  // What mqtt3_handle_connect makes of the fields: a refusal with its CONNACK code, an error that
  // ends the connection without one, or the fields.
  datatype Login = Accepted(v311: bool, connect: Connect) | Refused(code: nat) | Dropped

  const REFUSED_PROTOCOL := 1
  const REFUSED_IDENTIFIER := 2

  // The will, and the checks on it.
  function TakeWill(v311: bool, flags: int, s: seq<Byte>): Option<(Option<Will>, seq<Byte>)>
    requires 0 <= flags < 256
  {
    var qos, retain := flags / 8 % 4, flags / 32 % 2 == 1;
    if flags / 4 % 2 == 0 then
      if v311 && (qos != 0 || retain) then None else Some((None, s))
    else
      match TakeText(s)
      case Truncated => None
      case Field(raw, rest) =>
        var topic := CString(raw);
        if topic == [] || !ValidFilter(Chars(topic)) then None
        else
          match TakeText(rest)
          case Truncated => None
          case Field(payload, rest') => Some((Some(Will(topic, payload, qos, retain)), rest'))
  }

  // The characters of a string.
  function Chars(s: seq<Byte>): (r: string)
    ensures |r| == |s|
  {
    seq(|s|, i requires 0 <= i < |s| => s[i] as char)
  }

  // User name and password. Version 3.1 forgives a missing one, 3.1.1 does not.
  function TakeUser(v311: bool, flags: int, s: seq<Byte>): Option<(Option<seq<Byte>>, Option<seq<Byte>>)>
    requires 0 <= flags < 256
  {
    var hasName, hasPassword := flags / 128 % 2 == 1, flags / 64 % 2 == 1;
    if !hasName then
      if v311 && hasPassword then None else Some((None, None))
    else
      match TakeText(s)
      case Truncated => if v311 then None else Some((None, None))
      case Field(name, rest) =>
        if !hasPassword then Some((Some(CString(name)), None))
        else
          match TakeText(rest)
          case Truncated => if v311 then None else Some((Some(CString(name)), None))
          case Field(password, _) => Some((Some(CString(name)), Some(CString(password))))
  }

  // Behind the flags. `autoId` is the id that a client without one is given, if that is allowed.
  function TakeRest(v311: bool, flags: int, s: seq<Byte>, autoId: Option<seq<Byte>>): Login
    requires 0 <= flags < 256
  {
    match TakeUint16(s)
    case Truncated => Dropped
    case Field(keepalive, s1) =>
      match TakeText(s1)
      case Truncated => Dropped
      case Field(raw, s2) =>
        var clean := flags / 2 % 2 == 1;
        var id := CString(raw);
        if id == [] && (!v311 || !clean || autoId.None?) then Refused(REFUSED_IDENTIFIER)
        else
          match TakeWill(v311, flags, s2)
          case None => Dropped
          case Some(w) =>
            match TakeUser(v311, flags, w.1)
            case None => Dropped
            case Some(u) =>
              Accepted(v311, Connect(if id == [] then autoId.value else id, keepalive, clean, w.0, u.0, u.1))
  }

  // Name, version and flags.
  function ReadConnect(f: Frame, autoId: Option<seq<Byte>>): Login {
    match TakeText(f.body)
    case Truncated => Dropped
    case Field(name, s1) =>
      match TakeByte(s1)
      case Truncated => Dropped
      case Field(version, s2) =>
        if CString(name) != NAME_V31 && CString(name) != NAME_V311 then Dropped
        else
          var v311 := CString(name) == NAME_V311;
          if version % 128 != (if v311 then 4 else 3) then Refused(REFUSED_PROTOCOL)
          else if v311 && f.command % 16 != 0 then Dropped
          else
            match TakeByte(s2)
            case Truncated => Dropped
            case Field(flags, s3) => if flags / 8 % 4 == 3 then Dropped else TakeRest(v311, flags, s3, autoId)
  }

  // Fields that fit into a CONNECT, the client id possibly empty.
  predicate Fitting(c: Connect) {
    && |c.clientId| < 65536 && NulFree(c.clientId) && c.keepalive < 65536
    && (c.will.Some? ==>
          var w := c.will.value;
          && w.qos <= 2 && w.topic != [] && |w.topic| < 65536 && |w.payload| < 65536
          && NulFree(w.topic) && ValidFilter(Chars(w.topic)))
    && (c.username.Some? ==> |c.username.value| < 65536 && NulFree(c.username.value))
    && (c.password.Some? ==> c.username.Some? && |c.password.value| < 65536 && NulFree(c.password.value))
  }

  // What the client library accepts for a connection.
  predicate Connectable(c: Connect) { Fitting(c) && c.clientId != [] }

  // Digits of mixed weight come apart again.
  lemma {:induction false} Digits(clean: int, will: int, qos: int, retain: int, password: int, name: int)
    requires 0 <= clean <= 1 && 0 <= will <= 1 && 0 <= qos <= 2 && 0 <= retain <= 1 && 0 <= password <= 1
    requires 0 <= name <= 1
    ensures var f := clean * 2 + will * 4 + qos * 8 + retain * 32 + password * 64 + name * 128;
      && f / 2 % 2 == clean && f / 4 % 2 == will && f / 8 % 4 == qos
      && f / 32 % 2 == retain && f / 64 % 2 == password && f / 128 % 2 == name
  {
    var f := clean * 2 + will * 4 + qos * 8 + retain * 32 + password * 64 + name * 128;
    assert f / 2 == clean + 2 * (will + 2 * qos + 8 * retain + 16 * password + 32 * name);
    assert f / 4 == will + 2 * (qos + 4 * retain + 8 * password + 16 * name);
    assert f / 8 == qos + 4 * (retain + 2 * password + 4 * name);
    assert f / 32 == retain + 2 * (password + 2 * name);
    assert f / 64 == password + 2 * name;
    assert f / 128 == name;
  }

  // The flag byte gives back the flags.
  lemma {:induction false} FlagBits(c: Connect)
    requires Fitting(c)
    ensures var f: int := ConnectFlags(c);
      && (f / 2 % 2 == 1) == c.clean && (f / 4 % 2 == 1) == c.will.Some? && f / 8 % 4 != 3
      && (c.will.Some? ==> f / 8 % 4 == c.will.value.qos && (f / 32 % 2 == 1) == c.will.value.retain)
      && (c.will.None? ==> f / 8 % 4 == 0 && f / 32 % 2 == 0)
      && (f / 128 % 2 == 1) == c.username.Some? && (f / 64 % 2 == 1) == c.password.Some?
  {
    var will := c.will.Some?;
    Digits(Bit(c.clean, 1), Bit(will, 1), if will then c.will.value.qos else 0,
           if will then Bit(c.will.value.retain, 1) else 0,
           Bit(c.password.Some?, 1), Bit(c.username.Some?, 1));
  }

  lemma {:induction false} TakeWillBack(v311: bool, c: Connect, rest: seq<Byte>)
    requires Fitting(c)
    ensures TakeWill(v311, ConnectFlags(c), WillText(c) + rest) == Some((c.will, rest))
  {
    FlagBits(c);
    if c.will.Some? {
      var w := c.will.value;
      assert WillText(c) + rest == Text(w.topic) + (Text(w.payload) + rest);
      TakeTextBack(w.topic, Text(w.payload) + rest);
      TakeTextBack(w.payload, rest);
      CStringSame(w.topic);
      hide TakeText, Text, CString, ConnectFlags;
    } else {
      assert [] + rest == rest;
    }
  }

  lemma {:induction false} TakeUserBack(v311: bool, c: Connect)
    requires Fitting(c)
    ensures TakeUser(v311, ConnectFlags(c), UserText(c)) == Some((c.username, c.password))
  {
    FlagBits(c);
    if c.username.Some? {
      var name := c.username.value;
      CStringSame(name);
      if c.password.Some? {
        CStringSame(c.password.value);
        assert Text(c.password.value) + [] == Text(c.password.value);
        TakeTextBack(c.password.value, []);
        TakeTextBack(name, Text(c.password.value));
      } else {
        assert Text(name) + [] == Text(name);
        TakeTextBack(name, []);
      }
      hide TakeText, Text, CString, ConnectFlags;
    }
  }

  // What the client sends is what the broker reads, in all its fields.
  lemma {:induction false} ConnectRoundTrip(c: Connect, autoId: Option<seq<Byte>>)
    requires Connectable(c)
    ensures ReadConnect(Frame(CONNECT, ConnectBody(c)), autoId) == Accepted(false, c)
  {
    FlagBits(c);
    RestBack(false, c, autoId);
    hide Text, Uint16, ConnectFlags, WillText, UserText, Fitting, TakeRest;
    var rest := Uint16(c.keepalive) + (Text(c.clientId) + (WillText(c) + UserText(c)));
    HeadTaken(Frame(CONNECT, ConnectBody(c)), NAME_V31, 3, ConnectFlags(c), rest, autoId);
  }

  // The same fields in a CONNECT of version 3.1.1 (section 3.1 there): its name, and level 4.
  function ConnectBody311(c: Connect): seq<Byte>
    requires c.keepalive < 65536 && (c.will.Some? ==> c.will.value.qos <= 2)
  {
    Text(NAME_V311) + ([4, ConnectFlags(c)] + (Uint16(c.keepalive) + (Text(c.clientId) + (WillText(c) + UserText(c)))))
  }

  // An empty client id is accepted with a clean session only, and if the broker gives out ids.
  predicate Nameless(c: Connect, autoId: Option<seq<Byte>>) { c.clientId == [] && (!c.clean || autoId.None?) }

  /**
   All fields of a 3.1.1 CONNECT are read back; a client without an id gets the broker's, or is
   refused if its session is to last or the broker gives out none.
   */
  lemma {:induction false} ConnectRoundTrip311(c: Connect, autoId: Option<seq<Byte>>)
    requires Fitting(c)
    ensures ReadConnect(Frame(CONNECT, ConnectBody311(c)), autoId) ==
      if c.clientId != [] then Accepted(true, c)
      else if !c.clean || autoId.None? then Refused(REFUSED_IDENTIFIER)
      else Accepted(true, c.(clientId := autoId.value))
  {
    FlagBits(c);
    RestBack(true, c, autoId);
    hide Text, Uint16, ConnectFlags, WillText, UserText, Fitting, TakeRest;
    var rest := Uint16(c.keepalive) + (Text(c.clientId) + (WillText(c) + UserText(c)));
    HeadTaken(Frame(CONNECT, ConnectBody311(c)), NAME_V311, 4, ConnectFlags(c), rest, autoId);
  }

  // The head of a CONNECT whose first fields are there.
  function ReadHead(command: Byte, name: seq<Byte>, version: Byte, flags: Byte, rest: seq<Byte>,
                    autoId: Option<seq<Byte>>): Login {
    if CString(name) != NAME_V31 && CString(name) != NAME_V311 then Dropped
    else if version % 128 != (if CString(name) == NAME_V311 then 4 else 3) then Refused(REFUSED_PROTOCOL)
    else if (CString(name) == NAME_V311 && command % 16 != 0) || flags / 8 % 4 == 3 then Dropped
    else TakeRest(CString(name) == NAME_V311, flags, rest, autoId)
  }

  lemma {:induction false} HeadTaken(f: Frame, name: seq<Byte>, version: Byte, flags: Byte, rest: seq<Byte>,
                                     autoId: Option<seq<Byte>>)
    requires |name| < 65536 && f.body == Text(name) + ([version, flags] + rest)
    ensures ReadConnect(f, autoId) == ReadHead(f.command, name, version, flags, rest, autoId)
    ensures CString(NAME_V31) == NAME_V31 && CString(NAME_V311) == NAME_V311 && NAME_V31 != NAME_V311
  {
    hide TakeText, Text, CString, TakeRest;
    var s1 := [version, flags] + rest;
    TakeTextBack(name, s1);
    assert s1[1..] == [flags] + rest && s1[1..][1..] == rest;
    assert NulFree(NAME_V31) && NulFree(NAME_V311);
    CStringSame(NAME_V31);
    CStringSame(NAME_V311);
    assert NAME_V31[2] != NAME_V311[2];
  }

  lemma {:induction false} RestBack(v311: bool, c: Connect, autoId: Option<seq<Byte>>)
    requires Fitting(c) && (v311 || c.clientId != [])
    ensures TakeRest(v311, ConnectFlags(c), Uint16(c.keepalive) + (Text(c.clientId) + (WillText(c) + UserText(c))),
                     autoId) ==
      if Nameless(c, autoId) then Refused(REFUSED_IDENTIFIER)
      else Accepted(v311, if c.clientId == [] then c.(clientId := autoId.value) else c)
  {
    var s4 := WillText(c) + UserText(c);
    TakeUint16Back(c.keepalive, Text(c.clientId) + s4);
    TakeTextBack(c.clientId, s4);
    CStringSame(c.clientId);
    FlagBits(c);
    TakeWillBack(v311, c, UserText(c));
    TakeUserBack(v311, c);
    hide TakeText, TakeUint16, Text, Uint16, CString, ConnectFlags, TakeWill, TakeUser, WillText, UserText, Fitting;
  }

  /**
   The examples of MQTT 3.1.1 for PUBLISH (sections 3.3.2: topic "a/b", id 10, here with QoS 1) and
   for the variable header of CONNECT (section 3.1.2: user name, password, will of QoS 1, clean
   session, keep alive 10), byte for byte.
   */
  lemma {:induction false} PublishExample(payload: seq<Byte>)
    ensures PublishCommand(false, 1, false) == 0x32
    ensures PublishBody(Publish(false, 1, false, [97, 47, 98], 10, payload)) == [0, 3, 97, 47, 98, 0, 10] + payload
  {
    TextBytes([97, 47, 98]);
    assert [0, 3] + [97, 47, 98] + [0, 10] == [0, 3, 97, 47, 98, 0, 10];
  }

  lemma {:induction false} ConnectExample()
    ensures var c := Connect([], 10, true, Some(Will([119], [120], 1, false)), Some([117]), Some([112]));
      ConnectBody311(c) ==
        [0, 4, 77, 81, 84, 84] + ([4, 0xCE] + ([0, 10] + ([0, 0] + ([0, 1, 119, 0, 1, 120] + [0, 1, 117, 0, 1, 112]))))
  {
    var c := Connect([], 10, true, Some(Will([119], [120], 1, false)), Some([117]), Some([112]));
    TextBytes(NAME_V311);
    TextBytes([]);
    assert Uint16(10) == [0, 10] && ConnectFlags(c) == 0xCE;
    TwoTexts(119, 120);
    TwoTexts(117, 112);
    hide Text, Uint16, ConnectFlags;
    assert [0, 4] + NAME_V311 == [0, 4, 77, 81, 84, 84] && [0, 0] + [] == [0, 0];
  }

  lemma {:induction false} TwoTexts(a: Byte, b: Byte)
    ensures Text([a]) + Text([b]) == [0, 1, a, 0, 1, b]
  {
    TextBytes([a]);
    TextBytes([b]);
  }

  lemma {:induction false} TextBytes(s: seq<Byte>)
    requires |s| < 256
    ensures Text(s) == [0, |s|] + s
  {
  }

  // ----- Refusals -----

  // The bytes up to the client id, as the fields they consist of.
  predicate LaidOut(body: seq<Byte>, name: seq<Byte>, version: Byte, flags: Byte, keepalive: nat, id: seq<Byte>,
                    rest: seq<Byte>) {
    && |name| < 65536 && |id| < 65536 && keepalive < 65536
    && body == Text(name) + ([version, flags] + (Uint16(keepalive) + (Text(id) + rest)))
  }

  // A known name with the level of the other version, or of none.
  predicate WrongLevel(name: seq<Byte>, version: Byte) {
    || (CString(name) == NAME_V31 && version % 128 != 3)
    || (CString(name) == NAME_V311 && version % 128 != 4)
  }

  // The right level, no reserved bits and an empty id that cannot be replaced.
  predicate UnnamedLogin(command: Byte, name: seq<Byte>, version: Byte, flags: Byte, id: seq<Byte>, gives: bool) {
    && CString(id) == [] && flags / 8 % 4 != 3
    && (|| (CString(name) == NAME_V31 && version % 128 == 3)
        || (CString(name) == NAME_V311 && version % 128 == 4 && command % 16 == 0 && (flags / 2 % 2 == 0 || !gives)))
  }

  lemma {:induction false} TextOf(s: seq<Byte>)
    ensures TakeText(s).Field? ==>
      |TakeText(s).value| < 65536 && s == Text(TakeText(s).value) + TakeText(s).rest
  {
    if TakeText(s).Field? {
      Uint16Of(s);
      hide Uint16, TakeUint16;
      var n, rest := TakeUint16(s).value, TakeUint16(s).rest;
      TextFrom(n, rest);
    }
  }

  lemma {:induction false} TextFrom(n: nat, s: seq<Byte>)
    requires n < 65536 && n <= |s|
    ensures |s[..n]| == n && Uint16(n) + s == Text(s[..n]) + s[n..]
  {
    hide Uint16;
    assert s[..n][..n] == s[..n] && s == s[..n] + s[n..];
    assert (Uint16(n) + s[..n]) + s[n..] == Uint16(n) + (s[..n] + s[n..]);
  }

  lemma {:induction false} Uint16Of(s: seq<Byte>)
    ensures TakeUint16(s).Field? ==>
      TakeUint16(s).value < 65536 && s == Uint16(TakeUint16(s).value) + TakeUint16(s).rest
  {
  }

  /**
   A CONNECT is refused with the code for the protocol if and only if its name is known and its level
   is not that of the name, whatever comes behind.
   */
  lemma {:induction false} ProtocolRefused(f: Frame, autoId: Option<seq<Byte>>)
    ensures ReadConnect(f, autoId) == Refused(REFUSED_PROTOCOL) <==>
      exists name: seq<Byte>, version: Byte, rest: seq<Byte> ::
        |name| < 65536 && f.body == Text(name) + ([version] + rest) && WrongLevel(name, version)
  {
    hide Text, CString, TakeText;
    assert NAME_V31[2] != NAME_V311[2];
    RestCodes(f, autoId);
    if ReadConnect(f, autoId) == Refused(REFUSED_PROTOCOL) {
      TextOf(f.body);
      var s1 := TakeText(f.body).rest;
      assert s1 == [s1[0]] + s1[1..] && WrongLevel(TakeText(f.body).value, s1[0]);
    }
    forall name: seq<Byte>, version: Byte, rest: seq<Byte>
      | |name| < 65536 && f.body == Text(name) + ([version] + rest) && WrongLevel(name, version)
      ensures ReadConnect(f, autoId) == Refused(REFUSED_PROTOCOL)
    {
      TakeTextBack(name, [version] + rest);
    }
  }

  // Behind the flags only the client id is refused with a code.
  lemma {:induction false} RestCodes(f: Frame, autoId: Option<seq<Byte>>)
    ensures ReadConnect(f, autoId).Refused? ==> ReadConnect(f, autoId).code in {REFUSED_PROTOCOL, REFUSED_IDENTIFIER}
    ensures forall v311: bool, flags: Byte, s: seq<Byte> ::
              TakeRest(v311, flags, s, autoId) != Refused(REFUSED_PROTOCOL)
  {
    hide TakeText, CString, TakeWill, TakeUser;
  }

  /**
   It is refused with the code for the identifier if and only if the fields up to the id are there,
   name, level and reserved bits are right, the id is empty, and either it is of version 3.1, or it
   asks for a lasting session, or the broker gives out no ids.
   */
  lemma {:induction false} IdentifierRefused(f: Frame, autoId: Option<seq<Byte>>)
    ensures ReadConnect(f, autoId) == Refused(REFUSED_IDENTIFIER) <==>
      exists name: seq<Byte>, version: Byte, flags: Byte, keepalive: nat, id: seq<Byte>, rest: seq<Byte> ::
        LaidOut(f.body, name, version, flags, keepalive, id, rest) &&
        UnnamedLogin(f.command, name, version, flags, id, autoId.Some?)
  {
    hide LaidOut, UnnamedLogin, ReadConnect;
    if ReadConnect(f, autoId) == Refused(REFUSED_IDENTIFIER) {
      var name, version, flags, keepalive, id, rest := IdentifierFields(f, autoId);
    }
    forall name: seq<Byte>, version: Byte, flags: Byte, keepalive: nat, id: seq<Byte>, rest: seq<Byte>
      | LaidOut(f.body, name, version, flags, keepalive, id, rest) &&
        UnnamedLogin(f.command, name, version, flags, id, autoId.Some?)
      ensures ReadConnect(f, autoId) == Refused(REFUSED_IDENTIFIER)
    {
      Unnamed(f, name, version, flags, keepalive, id, rest, autoId);
    }
  }

  lemma {:induction false} IdentifierFields(f: Frame, autoId: Option<seq<Byte>>)
    returns (name: seq<Byte>, version: Byte, flags: Byte, keepalive: nat, id: seq<Byte>, rest: seq<Byte>)
    requires ReadConnect(f, autoId) == Refused(REFUSED_IDENTIFIER)
    ensures LaidOut(f.body, name, version, flags, keepalive, id, rest)
    ensures UnnamedLogin(f.command, name, version, flags, id, autoId.Some?)
  {
    hide Text, Uint16, CString, TakeText, TakeUint16, TakeWill, TakeUser;
    TextOf(f.body);
    name := TakeText(f.body).value;
    var s1 := TakeText(f.body).rest;
    version, flags := s1[0], s1[1..][0];
    var s3 := s1[1..][1..];
    assert s1 == [version, flags] + s3;
    Uint16Of(s3);
    keepalive := TakeUint16(s3).value;
    TextOf(TakeUint16(s3).rest);
    id, rest := TakeText(TakeUint16(s3).rest).value, TakeText(TakeUint16(s3).rest).rest;
  }

  lemma {:induction false} Unnamed(f: Frame, name: seq<Byte>, version: Byte, flags: Byte, keepalive: nat,
                                   id: seq<Byte>, rest: seq<Byte>, autoId: Option<seq<Byte>>)
    requires LaidOut(f.body, name, version, flags, keepalive, id, rest)
    requires UnnamedLogin(f.command, name, version, flags, id, autoId.Some?)
    ensures ReadConnect(f, autoId) == Refused(REFUSED_IDENTIFIER)
  {
    hide Text, Uint16, CString, TakeText, TakeUint16, TakeWill, TakeUser, ReadConnect;
    HeadTaken(f, name, version, flags, Uint16(keepalive) + (Text(id) + rest), autoId);
    TakeUint16Back(keepalive, Text(id) + rest);
    TakeTextBack(id, rest);
  }

  // Bits that version 3.1.1 reserves, or that say something about a field that is not there.
  predicate BadBits(command: Byte, flags: Byte) {
    || command % 16 != 0 || flags / 8 % 4 == 3
    || (flags / 4 % 2 == 0 && (flags / 8 % 4 != 0 || flags / 32 % 2 == 1))
    || (flags / 128 % 2 == 0 && flags / 64 % 2 == 1)
  }

  // With such bits a 3.1.1 CONNECT that carries an id is dropped without an answer.
  lemma {:induction false} BadBitsDropped(f: Frame, flags: Byte, keepalive: nat, id: seq<Byte>, rest: seq<Byte>,
                                          autoId: Option<seq<Byte>>)
    requires LaidOut(f.body, NAME_V311, 4, flags, keepalive, id, rest) && CString(id) != []
    requires BadBits(f.command, flags)
    ensures ReadConnect(f, autoId) == Dropped
  {
    hide Text, Uint16, CString, TakeText, TakeUint16, ReadConnect;
    HeadTaken(f, NAME_V311, 4, flags, Uint16(keepalive) + (Text(id) + rest), autoId);
    TakeUint16Back(keepalive, Text(id) + rest);
    TakeTextBack(id, rest);
  }

  // No string is longer than its length field can say.
  predicate Short(c: Connect) {
    && |c.clientId| < 65536
    && (c.will.Some? ==> |c.will.value.topic| < 65536 && |c.will.value.payload| < 65536)
    && (c.username.Some? ==> |c.username.value| < 65536 && (c.password.Some? ==> |c.password.value| < 65536))
  }

  function ConnectLength(c: Connect): nat {
    14 + |c.clientId|
    + (if c.will.Some? then 4 + |c.will.value.topic| + |c.will.value.payload| else 0)
    + (if c.username.Some? then
         2 + |c.username.value| + (if c.password.Some? then 2 + |c.password.value| else 0)
       else 0)
  }

  lemma {:induction false} ConnectBodyLength(c: Connect)
    requires c.keepalive < 65536 && (c.will.Some? ==> c.will.value.qos <= 2)
    ensures |ConnectBody(c)| <= ConnectLength(c)
    ensures |ConnectBody(c)| == ConnectLength(c) <==> Short(c)
  {
    ConnectParts(c);
    WillLength(c);
    UserLength(c);
    hide WillText, UserText, ConnectHead, ConnectBody;
  }

  lemma {:induction false} WillLength(c: Connect)
    ensures var n := if c.will.Some? then 4 + |c.will.value.topic| + |c.will.value.payload| else 0;
      && |WillText(c)| <= n
      && (|WillText(c)| == n <==> (c.will.Some? ==> |c.will.value.topic| < 65536 && |c.will.value.payload| < 65536))
  {
    hide Text;
  }

  lemma {:induction false} UserLength(c: Connect)
    ensures var n :=
        if c.username.Some? then 2 + |c.username.value| + (if c.password.Some? then 2 + |c.password.value| else 0)
        else 0;
      && |UserText(c)| <= n
      && (|UserText(c)| == n <==> (c.username.Some? ==> |c.username.value| < 65536 && (c.password.Some? ==>
          |c.password.value| < 65536)))
  {
    hide Text;
  }

  function ConnectHead(c: Connect): seq<Byte>
    requires c.keepalive < 65536 && (c.will.Some? ==> c.will.value.qos <= 2)
  {
    Text(NAME_V31) + [3] + [ConnectFlags(c)] + Uint16(c.keepalive) + Text(c.clientId)
  }

  lemma {:induction false} ConnectParts(c: Connect)
    requires c.keepalive < 65536 && (c.will.Some? ==> c.will.value.qos <= 2)
    ensures ConnectBody(c) == ConnectHead(c) + WillText(c) + UserText(c)
    ensures |ConnectHead(c)| == 14 + |c.clientId| % 65536 <= 14 + |c.clientId|
  {
    hide Text, Uint16, WillText, UserText, ConnectFlags;
    var a, b, d, e := Text(NAME_V31), Uint16(c.keepalive), Text(c.clientId), WillText(c) + UserText(c);
    assert [3] + [ConnectFlags(c)] == [3, ConnectFlags(c)];
    assert a + ([3, ConnectFlags(c)] + (b + (d + e))) == (((a + [3, ConnectFlags(c)]) + b) + d) + e;
  }

  // The variable header and the client id.
  method WriteHead(packet: Packet, c: Connect)
    requires c.keepalive < 65536 && (c.will.Some? ==> c.will.value.qos <= 2)
    requires packet.pos + |ConnectHead(c)| <= packet.packetLength == packet.payload.Length
    modifies packet`pos, packet.payload
    ensures packet.pos == old(packet.pos) + |ConnectHead(c)| && packet.Laid() == old(packet.Laid()) + ConnectHead(c)
  {
    ConnectParts(c);
    hide Text, Uint16, Packet.Laid;
    ghost var laid := packet.Laid();
    assert |NAME_V31| == 6;
    packet.WriteString(NAME_V31);
    packet.WriteByte(3);
    var byte := Bit(c.clean, 2);
    if c.will.Some? {
      byte := byte + Bit(c.will.value.retain, 32) + c.will.value.qos * 8 + 4;
    }
    if c.username.Some? {
      byte := byte + 128;
      if c.password.Some? {
        byte := byte + 64;
      }
    }
    assert byte == ConnectFlags(c);
    packet.WriteByte(byte);
    hide ConnectFlags;
    packet.WriteUint16(c.keepalive);
    packet.WriteString(c.clientId);
    Chain5(laid, Text(NAME_V31), [3], [ConnectFlags(c)], Uint16(c.keepalive), Text(c.clientId));
  }

  lemma {:induction false} Chain5(l: seq<Byte>, a: seq<Byte>, b: seq<Byte>, c: seq<Byte>, d: seq<Byte>, e: seq<Byte>)
    ensures l + a + b + c + d + e == l + (a + b + c + d + e)
  {
  }

  // The will and the user.
  method WriteTail(packet: Packet, c: Connect)
    requires packet.pos + |WillText(c)| + |UserText(c)| <= packet.packetLength == packet.payload.Length
    modifies packet`pos, packet.payload
    ensures packet.pos == old(packet.pos) + |WillText(c)| + |UserText(c)|
    ensures packet.Laid() == old(packet.Laid()) + WillText(c) + UserText(c)
  {
    hide Text, Packet.Laid;
    ghost var laid := packet.Laid();
    assert laid + [] == laid;
    if c.will.Some? {
      packet.WriteString(c.will.value.topic);
      packet.WriteString(c.will.value.payload);
      assert (laid + Text(c.will.value.topic)) + Text(c.will.value.payload) == laid + WillText(c);
    }
    ghost var more := packet.Laid();
    assert more == laid + WillText(c) && more + [] == more;
    if c.username.Some? {
      packet.WriteString(c.username.value);
      if c.password.Some? {
        packet.WriteString(c.password.value);
        assert (more + Text(c.username.value)) + Text(c.password.value) == more + UserText(c);
      }
    }
  }

  /**
   _mosquitto_send_connect: unless the packet is too long to be framed, it is laid out without
   running over its end, and it is filled exactly if every string fits its length field.
   */
  method SendConnect(c: Connect) returns (packet: Packet, ok: bool)
    requires c.keepalive < 65536 && (c.will.Some? ==> c.will.value.qos <= 2) && ConnectLength(c) < 0x8000_0000
    ensures fresh(packet) && (ok <==> ConnectLength(c) < MAX_REMAINING)
    ensures ok ==>
      && packet.pos <= packet.payload.Length == packet.packetLength
      && packet.Laid() == [CONNECT] + EncodeLength(packet.remainingLength) + ConnectBody(c)
      && (packet.pos == packet.packetLength <==> Short(c))
    ensures ok && Short(c) ==> packet.payload[..] == Encode(Frame(CONNECT, ConnectBody(c)))
  {
    hide EncodeLength, Text, Uint16, ConnectBody, ConnectHead, WillText, UserText, Short;
    var payloadlen := 2 + |c.clientId|;
    if c.will.Some? {
      payloadlen := payloadlen + 2 + |c.will.value.topic| + 2 + |c.will.value.payload|;
    }
    if c.username.Some? {
      payloadlen := payloadlen + 2 + |c.username.value|;
      if c.password.Some? {
        payloadlen := payloadlen + 2 + |c.password.value|;
      }
    }
    packet := new Packet(CONNECT, 12 + payloadlen);
    ok := packet.Alloc();
    if !ok {
      return;
    }
    ghost var header := packet.Laid();
    assert header == [CONNECT] + EncodeLength(packet.remainingLength);
    hide Packet.Laid;
    ConnectBodyLength(c);
    ConnectParts(c);
    WriteHead(packet, c);
    WriteTail(packet, c);
    assert ((header + ConnectHead(c)) + WillText(c)) + UserText(c) == header + ConnectBody(c);
    FullPacket(packet, packet.Laid());
  }

  // A user name of 65536 bytes: the packet has room for it and is framed, but only its empty
  // remainder is laid out, so 65536 bytes stay unfilled and the broker reads an empty name.
  lemma {:induction false} LongNameLost(c: Connect, name: seq<Byte>, autoId: Option<seq<Byte>>)
    requires c == Connect([99], 60, true, None, Some(name), None) && |name| == 65536
    ensures ConnectLength(c) < MAX_REMAINING && |ConnectBody(c)| == ConnectLength(c) - 65536
    ensures ReadConnect(Frame(CONNECT, ConnectBody(c)), autoId) == Accepted(false, c.(username := Some([])))
  {
    var bare := c.(username := Some([]));
    assert Text(name) == Text([]);
    assert ConnectBody(c) == ConnectBody(bare) by { hide Text; }
    ConnectBodyLength(bare);
    ConnectRoundTrip(bare, autoId);
  }

  // The reading side, up to the end of the fields.
  method HandleConnect(packet: InPacket, autoId: Option<seq<Byte>>) returns (r: Login)
    requires packet.pos == 0
    modifies packet
    ensures r == ReadConnect(Frame(packet.command, packet.payload), autoId)
  {
    hide TakeText, TakeUint16, TakeByte, CString, TakeRest;
    assert packet.Rest() == packet.payload;
    var protocolName := packet.ReadString();
    if protocolName.None? {
      return Dropped;
    }
    var protocolVersion := packet.ReadByte();
    if protocolVersion.None? {
      return Dropped;
    }
    var v311 := false;
    if CString(protocolName.value) == NAME_V31 {
      assert NAME_V31[2] != NAME_V311[2];
      if protocolVersion.value % 128 != 3 {
        return Refused(REFUSED_PROTOCOL);
      }
    } else if CString(protocolName.value) == NAME_V311 {
      if protocolVersion.value % 128 != 4 {
        return Refused(REFUSED_PROTOCOL);
      }
      if packet.command % 16 != 0 {
        return Dropped;
      }
      v311 := true;
    } else {
      return Dropped;
    }
    var connectFlags := packet.ReadByte();
    if connectFlags.None? {
      return Dropped;
    }
    if connectFlags.value / 8 % 4 == 3 {
      return Dropped;
    }
    r := HandleFields(packet, v311, connectFlags.value, autoId);
  }

  method HandleFields(packet: InPacket, v311: bool, flags: Byte, autoId: Option<seq<Byte>>) returns (r: Login)
    requires packet.pos <= |packet.payload|
    modifies packet
    ensures r == TakeRest(v311, flags, old(packet.Rest()), autoId)
  {
    hide TakeText, TakeUint16, CString, TakeWill, TakeUser;
    var keepalive := packet.ReadUint16();
    if keepalive.None? {
      return Dropped;
    }
    var clientId := packet.ReadString();
    if clientId.None? {
      return Dropped;
    }
    var id, clean := CString(clientId.value), flags / 2 % 2 == 1;
    if id == [] {
      if !v311 {
        return Refused(REFUSED_IDENTIFIER);
      }
      if !clean {
        return Refused(REFUSED_IDENTIFIER);
      }
      if autoId.None? {
        return Refused(REFUSED_IDENTIFIER);
      }
      id := autoId.value;
    }
    var ok, will := HandleWill(packet, v311, flags);
    if !ok {
      return Dropped;
    }
    var fine, username, password := HandleUser(packet, v311, flags);
    if !fine {
      return Dropped;
    }
    r := Accepted(v311, Connect(id, keepalive.value, clean, will, username, password));
  }

  method HandleWill(packet: InPacket, v311: bool, flags: Byte) returns (ok: bool, will: Option<Will>)
    requires packet.pos <= |packet.payload|
    modifies packet
    ensures packet.pos <= |packet.payload|
    ensures match TakeWill(v311, flags, old(packet.Rest()))
      case None => !ok
      case Some(w) => ok && will == w.0 && packet.Rest() == w.1
  {
    hide TakeText, TakeUint16, TakeBytes, CString, ValidFilter, Chars;
    ok, will := true, None;
    var qos, retain := flags / 8 % 4, flags / 32 % 2 == 1;
    if flags / 4 % 2 == 1 {
      TextShort(packet.Rest());
      var topic := packet.ReadString();
      if topic.None? {
        ok := false;
        return;
      }
      if CString(topic.value) == [] {
        ok := false;
        return;
      }
      var rc := TopicWildcardPosCheck(Chars(CString(topic.value)));
      if rc != Success {
        ok := false;
        return;
      }
      var payload := packet.ReadString();
      if payload.None? {
        ok := false;
        return;
      }
      will := Some(Will(CString(topic.value), payload.value, qos, retain));
    } else if v311 && (qos != 0 || retain) {
      ok := false;
    }
  }

  method HandleUser(packet: InPacket, v311: bool, flags: Byte) returns (ok: bool, username: Option<seq<Byte>>,
      password: Option<seq<Byte>>)
    requires packet.pos <= |packet.payload|
    modifies packet
    ensures match TakeUser(v311, flags, old(packet.Rest()))
      case None => !ok
      case Some(u) => ok && username == u.0 && password == u.1
  {
    hide TakeText, CString;
    ok, username, password := true, None, None;
    var hasName, hasPassword := flags / 128 % 2 == 1, flags / 64 % 2 == 1;
    if hasName {
      var name := packet.ReadString();
      if name.Some? {
        username := Some(CString(name.value));
        if hasPassword {
          var word := packet.ReadString();
          if word.Some? {
            password := Some(CString(word.value));
          } else if v311 {
            ok := false;
          }
        }
      } else if v311 {
        ok := false;
      }
    } else if v311 && hasPassword {
      ok := false;
    }
  }
}
