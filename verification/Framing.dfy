/**
 Packets on the wire (section 2.2.3 of MQTT 3.1.1): laying out the fixed header
 (_mosquitto_packet_alloc, lib/util_mosq.c:50-83) and the resumable reader
 (_mosquitto_packet_read, lib/net_mosq.c:820-970).

 The socket is a script of what the next reads find. Handing a packet over is recording it.
 */
module Framing {
  import opened Topics

  type Byte = b: int | 0 <= b < 256

  datatype Frame = Frame(command: Byte, body: seq<Byte>)

  const MAX_REMAINING := 268435456   // 128 to the power of 4

  // ----- The wire format -----

  // Seven bits to a byte, the lowest first; the top bit says that more follow.
  function EncodeLength(n: nat): (r: seq<Byte>)
    ensures r != []
  {
    if n < 128 then [n] else [128 + n % 128] + EncodeLength(n / 128)
  }

  function Encode(f: Frame): seq<Byte> {
    [f.command] + EncodeLength(|f.body|) + f.body
  }

  function Stream(frames: seq<Frame>): seq<Byte> {
    if frames == [] then [] else Stream(frames[..|frames| - 1]) + Encode(frames[|frames| - 1])
  }

  predicate Sendable(f: Frame) {
    f.command != 0 && |f.body| < MAX_REMAINING
  }

  predicate AllSendable(frames: seq<Frame>) {
    forall i :: 0 <= i < |frames| ==> Sendable(frames[i])
  }

  lemma {:induction false} AllSendableSplit(frames: seq<Frame>)
    requires frames != []
    ensures AllSendable(frames) <==> AllSendable(frames[..|frames| - 1]) && Sendable(frames[|frames| - 1])
  {
    hide Sendable;
    if AllSendable(frames[..|frames| - 1]) && Sendable(frames[|frames| - 1]) {
      forall i | 0 <= i < |frames| ensures Sendable(frames[i]) {
        if i < |frames| - 1 { assert Sendable(frames[..|frames| - 1][i]); }
      }
    }
  }

  // The ends of the ranges that section 2.2.3 of MQTT 3.1.1 tabulates.
  lemma {:induction false} LengthExamples()
    ensures EncodeLength(127) == [0x7F] && EncodeLength(128) == [0x80, 0x01]
    ensures EncodeLength(16383) == [0xFF, 0x7F] && EncodeLength(16384) == [0x80, 0x80, 0x01]
    ensures EncodeLength(2097151) == [0xFF, 0xFF, 0x7F] && EncodeLength(2097152) == [0x80, 0x80, 0x80, 0x01]
    ensures EncodeLength(268435455) == [0xFF, 0xFF, 0xFF, 0x7F]
  {
    assert EncodeLength(1) == [1] && EncodeLength(128) == [128] + [1];
    assert EncodeLength(16383) == [255] + EncodeLength(127);
    assert EncodeLength(16384) == [128] + EncodeLength(128);
    assert EncodeLength(2097151) == [255] + EncodeLength(16383);
    assert EncodeLength(2097152) == [128] + EncodeLength(16384);
    assert EncodeLength(268435455) == [255] + EncodeLength(2097151);
  }

  // Four bytes hold exactly the lengths below 128^4.
  lemma {:induction false} LengthFits(n: nat, k: nat)
    requires k > 0
    ensures |EncodeLength(n)| <= k <==> n < Pow128(k)
    decreases k
  {
    if n >= 128 {
      if k == 1 {
        assert Pow128(1) == 128 * Pow128(0);
      } else {
        LengthFits(n / 128, k - 1);
        assert n / 128 < Pow128(k - 1) <==> n < 128 * Pow128(k - 1);
      }
    } else {
      Pow128Grows(k);
    }
  }

  function Pow128(k: nat): (p: nat)
    ensures p > 0
  {
    if k == 0 then 1 else 128 * Pow128(k - 1)
  }

  lemma {:induction false} Pow128Grows(k: nat)
    requires k > 0
    ensures Pow128(k) >= 128
  {
  }

  lemma {:induction false} Pow128Four()
    ensures Pow128(4) == MAX_REMAINING
  {
    assert Pow128(1) == 128 && Pow128(2) == 16384 && Pow128(3) == 2097152;
  }

  lemma {:induction false} DigitStep(digits: seq<Byte>, n: nat)
    ensures digits + EncodeLength(n) ==
      if n / 128 > 0 then (digits + [n % 128 + 128]) + EncodeLength(n / 128) else digits + [n % 128]
  {
  }

  // Its loop: the length bytes, cut off after the fifth.
  method LengthBytes(n: nat) returns (digits: seq<Byte>)
    ensures |digits| <= 5 && |EncodeLength(n)| >= |digits|
    ensures |digits| < 5 ==> digits == EncodeLength(n)
  {
    hide EncodeLength;
    var rest, more := n, true;
    digits := [];
    assert [] + EncodeLength(n) == EncodeLength(n);
    while more
      invariant if more then |digits| < 5 && digits + EncodeLength(rest) == EncodeLength(n)
        else |digits| <= 5 && EncodeLength(n) == digits + if rest == 0 then [] else EncodeLength(rest)
      invariant !more && |digits| < 5 ==> rest == 0
      decreases more, rest
    {
      DigitStep(digits, rest);
      var byte := rest % 128;
      rest := rest / 128;
      if rest > 0 {
        byte := byte + 128;
      }
      digits := digits + [byte];
      more := rest > 0 && |digits| < 5;
      assert digits + [] == digits;
    }
  }

  class Packet {
    const command: Byte
    const remainingLength: nat
    var remainingCount: nat
    var packetLength: nat
    var pos: nat
    var toProcess: nat
    var payload: array<Byte>

    constructor (command: Byte, remainingLength: nat)
      requires remainingLength < 0x1_0000_0000
      ensures this.command == command && this.remainingLength == remainingLength && fresh(payload)
    {
      this.command, this.remainingLength := command, remainingLength;
      remainingCount, packetLength, pos, toProcess := 0, 0, 0, 0;
      payload := new Byte[0];
    }

    /**
     _mosquitto_packet_alloc: it refuses exactly the lengths that four bytes cannot hold, and
     otherwise leaves room for the body behind the fixed header.
     */
    method Alloc() returns (ok: bool)
      modifies this
      ensures ok <==> remainingLength < MAX_REMAINING
      ensures ok ==>
        && fresh(payload) && payload.Length == packetLength == pos + remainingLength
        && payload[..pos] == [command] + EncodeLength(remainingLength)
    {
      hide EncodeLength;
      var digits := LengthBytes(remainingLength);
      remainingCount := |digits|;
      LengthFits(remainingLength, 4);
      Pow128Four();
      if remainingCount == 5 {
        return false;
      }
      packetLength := remainingLength + 1 + remainingCount;
      var buffer := new Byte[packetLength];
      buffer[0] := command;
      for i := 0 to remainingCount
        modifies buffer
        invariant buffer[0] == command && forall k :: 0 <= k < i ==> buffer[k + 1] == digits[k]
      {
        buffer[i + 1] := digits[i];
      }
      payload := buffer;
      pos := 1 + remainingCount;
      assert payload[..pos] == [command] + digits;
      return true;
    }

    // The bytes laid out so far.
    function Laid(): seq<Byte>
      requires pos <= payload.Length
      reads this, payload
    {
      payload[..pos]
    }

    // The write_ functions of lib/net_mosq.c:516-589. Each asserts first that there is room.
    method WriteByte(byte: Byte)
      requires pos + 1 <= packetLength == payload.Length
      modifies this`pos, payload
      ensures pos == old(pos) + 1 && Laid() == old(Laid()) + [byte]
    {
      payload[pos] := byte;
      pos := pos + 1;
    }

    method WriteBytes(bytes: seq<Byte>)
      requires pos + |bytes| <= packetLength == payload.Length
      modifies this`pos, payload
      ensures pos == old(pos) + |bytes| && Laid() == old(Laid()) + bytes
    {
      ghost var laid := Laid();
      forall k | 0 <= k < |bytes| {
        payload[pos + k] := bytes[k];
      }
      pos := pos + |bytes|;
      assert Laid()[..|laid|] == laid;
    }

    method WriteUint16(word: nat)
      requires pos + 2 <= packetLength == payload.Length && word < 65536
      modifies this`pos, payload
      ensures pos == old(pos) + 2 && Laid() == old(Laid()) + Uint16(word)
    {
      WriteByte(word / 256);
      WriteByte(word % 256);
    }

    // The length parameter is a uint16_t: of a longer string only the low 16 bits of its length arrive.
    method WriteString(str: seq<Byte>)
      requires pos + 2 + |str| % 65536 <= packetLength == payload.Length
      modifies this`pos, payload
      ensures pos == old(pos) + 2 + |str| % 65536 && Laid() == old(Laid()) + Text(str)
    {
      ghost var laid := Laid();
      WriteUint16(|str| % 65536);
      WriteBytes(str[..|str| % 65536]);
      assert laid + Text(str) == (laid + Uint16(|str| % 65536)) + str[..|str| % 65536];
    }
  }

  // Two bytes, the high one first.
  function Uint16(word: nat): (r: seq<Byte>)
    requires word < 65536
    ensures |r| == 2
  {
    [word / 256, word % 256]
  }

  // A string with its length in front.
  function Text(str: seq<Byte>): (r: seq<Byte>)
    ensures |r| == 2 + |str| % 65536
  {
    Uint16(|str| % 65536) + str[..|str| % 65536]
  }

  // ----- Reading, one byte at a time -----

  // Where a reader stands after some bytes: it may have lost its place (a zero command byte is
  // taken for none), or have met a fifth length byte.
  datatype State =
    | Lost(handled: seq<Frame>)
    | Broken(handled: seq<Frame>)
    | At(handled: seq<Frame>, command: Byte, count: nat, mult: nat, length: nat, have: bool, body: seq<Byte>)

  function Idle(handled: seq<Frame>): State { At(handled, 0, 0, 1, 0, false, []) }

  function Complete(handled: seq<Frame>, command: Byte, body: seq<Byte>): State {
    Idle(handled + [Frame(command, body)])
  }

  function Feed(s: State, b: Byte): State {
    if !s.At? then s
    else if s.command == 0 then
      if b == 0 then Lost(s.handled) else s.(command := b)
    else if !s.have then
      if s.count == 4 then Broken(s.handled)
      else
        var length := s.length + (b % 128) * s.mult;
        if b >= 128 then s.(count := s.count + 1, mult := s.mult * 128, length := length)
        else if length == 0 then Complete(s.handled, s.command, [])
        else s.(count := s.count + 1, mult := s.mult * 128, length := length, have := true)
    else if |s.body| + 1 >= s.length then Complete(s.handled, s.command, s.body + [b])
    else s.(body := s.body + [b])
  }

  function FeedAll(s: State, bytes: seq<Byte>): State {
    if bytes == [] then s else Feed(FeedAll(s, bytes[..|bytes| - 1]), bytes[|bytes| - 1])
  }

  lemma {:induction false} FeedConcat(s: State, a: seq<Byte>, b: seq<Byte>)
    ensures FeedAll(s, a + b) == FeedAll(FeedAll(s, a), b)
    decreases |b|
  {
    if b == [] {
      assert a + b == a;
    } else {
      FeedConcat(s, a, b[..|b| - 1]);
      assert (a + b)[..|a + b| - 1] == a + b[..|b| - 1];
    }
  }

  lemma {:induction false} FeedOne(s: State, b: Byte)
    ensures FeedAll(s, [b]) == Feed(s, b)
  {
    assert [b][..0] == [];
  }

  // The bytes of a length, read behind `count` earlier ones.
  lemma {:induction false} FeedLength(s: State, n: nat)
    requires s.At? && s.command != 0 && !s.have && s.body == [] && s.count + |EncodeLength(n)| <= 4
    ensures var length := s.length + n * s.mult;
      FeedAll(s, EncodeLength(n)) ==
        if length == 0 then Complete(s.handled, s.command, [])
        else s.(count := s.count + |EncodeLength(n)|, mult := s.mult * Pow128(|EncodeLength(n)|), length := length,
                have := true)
    decreases n
  {
    if n < 128 {
      FeedOne(s, n);
      assert Pow128(1) == 128 * Pow128(0);
    } else {
      var b, r := 128 + n % 128, EncodeLength(n / 128);
      assert EncodeLength(n) == [b] + r && b % 128 == n % 128;
      var length := s.length + (n % 128) * s.mult;
      var s' := s.(count := s.count + 1, mult := s.mult * 128, length := length);
      assert Feed(s, b) == s';
      hide EncodeLength, Feed, Pow128;
      FeedOne(s, b);
      FeedConcat(s, [b], r);
      FeedLength(s', n / 128);
      LengthDigits(n, s.mult);
      MultStep(s.mult, |r|);
    }
  }

  lemma {:induction false} LengthDigits(n: nat, mult: nat)
    ensures (n % 128) * mult + (n / 128) * (mult * 128) == n * mult
  {
    assert n == n / 128 * 128 + n % 128;
    assert (n / 128) * (mult * 128) == (n / 128 * 128) * mult;
    assert (n / 128 * 128 + n % 128) * mult == (n / 128 * 128) * mult + (n % 128) * mult;
  }

  lemma {:induction false} MultStep(mult: nat, k: nat)
    ensures mult * 128 * Pow128(k) == mult * Pow128(k + 1)
  {
    assert mult * 128 * Pow128(k) == mult * (128 * Pow128(k));
  }

  // All but the last bytes of a body, and all of them.
  lemma {:induction false} FeedBody(s: State, bytes: seq<Byte>)
    requires s.At? && s.command != 0 && s.have && |s.body| + |bytes| <= s.length && |s.body| < s.length
    ensures FeedAll(s, bytes) ==
      if |s.body| + |bytes| == s.length then Complete(s.handled, s.command, s.body + bytes)
      else s.(body := s.body + bytes)
    decreases |bytes|
  {
    if bytes == [] {
      assert s.body + [] == s.body;
    } else {
      var shorter, b := bytes[..|bytes| - 1], bytes[|bytes| - 1];
      FeedBody(s, shorter);
      assert s.body + bytes == (s.body + shorter) + [b];
    }
  }

  lemma {:induction false} FeedFrame(handled: seq<Frame>, f: Frame)
    requires Sendable(f)
    ensures FeedAll(Idle(handled), Encode(f)) == Idle(handled + [f])
  {
    var s0, n := Idle(handled), |f.body|;
    var s1 := s0.(command := f.command);
    FeedOne(s0, f.command);
    FeedConcat(s0, [f.command], EncodeLength(n));
    FeedConcat(s0, [f.command] + EncodeLength(n), f.body);
    LengthFits(n, 4);
    Pow128Four();
    FeedLength(s1, n);
    var s2 := FeedAll(s1, EncodeLength(n));
    if n == 0 {
      assert f.body == [];
    } else {
      FeedBody(s2, f.body);
      assert [] + f.body == f.body;
    }
  }

  // What is written is read back.
  lemma {:induction false} FeedStream(handled: seq<Frame>, frames: seq<Frame>)
    requires AllSendable(frames)
    ensures FeedAll(Idle(handled), Stream(frames)) == Idle(handled + frames)
    decreases |frames|
  {
    if frames == [] {
      assert handled + [] == handled;
    } else {
      hide Feed, FeedAll, Encode, Sendable, AllSendable;
      var shorter, f := frames[..|frames| - 1], frames[|frames| - 1];
      AllSendableSplit(frames);
      FeedStream(handled, shorter);
      FeedConcat(Idle(handled), Stream(shorter), Encode(f));
      FeedFrame(handled + shorter, f);
      assert handled + frames == (handled + shorter) + [f];
    }
  }

  // A length that takes more than four bytes in all.
  lemma {:induction false} FeedTooLong(s: State, n: nat)
    requires s.At? && s.command != 0 && !s.have && s.count <= 4 && s.count + |EncodeLength(n)| > 4
    ensures FeedAll(s, EncodeLength(n)).Broken?
    decreases n
  {
    if s.count == 4 {
      FeedConcat(s, [EncodeLength(n)[0]], EncodeLength(n)[1..]);
      FeedOne(s, EncodeLength(n)[0]);
      assert EncodeLength(n) == [EncodeLength(n)[0]] + EncodeLength(n)[1..];
      FeedGrows(Feed(s, EncodeLength(n)[0]), EncodeLength(n)[1..]);
    } else {
      var b := 128 + n % 128;
      FeedOne(s, b);
      FeedConcat(s, [b], EncodeLength(n / 128));
      FeedTooLong(Feed(s, b), n / 128);
    }
  }

  lemma {:induction false} FeedUnsendable(handled: seq<Frame>, f: Frame)
    requires !Sendable(f)
    ensures !FeedAll(Idle(handled), Encode(f)).At?
  {
    var n := |f.body|;
    FeedOne(Idle(handled), f.command);
    FeedConcat(Idle(handled), [f.command], EncodeLength(n));
    FeedConcat(Idle(handled), [f.command] + EncodeLength(n), f.body);
    LengthFits(n, 4);
    Pow128Four();
    if f.command == 0 {
      FeedGrows(Lost(handled), EncodeLength(n));
    } else {
      FeedTooLong(Idle(handled).(command := f.command), n);
    }
    FeedGrows(FeedAll(Idle(handled), [f.command] + EncodeLength(n)), f.body);
  }

  /**
   The reader keeps its place in the stream of some packets exactly if every command is non-zero
   and every body below 128^4 bytes, and then it reads back what was written.
   */
  lemma {:induction false} ReadBackExactly(frames: seq<Frame>)
    ensures FeedAll(Idle([]), Stream(frames)).At? <==> AllSendable(frames)
    ensures FeedAll(Idle([]), Stream(frames)).At? ==> FeedAll(Idle([]), Stream(frames)) == Idle(frames)
    decreases |frames|
  {
    assert FeedAll(Idle([]), []) == Idle([]);
    if frames != [] {
      hide Feed, FeedAll, Encode, Sendable, AllSendable;
      var shorter, f := frames[..|frames| - 1], frames[|frames| - 1];
      AllSendableSplit(frames);
      ReadBackExactly(shorter);
      FeedConcat(Idle([]), Stream(shorter), Encode(f));
      FeedGrows(FeedAll(Idle([]), Stream(shorter)), Encode(f));
      if FeedAll(Idle([]), Stream(shorter)).At? {
        if Sendable(f) { FeedFrame(shorter, f); } else { FeedUnsendable(shorter, f); }
        assert frames == shorter + [f];
      }
    }
  }

  // More bytes only add packets, and a reader that got stuck stays stuck.
  lemma {:induction false} FeedGrows(s: State, bytes: seq<Byte>)
    ensures s.handled <= FeedAll(s, bytes).handled
    ensures !s.At? ==> FeedAll(s, bytes) == s
    decreases |bytes|
  {
    if bytes != [] {
      FeedGrows(s, bytes[..|bytes| - 1]);
    }
  }

  /**
   Wherever the reader stands in the stream of some packets, it is not stuck, what it has handed
   over is a first part of them, and at the end it is all of them.
   */
  lemma {:induction false} PrefixRead(frames: seq<Frame>, taken: seq<Byte>, rest: seq<Byte>)
    requires AllSendable(frames)
    requires Stream(frames) == taken + rest
    ensures var s := FeedAll(Idle([]), taken);
      s.At? && s.handled <= frames && (rest == [] ==> s == Idle(frames))
  {
    FeedStream([], frames);
    FeedConcat(Idle([]), taken, rest);
    FeedGrows(FeedAll(Idle([]), taken), rest);
    assert [] + frames == frames;
    assert rest == [] ==> taken + rest == taken;
  }

  // ----- The resumable reader -----

  // What one read finds: some bytes (none: end of file), nothing yet, or a broken connection.
  datatype Arrival = Chunk(bytes: seq<Byte>) | WouldBlock | Failed

  datatype ReadResult = Got(bytes: seq<Byte>) | TryAgain | Gone

  // The bytes that are still to come.
  function Remaining(script: seq<Arrival>): seq<Byte> {
    if script == [] then [] else (if script[0].Chunk? then script[0].bytes else []) + Remaining(script[1..])
  }

  // No end of file and no failure on the way.
  predicate Alive(script: seq<Arrival>) {
    forall i :: 0 <= i < |script| ==> script[i] == WouldBlock || (script[i].Chunk? && script[i].bytes != [])
  }

  class Socket {
    var script: seq<Arrival>
    ghost var taken: seq<Byte>   // everything read so far

    constructor (script: seq<Arrival>)
      ensures this.script == script && taken == []
    {
      this.script, taken := script, [];
    }

    // read(2): at most `count` bytes of what has arrived; a rest stays for the next read.
    method Read(count: nat) returns (r: ReadResult)
      requires count > 0
      modifies this
      ensures r.Got? ==> r.bytes != [] && |r.bytes| <= count && taken == old(taken) + r.bytes
      ensures !r.Got? ==> taken == old(taken)
      ensures taken + Remaining(script) == old(taken) + Remaining(old(script))
      ensures Alive(old(script)) ==> Alive(script) && r != Gone
      ensures old(script) != [] ==> |script| + |Remaining(script)| < |old(script)| + |Remaining(old(script))|
      ensures old(script) == [] ==> script == [] && r == TryAgain
    {
      if script == [] {
        return TryAgain;
      }
      assert script == [script[0]] + script[1..];
      match script[0] {
        case WouldBlock =>
          script := script[1..];
          r := TryAgain;
        case Failed =>
          script := script[1..];
          r := Gone;
        case Chunk(bytes) =>
          if bytes == [] {
            script := script[1..];
            r := Gone;
          } else if |bytes| <= count {
            script := script[1..];
            taken := taken + bytes;
            r := Got(bytes);
            assert old(taken) + (bytes + Remaining(script)) == (old(taken) + bytes) + Remaining(script);
          } else {
            var rest := [Chunk(bytes[count..])] + script[1..];
            assert rest[1..] == script[1..];
            script := rest;
            taken := taken + bytes[..count];
            r := Got(bytes[..count]);
            assert bytes == bytes[..count] + bytes[count..];
            assert old(taken) + ((bytes[..count] + bytes[count..]) + Remaining(rest[1..])) ==
              (old(taken) + bytes[..count]) + (bytes[count..] + Remaining(rest[1..]));
          }
      }
    }
  }

  // What a call, or a part of it, comes back with.
  datatype Outcome = Proceed | Later | ConnLost | Protocol

  ghost function Told(taken: seq<Byte>): State { FeedAll(Idle([]), taken) }

  class Reader {
    var command: Byte
    var haveRemaining: bool
    var remainingCount: nat
    var remainingMult: nat
    var remainingLength: nat
    var payload: array?<Byte>
    var toProcess: nat
    var pos: nat
    var handled: seq<Frame>   // packets handed to _mosquitto_packet_handle

    constructor ()
      ensures Follows([]) && handled == []
    {
      handled := [];
      command, haveRemaining, remainingCount, remainingMult, remainingLength := 0, false, 0, 1, 0;
      payload, toProcess, pos := null, 0, 0;
    }

    // The buffer belongs to the packet being read and has room for the rest of it.
    predicate Fits()
      reads this
    {
      && remainingCount <= 4
      && (if haveRemaining then payload != null && payload.Length == remainingLength == pos + toProcess && toProcess > 0
          else pos == 0 && toProcess == 0)
    }

    ghost function Abstract(): State
      requires Fits()
      reads this, payload
    {
      At(handled, command, remainingCount, remainingMult, remainingLength, haveRemaining,
         if haveRemaining then payload[..pos] else [])
    }

    // The reader stands where the bytes read so far say, unless a zero command byte was among them.
    ghost predicate Follows(taken: seq<Byte>)
      reads this, payload
    {
      Fits() && (Told(taken).Lost? || (Abstract() == Told(taken) && (command == 0 ==> Abstract() == Idle(handled))))
    }

    // All bytes of a packet are there; only handing it over is left to do.
    ghost predicate Ready(taken: seq<Byte>)
      reads this, payload
    {
      && toProcess == 0 && haveRemaining && remainingCount <= 4
      && (remainingLength > 0 ==> payload != null && payload.Length == remainingLength)
      && (|| Told(taken).Lost?
          || Told(taken) == Complete(handled, command, if remainingLength > 0 then payload[..] else []))
    }

    /**
     _mosquitto_packet_read (lib/net_mosq.c:820-970): go on where the last call stopped, until the
     socket has nothing more for now or one packet is complete.
     */
    method PacketRead(sock: Socket) returns (rc: Outcome)
      requires Follows(sock.taken)
      modifies this, payload, sock
      ensures if rc == Protocol then !Told(sock.taken).At? else Follows(sock.taken)
      ensures sock.taken + Remaining(sock.script) == old(sock.taken) + Remaining(old(sock.script))
      ensures Alive(old(sock.script)) ==> Alive(sock.script) && rc != ConnLost
      ensures old(sock.script) != [] ==>
          |sock.script| + |Remaining(sock.script)| < |old(sock.script)| + |Remaining(old(sock.script))|
      ensures payload == old(payload) || payload == null || fresh(payload)
    {
      hide FeedAll, Feed, Remaining, Alive;
      rc := Proceed;
      if command == 0 {
        rc := ReadCommand(sock);
        if rc != Proceed {
          return;
        }
      }
      if !haveRemaining {
        rc := ReadRemaining(sock);
        if rc != Proceed {
          return;
        }
      }
      rc := ReadBody(sock);
      if rc != Proceed {
        return;
      }
      handled := handled + [Frame(command, if remainingLength > 0 then payload[..] else [])];
      // _mosquitto_packet_cleanup
      command, haveRemaining, remainingCount, remainingMult, remainingLength := 0, false, 0, 1, 0;
      payload, toProcess, pos := null, 0, 0;
    }

    method ReadCommand(sock: Socket) returns (rc: Outcome)
      requires Follows(sock.taken) && command == 0
      modifies this`command, sock
      ensures Follows(sock.taken) && rc != Protocol
      ensures rc == Proceed ==> Told(sock.taken).Lost? || command != 0
      ensures Shrinks(old(sock.script), sock.script)
      ensures Moved(old(sock.taken), old(sock.script), sock.taken, sock.script, rc)
    {
      var r := sock.Read(1);
      match r {
        case Got(bytes) =>
          FeedConcat(Idle([]), old(sock.taken), bytes);
          FeedOne(Told(old(sock.taken)), bytes[0]);
          assert bytes == [bytes[0]];
          command := bytes[0];
          rc := Proceed;
        case TryAgain => rc := Later;
        case Gone => rc := ConnLost;
      }
    }

    method ReadRemaining(sock: Socket) returns (rc: Outcome)
      requires Follows(sock.taken) && !haveRemaining && (Told(sock.taken).Lost? || command != 0)
      modifies this, sock
      ensures rc == Protocol ==> Told(sock.taken).Broken? || Told(sock.taken).Lost?
      ensures rc == Proceed ==> if remainingLength == 0 then Ready(sock.taken) else Follows(sock.taken) && haveRemaining
      ensures rc == Later || rc == ConnLost ==> Follows(sock.taken)
      ensures Shrinks(old(sock.script), sock.script)
      ensures Moved(old(sock.taken), old(sock.script), sock.taken, sock.script, rc)
      ensures payload == old(payload) || fresh(payload)
    {
      hide FeedAll, Remaining, Alive;
      var byte: Byte := 128;
      while byte >= 128
        invariant byte >= 128 ==> Follows(sock.taken) && !haveRemaining && (Told(sock.taken).Lost? || command != 0)
        invariant byte < 128 ==> LengthRead(sock.taken)
        invariant Moved(old(sock.taken), old(sock.script), sock.taken, sock.script, Proceed)
        invariant |sock.taken| > |old(sock.taken)| ==> Shrinks(old(sock.script), sock.script)
        invariant |sock.taken| <= |old(sock.taken)| ==> byte >= 128 && sock.script == old(sock.script)
        invariant |old(sock.taken)| <= |sock.taken|
        invariant payload == old(payload)
        decreases |sock.script| + |Remaining(sock.script)|, byte
      {
        ghost var was := sock.taken;
        var r := sock.Read(1);
        match r {
          case TryAgain => return Later;
          case Gone => return ConnLost;
          case Got(bytes) =>
            byte := bytes[0];
            assert bytes == [byte];
            FeedConcat(Idle([]), was, bytes);
            FeedOne(Told(was), byte);
            remainingCount := remainingCount + 1;
            if remainingCount > 4 {
              return Protocol;
            }
            remainingLength := remainingLength + (byte % 128) * remainingMult;
            remainingMult := remainingMult * 128;
        }
      }
      if remainingLength > 0 {
        payload := new Byte[remainingLength];
        toProcess := remainingLength;
      }
      haveRemaining := true;
      rc := Proceed;
      assert remainingLength > 0 ==> payload[..0] == [];
    }

    // The last length byte has been read, but not acted on.
    ghost predicate LengthRead(taken: seq<Byte>)
      reads this
    {
      && remainingCount <= 4 && !haveRemaining && pos == 0 && toProcess == 0
      && (Told(taken).Lost? || (command != 0 && Told(taken) ==
          if remainingLength == 0 then Complete(handled, command, [])
          else At(handled, command, remainingCount, remainingMult, remainingLength, true, [])))
    }

    // In the middle of a body, or just behind it.
    ghost predicate BodyAt(taken: seq<Byte>)
      reads this, payload
    {
      && haveRemaining && remainingCount <= 4
      && if toProcess == 0 then Ready(taken)
         else
           && Follows(taken) && payload != null && payload.Length == remainingLength == pos + toProcess
           && (Told(taken).Lost? || (command != 0 &&
               Told(taken) == At(handled, command, remainingCount, remainingMult, remainingLength, true,
                                 payload[..pos])))
    }

    lemma {:induction false} BodyStart(taken: seq<Byte>)
      requires (remainingLength == 0 && Ready(taken)) || (Follows(taken) && haveRemaining)
      ensures BodyAt(taken)
    {
    }

    // Some more bytes of the body, already stored.
    lemma {:induction false} BodyMore(was: seq<Byte>, body: seq<Byte>, bytes: seq<Byte>)
      requires haveRemaining && payload != null && payload.Length == remainingLength == pos + toProcess
      requires remainingCount <= 4
      requires |body| < remainingLength && payload[..pos] == body + bytes
      requires Told(was).Lost? || (command != 0 &&
        Told(was) == At(handled, command, remainingCount, remainingMult, remainingLength, true, body))
      ensures BodyAt(was + bytes)
    {
      FeedConcat(Idle([]), was, bytes);
      FeedGrows(Told(was), bytes);
      if !Told(was).Lost? { FeedBody(Told(was), bytes); }
      assert toProcess == 0 ==> payload[..pos] == payload[..];
      hide FeedAll, Feed;
    }

    method ReadBody(sock: Socket) returns (rc: Outcome)
      requires (remainingLength == 0 && Ready(sock.taken)) || (Follows(sock.taken) && haveRemaining)
      modifies this`toProcess, this`pos, payload, sock
      ensures rc != Protocol
      ensures if rc == Proceed then Ready(sock.taken) else Follows(sock.taken)
      ensures old(toProcess) > 0 ==> Shrinks(old(sock.script), sock.script)
      ensures Moved(old(sock.taken), old(sock.script), sock.taken, sock.script, rc)
    {
      hide FeedAll, Feed, Remaining, Alive, Reader.Follows, Reader.Ready;
      BodyStart(sock.taken);
      while toProcess > 0
        invariant BodyAt(sock.taken)
        invariant payload == old(payload)
        invariant if toProcess < old(toProcess) then Shrinks(old(sock.script), sock.script)
          else toProcess == old(toProcess) && sock.script == old(sock.script)
        invariant Moved(old(sock.taken), old(sock.script), sock.taken, sock.script, Proceed)
      {
        ghost var was, body := sock.taken, payload[..pos];
        var r := sock.Read(toProcess);
        match r {
          case TryAgain => return Later;
          case Gone => return ConnLost;
          case Got(bytes) =>
            forall k | 0 <= k < |bytes| {
              payload[pos + k] := bytes[k];
            }
            assert payload[..pos + |bytes|] == body + bytes;
            toProcess := toProcess - |bytes|;
            pos := pos + |bytes|;
            BodyMore(was, body, bytes);
        }
      }
      rc := Proceed;
    }
  }

  // Something of the script was used up, if there was anything.
  ghost predicate Shrinks(script: seq<Arrival>, script': seq<Arrival>) {
    script != [] ==> |script'| + |Remaining(script')| < |script| + |Remaining(script)|
  }

  // Bytes went from the script to those taken.
  ghost predicate Moved(taken: seq<Byte>, script: seq<Arrival>, taken': seq<Byte>, script': seq<Arrival>, rc: Outcome) {
    && taken' + Remaining(script') == taken + Remaining(script)
    && (Alive(script) ==> Alive(script') && rc != ConnLost)
    && |script'| + |Remaining(script')| <= |script| + |Remaining(script)|
    && (script == [] ==> script' == [])
  }

  /**
   However the bytes of some packets are cut into chunks, with the socket running dry anywhere in
   between, reading until nothing is left hands over exactly those packets, in order.
   */
  method ReadAll(reader: Reader, sock: Socket, ghost frames: seq<Frame>)
    requires reader.Follows([]) && reader.handled == [] && sock.taken == []
    requires Alive(sock.script) && Remaining(sock.script) == Stream(frames)
    requires AllSendable(frames)
    modifies reader, reader.payload, sock
    ensures reader.handled == frames && reader.Follows(Stream(frames))
  {
    while sock.script != []
      invariant Alive(sock.script) && sock.taken + Remaining(sock.script) == Stream(frames)
      invariant reader.Follows(sock.taken)
      invariant (reader.payload == old(reader.payload) || reader.payload == null || fresh(reader.payload))
      decreases |sock.script| + |Remaining(sock.script)|
    {
      var rc := reader.PacketRead(sock);
      PrefixRead(frames, sock.taken, Remaining(sock.script));
    }
    PrefixRead(frames, sock.taken, []);
    assert sock.taken + [] == sock.taken;
  }
}
