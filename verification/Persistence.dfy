/**
 Writing the database file and reading it, step by step as src/persist.c does. The subscription
 tree is a value here; SubHierarchy shows that the linked tree follows the same functions.
 */
module Persistence {
  import opened Topics
  import opened MessageQueue
  import opened Framing
  import opened Codec
  import opened PersistFile
  import opened SavedPaths
  import opened Persist
  import Recovery
  import Subscriptions
  import Tokens
  import ST = SubTree

  lemma {:induction false} ConcatBehind(a: seq<Chunk>, b: seq<Chunk>)
    requires AllWritable(a) && AllWritable(b)
    ensures AllWritable(a + b) && Concat(a + b) == Concat(a) + Concat(b)
    decreases |a|
  {
    hide ChunkBytes, Writable;
    Recovery.WritableConcat(a, b);
    if a == [] {
      assert a + b == b;
    } else {
      ConcatBehind(a[1..], b);
      assert (a + b)[1..] == a[1..] + b;
    }
  }

  lemma {:induction false} ConcatOne(c: Chunk)
    requires Writable(c)
    ensures Concat([c]) == ChunkBytes(c)
  {
    assert [c][1..] == [];
  }

  // ----- The stream -----

  class Stream {
    var bytes: seq<Byte>
    var pos: nat

    constructor ()
      ensures bytes == [] && pos == 0
    {
      bytes, pos := [], 0;
    }

    // What is still to be read; the position may be beyond the end.
    function Rest(): seq<Byte>
      reads this
    {
      if pos <= |bytes| then bytes[pos..] else []
    }

    // One write; `rest` is what the caller will write next.
    method Write(part: seq<Byte>, ghost rest: seq<Byte>)
      modifies this`bytes
      ensures bytes == old(bytes) + part && bytes + rest == old(bytes) + (part + rest)
    {
      bytes := bytes + part;
    }

    method Read(n: nat) returns (ok: bool, part: seq<Byte>)
      modifies this`pos
      ensures match TakeBytes(old(Rest()), n)
        case Truncated => !ok
        case Field(value, rest) => ok && part == value && Rest() == rest
    {
      if pos <= |bytes| && n <= |bytes| - pos {
        ok, part := true, bytes[pos..pos + n];
        pos := pos + n;
        assert bytes[pos - n..][n..] == bytes[pos..];
      } else {
        ok, part := n == 0, [];
        if !ok && pos < |bytes| { pos := |bytes|; }
      }
    }

    method ReadByte() returns (ok: bool, b: Byte)
      modifies this`pos
      ensures match TakeByte(old(Rest()))
        case Truncated => !ok
        case Field(value, rest) => ok && b == value && Rest() == rest
    {
      var part;
      ok, part := Read(1);
      b := if ok then part[0] else 0;
    }

    method ReadUint16() returns (ok: bool, n: nat)
      modifies this`pos
      ensures match TakeUint16(old(Rest()))
        case Truncated => !ok
        case Field(value, rest) => ok && n == value && Rest() == rest
    {
      var part;
      ok, part := Read(2);
      n := 0;
      if ok {
        var high: int, low: int := part[0], part[1];
        n := high * 256 + low;
      }
    }

    method ReadUint32() returns (ok: bool, n: nat)
      modifies this`pos
      ensures match TakeUint32(old(Rest()))
        case Truncated => !ok
        case Field(value, rest) => ok && n == value && Rest() == rest
    {
      var part;
      ok, part := Read(4);
      n := 0;
      if ok {
        var a: int, b: int, c: int, d: int := part[0], part[1], part[2], part[3];
        n := a * 0x100_0000 + b * 0x1_0000 + c * 256 + d;
      }
    }

    method ReadId() returns (ok: bool, n: nat)
      modifies this`pos
      ensures match TakeId(old(Rest()))
        case Truncated => !ok
        case Field(value, rest) => ok && n == value && Rest() == rest
    {
      var part;
      ok, part := Read(ID_BYTES);
      n := if ok then FromHost(part) else 0;
    }

    // A length and that many bytes.
    method ReadText() returns (ok: bool, text: seq<Byte>)
      modifies this`pos
      ensures match TakeText(old(Rest()))
        case Truncated => !ok
        case Field(value, rest) => ok && text == value && Rest() == rest
    {
      var slen;
      text := [];
      ok, slen := ReadUint16();
      if ok { ok, text := Read(slen); }
    }

    // fseek
    method Skip(n: nat)
      modifies this`pos
      ensures Rest() == if n <= |old(Rest())| then old(Rest())[n..] else []
    {
      pos := pos + n;
    }
  }

  // ----- Writing -----

  // mqtt3_db_message_store_write, for one stored message.
  method WriteStored(f: Stream, m: SavedMessage)
    requires Writable(StoreChunkOf(m))
    modifies f`bytes
    ensures f.bytes == old(f.bytes) + ChunkBytes(StoreChunkOf(m))
  {
    ghost var c := StoreChunkOf(m);
    assert c.StoreChunk? && Tag(c) == 2;
    AnnouncedRight(c);
    var forceNoRetain := IsSys(m.topic);
    var source, topic := Bytes(m.sourceId), Bytes(m.topic);
    var retain: Byte := if forceNoRetain then 0 else Bit(m.retain, 1);
    var length := 8 + (2 + |source|) + 2 + 2 + (2 + |topic|) + 4 + |m.payload| + 1 + 1;
    assert c == StoreChunk(m.id, source, m.sourceMid, 0, topic, m.qos, retain, m.payload) && Announced(c) == length;
    ghost var r8 := Uint32(|m.payload|) + m.payload;
    ghost var r7 := [retain] + r8;
    ghost var r6 := [m.qos] + r7;
    ghost var r5 := topic + r6;
    ghost var r4 := Text(topic) + r6;
    ghost var r3 := Uint16(0) + r4;
    ghost var r2 := Uint16(m.sourceMid) + r3;
    ghost var r1 := Text(source) + r2;
    ghost var r0 := Host(m.id, ID_BYTES) + r1;
    assert Body(c) == r0 && ChunkBytes(c) == Uint16(2) + (Uint32(length) + r0);
    TextParts(source, r2);
    TextParts(topic, r6);
    hide Uint16, Uint32, Host, Text, Bytes, Writable, Body, ChunkBytes, Announced, StoreChunkOf;
    f.Write(Uint16(2), Uint32(length) + r0);
    f.Write(Uint32(length), r0);
    f.Write(Host(m.id, ID_BYTES), r1);
    f.Write(Uint16(|source|), source + r2);
    f.Write(source, r2);
    f.Write(Uint16(m.sourceMid), r3);
    f.Write(Uint16(0), r4);
    f.Write(Uint16(|topic|), r5);
    f.Write(topic, r6);
    f.Write([m.qos], r7);
    f.Write([retain], r8);
    f.Write(Uint32(|m.payload|), m.payload);
    f.Write(m.payload, []);
    assert f.bytes + [] == f.bytes;
  }

  // A text is its length and its bytes.
  lemma {:induction false} TextParts(s: seq<Byte>, rest: seq<Byte>)
    requires |s| < 65536
    ensures Text(s) + rest == Uint16(|s|) + (s + rest)
  {
  }

  // mqtt3_db_client_messages_write, for one entry.
  method WriteEntry(f: Stream, id: string, e: SavedEntry)
    requires Writable(MsgChunkOf(id, e))
    modifies f`bytes
    ensures f.bytes == old(f.bytes) + ChunkBytes(MsgChunkOf(id, e))
  {
    ghost var c := MsgChunkOf(id, e);
    assert c.MsgChunk? && Tag(c) == 3;
    AnnouncedRight(c);
    var name := Bytes(id);
    var retain: Byte, direction, state, dup: Byte := Bit(e.retain,
                                                         1), DirectionCode(e.direction), StateCode(e.state),
      Bit(e.dup, 1);
    var length := 8 + 2 + 1 + 1 + 1 + 1 + 1 + (2 + |name|);
    assert c == MsgChunk(name, e.storeId, e.mid, e.qos, retain, direction, state, dup) && Announced(c) == length;
    ghost var r6 := [state] + [dup];
    ghost var r5 := [direction] + r6;
    ghost var r4 := [retain] + r5;
    ghost var r3 := [e.qos] + r4;
    ghost var r2 := Uint16(e.mid) + r3;
    ghost var r1 := Host(e.storeId, ID_BYTES) + r2;
    ghost var r0 := Text(name) + r1;
    assert Body(c) == r0 && ChunkBytes(c) == Uint16(3) + (Uint32(length) + r0);
    TextParts(name, r1);
    hide Uint16, Uint32, Host, Text, Bytes, Writable, Body, ChunkBytes, Announced, MsgChunkOf, StateCode, DirectionCode;
    f.Write(Uint16(3), Uint32(length) + r0);
    f.Write(Uint32(length), r0);
    f.Write(Uint16(|name|), name + r1);
    f.Write(name, r1);
    f.Write(Host(e.storeId, ID_BYTES), r2);
    f.Write(Uint16(e.mid), r3);
    f.Write([e.qos], r4);
    f.Write([retain], r5);
    f.Write([direction], r6);
    f.Write([state], [dup]);
    f.Write([dup], []);
    assert f.bytes + [] == f.bytes;
  }

  method WriteClientHead(f: Stream, c: SavedClient)
    requires Writable(ClientChunk(Bytes(c.id), c.lastMid, c.disconnectT))
    modifies f`bytes
    ensures f.bytes == old(f.bytes) + ChunkBytes(ClientChunk(Bytes(c.id), c.lastMid, c.disconnectT))
  {
    var name := Bytes(c.id);
    ghost var k := ClientChunk(name, c.lastMid, c.disconnectT);
    AnnouncedRight(k);
    var length := 2 + |name| + 2 + 8;
    ghost var r2 := Uint16(c.lastMid) + Host(c.disconnectT, 8);
    ghost var r0 := Text(name) + r2;
    assert Body(k) == r0 && ChunkBytes(k) == Uint16(6) + (Uint32(length) + r0);
    TextParts(name, r2);
    hide Uint16, Uint32, Host, Text, Bytes, Writable, Body, ChunkBytes, Announced;
    f.Write(Uint16(6), Uint32(length) + r0);
    f.Write(Uint32(length), r0);
    f.Write(Uint16(|name|), name + r2);
    f.Write(name, r2);
    f.Write(Uint16(c.lastMid), Host(c.disconnectT, 8));
    f.Write(Host(c.disconnectT, 8), []);
    assert f.bytes + [] == f.bytes;
  }

  method WriteSub(f: Stream, id: string, filter: string, qos: nat)
    requires Writable(SubChunk(Bytes(id), Bytes(filter), qos % 256))
    modifies f`bytes
    ensures f.bytes == old(f.bytes) + ChunkBytes(SubChunk(Bytes(id), Bytes(filter), qos % 256))
  {
    var name, topic := Bytes(id), Bytes(filter);
    ghost var k := SubChunk(name, topic, qos % 256);
    AnnouncedRight(k);
    var length := 2 + |name| + 2 + |topic| + 1;
    ghost var r2 := Text(topic) + [qos % 256];
    ghost var r0 := Text(name) + r2;
    assert Body(k) == r0 && ChunkBytes(k) == Uint16(5) + (Uint32(length) + r0);
    TextParts(name, r2);
    TextParts(topic, [qos % 256]);
    hide Uint16, Uint32, Text, Bytes, Writable, Body, ChunkBytes, Announced;
    f.Write(Uint16(5), Uint32(length) + r0);
    f.Write(Uint32(length), r0);
    f.Write(Uint16(|name|), name + r2);
    f.Write(name, r2);
    f.Write(Uint16(|topic|), topic + [qos % 256]);
    f.Write(topic, [qos % 256]);
    f.Write([qos % 256], []);
    assert f.bytes + [] == f.bytes;
  }

  method WriteRetained(f: Stream, id: nat)
    requires Writable(RetainChunk(id))
    modifies f`bytes
    ensures f.bytes == old(f.bytes) + ChunkBytes(RetainChunk(id))
  {
    var length := 8;
    AnnouncedRight(RetainChunk(id));
    assert ChunkBytes(RetainChunk(id)) == Uint16(4) + (Uint32(length) + Host(id, ID_BYTES));
    hide Uint16, Uint32, Host, ChunkBytes;
    f.Write(Uint16(4), Uint32(length) + Host(id, ID_BYTES));
    f.Write(Uint32(length), Host(id, ID_BYTES));
    f.Write(Host(id, ID_BYTES), []);
    assert f.bytes + [] == f.bytes;
  }

  lemma {:induction false} WritableParts(a: seq<Chunk>, b: seq<Chunk>)
    requires AllWritable(a + b)
    ensures AllWritable(a) && AllWritable(b)
  {
    forall k | 0 <= k < |a| ensures Writable(a[k]) { assert (a + b)[k] == a[k]; }
    forall k | 0 <= k < |b| ensures Writable(b[k]) { assert (a + b)[|a| + k] == b[k]; }
  }

  // Writing one more chunk behind those written since `start`.
  lemma {:induction false} OneMore(start: seq<Byte>, done: seq<Chunk>, c: Chunk)
    requires AllWritable(done + [c])
    ensures AllWritable(done) && Writable(c)
    ensures start + Concat(done) + ChunkBytes(c) == start + Concat(done + [c])
  {
    hide Concat, ChunkBytes, Writable;
    WritableParts(done, [c]);
    assert Writable([c][0]);
    ConcatOne(c);
    ConcatBehind(done, [c]);
    Regroup(start, Concat(done), Concat([c]));
  }

  lemma {:induction false} SomeMore(start: seq<Byte>, done: seq<Chunk>, more: seq<Chunk>)
    requires AllWritable(done + more)
    ensures AllWritable(done) && AllWritable(more)
    ensures start + Concat(done) + Concat(more) == start + Concat(done + more)
  {
    hide Concat, AllWritable;
    WritableParts(done, more);
    ConcatBehind(done, more);
    Regroup(start, Concat(done), Concat(more));
  }

  lemma {:induction false} Regroup(a: seq<Byte>, b: seq<Byte>, c: seq<Byte>)
    ensures (a + b) + c == a + (b + c)
  {
  }

  method MessageStoreWrite(f: Stream, stored: seq<SavedMessage>)
    requires forall i :: 0 <= i < |stored| ==> Recovery.MessageFits(stored[i])
    modifies f`bytes
    ensures AllWritable(StoreChunks(stored)) && f.bytes == old(f.bytes) + Concat(StoreChunks(stored))
  {
    hide Concat, ChunkBytes, StoreChunkOf, Writable, AllWritable, Recovery.MessageFits;
    ghost var start := f.bytes;
    var i := 0;
    NothingWritten(start);
    assert stored[..0] == [];
    while i < |stored|
      invariant i <= |stored| && AllWritable(StoreChunks(stored[..i]))
      invariant f.bytes == start + Concat(StoreChunks(stored[..i]))
    {
      Recovery.StoresWritable(stored[..i + 1]);
      assert stored[..i + 1][..i] == stored[..i];
      OneMore(start, StoreChunks(stored[..i]), StoreChunkOf(stored[i]));
      WriteStored(f, stored[i]);
      i := i + 1;
    }
    assert stored[..i] == stored;
  }

  lemma {:induction false} NothingWritten(start: seq<Byte>)
    ensures AllWritable([]) && start + Concat([]) == start
  {
  }

  method ClientMessagesWrite(f: Stream, ghost stored: seq<SavedMessage>, c: SavedClient)
    requires Recovery.ClientFits(stored, c)
    modifies f`bytes
    ensures AllWritable(MsgChunks(c.id, c.msgs)) && f.bytes == old(f.bytes) + Concat(MsgChunks(c.id, c.msgs))
  {
    hide Concat, ChunkBytes, MsgChunkOf, Writable, AllWritable, Recovery.EntryFits, CText;
    ghost var start := f.bytes;
    var i := 0;
    NothingWritten(start);
    assert c.msgs[..0] == [];
    while i < |c.msgs|
      invariant i <= |c.msgs| && AllWritable(MsgChunks(c.id, c.msgs[..i]))
      invariant f.bytes == start + Concat(MsgChunks(c.id, c.msgs[..i]))
    {
      Recovery.MsgsWritable(stored, c.id, c.msgs[..i + 1]);
      assert c.msgs[..i + 1][..i] == c.msgs[..i];
      OneMore(start, MsgChunks(c.id, c.msgs[..i]), MsgChunkOf(c.id, c.msgs[i]));
      WriteEntry(f, c.id, c.msgs[i]);
      i := i + 1;
    }
    assert c.msgs[..i] == c.msgs;
  }

  // The body of the loop over the contexts.
  method OneClientWrite(f: Stream, ghost stored: seq<SavedMessage>, c: SavedClient)
    requires Recovery.ClientFits(stored, c)
    modifies f`bytes
    ensures AllWritable(ClientChunks(c)) && f.bytes == old(f.bytes) + Concat(ClientChunks(c))
  {
    ghost var start := f.bytes;
    ghost var head := ClientChunk(Bytes(c.id), c.lastMid, c.disconnectT);
    Recovery.ClientWritable(stored, c);
    hide Concat, ChunkBytes, MsgChunkOf, MsgChunks, Writable, AllWritable, Recovery.ClientFits;
    NothingWritten(start);
    if !c.clean {
      OneMore(start, [], head) by { HeadFirst(c, head); }
      assert [] + [head] == [head];
      WriteClientHead(f, c);
      ClientMessagesWrite(f, stored, c);
      SomeMore(start, [head], MsgChunks(c.id, c.msgs));
    }
  }

  lemma {:induction false} HeadFirst(c: SavedClient, head: Chunk)
    requires !c.clean && head == ClientChunk(Bytes(c.id), c.lastMid, c.disconnectT) && AllWritable(ClientChunks(c))
    ensures AllWritable([] + [head])
  {
    WritableParts([head], MsgChunks(c.id, c.msgs));
    assert [] + [head] == [head];
  }

  method ClientWrite(f: Stream, ghost stored: seq<SavedMessage>, clients: seq<SavedClient>)
    requires forall i :: 0 <= i < |clients| ==> Recovery.ClientFits(stored, clients[i])
    modifies f`bytes
    ensures AllWritable(AllClientChunks(clients)) && f.bytes == old(f.bytes) + Concat(AllClientChunks(clients))
  {
    hide Concat, ChunkBytes, ClientChunks, Writable, AllWritable, Recovery.ClientFits;
    ghost var start := f.bytes;
    var i := 0;
    NothingWritten(start);
    assert clients[..0] == [];
    while i < |clients|
      invariant i <= |clients| && AllWritable(AllClientChunks(clients[..i]))
      invariant f.bytes == start + Concat(AllClientChunks(clients[..i]))
    {
      Recovery.ClientsWritable(stored, clients[..i + 1]);
      assert clients[..i + 1][..i] == clients[..i];
      SomeMore(start, AllClientChunks(clients[..i]), ClientChunks(clients[i]));
      OneClientWrite(f, stored, clients[i]);
      i := i + 1;
    }
    assert clients[..i] == clients;
  }

  lemma {:induction false} LeavesFirst(clients: seq<SavedClient>, filter: string, subs: seq<ST.Leaf>, i: nat)
    requires i <= |subs| && AllWritable(LeafChunks(clients, filter, subs))
    ensures AllWritable(LeafChunks(clients, filter, subs[..i]))
    decreases |subs|
  {
    hide AllWritable;
    if i == |subs| {
      assert subs[..i] == subs;
    } else {
      var n := |subs| - 1;
      var sub := SubChunk(Bytes(subs[n].client), Bytes(filter), subs[n].qos % 256);
      var last := if Durable(clients, subs[n].client) then [sub] else [];
      WritableParts(LeafChunks(clients, filter, subs[..n]), last);
      LeavesFirst(clients, filter, subs[..n], i);
      assert subs[..n][..i] == subs[..i];
    }
  }

  // sub->context->clean_session == false
  method IsDurable(clients: seq<SavedClient>, id: string) returns (durable: bool)
    ensures durable == Durable(clients, id)
  {
    durable := false;
    var i := 0;
    while i < |clients| && !durable
      invariant i <= |clients|
      invariant durable ==> Durable(clients, id)
      invariant !durable ==> forall k :: 0 <= k < i ==> !(clients[k].id == id && !clients[k].clean)
    {
      durable := clients[i].id == id && !clients[i].clean;
      i := i + 1;
    }
  }

  method LeavesWrite(f: Stream, clients: seq<SavedClient>, filter: string, subs: seq<ST.Leaf>)
    requires AllWritable(LeafChunks(clients, filter, subs))
    modifies f`bytes
    ensures f.bytes == old(f.bytes) + Concat(LeafChunks(clients, filter, subs))
  {
    hide Concat, ChunkBytes, Writable, AllWritable, Durable, Bytes;
    ghost var start := f.bytes;
    var i := 0;
    NothingWritten(start);
    assert subs[..0] == [];
    while i < |subs|
      invariant i <= |subs| && AllWritable(LeafChunks(clients, filter, subs[..i]))
      invariant f.bytes == start + Concat(LeafChunks(clients, filter, subs[..i]))
    {
      LeavesFirst(clients, filter, subs, i + 1);
      assert subs[..i + 1][..i] == subs[..i];
      var durable := IsDurable(clients, subs[i].client);
      if durable {
        OneMore(start, LeafChunks(clients, filter, subs[..i]),
                SubChunk(Bytes(subs[i].client), Bytes(filter), subs[i].qos % 256));
        WriteSub(f, subs[i].client, filter, subs[i].qos);
      } else {
        assert LeafChunks(clients, filter, subs[..i]) + [] == LeafChunks(clients, filter, subs[..i]);
      }
      i := i + 1;
    }
    assert subs[..i] == subs;
  }

  method FindStored(stored: seq<SavedMessage>, id: nat) returns (i: nat)
    ensures i == Find(stored, id, 0)
  {
    i := 0;
    while i < |stored| && stored[i].id != id
      invariant i <= |stored| && Find(stored, id, 0) == Find(stored, id, i)
    {
      i := i + 1;
    }
  }

  method RetainedWrite(f: Stream, db: Saved, retained: Option<nat>)
    requires AllWritable(RetainedChunks(db, retained))
    modifies f`bytes
    ensures f.bytes == old(f.bytes) + Concat(RetainedChunks(db, retained))
  {
    ghost var start := f.bytes;
    NothingWritten(start);
    if retained.Some? {
      var i := FindStored(db.stored, retained.value);
      if i < |db.stored| && !IsSys(db.stored[i].topic) {
        assert Writable(RetainedChunks(db, retained)[0]);
        ConcatOne(RetainChunk(retained.value));
        WriteRetained(f, retained.value);
      }
    }
  }

  // What comes before the children, and the first k of them.
  lemma {:induction false} ChildrenFirst(db: Saved, t: ST.Tree, k: nat, filter: string)
    requires k <= |t.children| && AllWritable(TreeChunksFirst(db, t, |t.children|, filter))
    ensures AllWritable(TreeChunksFirst(db, t, k, filter))
    decreases |t.children| - k
  {
    hide AllWritable, TreeChunks;
    if k < |t.children| {
      ChildrenFirst(db, t, k + 1, filter);
      WritableParts(TreeChunksFirst(db, t, k, filter), TreeChunks(db, t.children[k], filter));
    }
  }

  // _db_subs_retain_write
  method SubsRetainWriteNode(f: Stream, db: Saved, node: ST.Tree, topic: string)
    requires AllWritable(TreeChunks(db, node, topic))
    modifies f`bytes
    ensures f.bytes == old(f.bytes) + Concat(TreeChunks(db, node, topic))
    decreases node, |node.children| + 1
  {
    hide Concat, AllWritable, LeafChunks, RetainedChunks, TreeChunksFirst, Spelled;
    ghost var start := f.bytes;
    var thistopic := Spelled(topic, node.topic);
    ghost var leaves, kept := LeafChunks(db.clients, thistopic, node.subs), RetainedChunks(db, node.retained);
    ghost var below := TreeChunksFirst(db, node, |node.children|, thistopic);
    assert TreeChunks(db, node, topic) == leaves + kept + below;
    hide TreeChunks;
    SomeMore(start, leaves + kept, below);
    SomeMore(start, leaves, kept);
    LeavesWrite(f, db.clients, thistopic, node.subs);
    RetainedWrite(f, db, node.retained);
    ChildrenWrite(f, db, node, thistopic);
  }

  method ChildrenWrite(f: Stream, db: Saved, node: ST.Tree, topic: string)
    requires AllWritable(TreeChunksFirst(db, node, |node.children|, topic))
    modifies f`bytes
    ensures f.bytes == old(f.bytes) + Concat(TreeChunksFirst(db, node, |node.children|, topic))
    decreases node, |node.children|
  {
    hide Concat, AllWritable, TreeChunks;
    ghost var start := f.bytes;
    NothingWritten(start);
    var i := 0;
    while i < |node.children|
      invariant i <= |node.children| && AllWritable(TreeChunksFirst(db, node, i, topic))
      invariant f.bytes == start + Concat(TreeChunksFirst(db, node, i, topic))
    {
      ChildrenFirst(db, node, i + 1, topic);
      SomeMore(start, TreeChunksFirst(db, node, i, topic), TreeChunks(db, node.children[i], topic));
      SubsRetainWriteNode(f, db, node.children[i], topic);
      i := i + 1;
    }
  }

  /**
   mqtt3_db_backup and mqtt3_db_subs_retain_write: the file is the header and the chunks of the
   backup, each as long as it announces.
   */
  method BackupWrite(f: Stream, db: Saved, shutdown: bool)
    requires Recovery.Persistable(db) && f.bytes == []
    modifies f`bytes
    ensures AllWritable(Backup(db, shutdown)) && f.bytes == Header() + Concat(Backup(db, shutdown))
  {
    Recovery.BackupWritable(db, shutdown);
    assert forall i :: 0 <= i < |db.stored| ==> Recovery.MessageFits(db.stored[i]);
    assert forall i :: 0 <= i < |db.clients| ==> Recovery.ClientFits(db.stored, db.clients[i]);
    hide Concat, AllWritable, ChunkBytes, StoreChunks, AllClientChunks, TreeChunksFirst, Recovery.Persistable,
      Recovery.MessageFits, Recovery.ClientFits;
    f.Write(MAGIC, Uint32(0) + Uint32(DB_VERSION));
    f.Write(Uint32(0), Uint32(DB_VERSION));
    f.Write(Uint32(DB_VERSION), []);
    ghost var start := f.bytes;
    assert start == Header();
    ghost var cfg := CfgChunk(Bit(shutdown, 1), db.lastDbId);
    ghost var stores, clients := StoreChunks(db.stored), AllClientChunks(db.clients);
    ghost var tree := TreeChunksFirst(db, db.root, |db.root.children|, "");
    SomeMore(start, [cfg] + stores + clients, tree);
    SomeMore(start, [cfg] + stores, clients);
    SomeMore(start, [cfg], stores);
    WriteCfg(f, shutdown, db.lastDbId);
    MessageStoreWrite(f, db.stored);
    ClientWrite(f, db.stored, db.clients);
    ChildrenWrite(f, db, db.root, "");
  }

  method WriteCfg(f: Stream, shutdown: bool, lastDbId: nat)
    requires AllWritable([CfgChunk(Bit(shutdown, 1), lastDbId)])
    modifies f`bytes
    ensures f.bytes == old(f.bytes) + Concat([CfgChunk(Bit(shutdown, 1), lastDbId)])
  {
    ghost var c := CfgChunk(Bit(shutdown, 1), lastDbId);
    assert Writable([c][0]);
    ConcatOne(c);
    AnnouncedRight(c);
    var length := 8 + 1 + 1;
    var flag: Byte := Bit(shutdown, 1);
    ghost var r1 := [ID_BYTES] + Host(lastDbId, ID_BYTES);
    assert ChunkBytes(c) == Uint16(1) + (Uint32(length) + ([flag] + r1));
    hide Uint16, Uint32, Host, ChunkBytes, Concat, Writable;
    f.Write(Uint16(1), Uint32(length) + ([flag] + r1));
    f.Write(Uint32(length), [flag] + r1);
    f.Write([flag], r1);
    f.Write([ID_BYTES], Host(lastDbId, ID_BYTES));
    f.Write(Host(lastDbId, ID_BYTES), []);
    assert f.bytes + [] == f.bytes;
  }

  // ----- Reading -----

  // What reading chunks from s does to a database, and whether it got through to the end.
  function RunFile(db: Saved, s: seq<Byte>, v2: Option<nat>): (Saved, bool)
    decreases |s|
  {
    match TakeChunk(s, v2)
    case End => (db, true)
    case Bad => (db, false)
    case Next(c, rest) =>
      match Restore1(db, c)
      case None => (db, false)
      case Some(d) => RunFile(d, rest, v2)
  }

  // A file that can be taken apart is restored chunk by chunk.
  lemma {:induction false} RunFileRestores(db: Saved, s: seq<Byte>, v2: Option<nat>)
    requires TakeAll(s, v2).Some?
    ensures match Restore(db, TakeAll(s, v2).value)
      case None => !RunFile(db, s, v2).1
      case Some(r) => RunFile(db, s, v2) == (r, true)
    decreases |s|
  {
    hide Restore1, TakeChunk;
    match TakeChunk(s, v2) {
      case End => Recovery.RestoreNothing(db);
      case Bad =>
      case Next(c, rest) =>
        var more := TakeAll(rest, v2).value;
        Recovery.RestoreBehind(db, [], c);
        assert [] + [c] == [c];
        RestoreConcat(db, [c], more);
        if Restore1(db, c).Some? { RunFileRestores(Restore1(db, c).value, rest, v2); }
    }
  }

  // The version of a file and the chunks behind its header; one of a version above 3 is refused.
  function BehindHeader(s: seq<Byte>): Option<(nat, seq<Byte>)> {
    match TakeBytes(s, |MAGIC|)
    case Truncated => None
    case Field(magic, s1) =>
      if magic != MAGIC then None
      else
        match TakeUint32(s1)
        case Truncated => None
        case Field(crc, s2) =>
          match TakeUint32(s2)
          case Truncated => None
          case Field(version, s3) => if version > DB_VERSION then None else Some((version, s3))
  }

  // Files of version 2 are read at time `now`.
  function Reading(version: nat, now: nat): Option<nat> { if version == 2 then Some(now) else None }

  lemma {:induction false} HeaderBack(rest: seq<Byte>)
    ensures BehindHeader(Header() + rest) == Some((DB_VERSION, rest))
  {
    var tail := Uint32(0) + (Uint32(DB_VERSION) + rest);
    assert Header() + rest == MAGIC + tail;
    TakeBytesBack(MAGIC, tail);
    TakeUint32Back(0, Uint32(DB_VERSION) + rest);
    TakeUint32Back(DB_VERSION, rest);
  }

  /**
   The file that a broker writes, read into a fresh broker, gives what Recovery says of the
   restored backup.
   */
  lemma {:induction false} FileComesBack(db: Saved, shutdown: bool)
    requires Recovery.Persistable(db)
    ensures AllWritable(Backup(db, shutdown)) && Restore(Fresh, Backup(db, shutdown)).Some?
    ensures var file := Header() + Concat(Backup(db, shutdown));
      && BehindHeader(file).Some?
      && forall now :: RunFile(Fresh, BehindHeader(file).value.1, Reading(BehindHeader(file).value.0, now)) ==
           (Restore(Fresh, Backup(db, shutdown)).value, true)
  {
    hide Recovery.Persistable, Concat, AllWritable, RunFile, Backup, BehindHeader, Header, Restore;
    Recovery.BackupWritable(db, shutdown);
    Recovery.BackupRestored(db, shutdown);
    HeaderBack(Concat(Backup(db, shutdown)));
    ConcatTaken(Backup(db, shutdown));
    RunFileRestores(Fresh, Concat(Backup(db, shutdown)), None);
  }

  // A chunk was read from the file and, if it makes sense, restored.
  predicate Restored(p: Parsed, was: Saved, now: Saved, rest: seq<Byte>, ok: bool) {
    match p
    case Next(c, r) =>
      (match Restore1(was, c)
       case None => !ok && now == was
       case Some(d) => ok && now == d && rest == r)
    case _ => !ok && now == was
  }

  lemma {:induction false} OtherChangesNothing(db: Saved, tag: nat, body: seq<Byte>)
    ensures Restore1(db, OtherChunk(tag, body)) == Some(db)
  {
  }

  // One turn of the loop over the chunks.
  lemma {:induction false} RunStep(v2: Option<nat>, db: Saved, r: seq<Byte>, tag: nat, s: seq<Byte>, now: Saved,
                                   rest: seq<Byte>,
                                   ok: bool)
    requires TakeUint16(r) == Field(tag, s) && Restored(TakeTyped(tag, s, v2), db, now, rest, ok)
    ensures ok ==> RunFile(db, r, v2) == RunFile(now, rest, v2) && |rest| < |r|
    ensures !ok ==> RunFile(db, r, v2) == (now, false)
  {
    hide TakeTyped, Restore1, TakeUint16;
  }

  class Store {
    var lastDbId: nat
    var stored: seq<SavedMessage>
    var clients: seq<SavedClient>
    var root: ST.Tree

    // A broker that has just started.
    constructor ()
      ensures Value() == Fresh
    {
      lastDbId, stored, clients, root := 0, [], [], Subscriptions.Opened;
    }

    function Value(): Saved
      reads this
    {
      Saved(lastDbId, stored, clients, root)
    }

    // _db_find_or_add_context
    method FindOrAddContext(id: string, lastMid: nat) returns (i: nat)
      modifies this`clients
      ensures i == FindClient(old(clients), id, 0) < |clients| && clients == FindOrAdd(old(clients), id, lastMid)
    {
      i := 0;
      while i < |clients| && clients[i].id != id
        invariant i <= |clients| && FindClient(clients, id, 0) == FindClient(clients, id, i)
      {
        i := i + 1;
      }
      if i == |clients| { clients := clients + [SavedClient(id, false, 0, 0, [])]; }
      if lastMid != 0 { clients := clients[i := clients[i].(lastMid := lastMid)]; }
    }

    // _db_client_msg_restore, behind _db_client_msg_chunk_restore
    method ClientMsgRestore(c: Chunk) returns (ok: bool)
      requires c.MsgChunk?
      modifies this
      ensures match RestoreMsg(old(Value()), c)
        case None => !ok && Value() == old(Value())
        case Some(d) => ok && Value() == d
    {
      var cmsg := EntryOf(c);
      var store := FindStored(stored, c.storeId);
      ok := store < |stored|;
      if ok {
        var i := FindOrAddContext(Chars(c.client), 0);
        clients := clients[i := clients[i].(msgs := clients[i].msgs + [cmsg])];
      }
    }

    method ClientMsgChunkRestore(f: Stream) returns (ok: bool)
      modifies this, f`pos
      ensures Restored(TakeMsg(old(f.Rest())), old(Value()), Value(), f.Rest(), ok)
    {
      hide RestoreMsg, TakeText, TakeId, TakeUint16, TakeMsgTail, Stream.Rest;
      ghost var s0 := f.Rest();
      var client, storeId, mid, tail;
      ok, client := f.ReadText();
      if !ok || client == [] { ok := false; return; }
      ok, storeId := f.ReadId();
      if !ok { return; }
      ok, mid := f.ReadUint16();
      if !ok { return; }
      ok, tail := ReadMsgTail(f);
      if !ok { return; }
      var c := MsgChunk(CString(client), storeId, mid, tail.0, tail.1, tail.2, tail.3, tail.4);
      assert TakeMsg(s0) == Next(c, f.Rest());
      hide TakeMsg, CString;
      ok := ClientMsgRestore(c);
    }

    static method ReadMsgTail(f: Stream) returns (ok: bool, tail: (Byte, Byte, Byte, Byte, Byte))
      modifies f`pos
      ensures match TakeMsgTail(old(f.Rest()))
        case Truncated => !ok
        case Field(value, rest) => ok && tail == value && f.Rest() == rest
    {
      var b;
      ok, b := f.Read(5);
      tail := if ok then (b[0], b[1], b[2], b[3], b[4]) else (0, 0, 0, 0, 0);
    }

    static method ReadStoreHead(f: Stream) returns (ok: bool, h: (nat, seq<Byte>, nat, nat))
      modifies f`pos
      ensures match TakeStoreHead(old(f.Rest()))
        case Truncated => !ok
        case Field(value, rest) => ok && h == value && f.Rest() == rest
    {
      hide TakeText, TakeId, TakeUint16, CString, Stream.Rest;
      h := (0, [], 0, 0);
      var id, source, sourceMid, mid;
      ok, id := f.ReadId();
      if !ok { return; }
      ok, source := f.ReadText();
      if !ok { return; }
      ok, sourceMid := f.ReadUint16();
      if !ok { return; }
      ok, mid := f.ReadUint16();
      if !ok { return; }
      h := (id, CString(source), sourceMid, mid);
    }

    static method ReadStoreTail(f: Stream) returns (ok: bool, t: (seq<Byte>, Byte, Byte, seq<Byte>))
      modifies f`pos
      ensures match TakeStoreTail(old(f.Rest()))
        case Truncated => !ok
        case Field(value, rest) => ok && t == value && f.Rest() == rest
    {
      hide TakeText, TakeByte, TakeUint32, TakeBytes, CString, Stream.Rest;
      t := ([], 0, 0, []);
      var topic, qos, retain, payloadlen, payload;
      ok, topic := f.ReadText();
      if !ok || topic == [] { ok := false; return; }
      ok, qos := f.ReadByte();
      if !ok { return; }
      ok, retain := f.ReadByte();
      if !ok { return; }
      ok, payloadlen := f.ReadUint32();
      if !ok { return; }
      ok, payload := f.Read(payloadlen);
      if !ok { return; }
      t := (CString(topic), qos, retain, payload);
    }

    // _db_msg_store_chunk_restore, with mqtt3_db_message_store
    method MsgStoreChunkRestore(f: Stream) returns (ok: bool)
      modifies this, f`pos
      ensures Restored(TakeStore(old(f.Rest())), old(Value()), Value(), f.Rest(), ok)
    {
      hide TakeStoreHead, TakeStoreTail, Stream.Rest;
      var h, t;
      ok, h := ReadStoreHead(f);
      if !ok { return; }
      ok, t := ReadStoreTail(f);
      if !ok { return; }
      var storeId := h.0;
      if storeId == 0 {
        lastDbId := lastDbId + 1;
        storeId := lastDbId;
      }
      stored := [SavedMessage(storeId, Chars(h.1), h.2, Chars(t.0), t.1, t.2 != 0, t.3)] + stored;
    }

    // _db_retain_chunk_restore, with mqtt3_db_messages_queue for no client
    method RetainChunkRestore(f: Stream) returns (ok: bool)
      modifies this, f`pos
      ensures Restored(TakeRetain(old(f.Rest())), old(Value()), Value(), f.Rest(), ok)
    {
      hide TakeId, Stream.Rest;
      var id;
      ok, id := f.ReadId();
      if !ok { return; }
      var i := FindStored(stored, id);
      if i < |stored| && stored[i].retain {
        root := Subscriptions.Retain(root, Tokens.Tokens(stored[i].topic),
                                     if stored[i].payload != [] then Some(id) else None);
      }
    }

    // _db_sub_chunk_restore and _db_restore_sub
    method SubChunkRestore(f: Stream) returns (ok: bool)
      modifies this, f`pos
      ensures Restored(TakeSub(old(f.Rest())), old(Value()), Value(), f.Rest(), ok)
    {
      hide TakeText, TakeByte, Stream.Rest, Chars, FindClient, FindOrAdd;
      var client, filter, qos;
      ok, client := f.ReadText();
      if !ok { return; }
      ok, filter := f.ReadText();
      if !ok { return; }
      ok, qos := f.ReadByte();
      if !ok { return; }
      var id := Chars(CString(client));
      var i := FindOrAddContext(id, 0);
      root := Subscriptions.SubAdd(root, Tokens.Tokens(Chars(CString(filter))), ST.Leaf(id, qos));
    }

    // _db_client_chunk_restore
    method ClientChunkRestore(f: Stream, v2: Option<nat>) returns (ok: bool)
      modifies this, f`pos
      ensures Restored(TakeClient(old(f.Rest()), v2), old(Value()), Value(), f.Rest(), ok)
    {
      hide TakeText, TakeUint16, TakeId, Stream.Rest, Chars, FindClient;
      var client, lastMid, disconnectT;
      ok, client := f.ReadText();
      if !ok || client == [] { ok := false; return; }
      ok, lastMid := f.ReadUint16();
      if !ok { return; }
      if v2.Some? {
        disconnectT := v2.value;
      } else {
        ok, disconnectT := f.ReadId();
        if !ok { return; }
      }
      var i := FindOrAddContext(Chars(CString(client)), lastMid);
      clients := clients[i := clients[i].(disconnectT := disconnectT)];
    }

    method CfgChunkRestore(f: Stream) returns (ok: bool)
      modifies this, f`pos
      ensures Restored(TakeCfg(old(f.Rest())), old(Value()), Value(), f.Rest(), ok)
    {
      hide TakeByte, TakeId, Stream.Rest;
      var shutdown, size, id;
      ok, shutdown := f.ReadByte();
      if !ok { return; }
      ok, size := f.ReadByte();
      if !ok || size != ID_BYTES { ok := false; return; }
      ok, id := f.ReadId();
      if !ok { return; }
      lastDbId := id;
    }

    // The body of the loop in mqtt3_db_restore, behind the chunk's type.
    method ChunkRestore(f: Stream, chunk: nat, v2: Option<nat>) returns (ok: bool)
      modifies this, f`pos
      ensures Restored(TakeTyped(chunk, old(f.Rest()), v2), old(Value()), Value(), f.Rest(), ok)
    {
      hide TakeCfg, TakeStore, TakeMsg, TakeRetain, TakeSub, TakeClient, TakeUint32, Stream.Rest, Value, Restore1;
      var length;
      ok, length := f.ReadUint32();
      if !ok { return; }
      match chunk {
        case 1 => ok := CfgChunkRestore(f);
        case 2 => ok := MsgStoreChunkRestore(f);
        case 3 => ok := ClientMsgChunkRestore(f);
        case 4 => ok := RetainChunkRestore(f);
        case 5 => ok := SubChunkRestore(f);
        case 6 => ok := ClientChunkRestore(f, v2);
        case _ =>
          ghost var s := f.Rest();
          f.Skip(length);
          OtherChangesNothing(Value(), chunk, if length <= |s| then s[..length] else s);
      }
    }

    // mqtt3_db_restore
    method DbRestore(f: Stream, now: nat) returns (rc: Rc)
      requires f.pos == 0
      modifies this, f`pos
      ensures match BehindHeader(f.bytes)
        case None => rc == Inval && Value() == old(Value())
        case Some((version, s)) => (Value(), rc == Success) == RunFile(old(Value()), s, Reading(version, now))
    {
      hide Stream.Rest, Value, TakeTyped, Restored, RunFile, BehindHeader, TakeUint16, Reading;
      RestAtStart(f);
      var ok, version := ReadHeader(f);
      if !ok { return Inval; }
      var v2 := Reading(version, now);
      ghost var was, s := Value(), f.Rest();
      ghost var r := s;
      var more, chunk := f.ReadUint16();
      while more && ok
        invariant ok ==> RunFile(was, s, v2) == RunFile(Value(), r, v2)
        invariant ok ==> TakeUint16(r) == if more then Field(chunk, f.Rest()) else Truncated
        invariant !ok ==> RunFile(was, s, v2) == (Value(), false)
        decreases if ok then |r| + 1 else 0
      {
        ghost var before, db, from := r, Value(), f.Rest();
        ok := ChunkRestore(f, chunk, v2);
        RunStep(v2, db, before, chunk, from, Value(), f.Rest(), ok);
        if ok {
          r := f.Rest();
          more, chunk := f.ReadUint16();
        }
      }
      if ok { RunEnd(v2, Value(), r); }
      rc := if ok then Success else Inval;
    }

    static lemma {:induction false} RestAtStart(f: Stream)
      requires f.pos == 0
      ensures f.Rest() == f.bytes
    {
    }

    static method ReadHeader(f: Stream) returns (ok: bool, version: nat)
      modifies f`pos
      ensures match BehindHeader(old(f.Rest()))
        case None => !ok
        case Some(h) => ok && version == h.0 && f.Rest() == h.1
    {
      hide TakeBytes, TakeUint32, Stream.Rest;
      var header, crc;
      version := 0;
      ok, header := f.Read(|MAGIC|);
      if !ok || header != MAGIC { ok := false; return; }
      ok, crc := f.ReadUint32();
      if !ok { return; }
      ok, version := f.ReadUint32();
      if !ok || version > DB_VERSION { ok := false; return; }
    }
  }

  lemma {:induction false} RunEnd(v2: Option<nat>, db: Saved, r: seq<Byte>)
    requires TakeUint16(r) == Truncated
    ensures RunFile(db, r, v2) == (db, true)
  {
  }
}
