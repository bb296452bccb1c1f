/**
 Saving the broker's database and restoring it (src/persist.c): which chunks a backup holds, what
 each of them does to the database being restored, and what comes back.

 Strings are C strings of bytes. The records below are the part of the database that is saved.
 */
module Persist {
  import opened Topics
  import opened MessageQueue
  import opened Framing
  import opened Codec
  import opened PersistFile
  import ST = SubTree
  import opened SavedPaths
  import Subscriptions
  import Tokens

  datatype SavedMessage = SavedMessage(
    id: nat, sourceId: string, sourceMid: nat, topic: string, qos: Byte, retain: bool, payload: seq<Byte>)

  datatype SavedEntry = SavedEntry(
    storeId: nat, mid: nat, qos: Byte, retain: bool, direction: Direction, state: MsgState, dup: bool)

  datatype SavedClient = SavedClient(id: string, clean: bool, lastMid: nat, disconnectT: nat, msgs: seq<SavedEntry>)

  datatype Saved = Saved(lastDbId: nat, stored: seq<SavedMessage>, clients: seq<SavedClient>, root: ST.Tree)

  // The database of a broker that has just started.
  const Fresh := Saved(0, [], [], Subscriptions.Opened)

  // ----- Bytes and enumerations -----

  predicate CText(s: string) {
    forall i :: 0 <= i < |s| ==> 0 < s[i] as int < 256
  }

  function Bytes(s: string): (r: seq<Byte>)
    ensures |r| == |s| && (CText(s) ==> NulFree(r))
  {
    seq(|s|, i requires 0 <= i < |s| => s[i] as int % 256)
  }

  lemma {:induction false} CharsBack(s: string)
    requires CText(s)
    ensures Chars(Bytes(s)) == s
  {
  }

  function StateCode(s: MsgState): Byte {
    match s
    case Invalid => 0
    case PublishQos0 => 1
    case PublishQos1 => 2
    case WaitForPuback => 3
    case PublishQos2 => 4
    case WaitForPubrec => 5
    case ResendPubrel => 6
    case WaitForPubrel => 7
    case ResendPubcomp => 8
    case WaitForPubcomp => 9
    case SendPubrec => 10
    case Queued => 11
  }

  function StateOf(code: Byte): MsgState {
    match code
    case 1 => PublishQos0
    case 2 => PublishQos1
    case 3 => WaitForPuback
    case 4 => PublishQos2
    case 5 => WaitForPubrec
    case 6 => ResendPubrel
    case 7 => WaitForPubrel
    case 8 => ResendPubcomp
    case 9 => WaitForPubcomp
    case 10 => SendPubrec
    case 11 => Queued
    case _ => Invalid
  }

  function DirectionCode(d: Direction): Byte { if d == In then 0 else 1 }

  function DirectionOf(code: Byte): Direction { if code == 0 then In else Out }

  // ----- What is written -----

  predicate IsSys(topic: string) { "$SYS" <= topic }

  function StoreChunkOf(m: SavedMessage): Chunk {
    StoreChunk(m.id, Bytes(m.sourceId), m.sourceMid, 0, Bytes(m.topic), m.qos,
               if IsSys(m.topic) then 0 else Bit(m.retain, 1), m.payload)
  }

  function MsgChunkOf(client: string, e: SavedEntry): Chunk {
    MsgChunk(Bytes(client), e.storeId, e.mid, e.qos, Bit(e.retain, 1), DirectionCode(e.direction), StateCode(e.state),
             Bit(e.dup, 1))
  }

  function MsgChunks(client: string, msgs: seq<SavedEntry>): seq<Chunk> {
    if msgs == [] then [] else MsgChunks(client, msgs[..|msgs| - 1]) + [MsgChunkOf(client, msgs[|msgs| - 1])]
  }

  // Clients that asked for a clean session are not saved.
  function ClientChunks(c: SavedClient): seq<Chunk> {
    if c.clean then [] else [ClientChunk(Bytes(c.id), c.lastMid, c.disconnectT)] + MsgChunks(c.id, c.msgs)
  }

  predicate Durable(clients: seq<SavedClient>, id: string) {
    exists i :: 0 <= i < |clients| && clients[i].id == id && !clients[i].clean
  }

  // The subscriptions at a node.
  function LeafChunks(clients: seq<SavedClient>, filter: string, subs: seq<ST.Leaf>): seq<Chunk> {
    if subs == [] then []
    else
      var last := subs[|subs| - 1];
      LeafChunks(clients, filter, subs[..|subs| - 1]) +
      if Durable(clients, last.client) then [SubChunk(Bytes(last.client), Bytes(filter), last.qos % 256)] else []
  }

  // The stored message with an id, in the order of the list.
  function Find(stored: seq<SavedMessage>, id: nat, k: nat): (i: nat)
    requires k <= |stored|
    ensures k <= i <= |stored| && (i < |stored| ==> stored[i].id == id) && forall j :: k <= j < i ==> stored[j].id != id
    decreases |stored| - k
  {
    if k == |stored| || stored[k].id == id then k else Find(stored, id, k + 1)
  }

  predicate Keeps(db: Saved, id: nat) {
    var i := Find(db.stored, id, 0);
    i < |db.stored| && !IsSys(db.stored[i].topic)
  }

  function RetainedChunks(db: Saved, retained: Option<nat>): seq<Chunk> {
    if retained.Some? && Keeps(db, retained.value) then [RetainChunk(retained.value)] else []
  }

  // _db_subs_retain_write for a node and everything below it.
  function TreeChunks(db: Saved, t: ST.Tree, topic: string): seq<Chunk>
    decreases t, |t.children| + 1
  {
    var filter := Spelled(topic, t.topic);
    LeafChunks(db.clients, filter, t.subs) + RetainedChunks(db, t.retained) +
    TreeChunksFirst(db, t, |t.children|, filter)
  }

  function TreeChunksFirst(db: Saved, t: ST.Tree, k: nat, filter: string): seq<Chunk>
    requires k <= |t.children|
    decreases t, k
  {
    if k == 0 then [] else TreeChunksFirst(db, t, k - 1, filter) + TreeChunks(db, t.children[k - 1], filter)
  }

  function StoreChunks(stored: seq<SavedMessage>): seq<Chunk> {
    if stored == [] then [] else StoreChunks(stored[..|stored| - 1]) + [StoreChunkOf(stored[|stored| - 1])]
  }

  function AllClientChunks(clients: seq<SavedClient>): seq<Chunk> {
    if clients == [] then [] else AllClientChunks(clients[..|clients| - 1]) + ClientChunks(clients[|clients| - 1])
  }

  // mqtt3_db_backup.
  function Backup(db: Saved, shutdown: bool): seq<Chunk> {
    [CfgChunk(Bit(shutdown, 1), db.lastDbId)] + StoreChunks(db.stored) + AllClientChunks(db.clients)
    + TreeChunksFirst(db, db.root, |db.root.children|, "")
  }

  // ----- What is restored -----

  function FindClient(clients: seq<SavedClient>, id: string, k: nat): (i: nat)
    requires k <= |clients|
    ensures k <= i <= |clients| && (i < |clients| ==> clients[i].id == id)
    ensures forall j :: k <= j < i ==> clients[j].id != id
    decreases |clients| - k
  {
    if k == |clients| || clients[k].id == id then k else FindClient(clients, id, k + 1)
  }

  // _db_find_or_add_context. A last mid of 0 says nothing.
  function FindOrAdd(clients: seq<SavedClient>, id: string, lastMid: nat): (r: seq<SavedClient>)
    ensures FindClient(clients, id, 0) < |r|
  {
    var i := FindClient(clients, id, 0);
    var cs := if i < |clients| then clients else clients + [SavedClient(id, false, 0, 0, [])];
    if lastMid != 0 then cs[i := cs[i].(lastMid := lastMid)] else cs
  }

  function EntryOf(c: Chunk): SavedEntry
    requires c.MsgChunk?
  {
    SavedEntry(c.storeId, c.mid, c.qos, c.retain != 0, DirectionOf(c.direction), StateOf(c.state), c.dup != 0)
  }

  function RestoreMsg(db: Saved, c: Chunk): Option<Saved>
    requires c.MsgChunk?
  {
    if Find(db.stored, c.storeId, 0) == |db.stored| then None
    else
      var id := Chars(c.client);
      var cs := FindOrAdd(db.clients, id, 0);
      var i := FindClient(db.clients, id, 0);
      Some(db.(clients := cs[i := cs[i].(msgs := cs[i].msgs + [EntryOf(c)])]))
  }

  function RestoreStore(db: Saved, c: Chunk): Saved
    requires c.StoreChunk?
  {
    var lastDbId := if c.id == 0 then db.lastDbId + 1 else db.lastDbId;
    var id := if c.id == 0 then lastDbId else c.id;
    var m := SavedMessage(id, Chars(c.source), c.sourceMid, Chars(c.topic), c.qos, c.retain != 0, c.payload);
    db.(lastDbId := lastDbId, stored := [m] + db.stored)
  }

  // A message that is not found, or not marked as retained, is passed over.
  function RestoreRetain(db: Saved, id: nat): Saved {
    var i := Find(db.stored, id, 0);
    if i == |db.stored| || !db.stored[i].retain then db
    else db.(root := Subscriptions.Retain(db.root, Tokens.Tokens(db.stored[i].topic),
                                          if db.stored[i].payload != [] then Some(id) else None))
  }

  function RestoreSub(db: Saved, c: Chunk): Saved
    requires c.SubChunk?
  {
    var id := Chars(c.client);
    db.(clients := FindOrAdd(db.clients, id, 0),
        root := Subscriptions.SubAdd(db.root, Tokens.Tokens(Chars(c.filter)), ST.Leaf(id, c.qos)))
  }

  function RestoreClient(db: Saved, c: Chunk): Saved
    requires c.ClientChunk?
  {
    var id := Chars(c.client);
    var cs, i := FindOrAdd(db.clients, id, c.lastMid), FindClient(db.clients, id, 0);
    db.(clients := cs[i := cs[i].(disconnectT := c.disconnectT)])
  }

  // One chunk; chunks of another type change nothing.
  function Restore1(db: Saved, c: Chunk): Option<Saved> {
    match c
    case CfgChunk(_, lastDbId) => Some(db.(lastDbId := lastDbId))
    case StoreChunk(_, _, _, _, _, _, _, _) => Some(RestoreStore(db, c))
    case MsgChunk(_, _, _, _, _, _, _, _) => RestoreMsg(db, c)
    case RetainChunk(id) => Some(RestoreRetain(db, id))
    case SubChunk(_, _, _) => Some(RestoreSub(db, c))
    case ClientChunk(_, _, _) => Some(RestoreClient(db, c))
    case OtherChunk(_, _) => Some(db)
  }

  function Restore(db: Saved, chunks: seq<Chunk>): Option<Saved> {
    if chunks == [] then Some(db)
    else
      match Restore(db, chunks[..|chunks| - 1])
      case None => None
      case Some(r) => Restore1(r, chunks[|chunks| - 1])
  }

  lemma {:induction false} RestoreConcat(db: Saved, a: seq<Chunk>, b: seq<Chunk>)
    ensures Restore(db, a + b) == match Restore(db, a) case None => None case Some(r) => Restore(r, b)
    decreases |b|
  {
    if b == [] {
      assert a + b == a;
    } else {
      RestoreConcat(db, a, b[..|b| - 1]);
      assert (a + b)[..|a + b| - 1] == a + b[..|b| - 1];
    }
  }

  function KnownOnly(chunks: seq<Chunk>): seq<Chunk> {
    if chunks == [] then []
    else KnownOnly(chunks[..|chunks| - 1]) + if chunks[|chunks| - 1].OtherChunk? then [] else [chunks[|chunks| - 1]]
  }

  // Chunks of types this version does not know make no difference, wherever they are.
  lemma {:induction false} OthersIgnored(db: Saved, chunks: seq<Chunk>)
    ensures Restore(db, chunks) == Restore(db, KnownOnly(chunks))
    decreases |chunks|
  {
    if chunks != [] {
      var shorter, c := chunks[..|chunks| - 1], chunks[|chunks| - 1];
      OthersIgnored(db, shorter);
      var k := KnownOnly(shorter);
      assert (k + [c])[..|k|] == k && k + [] == k;
    }
  }
}
