/**
 What restoring a backup gives back: messages, clients, their queues, subscriptions and retained
 messages (src/persist.c).
 */
module Recovery {
  import opened Topics
  import opened MessageQueue
  import opened Framing
  import opened Codec
  import opened PersistFile
  import opened SavedPaths
  import opened Persist
  import opened Subscriptions
  import Tokens
  import ST = SubTree

  // ----- What a node of the tree contributes -----

  // A retained message comes with the tokens of the topic it was published to, if it was published
  // to be retained; they need not be those of its node.
  datatype Item =
    | SubItem(path: seq<string>, leaf: ST.Leaf)
    | RetItem(path: seq<string>, id: nat, own: Option<seq<string>>)

  function OwnTokens(stored: seq<SavedMessage>, id: nat): (r: Option<seq<string>>)
    ensures r.Some? ==> r.value != []
  {
    var i := Find(stored, id, 0);
    if i < |stored| && stored[i].retain then Some(Tokens.Tokens(stored[i].topic)) else None
  }

  function LeafItems(clients: seq<SavedClient>, at: seq<string>, subs: seq<ST.Leaf>): seq<Item> {
    if subs == [] then []
    else
      var last := subs[|subs| - 1];
      LeafItems(clients, at, subs[..|subs| - 1]) + if Durable(clients, last.client) then [SubItem(at, last)] else []
  }

  function RetItems(db: Saved, at: seq<string>, retained: Option<nat>): seq<Item> {
    if retained.Some? && Keeps(db, retained.value) then
      [RetItem(at, retained.value, OwnTokens(db.stored, retained.value))]
    else []
  }

  function Items(db: Saved, t: ST.Tree, at: seq<string>): seq<Item>
    decreases t, |t.children| + 1
  {
    LeafItems(db.clients, at, t.subs) + RetItems(db, at, t.retained) + ItemsFirst(db, t, |t.children|, at)
  }

  function ItemsFirst(db: Saved, t: ST.Tree, k: nat, at: seq<string>): seq<Item>
    requires k <= |t.children|
    decreases t, k
  {
    if k == 0 then [] else ItemsFirst(db, t, k - 1, at) + Items(db, t.children[k - 1], at + [t.children[k - 1].topic])
  }

  function ItemChunk(i: Item): Chunk {
    match i
    case SubItem(path, leaf) => SubChunk(Bytes(leaf.client), Bytes(SpelledAll("", path)), leaf.qos % 256)
    case RetItem(_, id, _) => RetainChunk(id)
  }

  function ItemChunks(items: seq<Item>): (r: seq<Chunk>)
    ensures |r| == |items|
    ensures forall i :: 0 <= i < |r| ==> r[i] == ItemChunk(items[i])
  {
    seq(|items|, i requires 0 <= i < |items| => ItemChunk(items[i]))
  }

  lemma {:induction false} LeafChunksAre(clients: seq<SavedClient>, at: seq<string>, subs: seq<ST.Leaf>)
    ensures LeafChunks(clients, SpelledAll("", at), subs) == ItemChunks(LeafItems(clients, at, subs))
    decreases |subs|
  {
    if subs != [] { LeafChunksAre(clients, at, subs[..|subs| - 1]); }
  }

  lemma {:induction false} TreeChunksAre(db: Saved, t: ST.Tree, at: seq<string>)
    ensures TreeChunks(db, t, SpelledAll("", at)) == ItemChunks(Items(db, t, at + [t.topic]))
    decreases t, |t.children| + 1
  {
    var at' := at + [t.topic];
    assert at'[..|at|] == at;
    LeafChunksAre(db.clients, at', t.subs);
    TreeChunksFirstAre(db, t, |t.children|, at');
  }

  lemma {:induction false} TreeChunksFirstAre(db: Saved, t: ST.Tree, k: nat, at: seq<string>)
    requires k <= |t.children|
    ensures TreeChunksFirst(db, t, k, SpelledAll("", at)) == ItemChunks(ItemsFirst(db, t, k, at))
    decreases t, k
  {
    if k > 0 {
      TreeChunksFirstAre(db, t, k - 1, at);
      TreeChunksAre(db, t.children[k - 1], at);
    }
  }

  // ----- Which contributions there are -----

  // The subscription or retained message is in the tree and worth saving.
  predicate Due(db: Saved, t: ST.Tree, at: seq<string>, i: Item) {
    at <= i.path &&
    match i
    case SubItem(path, leaf) =>
      ST.Lookup(t, path[|at|..], leaf.client) == Some(leaf.qos) && Durable(db.clients, leaf.client)
    case RetItem(path, id, own) =>
      ST.RetainedAt(t, path[|at|..]) == Some(id) && Keeps(db, id) && own == OwnTokens(db.stored, id)
  }

  lemma {:induction false} LeafItemsExact(clients: seq<SavedClient>, at: seq<string>, subs: seq<ST.Leaf>, i: Item)
    ensures i in LeafItems(clients, at, subs) <==> i.SubItem? && i.path == at && i.leaf in subs && Durable(clients,
          i.leaf.client)
    decreases |subs|
  {
    if subs != [] {
      LeafItemsExact(clients, at, subs[..|subs| - 1], i);
      assert subs == subs[..|subs| - 1] + [subs[|subs| - 1]];
    }
  }

  lemma {:induction false} OwnItems(db: Saved, t: ST.Tree, at: seq<string>, i: Item)
    requires ST.DistinctLeaves(t.subs)
    ensures i in LeafItems(db.clients, at, t.subs) || i in RetItems(db, at, t.retained) <==>
              i.path == at && Due(db, t, at, i)
  {
    LeafItemsExact(db.clients, at, t.subs, i);
    assert at <= i.path ==> (i.path == at <==> i.path[|at|..] == []);
    if i.SubItem? {
      var k := ST.FindLeaf(t.subs, i.leaf.client, 0);
      assert k < |t.subs| ==> t.subs[k] in t.subs;
    }
  }

  lemma {:induction false} ItemsExact(db: Saved, t: ST.Tree, at: seq<string>, i: Item)
    requires ST.WellFormed(t)
    ensures i in Items(db, t, at) <==> Due(db, t, at, i)
    decreases t, |t.children| + 1
  {
    OwnItems(db, t, at, i);
    ItemsFirstExact(db, t, |t.children|, at, i);
    hide LeafItems, RetItems, ItemsFirst;
    if at <= i.path && i.path != at { assert i.path[|at|] == i.path[|at|..][0]; }
  }

  lemma {:induction false} ItemsFirstExact(db: Saved, t: ST.Tree, k: nat, at: seq<string>, i: Item)
    requires ST.WellFormed(t) && k <= |t.children|
    ensures i in ItemsFirst(db, t, k, at) <==>
              at <= i.path && |i.path| > |at| && ST.FindChild(t.children, i.path[|at|], 0) < k && Due(db, t, at, i)
    decreases t, k
  {
    hide Items, Due, ST.Lookup, ST.RetainedAt, ST.WellFormed;
    if k > 0 {
      var b := t.children[k - 1];
      var at', p := at + [b.topic], i.path;
      ItemsFirstExact(db, t, k - 1, at, i);
      assert ST.WellFormed(b) && ST.DistinctNames(t.children) by { ST.ChildWellFormed(t, k - 1); }
      ItemsExact(db, b, at', i);
      DueBelow(db, t, k - 1, at, i);
      BehindName(at, b.topic, p);
      ST.FindOnly(t.children, k - 1);
    }
  }

  lemma {:induction false} BehindName(at: seq<string>, name: string, p: seq<string>)
    ensures at + [name] <= p <==> at <= p && |p| > |at| && p[|at|] == name
  {
    assert (at + [name])[|at|] == name;
  }

  lemma {:induction false} DueBelow(db: Saved, t: ST.Tree, j: nat, at: seq<string>, i: Item)
    requires ST.DistinctNames(t.children) && j < |t.children|
    ensures var at' := at + [t.children[j].topic];
      at' <= i.path ==> (Due(db, t.children[j], at', i) <==> Due(db, t, at, i))
    ensures Due(db, t.children[j], at + [t.children[j].topic], i) ==> at + [t.children[j].topic] <= i.path
  {
    var b, p := t.children[j], i.path;
    var at' := at + [b.topic];
    if at' <= p {
      BehindName(at, b.topic, p);
      assert p[|at|..] == [b.topic] + p[|at'|..];
      assert p[|at|..][1..] == p[|at'|..];
      ST.FindOnly(t.children, j);
    }
  }

  // ----- Stored messages -----

  predicate MessageFits(m: SavedMessage) {
    && 0 < m.id && IsId(m.id)
    && CText(m.sourceId) && |m.sourceId| < 65536 && m.sourceMid < 65536
    && CText(m.topic) && 0 < |m.topic| < 65536 && |m.payload| < 0x8000_0000
  }

  predicate MessagesFit(stored: seq<SavedMessage>) {
    && (forall i :: 0 <= i < |stored| ==> MessageFits(stored[i]))
    && forall i, j :: 0 <= i < j < |stored| ==> stored[i].id != stored[j].id
  }

  // $SYS messages do not come back as retained ones.
  function Kept(m: SavedMessage): SavedMessage { m.(retain := m.retain && !IsSys(m.topic)) }

  // Restoring puts every message in front of those before it.
  function Reversed(stored: seq<SavedMessage>): (r: seq<SavedMessage>)
    ensures |r| == |stored| && forall j :: 0 <= j < |r| ==> r[j] == Kept(stored[|stored| - 1 - j])
  {
    seq(|stored|, j requires 0 <= j < |stored| => Kept(stored[|stored| - 1 - j]))
  }

  lemma {:induction false} ReversedBehind(stored: seq<SavedMessage>, m: SavedMessage)
    ensures Reversed(stored + [m]) == [Kept(m)] + Reversed(stored)
  {
  }

  lemma {:induction false} MessageBack(db: Saved, m: SavedMessage)
    requires MessageFits(m)
    ensures Restore1(db, StoreChunkOf(m)) == Some(db.(stored := [Kept(m)] + db.stored))
  {
    CharsBack(m.sourceId);
    CharsBack(m.topic);
  }

  lemma {:induction false} RestoreBehind(db: Saved, chunks: seq<Chunk>, c: Chunk)
    ensures Restore(db, chunks + [c]) == match Restore(db, chunks) case None => None case Some(r) => Restore1(r, c)
  {
    assert (chunks + [c])[..|chunks|] == chunks;
  }

  lemma {:induction false} StoresBack(db: Saved, stored: seq<SavedMessage>)
    requires forall i :: 0 <= i < |stored| ==> MessageFits(stored[i])
    ensures Restore(db, StoreChunks(stored)) == Some(db.(stored := Reversed(stored) + db.stored))
    decreases |stored|
  {
    if stored == [] {
      assert Reversed(stored) + db.stored == db.stored;
    } else {
      var shorter, m := stored[..|stored| - 1], stored[|stored| - 1];
      assert shorter + [m] == stored;
      StoresBack(db, shorter);
      RestoreBehind(db, StoreChunks(shorter), StoreChunkOf(m));
      MessageBack(db.(stored := Reversed(shorter) + db.stored), m);
      ReversedBehind(shorter, m);
      assert [Kept(m)] + (Reversed(shorter) + db.stored) == Reversed(stored) + db.stored;
    }
  }

  lemma {:induction false} FindKept(stored: seq<SavedMessage>, id: nat)
    requires forall i, j :: 0 <= i < j < |stored| ==> stored[i].id != stored[j].id
    ensures var i, j := Find(stored, id, 0), Find(Reversed(stored), id, 0);
      (i < |stored| <==> j < |stored|) && (j < |stored| ==> Reversed(stored)[j] == Kept(stored[i]))
  {
    var r := Reversed(stored);
    var i, j := Find(stored, id, 0), Find(r, id, 0);
    if i < |stored| { assert r[|stored| - 1 - i] == Kept(stored[i]); }
    if j < |stored| { assert r[j] == Kept(stored[|stored| - 1 - j]); }
  }

  // ----- Clients and their queues -----

  predicate EntryFits(stored: seq<SavedMessage>, e: SavedEntry) {
    Find(stored, e.storeId, 0) < |stored| && IsId(e.storeId) && e.mid < 65536
  }

  predicate ClientFits(stored: seq<SavedMessage>, c: SavedClient) {
    && CText(c.id) && 0 < |c.id| < 65536 && c.lastMid < 65536 && IsId(c.disconnectT)
    && forall k :: 0 <= k < |c.msgs| ==> EntryFits(stored, c.msgs[k])
  }

  predicate DistinctIds(clients: seq<SavedClient>) {
    forall i, j :: 0 <= i < j < |clients| ==> clients[i].id != clients[j].id
  }

  predicate ClientsFit(stored: seq<SavedMessage>, clients: seq<SavedClient>) {
    DistinctIds(clients) && forall i :: 0 <= i < |clients| ==> ClientFits(stored, clients[i])
  }

  function DurableOnly(clients: seq<SavedClient>): (r: seq<SavedClient>)
    ensures forall k :: 0 <= k < |r| ==> r[k] in clients && !r[k].clean
    ensures forall i :: 0 <= i < |clients| && !clients[i].clean ==> clients[i] in r
  {
    if clients == [] then []
    else
      var last := clients[|clients| - 1];
      DurableOnly(clients[..|clients| - 1]) + if last.clean then [] else [last]
  }

  lemma {:induction false} EntryBack(client: string, e: SavedEntry)
    ensures EntryOf(MsgChunkOf(client, e)) == e
  {
  }

  lemma {:induction false} FindLast(base: seq<SavedClient>, c: SavedClient)
    requires forall k :: 0 <= k < |base| ==> base[k].id != c.id
    ensures FindClient(base + [c], c.id, 0) == |base| && FindClient(base, c.id, 0) == |base|
  {
    assert (base + [c])[|base|] == c;
  }

  lemma {:induction false} MsgsBack(db: Saved, base: seq<SavedClient>, c: SavedClient, msgs: seq<SavedEntry>)
    requires db.clients == base + [c] && CText(c.id) && c.msgs == []
    requires forall k :: 0 <= k < |base| ==> base[k].id != c.id
    requires forall k :: 0 <= k < |msgs| ==> EntryFits(db.stored, msgs[k])
    ensures Restore(db, MsgChunks(c.id, msgs)) == Some(db.(clients := base + [c.(msgs := msgs)]))
    decreases |msgs|
  {
    hide Bytes, Chars, StateCode, StateOf, Restore, MsgChunkOf, EntryOf, EntryFits;
    if msgs == [] {
      RestoreNothing(db);
      assert c.(msgs := []) == c;
    } else {
      var shorter, e := msgs[..|msgs| - 1], msgs[|msgs| - 1];
      MsgsBack(db, base, c, shorter);
      var c1 := c.(msgs := shorter);
      assert shorter + [e] == msgs;
      RestoreBehind(db, MsgChunks(c.id, shorter), MsgChunkOf(c.id, e));
      EntryAdded(db.(clients := base + [c1]), base, c1, e);
      assert c1.(msgs := msgs) == c.(msgs := msgs);
    }
  }

  lemma {:induction false} EntryAdded(db: Saved, base: seq<SavedClient>, c: SavedClient, e: SavedEntry)
    requires db.clients == base + [c] && CText(c.id) && EntryFits(db.stored, e)
    requires forall k :: 0 <= k < |base| ==> base[k].id != c.id
    ensures Restore1(db, MsgChunkOf(c.id, e)) == Some(db.(clients := base + [c.(msgs := c.msgs + [e])]))
  {
    FindLast(base, c);
    CharsBack(c.id);
    EntryBack(c.id, e);
    hide Bytes, Chars, StateCode, StateOf, EntryOf;
    assert (base + [c])[|base| := c.(msgs := c.msgs + [e])] == base + [c.(msgs := c.msgs + [e])];
  }

  lemma {:induction false} ClientStarted(db: Saved, c: SavedClient)
    requires CText(c.id) && forall k :: 0 <= k < |db.clients| ==> db.clients[k].id != c.id
    ensures Restore1(db, ClientChunk(Bytes(c.id), c.lastMid, c.disconnectT)) ==
      Some(db.(clients := db.clients + [SavedClient(c.id, false, c.lastMid, c.disconnectT, [])]))
  {
    CharsBack(c.id);
    var base, c0 := db.clients, SavedClient(c.id, false, 0, 0, []);
    FindLast(base, c0);
    var c1 := c0.(lastMid := c.lastMid);
    var c2 := c1.(disconnectT := c.disconnectT);
    hide Bytes, Chars;
    assert (base + [c0])[|base| := c1] == base + [c1];
    assert (base + [c1])[|base| := c2] == base + [c2];
  }

  lemma {:induction false} ClientBack(db: Saved, c: SavedClient)
    requires ClientFits(db.stored, c) && forall k :: 0 <= k < |db.clients| ==> db.clients[k].id != c.id
    ensures Restore(db, ClientChunks(c)) == Some(if c.clean then db else db.(clients := db.clients + [c]))
  {
    if !c.clean {
      var head, c0 := ClientChunk(Bytes(c.id), c.lastMid, c.disconnectT), SavedClient(c.id, false, c.lastMid,
          c.disconnectT, []);
      ClientStarted(db, c);
      RestoreBehind(db, [], head);
      assert [] + [head] == [head];
      RestoreConcat(db, [head], MsgChunks(c.id, c.msgs));
      MsgsBack(db.(clients := db.clients + [c0]), db.clients, c0, c.msgs);
      assert c0.(msgs := c.msgs) == c;
      hide MsgChunks, Restore;
      assert ClientChunks(c) == [head] + MsgChunks(c.id, c.msgs);
    }
  }

  lemma {:induction false} RestoreNothing(db: Saved)
    ensures Restore(db, []) == Some(db)
  {
  }

  lemma {:induction false} SomeIndex(clients: seq<SavedClient>, c: SavedClient, id: string)
    requires c in clients && forall i :: 0 <= i < |clients| ==> clients[i].id != id
    ensures c.id != id
  {
  }

  lemma {:induction false} NotAmong(clients: seq<SavedClient>, id: string)
    requires forall i :: 0 <= i < |clients| ==> clients[i].id != id
    ensures forall k :: 0 <= k < |DurableOnly(clients)| ==> DurableOnly(clients)[k].id != id
  {
    var r := DurableOnly(clients);
    forall k | 0 <= k < |r| ensures r[k].id != id { SomeIndex(clients, r[k], id); }
  }

  lemma {:induction false} ClientsBack(db: Saved, clients: seq<SavedClient>)
    requires db.clients == [] && ClientsFit(db.stored, clients)
    ensures Restore(db, AllClientChunks(clients)) == Some(db.(clients := DurableOnly(clients)))
    decreases |clients|
  {
    hide Restore, ClientChunks, ClientFits, DistinctIds;
    if clients == [] {
      RestoreNothing(db);
    } else {
      var shorter, c := clients[..|clients| - 1], clients[|clients| - 1];
      assert DistinctIds(shorter) by { FewerIds(clients); }
      assert forall i :: 0 <= i < |shorter| ==> shorter[i] == clients[i];
      ClientsBack(db, shorter);
      assert forall i :: 0 <= i < |shorter| ==> shorter[i].id != c.id by { LastIsNew(clients); }
      NotAmong(shorter, c.id);
      RestoreConcat(db, AllClientChunks(shorter), ClientChunks(c));
      ClientBack(db.(clients := DurableOnly(shorter)), c);
      assert DurableOnly(shorter) + [] == DurableOnly(shorter);
    }
  }

  lemma {:induction false} LastIsNew(clients: seq<SavedClient>)
    requires DistinctIds(clients) && clients != []
    ensures forall i :: 0 <= i < |clients| - 1 ==> clients[i].id != clients[|clients| - 1].id
  {
  }

  lemma {:induction false} FewerIds(clients: seq<SavedClient>)
    requires DistinctIds(clients) && clients != []
    ensures DistinctIds(clients[..|clients| - 1])
  {
  }

  // ----- The tree -----

  // Restoring one contribution, on the tree alone.
  function ItemStep(root: ST.Tree, i: Item): ST.Tree {
    match i
    case SubItem(path, leaf) => SubAdd(root, Tokens.Tokens(SpelledAll("", path)), leaf)
    case RetItem(_, id, own) => if own.Some? && own.value != [] then Retain(root, own.value, Some(id)) else root
  }

  function RootAfter(root: ST.Tree, items: seq<Item>): ST.Tree {
    if items == [] then root else ItemStep(RootAfter(root, items[..|items| - 1]), items[|items| - 1])
  }

  predicate SubFits(path: seq<string>, leaf: ST.Leaf) {
    && |path| >= 2 && path == Filed(path[1..]) && FilterTokens(path[1..]) && AllSlashFree(path)
    && CText(SpelledAll("", path)) && |SpelledAll("", path)| < 65536
    && leaf.qos < 256
  }

  predicate RetFits(stored: seq<SavedMessage>, id: nat, own: Option<seq<string>>) {
    IsId(id) && RetKnown(stored, id) && own == OwnTokens(stored, id)
  }

  // The message is in the store, was published to a topic and has a payload.
  predicate RetKnown(stored: seq<SavedMessage>, id: nat) {
    var i := Find(stored, id, 0);
    i < |stored| && stored[i].payload != [] && TopicTokens(Tokens.Tokens(stored[i].topic))
  }

  // A contribution that can be restored once messages and clients are there.
  predicate ItemFits(db: Saved, i: Item) {
    match i
    case SubItem(path, leaf) => SubFits(path, leaf) && CText(leaf.client) && FindClient(db.clients, leaf.client,
          0) < |db.clients|
    case RetItem(_, id, own) => RetFits(db.stored, id, own)
  }

  predicate AllFit(db: Saved, items: seq<Item>) {
    forall k :: 0 <= k < |items| ==> ItemFits(db, items[k])
  }

  lemma {:induction false} ItemBack(db: Saved, i: Item)
    requires ItemFits(db, i)
    ensures Restore1(db, ItemChunk(i)) == Some(db.(root := ItemStep(db.root, i)))
  {
    hide Retain, SubAdd, Tokens.Tokens, SpelledAll, Bytes, Chars, Filed;
    match i {
      case SubItem(path, leaf) =>
        CharsBack(leaf.client);
        CharsBack(SpelledAll("", path));
        assert leaf.qos % 256 == leaf.qos;
      case RetItem(_, id, own) =>
    }
  }

  lemma {:induction false} ItemsBack(db: Saved, items: seq<Item>)
    requires AllFit(db, items)
    ensures Restore(db, ItemChunks(items)) == Some(db.(root := RootAfter(db.root, items)))
    decreases |items|
  {
    hide ItemStep, ItemChunk, ItemChunks, Restore, Restore1, ItemFits, AllFit;
    if items == [] {
      RestoreNothing(db);
      assert ItemChunks(items) == [];
    } else {
      var shorter, i := items[..|items| - 1], items[|items| - 1];
      FewerFit(db, items);
      ItemsBack(db, shorter);
      ItemChunksBehind(shorter, i);
      assert items == shorter + [i];
      RestoreBehind(db, ItemChunks(shorter), ItemChunk(i));
      var d := db.(root := RootAfter(db.root, shorter));
      StillFits(db, d, i);
      ItemBack(d, i);
    }
  }

  lemma {:induction false} ItemChunksBehind(items: seq<Item>, i: Item)
    ensures ItemChunks(items + [i]) == ItemChunks(items) + [ItemChunk(i)]
  {
  }

  lemma {:induction false} StillFits(db: Saved, d: Saved, i: Item)
    requires ItemFits(db, i) && d.stored == db.stored && d.clients == db.clients
    ensures ItemFits(d, i)
  {
  }

  lemma {:induction false} FewerFit(db: Saved, items: seq<Item>)
    requires AllFit(db, items) && items != []
    ensures AllFit(db, items[..|items| - 1]) && ItemFits(db, items[|items| - 1])
  {
  }

  // The same on the values: tokens that come back, and the top-level nodes.
  predicate ItemShape(i: Item) {
    match i
    case SubItem(path, leaf) => |path| >= 2 && path == Filed(path[1..]) && FilterTokens(path[1..]) && AllSlashFree(path)
    case RetItem(_, _, own) => own.Some? ==> TopicTokens(own.value)
  }

  predicate HasEmptyTop(root: ST.Tree) { HasTop(root, [""]) }

  predicate AllShaped(items: seq<Item>) {
    forall k :: 0 <= k < |items| ==> ItemShape(items[k])
  }

  lemma {:induction false} OpenedTops(name: string)
    ensures RootWellFormed(Opened)
    ensures HasTop(Opened, [name]) <==> name == "" || name == "$SYS"
  {
    OpenedAgrees();
    assert Opened.children[0].topic == "" && Opened.children[1].topic == "$SYS";
  }

  lemma {:induction false} SubTokens(path: seq<string>)
    requires |path| >= 2 && path == Filed(path[1..]) && FilterTokens(path[1..]) && AllSlashFree(path)
    ensures Tokens.Tokens(SpelledAll("", path)) == Returned(path) && FilterTokens(Returned(path))
  {
    SpelledTokens(path);
    ReturnedFilter(path[1..]);
  }

  lemma {:induction false} StepWellFormed(root: ST.Tree, i: Item)
    requires RootWellFormed(root) && ItemShape(i)
    ensures RootWellFormed(ItemStep(root, i))
    ensures forall name :: HasTop(root, [name]) ==> HasTop(ItemStep(root, i), [name])
  {
    hide RootWellFormed, SubAdd, Retain, FilterTokens, SpelledAll, Tokens.Tokens, HasTop;
    match i {
      case SubItem(path, leaf) =>
        SubTokens(path);
        var t := Returned(path);
        SubAddWellFormed(root, t, leaf);
        forall name | HasTop(root, [name]) ensures HasTop(SubAdd(root, t, leaf),
                                                          [name]) { SubAddKeepsTops(root, t, leaf, name); }
      case RetItem(_, id, own) =>
        if own.Some? {
          RetainWellFormed(root, own.value, Some(id));
          forall name | HasTop(root, [name]) ensures HasTop(Retain(root, own.value, Some(id)), [name]) {
            RetainKeepsTops(root, own.value, Some(id), name);
          }
        }
    }
  }

  lemma {:induction false} AfterWellFormed(items: seq<Item>)
    requires AllShaped(items)
    ensures RootWellFormed(RootAfter(Opened, items)) && HasEmptyTop(RootAfter(Opened, items))
    decreases |items|
  {
    if items == [] {
      OpenedTops("");
    } else {
      hide RootWellFormed, ItemStep, HasTop;
      AfterWellFormed(items[..|items| - 1]);
      StepWellFormed(RootAfter(Opened, items[..|items| - 1]), items[|items| - 1]);
    }
  }

  // What one more contribution changes.
  lemma {:induction false} StepLook(root: ST.Tree, i: Item, p: seq<string>, c: string)
    requires RootWellFormed(root) && ItemShape(i)
    ensures ST.Lookup(ItemStep(root, i), p, c) == if Makes(i, p, c) then Some(i.leaf.qos) else ST.Lookup(root, p, c)
    ensures ST.RetainedAt(ItemStep(root, i), p) ==
      if FiledAt(i, p) && HasTop(root, p[1..]) then Some(i.id) else ST.RetainedAt(root, p)
  {
    hide RootWellFormed, SubAdd, Retain, FilterTokens, SpelledAll, Tokens.Tokens, HasTop, Returned;
    match i {
      case SubItem(path, leaf) =>
        SubTokens(path);
        LookupSubAdd(root, Returned(path), leaf, p, c);
      case RetItem(_, id, own) =>
        if own.Some? {
          LookupRetain(root, own.value, Some(id), p, c);
          FiledParts(own.value, p);
        }
    }
  }

  // The contribution is restored as the retained message of this node.
  predicate FiledAt(i: Item, p: seq<string>) {
    i.RetItem? && i.own.Some? && i.own.value != [] && p == Filed(i.own.value) && |p| > 1
  }

  // The contribution is restored as this client's subscription at this path.
  predicate Makes(i: Item, p: seq<string>, c: string) {
    i.SubItem? && i.leaf.client == c && p == Filed(Returned(i.path))
  }

  lemma {:induction false} AfterLookup(items: seq<Item>, p: seq<string>, c: string)
    requires AllShaped(items)
    ensures ST.Lookup(RootAfter(Opened, items), p, c).Some? <==> exists k :: 0 <= k < |items| && Makes(items[k], p, c)
    decreases |items|
  {
    hide Makes, ItemStep, RootWellFormed, ItemShape;
    if items == [] {
      NothingOpened(p, c);
    } else {
      var shorter, last := items[..|items| - 1], |items| - 1;
      AfterLookup(shorter, p, c);
      AfterWellFormed(shorter);
      StepLook(RootAfter(Opened, shorter), items[last], p, c);
      assert forall k :: 0 <= k < last ==> shorter[k] == items[k];
    }
  }

  lemma {:induction false} NothingOpened(p: seq<string>, c: string)
    ensures ST.Lookup(Opened, p, c) == None && ST.RetainedAt(Opened, p) == None
  {
    OpenedAgrees();
  }

  predicate PathRight(path: seq<string>) { path != [] && SpelledRight(path[1..]) }

  // All filters are of the kind that comes back.
  predicate AllRight(items: seq<Item>) {
    forall k :: 0 <= k < |items| && items[k].SubItem? ==> PathRight(items[k].path)
  }

  // No two contributions of the same kind are about the same.
  predicate OneEach(items: seq<Item>) {
    forall i, j :: 0 <= i < |items| && 0 <= j < |items| && SameKey(items[i], items[j]) ==> items[i] == items[j]
  }

  predicate SameKey(i: Item, j: Item) {
    i.path == j.path && i.SubItem? == j.SubItem? && (i.SubItem? ==> i.leaf.client == j.leaf.client)
  }

  lemma {:induction false} RightMakes(i: Item, p: seq<string>, c: string)
    requires ItemShape(i) && (i.SubItem? ==> PathRight(i.path))
    ensures Makes(i, p, c) <==> i.SubItem? && i.path == p && i.leaf.client == c
  {
    if i.SubItem? { ReturnedFiled(i.path[1..]); }
  }

  lemma {:induction false} AfterValue(items: seq<Item>, p: seq<string>, leaf: ST.Leaf)
    requires AllShaped(items) && AllRight(items) && OneEach(items)
    ensures ST.Lookup(RootAfter(Opened, items), p, leaf.client) == Some(leaf.qos) <==> SubItem(p, leaf) in items
    decreases |items|
  {
    hide Makes, ItemStep, RootWellFormed, ItemShape, SpelledRight;
    if items == [] {
      NothingOpened(p, leaf.client);
    } else {
      var shorter, last := items[..|items| - 1], items[|items| - 1];
      assert items == shorter + [last];
      AfterValue(shorter, p, leaf);
      AfterWellFormed(shorter);
      StepLook(RootAfter(Opened, shorter), last, p, leaf.client);
      RightMakes(last, p, leaf.client);
    }
  }

  // The last contribution that is restored as the retained message of this node.
  function LastFiled(items: seq<Item>, p: seq<string>): Option<nat> {
    if items == [] then None
    else if FiledAt(items[|items| - 1], p) then Some(items[|items| - 1].id)
    else LastFiled(items[..|items| - 1], p)
  }

  lemma {:induction false} LastFiledIs(items: seq<Item>, p: seq<string>)
    ensures LastFiled(items, p).Some? <==> exists k :: 0 <= k < |items| && FiledAt(items[k], p)
    ensures LastFiled(items, p).Some? ==>
      exists k :: 0 <= k < |items| && FiledAt(items[k], p) && items[k].id == LastFiled(items, p).value
    decreases |items|
  {
    if items != [] {
      var shorter, last := items[..|items| - 1], |items| - 1;
      LastFiledIs(shorter, p);
      hide FiledAt;
      if !FiledAt(items[last], p) && LastFiled(shorter, p).Some? {
        var k :| 0 <= k < |shorter| && FiledAt(shorter[k], p) && shorter[k].id == LastFiled(shorter, p).value;
        assert items[k] == shorter[k];
      }
      if k :| 0 <= k < last && FiledAt(items[k], p) { assert shorter[k] == items[k]; }
    }
  }

  lemma {:induction false} AfterRetained(items: seq<Item>, p: seq<string>)
    requires AllShaped(items) && p != [] && p[0] == ""
    ensures ST.RetainedAt(RootAfter(Opened, items), p) == LastFiled(items, p)
    decreases |items|
  {
    hide ItemStep, RootWellFormed, ItemShape;
    if items == [] {
      NothingOpened(p, "");
    } else {
      var shorter, last := items[..|items| - 1], items[|items| - 1];
      assert items == shorter + [last];
      AfterRetained(shorter, p);
      AfterWellFormed(shorter);
      StepLook(RootAfter(Opened, shorter), last, p, "");
    }
  }

  predicate NoSys(items: seq<Item>) {
    forall k :: 0 <= k < |items| && items[k].RetItem? && items[k].own.Some? ==>
      items[k].own.value != [] && items[k].own.value[0] != "$SYS"
  }

  lemma {:induction false} RightTop(path: seq<string>)
    requires |path| >= 2 && path == Filed(path[1..]) && PathRight(path)
    ensures Returned(path) == path[1..] && path[1] == ""
  {
    ReturnedFiled(path[1..]);
  }

  lemma {:induction false} AfterTops(items: seq<Item>, name: string)
    requires AllShaped(items) && AllRight(items)
    ensures HasTop(RootAfter(Opened, items), [name]) <==> name == "" || name == "$SYS"
    decreases |items|
  {
    if items == [] {
      OpenedTops(name);
    } else {
      hide HasTop, SubAdd, Retain, PathRight, Returned, FilterTokens, TopicTokens;
      var shorter, last := items[..|items| - 1], items[|items| - 1];
      var root := RootAfter(Opened, shorter);
      AfterTops(shorter, name);
      match last {
        case SubItem(path, leaf) =>
          SubTokens(path);
          RightTop(path);
          SubAddKeepsTops(root, path[1..], leaf, name);
        case RetItem(_, id, own) => if own.Some? { RetainKeepsTops(root, own.value, Some(id), name); }
      }
    }
  }

  lemma {:induction false} AfterElsewhere(items: seq<Item>, p: seq<string>)
    requires AllShaped(items) && AllRight(items) && NoSys(items) && (p == [] || p[0] != "")
    ensures ST.RetainedAt(RootAfter(Opened, items), p) == None
    decreases |items|
  {
    hide ItemStep, RootWellFormed;
    if items == [] {
      NothingOpened(p, "");
    } else {
      var shorter, last := items[..|items| - 1], items[|items| - 1];
      AfterElsewhere(shorter, p);
      AfterWellFormed(shorter);
      StepLook(RootAfter(Opened, shorter), last, p, "");
      if FiledAt(last, p) { AfterTops(shorter, p[0]); }
    }
  }

  // ----- What the paths of a tree look like -----

  lemma {:induction false} LookedValid(t: ST.Tree, p: seq<string>, c: string)
    requires ST.WellFormed(t) && ST.Lookup(t, p, c).Some?
    ensures ST.ValidPath([t.topic] + p)
    decreases |p|
  {
    if p != [] {
      var i := ST.FindChild(t.children, p[0], 0);
      LookedValid(t.children[i], p[1..], c);
      assert p == [p[0]] + p[1..];
      forall k | 0 <= k < |p| ensures ([t.topic] + p)[k] != "#" {
        if k > 0 { assert ([t.topic] + p)[k] == p[k - 1]; }
      }
    }
  }

  lemma {:induction false} LookedFiled(root: ST.Tree, p: seq<string>, c: string)
    requires RootWellFormed(root) && ST.Lookup(root, p, c).Some?
    ensures |p| >= 2 && p == Filed(p[1..]) && FilterTokens(p[1..])
  {
    var top := root.children[ST.FindChild(root.children, p[0], 0)];
    LookedValid(top, p[1..], c);
    assert p == [p[0]] + p[1..];
    forall k | 0 <= k < |p[1..]| - 1 ensures p[1..][k] != "#" { assert ([top.topic] + p[1..])[k + 1] == p[1..][k]; }
  }

  lemma {:induction false} RetainedPlain(t: ST.Tree, p: seq<string>)
    requires ST.RetainedOnTopics(t) && ST.RetainedAt(t, p).Some?
    ensures ST.PlainPath(p) && t.topic != "+" && t.topic != "#"
    decreases |p|
  {
    if ST.CountRetained(t) == 0 { ST.NoneRetained(t, p); }
    if p != [] { RetainedPlain(t.children[ST.FindChild(t.children, p[0], 0)], p[1..]); }
  }

  lemma {:induction false} RetainedFiled(root: ST.Tree, p: seq<string>)
    requires RootWellFormed(root) && ST.RetainedAt(root, p).Some?
    ensures |p| >= 2 && p == Filed(p[1..]) && TopicTokens(p[1..])
  {
    RetainedPlain(root, p);
    assert p == [p[0]] + p[1..];
  }

  // ----- Databases that can be saved -----

  predicate SubLegal(path: seq<string>, qos: nat) {
    AllSlashFree(path) && CText(SpelledAll("", path)) && |SpelledAll("", path)| < 65536 && qos < 256
  }

  ghost predicate Saves(db: Saved, p: seq<string>, c: string) {
    ST.Lookup(db.root, p, c).Some? && Durable(db.clients, c)
  }

  ghost predicate TreeFits(db: Saved) {
    && RootWellFormed(db.root)
    && (forall p, c :: Saves(db, p, c) ==> SubLegal(p, ST.Lookup(db.root, p, c).value))
    && forall p :: ST.RetainedAt(db.root, p).Some? ==>
         IsId(ST.RetainedAt(db.root, p).value) && RetKnown(db.stored, ST.RetainedAt(db.root, p).value)
  }

  // Databases that a backup can hold: ids and texts fit their fields, and every queue entry and
  // every retained message is in the store. Which databases are of this kind is shown in SavedBroker.
  ghost predicate Persistable(db: Saved) {
    IsId(db.lastDbId) && MessagesFit(db.stored) && ClientsFit(db.stored, db.clients) && TreeFits(db)
  }

  function RootItems(db: Saved): seq<Item> { ItemsFirst(db, db.root, |db.root.children|, []) }

  lemma {:induction false} RootItemsExact(db: Saved, i: Item)
    requires RootWellFormed(db.root)
    ensures i in RootItems(db) <==> Due(db, db.root, [], i) && i.path != []
  {
    ItemsFirstExact(db, db.root, |db.root.children|, [], i);
    assert i.path[0..] == i.path;
  }

  lemma {:induction false} DueAtRoot(db: Saved, i: Item)
    ensures Due(db, db.root, [], i) <==>
      match i
      case SubItem(path, leaf) =>
        ST.Lookup(db.root, path, leaf.client) == Some(leaf.qos) && Durable(db.clients, leaf.client)
      case RetItem(path, id, own) =>
        ST.RetainedAt(db.root, path) == Some(id) && Keeps(db, id) && own == OwnTokens(db.stored, id)
  {
    assert i.path[0..] == i.path;
  }

  // The database after messages and clients are restored.
  function Filled(db: Saved): Saved {
    Saved(db.lastDbId, Reversed(db.stored), DurableOnly(db.clients), Opened)
  }

  lemma {:induction false} DurableThere(clients: seq<SavedClient>, id: string)
    ensures Durable(clients, id) <==> FindClient(DurableOnly(clients), id, 0) < |DurableOnly(clients)|
  {
    var r := DurableOnly(clients);
    var k := FindClient(r, id, 0);
    if Durable(clients, id) {
      var i :| 0 <= i < |clients| && clients[i].id == id && !clients[i].clean;
      assert clients[i] in r;
    }
    if k < |r| { assert r[k] in clients; }
  }

  lemma {:induction false} DueFits(db: Saved, i: Item)
    requires Persistable(db) && Due(db, db.root, [], i)
    ensures ItemFits(Filled(db), i) && ItemShape(i)
    ensures i.RetItem? && i.own.Some? ==> i.own.value != [] && i.own.value[0] != "$SYS"
  {
    hide ST.Lookup, ST.RetainedAt, RootWellFormed, Filed, FilterTokens, TopicTokens, Tokens.Tokens, Durable,
      SpelledAll, CText;
    DueAtRoot(db, i);
    match i {
      case SubItem(path, leaf) =>
        LookedFiled(db.root, path, leaf.client);
        assert Saves(db, path, leaf.client);
        DurableThere(db.clients, leaf.client);
        ClientText(db, leaf.client);
      case RetItem(path, id, own) =>
        FindKept(db.stored, id);
        KeepsTop(db.stored[Find(db.stored, id, 0)].topic);
    }
  }

  lemma {:induction false} ClientText(db: Saved, id: string)
    requires ClientsFit(db.stored, db.clients) && Durable(db.clients, id)
    ensures CText(id)
  {
  }

  lemma {:induction false} FirstLevelIsPrefix(s: string)
    ensures Levels(s)[0] <= s
  {
    if s != [] { FirstLevelIsPrefix(s[1..]); }
  }

  lemma {:induction false} KeepsTop(topic: string)
    ensures !IsSys(topic) ==> Tokens.Tokens(topic)[0] != "$SYS"
    ensures Tokens.Tokens(topic)[0] == "" ==> !IsSys(topic)
  {
    FirstLevelIsPrefix(topic);
    Tokens.HeadToken(topic);
  }

  lemma {:induction false} ItemsFit(db: Saved)
    requires Persistable(db)
    ensures AllFit(Filled(db), RootItems(db)) && AllShaped(RootItems(db)) && NoSys(RootItems(db))
    ensures OneEach(RootItems(db))
  {
    hide RootItems, Due, ItemFits, ItemShape, Persistable, Filled;
    var items := RootItems(db);
    forall k | 0 <= k < |items|
      ensures ItemFits(Filled(db), items[k]) && ItemShape(items[k])
      ensures items[k].RetItem? && items[k].own.Some? ==> items[k].own.value != [] && items[k].own.value[0] != "$SYS"
      ensures Due(db, db.root, [], items[k])
    {
      assert items[k] in items;
      assert RootWellFormed(db.root) by { RootOf(db); }
      RootItemsExact(db, items[k]);
      DueFits(db, items[k]);
    }
    forall i, j | 0 <= i < |items| && 0 <= j < |items| && SameKey(items[i], items[j]) ensures items[i] == items[j] {
      DueAtRoot(db, items[i]);
      DueAtRoot(db, items[j]);
    }
  }

  lemma {:induction false} RootOf(db: Saved)
    requires Persistable(db)
    ensures RootWellFormed(db.root)
  {
  }

  // ----- The whole backup -----

  lemma {:induction false} BackupRestored(db: Saved, shutdown: bool)
    requires Persistable(db)
    ensures Restore(Fresh, Backup(db, shutdown)) ==
      Some(Saved(db.lastDbId, Reversed(db.stored), DurableOnly(db.clients), RootAfter(Opened, RootItems(db))))
  {
    hide Persistable, Restore, StoreChunks, AllClientChunks, TreeChunksFirst, RootAfter, ItemsFirst, Opened,
      Reversed, DurableOnly;
    var cfg := CfgChunk(Bit(shutdown, 1), db.lastDbId);
    var stores, clients := StoreChunks(db.stored), AllClientChunks(db.clients);
    var tree := TreeChunksFirst(db, db.root, |db.root.children|, "");
    var d0 := Fresh.(lastDbId := db.lastDbId);
    FirstChunk(cfg);
    var d1 := d0.(stored := Reversed(db.stored));
    assert Restore(d0, stores) == Some(d1) by {
      assert forall i :: 0 <= i < |db.stored| ==> MessageFits(db.stored[i]) by { StoredOf(db); }
      StoresBack(d0, db.stored);
      assert Reversed(db.stored) + [] == Reversed(db.stored);
    }
    assert Restore(d1, clients) == Some(Filled(db)) by {
      ClientsStillFit(db);
      ClientsBack(d1, db.clients);
    }
    assert tree == ItemChunks(RootItems(db)) by { TreeChunksFirstAre(db, db.root, |db.root.children|, []); }
    ItemsFit(db);
    ItemsBack(Filled(db), RootItems(db));
    RestoreConcat(Fresh, [cfg], stores);
    RestoreConcat(Fresh, [cfg] + stores, clients);
    RestoreConcat(Fresh, [cfg] + stores + clients, tree);
  }

  lemma {:induction false} StoredOf(db: Saved)
    requires Persistable(db)
    ensures forall i :: 0 <= i < |db.stored| ==> MessageFits(db.stored[i])
  {
  }

  lemma {:induction false} FirstChunk(c: Chunk)
    requires c.CfgChunk?
    ensures Restore(Fresh, [c]) == Some(Fresh.(lastDbId := c.lastDbId))
  {
    RestoreBehind(Fresh, [], c);
    assert [] + [c] == [c];
  }

  lemma {:induction false} ClientsStillFit(db: Saved)
    requires Persistable(db)
    ensures ClientsFit(Reversed(db.stored), db.clients)
  {
    forall i | 0 <= i < |db.clients| ensures ClientFits(Reversed(db.stored), db.clients[i]) {
      var c := db.clients[i];
      forall k | 0 <= k < |c.msgs| ensures EntryFits(Reversed(db.stored), c.msgs[k]) {
        assert EntryFits(db.stored, c.msgs[k]);
        FindKept(db.stored, c.msgs[k].storeId);
      }
    }
  }

  // ----- What is in the restored tree -----

  ghost predicate FiltersRight(db: Saved) {
    forall p, c :: Saves(db, p, c) ==> PathRight(p)
  }

  // The saved subscriptions of a client come back at the paths their spellings are split into.
  lemma {:induction false} SubscriptionsBack(db: Saved, p: seq<string>, c: string)
    requires Persistable(db)
    ensures ST.Lookup(RootAfter(Opened, RootItems(db)), p, c).Some? <==>
              exists p0 :: Saves(db, p0, c) && p == Filed(Returned(p0))
  {
    hide RootItems, Due, Persistable, RootAfter, Opened, ST.Lookup, Filed, Returned, Durable;
    var items := RootItems(db);
    ItemsFit(db);
    RootOf(db);
    AfterLookup(items, p, c);
    if k :| 0 <= k < |items| && Makes(items[k], p, c) {
      assert items[k] in items;
      RootItemsExact(db, items[k]);
      DueAtRoot(db, items[k]);
      assert Saves(db, items[k].path, c);
    }
    if p0 :| Saves(db, p0, c) && p == Filed(Returned(p0)) {
      var i := SubItem(p0, ST.Leaf(c, ST.Lookup(db.root, p0, c).value));
      SavedItem(db, p0, c);
      var k :| 0 <= k < |items| && items[k] == i;
      assert Makes(items[k], p, c);
    }
  }

  lemma {:induction false} SavedItem(db: Saved, p: seq<string>, c: string)
    requires RootWellFormed(db.root) && Saves(db, p, c)
    ensures SubItem(p, ST.Leaf(c, ST.Lookup(db.root, p, c).value)) in RootItems(db)
  {
    var i := SubItem(p, ST.Leaf(c, ST.Lookup(db.root, p, c).value));
    LookedFiled(db.root, p, c);
    DueAtRoot(db, i);
    RootItemsExact(db, i);
  }

  lemma {:induction false} ItemsRight(db: Saved)
    requires Persistable(db) && FiltersRight(db)
    ensures AllRight(RootItems(db))
  {
    hide RootItems, Due, Persistable, PathRight, ST.Lookup, Durable;
    var items := RootItems(db);
    RootOf(db);
    forall k | 0 <= k < |items| && items[k].SubItem? ensures PathRight(items[k].path) {
      assert items[k] in items;
      RootItemsExact(db, items[k]);
      DueAtRoot(db, items[k]);
      assert Saves(db, items[k].path, items[k].leaf.client);
    }
  }

  lemma {:induction false} LookupSame(db: Saved, p: seq<string>, c: string)
    requires Persistable(db) && FiltersRight(db)
    ensures ST.Lookup(RootAfter(Opened, RootItems(db)), p, c) == if Durable(db.clients, c) then ST.Lookup(db.root, p, c)
                                                                 else None
  {
    hide RootItems, Due, Persistable, RootAfter, Opened, ST.Lookup, Durable, FiltersRight, AllRight, AllShaped, OneEach;
    var items := RootItems(db);
    var was, now := ST.Lookup(db.root, p, c), ST.Lookup(RootAfter(Opened, items), p, c);
    ItemsFit(db);
    RootOf(db);
    ItemsRight(db);
    if now.Some? {
      var i := SubItem(p, ST.Leaf(c, now.value));
      AfterValue(items, p, i.leaf);
      RootItemsExact(db, i);
      DueAtRoot(db, i);
    }
    if was.Some? && Durable(db.clients, c) {
      assert Saves(db, p, c);
      SavedItem(db, p, c);
      AfterValue(items, p, ST.Leaf(c, was.value));
    }
  }

  // ----- Retained messages -----

  // The message of the node was published to the node's own topic, to be retained.
  predicate OwnTopic(db: Saved, p: seq<string>, id: nat) {
    OwnTokens(db.stored, id).Some? && p == Filed(OwnTokens(db.stored, id).value)
  }

  ghost predicate RetainsOwn(db: Saved) {
    forall p :: ST.RetainedAt(db.root, p).Some? && p != [] && p[0] == "" ==>
      OwnTopic(db, p, ST.RetainedAt(db.root, p).value)
  }

  // The same for what is saved of the "$" trees.
  ghost predicate DollarRetainsOwn(db: Saved) {
    forall p :: ST.RetainedAt(db.root, p).Some? && (p == [] || p[0] != "") ==>
      (Keeps(db, ST.RetainedAt(db.root, p).value) ==> OwnTopic(db, p, ST.RetainedAt(db.root, p).value))
  }

  // What every node outside the "$" trees retains after a restore: the message of the last chunk
  // whose message was published to this node's topic.
  lemma {:induction false} RetainedExact(db: Saved, p: seq<string>)
    requires Persistable(db) && p != [] && p[0] == ""
    ensures ST.RetainedAt(RootAfter(Opened, RootItems(db)), p) == LastFiled(RootItems(db), p)
  {
    hide RootItems, Persistable, RootAfter, Opened, AllShaped;
    ItemsFit(db);
    AfterRetained(RootItems(db), p);
  }

  // A message restored at a node is a saved one that was published to the node's topic.
  lemma {:induction false} RetainedFrom(db: Saved, p: seq<string>) returns (q: seq<string>)
    requires Persistable(db) && LastFiled(RootItems(db), p).Some?
    ensures var id := LastFiled(RootItems(db), p).value;
      ST.RetainedAt(db.root, q) == Some(id) && Keeps(db, id) && OwnTopic(db, p, id)
  {
    hide RootItems, Due, Persistable, LastFiled, ST.RetainedAt;
    var items := RootItems(db);
    LastFiledIs(items, p);
    var k :| 0 <= k < |items| && FiledAt(items[k], p) && items[k].id == LastFiled(items, p).value;
    q := items[k].path;
    assert items[k] in items;
    assert RootWellFormed(db.root) by { RootOf(db); }
    RootItemsExact(db, items[k]);
    DueAtRoot(db, items[k]);
  }

  // A node's own message is saved, and restored unless another chunk for the node follows.
  lemma {:induction false} RetainedTo(db: Saved, p: seq<string>)
    requires Persistable(db) && p != [] && p[0] == "" && ST.RetainedAt(db.root, p).Some?
    requires OwnTopic(db, p, ST.RetainedAt(db.root, p).value)
    ensures LastFiled(RootItems(db), p).Some?
  {
    hide RootItems, Due, Persistable, LastFiled, ST.RetainedAt, Filed;
    var id := ST.RetainedAt(db.root, p).value;
    var own, items := OwnTokens(db.stored, id), RootItems(db);
    var i := RetItem(p, id, own);
    assert RootWellFormed(db.root) by { RootOf(db); }
    RetainedFiled(db.root, p);
    FiledParts(own.value, p);
    KeepsTop(db.stored[Find(db.stored, id, 0)].topic);
    assert Keeps(db, id);
    DueAtRoot(db, i);
    RootItemsExact(db, i);
    var k :| 0 <= k < |items| && items[k] == i;
    LastFiledIs(items, p);
  }

  lemma {:induction false} RetainedSame(db: Saved, p: seq<string>)
    requires Persistable(db) && RetainsOwn(db) && DollarRetainsOwn(db) && p != [] && p[0] == ""
    ensures ST.RetainedAt(RootAfter(Opened, RootItems(db)), p) == ST.RetainedAt(db.root, p)
  {
    hide RootItems, Persistable, RootAfter, Opened, ST.RetainedAt, LastFiled, OwnTopic;
    RetainedExact(db, p);
    if LastFiled(RootItems(db), p).Some? {
      var q := RetainedFrom(db, p);
      assert OwnTopic(db, q, LastFiled(RootItems(db), p).value);
      OneOwnTopic(db, p, q, LastFiled(RootItems(db), p).value);
    }
    if ST.RetainedAt(db.root, p).Some? { RetainedTo(db, p); }
  }

  lemma {:induction false} OneOwnTopic(db: Saved, p: seq<string>, q: seq<string>, id: nat)
    requires OwnTopic(db, p, id) && OwnTopic(db, q, id)
    ensures p == q
  {
  }

  ghost predicate SameRetained(db: Saved, root: ST.Tree) {
    forall p :: p != [] && p[0] == "" ==> ST.RetainedAt(root, p) == ST.RetainedAt(db.root, p)
  }

  /**
   If the retained messages outside the "$" trees come back as they were, then each of them was
   published to its node's own topic, to be retained; and if what is saved of the "$" trees is of
   this kind too, the other way round.
   */
  lemma {:induction false} RetainedSameIff(db: Saved, shutdown: bool)
    requires Persistable(db)
    ensures Restore(Fresh, Backup(db, shutdown)).Some?
    ensures SameRetained(db, Restore(Fresh, Backup(db, shutdown)).value.root) ==> RetainsOwn(db)
    ensures DollarRetainsOwn(db) ==>
      (SameRetained(db, Restore(Fresh, Backup(db, shutdown)).value.root) <==> RetainsOwn(db))
  {
    hide RootItems, Persistable, RootAfter, Backup, Restore, Opened, ST.RetainedAt, Reversed, DurableOnly, LastFiled,
      OwnTopic, Keeps;
    BackupRestored(db, shutdown);
    var root := RootAfter(Opened, RootItems(db));
    if SameRetained(db, root) {
      forall p | ST.RetainedAt(db.root, p).Some? && p != [] && p[0] == ""
        ensures OwnTopic(db, p, ST.RetainedAt(db.root, p).value)
      {
        RetainedExact(db, p);
        var q := RetainedFrom(db, p);
      }
    }
    if RetainsOwn(db) && DollarRetainsOwn(db) {
      forall p | p != [] && p[0] == "" ensures ST.RetainedAt(root, p) == ST.RetainedAt(db.root, p) {
        RetainedSame(db, p);
      }
    }
  }

  lemma {:induction false} RetainedDropped(db: Saved, p: seq<string>)
    requires Persistable(db) && FiltersRight(db) && (p == [] || p[0] != "")
    ensures ST.RetainedAt(RootAfter(Opened, RootItems(db)), p) == None
  {
    hide RootItems, Persistable, RootAfter, AllShaped, AllRight, NoSys, FiltersRight;
    ItemsFit(db);
    ItemsRight(db);
    AfterElsewhere(RootItems(db), p);
  }

  /**
   Restoring a backup into a fresh broker gives back the last database id, every stored message
   (in reverse order, and $SYS ones not marked as retained), every durable client in order with
   its last mid, disconnection time and queue, and, when the durable clients' filters are of the
   kind that can be spelled and every retained message is at its own topic, their subscriptions and
   no others and the retained messages outside the "$" trees.
   */
  lemma {:induction false} EverythingComesBack(db: Saved, shutdown: bool)
    requires Persistable(db) && FiltersRight(db) && RetainsOwn(db) && DollarRetainsOwn(db)
    ensures Restore(Fresh, Backup(db, shutdown)).Some?
    ensures var r := Restore(Fresh, Backup(db, shutdown)).value;
      && r.lastDbId == db.lastDbId && r.stored == Reversed(db.stored) && r.clients == DurableOnly(db.clients)
      && (forall p, c :: ST.Lookup(r.root, p, c) == if Durable(db.clients, c) then ST.Lookup(db.root, p, c) else None)
      && (forall p :: ST.RetainedAt(r.root, p) == if p != [] && p[0] == "" then ST.RetainedAt(db.root, p) else None)
  {
    hide RootItems, Persistable, RootAfter, Backup, Restore, Opened, ST.Lookup, ST.RetainedAt, Durable, FiltersRight,
      RetainsOwn, DollarRetainsOwn, Reversed, DurableOnly;
    BackupRestored(db, shutdown);
    var root := RootAfter(Opened, RootItems(db));
    forall p, c ensures ST.Lookup(root, p, c) == if Durable(db.clients, c) then ST.Lookup(db.root, p, c) else None {
      LookupSame(db, p, c);
    }
    forall p ensures ST.RetainedAt(root, p) == if p != [] && p[0] == "" then ST.RetainedAt(db.root, p) else None {
      if p != [] && p[0] == "" { RetainedSame(db, p); } else { RetainedDropped(db, p); }
    }
  }

  // ----- Exactly when the subscriptions come back -----

  ghost predicate SameSubscriptions(db: Saved, root: ST.Tree) {
    forall p, c :: ST.Lookup(root, p, c).Some? <==> Saves(db, p, c)
  }

  // The longest of a client's saved paths below a "$" tree.
  lemma {:induction false} LongestDollar(items: seq<Item>, c: string, k: nat) returns (m: nat)
    requires k < |items| && DollarItem(items[k], c)
    ensures m < |items| && DollarItem(items[m], c)
    ensures forall j :: 0 <= j < |items| && DollarItem(items[j], c) ==> |items[j].path| <= |items[m].path|
    decreases |items|
  {
    var last := |items| - 1;
    if j :| 0 <= j < last && DollarItem(items[j], c) {
      assert items[..last][j] == items[j];
      m := LongestDollar(items[..last], c, j);
      assert forall i :: 0 <= i < last ==> items[..last][i] == items[i];
      if DollarItem(items[last], c) && |items[last].path| > |items[m].path| { m := last; }
    } else {
      m := k;
    }
  }

  predicate DollarItem(i: Item, c: string) {
    i.SubItem? && i.leaf.client == c && i.path != [] && Dollar(i.path[1..])
  }

  // Saved and restored as the same table, a client has no filter in a "$" tree.
  lemma {:induction false} NoDollar(db: Saved, p: seq<string>, c: string)
    requires Persistable(db) && SameSubscriptions(db, RootAfter(Opened, RootItems(db)))
    requires Saves(db, p, c)
    ensures p != [] && !Dollar(p[1..])
  {
    hide RootItems, Due, Persistable, RootAfter, Opened, ST.Lookup, Durable, Returned, Dollar, RootWellFormed;
    var items := RootItems(db);
    RootOf(db);
    LookedFiled(db.root, p, c);
    if Dollar(p[1..]) {
      SavedItem(db, p, c);
      var k :| 0 <= k < |items| && items[k] == SubItem(p, ST.Leaf(c, ST.Lookup(db.root, p, c).value));
      var m := LongestDollar(items, c, k);
      var q := items[m].path;
      assert items[m] in items;
      RootItemsExact(db, items[m]);
      DueAtRoot(db, items[m]);
      assert Saves(db, q, c);
      LookedFiled(db.root, q, c);
      ReturnedShape(q[1..]);
      var r := Filed(Returned(q));
      SubscriptionsBack(db, r, c);
      assert Saves(db, r, c);
      assert r[1..] == Returned(q);
      SavedItem(db, r, c);
    }
  }

  /**
   The restored tree holds the durable clients' subscriptions and no others exactly when all
   their filters are of the kind that can be spelled.
   */
  lemma {:induction false} SubscriptionsSameIff(db: Saved, shutdown: bool)
    requires Persistable(db)
    ensures Restore(Fresh, Backup(db, shutdown)).Some?
    ensures SameSubscriptions(db, Restore(Fresh, Backup(db, shutdown)).value.root) <==> FiltersRight(db)
  {
    hide RootItems, Persistable, RootAfter, Backup, Restore, Opened, ST.Lookup, Durable, Reversed, DurableOnly,
      Returned, Dollar, Filed, RootWellFormed, SpelledRight;
    BackupRestored(db, shutdown);
    var root := RootAfter(Opened, RootItems(db));
    if FiltersRight(db) {
      forall p, c ensures ST.Lookup(root, p, c).Some? <==> Saves(db, p, c) { LookupSame(db, p, c); }
    }
    if SameSubscriptions(db, root) {
      forall p, c | Saves(db, p, c) ensures PathRight(p) {
        SubscriptionsBack(db, p, c);
        var p0 :| Saves(db, p0, c) && p == Filed(Returned(p0));
        RootOf(db);
        LookedFiled(db.root, p0, c);
        ReturnedShape(p0[1..]);
        NoDollar(db, p, c);
        FiledParts(Returned(p0), p);
      }
    }
  }

  // ----- The bytes of the backup -----

  lemma {:induction false} BytesText(s: string)
    requires CText(s)
    ensures NulFree(Bytes(s))
  {
  }

  lemma {:induction false} StoresWritable(stored: seq<SavedMessage>)
    requires forall i :: 0 <= i < |stored| ==> MessageFits(stored[i])
    ensures AllWritable(StoreChunks(stored))
    decreases |stored|
  {
    if stored != [] {
      var m := stored[|stored| - 1];
      assert MessageFits(m);
      BytesText(m.sourceId);
      BytesText(m.topic);
      StoresWritable(stored[..|stored| - 1]);
    }
  }

  lemma {:induction false} MsgsWritable(stored: seq<SavedMessage>, client: string, msgs: seq<SavedEntry>)
    requires CText(client) && 0 < |client| < 65536 && forall k :: 0 <= k < |msgs| ==> EntryFits(stored, msgs[k])
    ensures AllWritable(MsgChunks(client, msgs))
    decreases |msgs|
  {
    if msgs != [] {
      assert EntryFits(stored, msgs[|msgs| - 1]);
      BytesText(client);
      MsgsWritable(stored, client, msgs[..|msgs| - 1]);
    }
  }

  lemma {:induction false} WritableConcat(a: seq<Chunk>, b: seq<Chunk>)
    requires AllWritable(a) && AllWritable(b)
    ensures AllWritable(a + b)
  {
  }

  lemma {:induction false} ClientWritable(stored: seq<SavedMessage>, c: SavedClient)
    requires ClientFits(stored, c)
    ensures AllWritable(ClientChunks(c))
  {
    BytesText(c.id);
    MsgsWritable(stored, c.id, c.msgs);
    hide MsgChunks;
  }

  lemma {:induction false} ClientsWritable(stored: seq<SavedMessage>, clients: seq<SavedClient>)
    requires forall i :: 0 <= i < |clients| ==> ClientFits(stored, clients[i])
    ensures AllWritable(AllClientChunks(clients))
    decreases |clients|
  {
    hide ClientChunks, ClientFits;
    if clients != [] {
      var c := clients[|clients| - 1];
      assert ClientFits(stored, c);
      ClientWritable(stored, c);
      ClientsWritable(stored, clients[..|clients| - 1]);
      WritableConcat(AllClientChunks(clients[..|clients| - 1]), ClientChunks(c));
    }
  }

  lemma {:induction false} ItemsWritable(db: Saved, items: seq<Item>)
    requires AllFit(db, items) && forall i :: 0 <= i < |db.clients| ==> |db.clients[i].id| < 65536
    ensures AllWritable(ItemChunks(items))
  {
    forall k | 0 <= k < |items| ensures Writable(ItemChunk(items[k])) {
      assert ItemFits(db, items[k]);
      match items[k] {
        case SubItem(path, leaf) =>
          BytesText(leaf.client);
          BytesText(SpelledAll("", path));
          hide SpelledAll, Filed, FilterTokens, Bytes;
        case RetItem(_, _, _) =>
      }
    }
  }

  // Everything in the backup fits its fields.
  lemma {:induction false} BackupWritable(db: Saved, shutdown: bool)
    requires Persistable(db)
    ensures AllWritable(Backup(db, shutdown))
  {
    hide ItemsFirst, StoreChunks, AllClientChunks, TreeChunksFirst, ItemChunks, RootWellFormed, AllFit, AllWritable,
      MessageFits, ClientFits;
    ItemsFit(db);
    TreeChunksFirstAre(db, db.root, |db.root.children|, []);
    StoresWritable(db.stored);
    ClientsWritable(db.stored, db.clients);
    assert forall i :: 0 <= i < |Filled(db).clients| ==> |Filled(db).clients[i].id| < 65536 by { ShortIds(db); }
    ItemsWritable(Filled(db), RootItems(db));
    var cfg := [CfgChunk(Bit(shutdown, 1), db.lastDbId)];
    assert AllWritable(cfg) by { CfgWritable(shutdown, db.lastDbId); }
    WritableConcat(cfg, StoreChunks(db.stored));
    WritableConcat(cfg + StoreChunks(db.stored), AllClientChunks(db.clients));
    WritableConcat(cfg + StoreChunks(db.stored) + AllClientChunks(db.clients), ItemChunks(RootItems(db)));
  }

  lemma {:induction false} CfgWritable(shutdown: bool, lastDbId: nat)
    requires IsId(lastDbId)
    ensures AllWritable([CfgChunk(Bit(shutdown, 1), lastDbId)])
  {
  }

  lemma {:induction false} ShortIds(db: Saved)
    requires ClientsFit(db.stored, db.clients)
    ensures forall i :: 0 <= i < |Filled(db).clients| ==> |Filled(db).clients[i].id| < 65536
  {
    var r := DurableOnly(db.clients);
    forall i | 0 <= i < |r| ensures |r[i].id| < 65536 {
      var k :| 0 <= k < |db.clients| && db.clients[k] == r[i];
      assert ClientFits(db.stored, db.clients[k]);
    }
  }
}
