/**
 The databases that the broker works on can be saved: what the packets of clients may hold is such
 that every operation of Broker leaves a database that a backup can hold (src/persist.c), and, but
 for one kind of publication, one whose retained messages come back.
 */
module SavedBroker {
  import opened Topics
  import opened MessageQueue
  import opened ClientContext
  import opened FanOut
  import opened Broker
  import P = Persist
  import R = Recovery
  import S = Subscriptions
  import PersistFile
  import RetainSearch
  import SavedPaths
  import ST = SubTree
  import Tokens

  // ----- What the broker takes from its clients -----

  predicate TextOk(s: string) { P.CText(s) && |s| < 65536 }

  // A message with a topic, as a PUBLISH or a will brings it.
  predicate MessageOk(s: Stored) {
    && s.topic.Some? && s.topic.value != [] && TextOk(s.topic.value) && TextOk(s.sourceId)
    && s.sourceMid < 65536 && s.qos <= 2 && |s.payload| < 0x8000_0000
  }

  predicate MessagesOk(stored: seq<Stored>) {
    forall k :: 0 <= k < |stored| ==> MessageOk(stored[k])
  }

  // An entry of a stored message. An inbound one that is to be retained was published so.
  predicate EntryOk(stored: seq<Stored>, m: ClientMsg) {
    m.store in stored && m.mid < 65536 && (m.direction == In && m.retain ==> m.store.retain)
  }

  predicate ListOk(stored: seq<Stored>, list: seq<ClientMsg>) {
    forall k :: 0 <= k < |list| ==> EntryOk(stored, list[k])
  }

  // A message that a node may retain.
  predicate NodeOk(s: Stored, id: nat) {
    s.id == id && s.payload != [] && s.topic.Some? && PlainTopic(s.topic.value)
  }

  ghost predicate TreeOk(stored: seq<Stored>, tree: ST.Tree) {
    && (forall p, c :: ST.Lookup(tree, p, c).Some? ==> R.SubLegal(p, ST.Lookup(tree, p, c).value))
    && forall p :: ST.RetainedAt(tree, p).Some? ==> Retainable(stored, ST.RetainedAt(tree, p).value)
  }

  ghost predicate Retainable(stored: seq<Stored>, id: nat) {
    exists s :: s in stored && NodeOk(s, id)
  }

  // The message is retained at the node of its own topic.
  ghost predicate Own(stored: seq<Stored>, p: seq<string>, id: nat) {
    exists s :: s in stored && OwnNode(s, p, id)
  }

  predicate OwnNode(s: Stored, p: seq<string>, id: nat) {
    s.id == id && s.retain && s.topic.Some? && p == S.Filed(Tokens.Tokens(s.topic.value))
  }

  ghost predicate OwnTopics(stored: seq<Stored>, tree: ST.Tree) {
    forall p :: ST.RetainedAt(tree, p).Some? ==> Own(stored, p, ST.RetainedAt(tree, p).value)
  }

  predicate IdOk(id: string) { TextOk(id) && id != [] }

  ghost predicate ClientsOk(db: Database)
    reads db, db.contexts
  {
    forall j :: 0 <= j < |db.contexts| ==> IdOk(db.contexts[j].id) && ListOk(db.stored, db.contexts[j].msgs)
  }

  ghost predicate Savable(db: Database)
    reads db, db.contexts, db.subs
  {
    MessagesOk(db.stored) && ClientsOk(db) && TreeOk(db.stored, db.subs.tree)
  }

  // Every retained message is at the node of its own topic.
  ghost predicate Faithful(db: Database)
    reads db, db.subs
  {
    OwnTopics(db.stored, db.subs.tree)
  }

  // ----- The store grows -----

  lemma {:induction false} MoreStored(stored: seq<Stored>, s: Stored, tree: ST.Tree)
    requires MessagesOk(stored) && TreeOk(stored, tree) && MessageOk(s)
    ensures MessagesOk([s] + stored) && TreeOk([s] + stored, tree)
    ensures OwnTopics(stored, tree) ==> OwnTopics([s] + stored, tree)
  {
    hide MessageOk, NodeOk, OwnNode, ST.RetainedAt, ST.Lookup, R.SubLegal;
    forall x | x in stored ensures x in [s] + stored { OneOf(stored, s, x); }
  }

  lemma {:induction false} OneOf(stored: seq<Stored>, s: Stored, x: Stored)
    ensures x in [s] + stored <==> x == s || x in stored
  {
  }

  lemma {:induction false} ListStays(stored: seq<Stored>, s: Stored, list: seq<ClientMsg>)
    requires ListOk(stored, list)
    ensures ListOk([s] + stored, list)
  {
    forall k | 0 <= k < |list| ensures list[k].store in [s] + stored { OneOf(stored, s, list[k].store); }
  }

  // ----- Lists -----

  lemma {:induction false} InPlaceOk(stored: seq<Stored>, a: seq<ClientMsg>, b: seq<ClientMsg>)
    requires ListOk(stored, a) && |a| == |b| && forall k :: 0 <= k < |a| ==> SameBut(a[k], b[k])
    ensures ListOk(stored, b)
  {
  }

  lemma {:induction false} WithoutOk(stored: seq<Stored>, list: seq<ClientMsg>, mid: nat, dir: Direction)
    requires ListOk(stored, list)
    ensures ListOk(stored, Without(list, mid, dir))
    decreases |list|
  {
    if list != [] {
      assert ListOk(stored, list[..|list| - 1]) && EntryOk(stored, list[|list| - 1]);
      WithoutOk(stored, list[..|list| - 1], mid, dir);
      hide EntryOk;
    }
  }

  lemma {:induction false} ReleasedOk(stored: seq<Stored>, list: seq<ClientMsg>, mid: nat, n: nat, now: int)
    requires ListOk(stored, list)
    ensures ListOk(stored, ReleasedList(list, mid, n, now))
  {
    InPlaceOk(stored, list, PromoteFirst(list, n, now));
    WithoutOk(stored, PromoteFirst(list, n, now), mid, In);
  }

  lemma {:induction false} SweptOk(stored: seq<Stored>, list: seq<ClientMsg>, k: nat, mid: nat, n: nat, now: int)
    requires ListOk(stored, list) && k <= |list|
    ensures ListOk(stored, Swept(Without(list[..k], mid, Out), list, k, n, now))
  {
    assert ListOk(stored, list[..k]) && ListOk(stored, list[k..]) by { hide EntryOk; }
    WithoutOk(stored, list[..k], mid, Out);
    InPlaceOk(stored, Without(list[..k], mid, Out), PromoteFirst(Without(list[..k], mid, Out), n, now));
    hide EntryOk, PromoteFirst;
  }

  lemma {:induction false} PassOk(stored: seq<Stored>, rest: seq<ClientMsg>, n: nat, seen: nat, room: nat, now: int)
    requires ListOk(stored, rest)
    ensures ListOk(stored, WritePass(rest, n, seen, room, now).msgs)
    decreases |rest|, if rest != [] && rest[0].state == Queued then 1 else 0
  {
    if rest != [] {
      var m, tail := rest[0], rest[1..];
      var seen' := seen + if m.direction == In then 1 else 0;
      PassCases(rest, n, seen, room, now);
      HeadOk(stored, rest, now);
      hide WritePass, Wants, AfterSend, ListOk;
      if Admissible(m, n, seen') {
        PassOk(stored, [m.(state := SendPubrec)] + tail, n, seen', room, now);
      } else if Wants(m).None? {
        PassOk(stored, tail, n, seen', room, now);
        JoinOk(stored, [m], WritePass(tail, n, seen', room, now).msgs);
      } else if room > 0 {
        PassOk(stored, tail, n, seen', room - 1, now);
        JoinOk(stored, ToSeq(AfterSend(m, now)), WritePass(tail, n, seen', room - 1, now).msgs);
      }
    }
  }

  lemma {:induction false} HeadOk(stored: seq<Stored>, rest: seq<ClientMsg>, now: int)
    requires rest != [] && ListOk(stored, rest)
    ensures ListOk(stored, [rest[0]]) && ListOk(stored, rest[1..])
    ensures ListOk(stored, [rest[0].(state := SendPubrec)] + rest[1..])
    ensures ListOk(stored, ToSeq(AfterSend(rest[0], now)))
  {
    assert EntryOk(stored, rest[0]);
  }

  lemma {:induction false} JoinOk(stored: seq<Stored>, a: seq<ClientMsg>, b: seq<ClientMsg>)
    requires ListOk(stored, a) && ListOk(stored, b)
    ensures ListOk(stored, a + b)
  {
    hide EntryOk;
  }

  lemma {:induction false} InsertedOk(stored: seq<Stored>, list: seq<ClientMsg>, v: Verdict, m: ClientMsg)
    requires ListOk(stored, list) && EntryOk(stored, m)
    ensures ListOk(stored, InsertedList(list, v, m))
  {
    assert EntryOk(stored, m.(state := if v.Admitted? then v.state else m.state));
    hide EntryOk;
  }

  lemma {:induction false} DeliveredOk(stored: seq<Stored>, d: Delivery, connected: bool, id: string, box: Inbox,
                                       hits: seq<ST.Hit>)
    requires box.lastMid <= MAX_MID && ListOk(stored, box.msgs) && d.stored in stored
    ensures ListOk(stored, Deliver(d, connected, id, box, hits).msgs)
    decreases |hits|
  {
    if hits != [] {
      var shorter := hits[..|hits| - 1];
      DeliveredOk(stored, d, connected, id, box, shorter);
      GivenOk(stored, d, connected, id, Deliver(d, connected, id, box, shorter), hits[|hits| - 1]);
      hide Given, ListOk;
    }
  }

  lemma {:induction false} GivenOk(stored: seq<Stored>, d: Delivery, connected: bool, id: string, box: Inbox,
                                   hit: ST.Hit)
    requires box.lastMid <= MAX_MID && ListOk(stored, box.msgs) && d.stored in stored
    ensures ListOk(stored, Given(d, connected, id, box, hit).msgs)
  {
    hide Count12;
  }

  lemma {:induction false} OfferedOk(stored: seq<Stored>, o: Offering, box: Inbox, ss: seq<Stored>)
    requires box.lastMid <= MAX_MID && ListOk(stored, box.msgs) && forall k :: 0 <= k < |ss| ==> ss[k] in stored
    ensures ListOk(stored, OfferAll(o, box, ss).msgs)
    decreases |ss|
  {
    if ss != [] {
      OfferedOk(stored, o, box, ss[..|ss| - 1]);
      OneOfferOk(stored, o, OfferAll(o, box, ss[..|ss| - 1]), ss[|ss| - 1]);
      hide OfferOne, ListOk;
    }
  }

  lemma {:induction false} OneOfferOk(stored: seq<Stored>, o: Offering, box: Inbox, s: Stored)
    requires box.lastMid <= MAX_MID && ListOk(stored, box.msgs) && s in stored
    ensures ListOk(stored, OfferOne(o, box, s).msgs)
  {
    hide Count12;
  }

  // ----- The tree -----

  lemma {:induction false} SubscribedOk(stored: seq<Stored>, tree: ST.Tree, tokens: seq<string>, leaf: ST.Leaf)
    requires S.RootWellFormed(tree) && tokens != [] && TreeOk(stored, tree) && R.SubLegal(S.Filed(tokens), leaf.qos)
    ensures TreeOk(stored, S.SubAdd(tree, tokens, leaf))
    ensures OwnTopics(stored, tree) ==> OwnTopics(stored, S.SubAdd(tree, tokens, leaf))
  {
    hide R.SubLegal, S.SubAdd, S.RootWellFormed, S.Filed, Retainable, Own, ST.Lookup, ST.RetainedAt;
    forall p, c
      ensures ST.Lookup(S.SubAdd(tree, tokens, leaf), p, c) ==
                if p == S.Filed(tokens) && c == leaf.client then Some(leaf.qos) else ST.Lookup(tree, p, c)
    {
      S.LookupSubAdd(tree, tokens, leaf, p, c);
    }
    forall p ensures ST.RetainedAt(S.SubAdd(tree, tokens, leaf), p) == ST.RetainedAt(tree, p) {
      S.LookupSubAdd(tree, tokens, leaf, p, "");
    }
  }

  // Fewer subscriptions.
  lemma {:induction false} FewerOk(stored: seq<Stored>, tree: ST.Tree, tree': ST.Tree)
    requires TreeOk(stored, tree)
    requires forall p, c :: ST.Lookup(tree', p, c) == None || ST.Lookup(tree', p, c) == ST.Lookup(tree, p, c)
    requires forall p :: ST.RetainedAt(tree', p) == ST.RetainedAt(tree, p)
    ensures TreeOk(stored, tree') && (OwnTopics(stored, tree) ==> OwnTopics(stored, tree'))
  {
    hide R.SubLegal, Retainable, Own, ST.Lookup, ST.RetainedAt;
  }

  lemma {:induction false} RemovedOk(stored: seq<Stored>, tree: ST.Tree, tokens: seq<string>, client: string)
    requires S.RootWellFormed(tree) && tokens != [] && TreeOk(stored, tree)
    ensures TreeOk(stored, S.SubRemove(tree, tokens, client))
    ensures OwnTopics(stored, tree) ==> OwnTopics(stored, S.SubRemove(tree, tokens, client))
  {
    hide S.SubRemove, S.RootWellFormed, ST.Lookup, ST.RetainedAt, TreeOk, OwnTopics;
    var tree' := S.SubRemove(tree, tokens, client);
    forall p, c
      ensures ST.Lookup(tree', p, c) == None || ST.Lookup(tree', p, c) == ST.Lookup(tree, p, c)
    {
      S.LookupSubRemove(tree, tokens, client, p, c);
    }
    forall p ensures ST.RetainedAt(tree', p) == ST.RetainedAt(tree, p) {
      S.LookupSubRemove(tree, tokens, client, p, "");
    }
    FewerOk(stored, tree, tree');
  }

  lemma {:induction false} CleanedOk(stored: seq<Stored>, tree: ST.Tree, client: string)
    requires S.RootWellFormed(tree) && TreeOk(stored, tree)
    ensures TreeOk(stored, S.SubClean(tree, client))
    ensures OwnTopics(stored, tree) ==> OwnTopics(stored, S.SubClean(tree, client))
  {
    hide S.SubClean, S.RootWellFormed, ST.Lookup, ST.RetainedAt, TreeOk, OwnTopics;
    var tree' := S.SubClean(tree, client);
    forall p, c
      ensures ST.Lookup(tree', p, c) == None || ST.Lookup(tree', p, c) == ST.Lookup(tree, p, c)
    {
      S.LookupSubClean(tree, client, p, c);
    }
    forall p ensures ST.RetainedAt(tree', p) == ST.RetainedAt(tree, p) { S.LookupSubClean(tree, client, p, ""); }
    FewerOk(stored, tree, tree');
  }

  // A publication is filed, here under a topic that need not be its own.
  lemma {:induction false} FiledOk(stored: seq<Stored>, tree: ST.Tree, topic: string, s: Stored)
    requires S.RootWellFormed(tree) && TreeOk(stored, tree) && PlainTopic(topic)
    requires s in stored && s.topic.Some? && PlainTopic(s.topic.value)
    ensures TreeOk(stored, S.Retain(tree, Tokens.Tokens(topic), Keeps(s)))
    ensures OwnTopics(stored, tree) && s.retain && s.topic == Some(topic) ==>
      OwnTopics(stored, S.Retain(tree, Tokens.Tokens(topic), Keeps(s)))
  {
    hide S.Retain, S.RootWellFormed, R.SubLegal, ST.Lookup, ST.RetainedAt, S.Filed, S.TopicTokens, Tokens.Tokens;
    var tokens := Tokens.Tokens(topic);
    var tree' := S.Retain(tree, tokens, Keeps(s));
    forall p, c ensures ST.Lookup(tree', p, c) == ST.Lookup(tree, p, c) {
      S.LookupRetain(tree, tokens, Keeps(s), p, c);
    }
    forall p
      ensures ST.RetainedAt(tree', p) == ST.RetainedAt(tree, p)
              || (p == S.Filed(tokens) && ST.RetainedAt(tree', p) == Keeps(s))
    {
      S.LookupRetain(tree, tokens, Keeps(s), p, "");
    }
    if s.payload != [] {
      assert NodeOk(s, s.id);
      assert s.retain && s.topic == Some(topic) ==> OwnNode(s, S.Filed(tokens), s.id);
    }
    hide NodeOk, OwnNode;
  }

  // ----- Which filters can be saved -----

  // The length of the levels with separators between them.
  function JoinedLength(path: seq<string>): nat {
    if path == [] then 0
    else if |path| == 1 then |path[0]|
    else |path[0]| + 1 + JoinedLength(path[1..])
  }

  lemma {:induction false} JoinedBehind(path: seq<string>, name: string)
    requires path != []
    ensures JoinedLength(path + [name]) == JoinedLength(path) + 1 + |name|
    decreases |path|
  {
    if |path| > 1 {
      JoinedBehind(path[1..], name);
      assert (path + [name])[1..] == path[1..] + [name];
    } else {
      assert (path + [name])[1..] == [name];
    }
  }

  lemma {:induction false} LevelsLength(s: string)
    ensures JoinedLength(Levels(s)) == |s|
  {
    if s != [] {
      LevelsLength(s[1..]);
      var r := Levels(s[1..]);
      if s[0] == '/' {
        assert ([[]] + r)[1..] == r;
      } else {
        assert ([[s[0]] + r[0]] + r[1..])[1..] == r[1..];
      }
    }
  }

  lemma {:induction false} StripShorter(path: seq<string>)
    ensures JoinedLength(SavedPaths.Strip(path)) <= JoinedLength(path)
  {
    if path != [] && path[0] == "" { StripShorter(path[1..]); }
  }

  // How long a path is spelled.
  lemma {:induction false} SpelledLength(path: seq<string>)
    requires SavedPaths.AllSlashFree(path)
    ensures |SavedPaths.SpelledAll("", path)| == JoinedLength(SavedPaths.Strip(path))
    decreases |path|
  {
    if path != [] {
      var k := |path| - 1;
      var shorter, name := path[..k], path[k];
      SpelledLength(shorter);
      SavedPaths.SpelledLevels(shorter);
      SavedPaths.StripBehind(shorter, name);
      assert shorter + [name] == path;
      var q := SavedPaths.Strip(shorter);
      if q != [] { JoinedBehind(q, name); }
    }
  }

  predicate AllText(path: seq<string>) { forall k :: 0 <= k < |path| ==> P.CText(path[k]) }

  lemma {:induction false} SpelledText(path: seq<string>)
    requires AllText(path)
    ensures P.CText(SavedPaths.SpelledAll("", path))
    decreases |path|
  {
    if path != [] {
      assert P.CText(path[|path| - 1]);
      SpelledText(path[..|path| - 1]);
    }
  }

  lemma {:induction false} LevelsText(s: string)
    requires P.CText(s)
    ensures AllText(Levels(s))
    decreases |s|
  {
    if s != [] {
      assert forall i :: 0 <= i < |s[1..]| ==> s[1..][i] == s[i + 1];
      LevelsText(s[1..]);
      var r := Levels(s[1..]);
      assert P.CText([s[0]] + r[0]);
    }
  }

  /**
   A filter that fits its packet fits its chunk too, except in a "$" tree, where the path is
   spelled with the first level twice.
   */
  lemma {:induction false} FilterLegal(filter: string, qos: nat)
    requires TextOk(filter) && qos <= 2
    ensures R.SubLegal(S.Filed(Tokens.Tokens(filter)), qos) <==>
              (filter != [] && filter[0] == '$' ==> |Levels(filter)[0]| + 1 + |filter| < 65536)
  {
    var tokens, levels := Tokens.Tokens(filter), Levels(filter);
    var path := S.Filed(tokens);
    SavedPaths.TokensSlashFree(filter);
    SavedPaths.FiledSlashFree(tokens);
    SpelledLength(path);
    LevelsLength(filter);
    LevelsText(filter);
    assert P.CText("");
    SpelledText(path);
    FirstLevelHead(filter);
    assert path[1..] == tokens;
    if filter != [] && filter[0] == '$' {
      assert SavedPaths.Strip(path) == path;
    } else {
      assert tokens[0] == "";
      assert SavedPaths.Strip(path) == SavedPaths.Strip(tokens);
      if tokens != levels { assert tokens[1..] == levels; }
      assert SavedPaths.Strip(tokens) == SavedPaths.Strip(levels);
      StripShorter(levels);
    }
  }

  // ----- Every operation keeps it -----

  // After an operation the database can be saved, and is faithful if it was.
  twostate predicate StillSavable(db: Database)
    reads db, db.contexts, db.subs
  {
    Savable(db) && (old(Faithful(db)) ==> Faithful(db))
  }

  // mqtt3_db_open.
  method Opens() returns (db: Database)
    ensures db.Valid() && Savable(db) && Faithful(db) && fresh(db) && db.contexts == []
  {
    hide Database.Valid, R.SubLegal, Retainable, Own, S.RootWellFormed;
    db := new Database();
    S.OpenedAgrees();
  }

  method AddsClient(db: Database, id: string) returns (c: Context)
    requires db.Valid() && Savable(db) && IdOk(id) && forall j :: 0 <= j < |db.contexts| ==> db.contexts[j].id != id
    modifies db`contexts
    ensures db.Valid() && StillSavable(db) && db.contexts == old(db.contexts) + [c] && fresh(c) && c.id == id
  {
    hide Database.Valid, MessagesOk, TreeOk, OwnTopics, EntryOk, IdOk;
    c := db.AddClient(id);
  }

  method Subscribes(db: Database, i: nat, filter: string, qos: nat)
    requires db.Valid() && Savable(db) && i < |db.contexts| && qos <= 2
    requires S.FilterTokens(Tokens.Tokens(filter)) && R.SubLegal(S.Filed(Tokens.Tokens(filter)), qos)
    modifies db.subs.Repr, db.counters
    ensures db.Valid() && StillSavable(db)
  {
    hide Database.Valid, MessagesOk, TreeOk, OwnTopics, ListOk, IdOk, R.SubLegal, S.SubAdd, S.RootWellFormed,
      S.FilterTokens, Tokens.Tokens;
    TreeWellFormed(db);
    SubscribedOk(db.stored, db.subs.tree, Tokens.Tokens(filter), ST.Leaf(db.contexts[i].id, qos));
    db.Subscribe(i, filter, qos);
  }

  method Unsubscribes(db: Database, i: nat, filter: string)
    requires db.Valid() && Savable(db) && i < |db.contexts|
    modifies db.subs.Repr, db.counters
    ensures db.Valid() && StillSavable(db)
  {
    hide Database.Valid, MessagesOk, TreeOk, OwnTopics, ListOk, IdOk, S.SubRemove, S.RootWellFormed, Tokens.Tokens;
    TreeWellFormed(db);
    RemovedOk(db.stored, db.subs.tree, Tokens.Tokens(filter), db.contexts[i].id);
    db.Unsubscribe(i, filter);
  }

  // The list of client i is another one; the rest is as it was.
  twostate lemma ListChanged(db: Database, new i: nat)
    requires old(Savable(db)) && db.contexts == old(db.contexts) && db.stored == old(db.stored)
    requires db.subs.tree == old(db.subs.tree) && i < |db.contexts| && ListOk(db.stored, db.contexts[i].msgs)
    requires forall j :: 0 <= j < |db.contexts| && j != i ==> db.contexts[j].msgs == old(db.contexts[j].msgs)
    ensures StillSavable(db)
  {
    hide MessagesOk, TreeOk, OwnTopics, ListOk, IdOk;
  }

  lemma {:induction false} ListOf(db: Database, i: nat)
    requires Savable(db) && i < |db.contexts|
    ensures ListOk(db.stored, db.contexts[i].msgs) && IdOk(db.contexts[i].id)
  {
  }

  // mqtt3_retain_queue.
  method QueuesRetained(db: Database, i: nat, o: Offering, filter: string)
    requires db.Valid() && Savable(db) && i < |db.contexts| && o.subQos <= 2 && o.connected == db.contexts[i].connected
    requires S.FilterTokens(Tokens.Tokens(filter))
    modifies db.contexts[i], db.store
    ensures db.Valid() && StillSavable(db)
  {
    hide Database.Valid, Savable, ListOk, OfferAll, Named, RetainSearch.QueueOffers, S.FilterTokens, Tokens.Tokens;
    ghost var box, tokens := Box(db.contexts[i], []), Tokens.Tokens(filter);
    ListOf(db, i);
    db.ClientReady(i);
    db.QueueRetained(i, o, filter);
    ghost var offers := RetainSearch.QueueOffers(db.subs.tree, tokens);
    NamedStored(offers, db.stored);
    OfferedOk(db.stored, o, box, Named(offers, db.stored));
    ListChanged(db, i);
  }

  lemma {:induction false} NamedStored(offers: seq<RetainSearch.Offer>, stored: seq<Stored>)
    requires OffersKnown(offers, stored)
    ensures forall k :: 0 <= k < |offers| ==> Named(offers, stored)[k] in stored
  {
    forall k | 0 <= k < |offers| ensures Named(offers, stored)[k] in stored { IdStored(stored, offers[k].id); }
  }

  lemma {:induction false} IdStored(stored: seq<Stored>, id: nat)
    requires id in Ids(stored)
    ensures WithId(stored, id) in stored
    decreases |stored|
  {
    var last := |stored| - 1;
    if stored[last].id != id {
      BackIds(stored, id);
      IdStored(stored[..last], id);
    }
  }

  lemma {:induction false} EmptyOk(stored: seq<Stored>)
    ensures ListOk(stored, [])
  {
  }

  method CleansSession(db: Database, i: nat)
    requires db.Valid() && Savable(db) && i < |db.contexts|
    modifies db.subs.Repr, db.counters, db.contexts[i], db.store`refs
    ensures db.Valid() && StillSavable(db)
  {
    hide Database.Valid, MessagesOk, TreeOk, OwnTopics, IdOk, EntryOk, S.SubClean, S.RootWellFormed;
    TreeWellFormed(db);
    CleanedOk(db.stored, db.subs.tree, db.contexts[i].id);
    db.ClientReady(i);
    db.CleanSession(i);
  }

  method Reconnects(db: Database, i: nat, lim: Limits, clean: bool)
    requires db.Valid() && Savable(db) && i < |db.contexts|
    modifies db.subs.Repr, db.counters, db.contexts[i], db.store`refs
    ensures db.Valid() && StillSavable(db)
  {
    hide Database.Valid, MessagesOk, TreeOk, OwnTopics, IdOk, ListOk, S.SubClean, S.RootWellFormed;
    TreeWellFormed(db);
    CleanedOk(db.stored, db.subs.tree, db.contexts[i].id);
    db.ClientReady(i);
    ghost var list := if clean then [] else db.contexts[i].msgs;
    assert ListOk(db.stored, list) by { EmptyOk(db.stored); }
    InPlaceOk(db.stored, list, ResetList(list, lim.maxInflight));
    db.Reconnect(i, lim, clean);
  }

  // ----- PUBLISH -----

  // A QoS 2 publication of the client with this id waits for its PUBREL.
  predicate Waits(db: Database, i: nat, mid: nat)
    requires i < |db.contexts|
    reads db, db.contexts
  {
    IndexOf(db.contexts[i].msgs, mid, In, 0) < |db.contexts[i].msgs|
  }

  // A delivery of s from the old lists, which s may have been added to the store for.
  twostate lemma GivenLists(db: Database, new d: Delivery, new dests: seq<string>, new hits: seq<ST.Hit>)
    requires old(Savable(db)) && db.contexts == old(db.contexts) && d.stored in db.stored
    requires db.stored == old(db.stored) || db.stored == [d.stored] + old(db.stored)
    requires MidsInRange(old(ClientsOf(db.contexts, dests)))
    requires forall j :: 0 <= j < |db.contexts| ==>
               db.contexts[j].msgs == DeliverAll(d, old(ClientsOf(db.contexts, dests)), hits)[j].box.msgs
    ensures ClientsOk(db)
  {
    hide ListOk, IdOk, MessagesOk, TreeOk;
    var before := old(ClientsOf(db.contexts, dests));
    forall j | 0 <= j < |db.contexts| ensures ListOk(db.stored, db.contexts[j].msgs) {
      var c := before[j];
      assert ListOk(old(db.stored), c.box.msgs);
      if db.stored != old(db.stored) { ListStays(old(db.stored), d.stored, c.box.msgs); }
      DeliveredOk(db.stored, d, c.connected, c.id, c.box, hits);
    }
  }

  // The message that has arrived, new or waiting, is one that can be saved.
  lemma {:induction false} ArrivedOk(stored: seq<Stored>, tree: ST.Tree, msgs: seq<ClientMsg>, id: string,
                                     mid: nat, topic: string, qos: nat, retain: bool, payload: seq<bv8>, tag: nat,
                                     lastDbId: nat, s: Stored, stored': seq<Stored>)
    requires MessagesOk(stored) && TreeOk(stored, tree) && ListOk(stored, msgs) && Routable(msgs) && IdOk(id)
    requires mid < 65536 && qos <= 2 && TextOk(topic) && topic != [] && |payload| < 0x8000_0000
    requires var at := IndexOf(msgs, mid, In, 0);
      if qos > 0 && at < |msgs| then s == msgs[at].store && stored' == stored
      else s == Stored(lastDbId + 1, tag, id, mid, Some(topic), qos, retain, payload) && stored' == [s] + stored
    ensures MessagesOk(stored') && TreeOk(stored', tree) && (OwnTopics(stored, tree) ==> OwnTopics(stored', tree))
    ensures s in stored' && s.topic.Some? && (PlainTopic(topic) ==> PlainTopic(s.topic.value))
    ensures stored' == stored || stored' == [s] + stored
  {
    hide TreeOk, OwnTopics, TextOk, PlainTopic;
    var at := IndexOf(msgs, mid, In, 0);
    if qos > 0 && at < |msgs| {
      assert EntryOk(stored, msgs[at]);
      var k :| 0 <= k < |stored| && stored[k] == s;
      assert MessageOk(stored[k]);
    } else {
      MoreStored(stored, s, tree);
      OneOf(stored, s, s);
    }
  }

  twostate lemma PublicationGiven(db: Database, new i: nat, new cfg: Config, new lim: Limits, new upgrade: bool,
                                  new mid: nat, new topic: string, new qos: nat, new retain: bool, new now: int,
                                  new s: Stored)
    requires old(Savable(db)) && db.contexts == old(db.contexts) && i < |db.contexts| && s in db.stored
    requires db.stored == old(db.stored) || db.stored == [s] + old(db.stored)
    requires db.GivenOnce(i, cfg, lim, upgrade, mid, topic, qos, retain, now, s)
    ensures ClientsOk(db)
  {
    hide Savable, ClientsOk, DeliverAll, S.Recipients, Tokens.Tokens, S.Retain;
    var d, hits := Delivery(cfg, lim, upgrade, qos, s, now), S.Recipients(old(db.subs.tree), Tokens.Tokens(topic));
    var dests := if db.Known(i, mid, qos) then old(db.store.dests[s.id]) else [];
    var r := DeliverAll(d, old(ClientsOf(db.contexts, dests)), hits);
    db.ClientsAre(s.id, Moved(r, i, r[i].box.msgs, r[i].sent + if qos == 1 then [SentPuback(mid)] else []));
    GivenLists(db, d, dests, hits);
  }

  twostate lemma PublicationHeld(db: Database, new i: nat, new cfg: Config, new lim: Limits, new mid: nat,
                                 new retain: bool, new now: int, new s: Stored)
    requires old(Savable(db)) && db.contexts == old(db.contexts) && i < |db.contexts| && s in db.stored && mid < 65536
    requires db.HeldOnce(i, cfg, lim, mid, retain, now, s)
    requires if db.Known(i, mid, 2) then db.stored == old(db.stored)
             else db.stored == [s] + old(db.stored) && (retain ==> s.retain)
    ensures ClientsOk(db)
  {
    hide ListOk, IdOk, MessagesOk, TreeOk, Count12, Admit;
    forall j | 0 <= j < |db.contexts| ensures ListOk(db.stored, db.contexts[j].msgs) {
      var was := old(db.contexts[j].msgs);
      if db.stored != old(db.stored) { ListStays(old(db.stored), s, was); }
      if j == i && !db.Known(i, mid, 2) {
        var v := Admit(lim, db.contexts[i].connected, cfg.queueQos0, Count12(was), In, 2);
        InsertedOk(db.stored, was, v, NewEntry(old(db.contexts[i].nextNode), s, mid, 2, retain, now, In, Invalid));
      }
    }
  }

  /**
   mqtt3_handle_publish. A refused QoS 2 publication is stored without a topic, and cannot be
   saved; a retained QoS 1 publication with the id of a waiting QoS 2 one retains that other
   message.
   */
  method HandlesPublish(db: Database, i: nat, cfg: Config, lim: Limits, upgrade: bool, sizeLimit: nat, access: Access,
                        mid: nat, topic: string, qos: nat, retain: bool, payload: seq<bv8>, tag: nat, now: int)
    returns (rc: nat, s: Option<Stored>)
    requires db.Valid() && Savable(db) && i < |db.contexts|
    requires mid < 65536 && P.CText(topic) && |payload| < 0x8000_0000
    requires Receive(topic, qos, payload, sizeLimit, access).Swallow? && qos == 2 ==> Waits(db, i, mid)
    modifies db`stored, db`msgStoreCount, db`lastDbId, db.subs.Repr, db.counters, db.store, db.contexts
    ensures db.Valid() && Savable(db)
    ensures old(Faithful(db)) && !(qos == 1 && retain && old(Waits(db, i, mid))) ==> Faithful(db)
  {
    hide Database.Valid, MessagesOk, TreeOk, OwnTopics, ListOk, IdOk, PlainTopic, WildcardFree, S.Retain, Tokens.Tokens,
      Database.HeldOnce, Database.GivenOnce, Database.PublishedAtOnce, S.RootWellFormed, Routable, P.CText;
    ghost var stored, tree, msgs := db.stored, db.subs.tree, db.contexts[i].msgs;
    assert S.RootWellFormed(tree) by { TreeWellFormed(db); }
    db.ClientReady(i);
    rc, s := db.HandlePublish(i, cfg, lim, upgrade, sizeLimit, access, mid, topic, qos, retain, payload, tag, now);
    match Receive(topic, qos, payload, sizeLimit, access) {
      case Fail(_) =>
      case Swallow =>
        if qos == 2 {
          assert s.value in db.stored by { WaitingStored(stored, msgs, mid); }
          PublicationHeld(db, i, cfg, lim, mid, false, now, s.value);
          assert db.subs.tree == tree by { HeldTree(db, i, cfg, lim, mid, false, now, s.value); }
        }
      case Accept =>
        WildcardFreePlain(topic);
        ArrivedOk(stored, tree, msgs, old(db.contexts[i].id), mid, topic, qos, retain, payload, tag,
                  old(db.lastDbId), s.value, db.stored);
        if qos == 2 {
          PublicationHeld(db, i, cfg, lim, mid, retain, now, s.value);
          assert db.subs.tree == tree by { HeldTree(db, i, cfg, lim, mid, retain, now, s.value); }
        } else {
          PublicationGiven(db, i, cfg, lim, upgrade, mid, topic, qos, retain, now, s.value);
          FiledOk(db.stored, tree, topic, s.value);
          assert db.subs.tree == (if retain then S.Retain(tree, Tokens.Tokens(topic), Keeps(s.value)) else tree) by {
            GivenTree(db, i, cfg, lim, upgrade, mid, topic, qos, retain, now, s.value);
          }
        }
    }
  }

  lemma {:induction false} TreeWellFormed(db: Database)
    requires db.Valid()
    ensures S.RootWellFormed(db.subs.tree)
  {
  }

  lemma {:induction false} WaitingStored(stored: seq<Stored>, msgs: seq<ClientMsg>, mid: nat)
    requires ListOk(stored, msgs) && IndexOf(msgs, mid, In, 0) < |msgs|
    ensures msgs[IndexOf(msgs, mid, In, 0)].store in stored
  {
    assert EntryOk(stored, msgs[IndexOf(msgs, mid, In, 0)]);
  }

  twostate lemma HeldTree(db: Database, new i: nat, new cfg: Config, new lim: Limits, new mid: nat, new retain: bool,
                          new now: int, new s: Stored)
    requires db.contexts == old(db.contexts) && i < |db.contexts| && db.HeldOnce(i, cfg, lim, mid, retain, now, s)
    ensures db.subs.tree == old(db.subs.tree)
  {
  }

  twostate lemma GivenTree(db: Database, new i: nat, new cfg: Config, new lim: Limits, new upgrade: bool, new mid: nat,
                           new topic: string, new qos: nat, new retain: bool, new now: int, new s: Stored)
    requires db.contexts == old(db.contexts) && i < |db.contexts|
    requires db.GivenOnce(i, cfg, lim, upgrade, mid, topic, qos, retain, now, s)
    ensures db.subs.tree ==
      if retain then S.Retain(old(db.subs.tree), Tokens.Tokens(topic), Keeps(s)) else old(db.subs.tree)
  {
  }

  // ----- A message of another topic -----

  /**
   How a node comes to retain a message of another topic: a QoS 2 publication of "a" waits under
   id 1, and the same client publishes to "b" with QoS 1, to be retained, under the same id.
   */
  method StrayRetained(payload: seq<bv8>, now: int) returns (db: Database, s: Stored)
    requires payload != []
    ensures db.Valid() && !Faithful(db) && s in db.stored && s.topic == Some("a")
    ensures ST.RetainedAt(db.subs.tree, ["", "", "b"]) == Some(s.id)
  {
    hide Database.Valid, S.Retain, Tokens.Tokens, S.Recipients, DeliverAll, MidsInRange, Database.Clients, Moved;
    db, s := OneWaits(payload, now);
    assert Receive("b", 1, payload, 0, Allowed) == Accept by { assert "b"[0] == 'b'; }
    var rc, again := db.HandlePublish(0, Config(false, false), Limits(0, 0), false, 0, Allowed, 1, "b", 1, true,
                                      payload, 1, now);
    StrayNode(db.stored, s);
  }

  method OneWaits(payload: seq<bv8>, now: int) returns (db: Database, s: Stored)
    ensures db.Valid() && fresh(db) && fresh(db.subs.Repr) && fresh(db.counters) && fresh(db.store)
    ensures |db.contexts| == 1 && fresh(db.contexts[0]) && db.subs.tree == S.Opened && db.stored == [s]
    ensures s.topic == Some("a") && s.payload == payload
    ensures db.contexts[0].msgs != [] && Is(db.contexts[0].msgs[0], 1, In) && db.contexts[0].msgs[0].store == s
  {
    hide Database.Valid, S.SubClean;
    db := new Database();
    var c := db.AddClient("c");
    db.Reconnect(0, Limits(0, 0), false);
    assert Receive("a", 2, payload, 0, Allowed) == Accept by { assert "a"[0] == 'a'; }
    var rc, held := db.HandlePublish(0, Config(false, false), Limits(0, 0), false, 0, Allowed, 1, "a", 2, false,
                                     payload, 0, now);
    s := held.value;
  }

  lemma {:induction false} StrayNode(stored: seq<Stored>, s: Stored)
    requires stored == [s] && s.topic == Some("a") && s.payload != []
    ensures var tree := S.Retain(S.Opened, Tokens.Tokens("b"), Keeps(s));
      ST.RetainedAt(tree, ["", "", "b"]) == Some(s.id) && !OwnTopics(stored, tree)
  {
    SmallTokens();
    S.OpenedAgrees();
    S.LookupRetain(S.Opened, ["", "b"], Some(s.id), ["", "", "b"], "");
    assert S.Filed(["", "b"]) == ["", "", "b"];
    hide S.Retain, ST.RetainedAt, Tokens.Tokens;
    var tree := S.Retain(S.Opened, ["", "b"], Some(s.id));
    assert S.Filed(["", "a"])[2] == "a";
    assert !Own(stored, ["", "", "b"], s.id);
    assert ST.RetainedAt(tree, ["", "", "b"]).Some?;
  }

  lemma {:induction false} SmallTokens()
    ensures Tokens.Tokens("a") == ["", "a"] && Tokens.Tokens("b") == ["", "b"]
  {
    SavedPaths.OneLevelText("a");
    SavedPaths.OneLevelText("b");
  }

  // ----- PUBREL and the rest -----

  method HandlesPubrel(db: Database, i: nat, cfg: Config, lim: Limits, upgrade: bool, mid: nat, now: int)
    requires db.Valid() && Savable(db) && i < |db.contexts|
    modifies db.subs.Repr, db.counters, db.store, db.contexts
    ensures db.Valid() && StillSavable(db)
  {
    hide Database.Valid, MessagesOk, TreeOk, OwnTopics, ListOk, IdOk, PlainTopic, S.RootWellFormed, Routable,
      Database.MessageReleased, Database.NothingReleased, Filed, DeliverAll, ReleasedList;
    ghost var stored, tree, msgs := db.stored, db.subs.tree, db.contexts[i].msgs;
    assert S.RootWellFormed(tree) by { TreeWellFormed(db); }
    db.ClientReady(i);
    ghost var at := IndexOf(msgs, mid, In, 0);
    ReleasedOk(stored, msgs, mid, lim.maxInflight, now);
    db.HandlePubrel(i, cfg, lim, upgrade, mid, now);
    if at < |msgs| {
      WaitingStored(stored, msgs, mid);
      ReleasedLists(db, i, cfg, lim, upgrade, mid, now);
      ReleasedTree(stored, tree, msgs, at);
    } else {
      NothingChanged(db, i, lim, mid, now);
      ListChanged(db, i);
    }
  }

  twostate lemma NothingChanged(db: Database, new i: nat, new lim: Limits, new mid: nat, new now: int)
    requires db.contexts == old(db.contexts) && i < |db.contexts| && db.NothingReleased(i, lim, mid, now)
    ensures db.subs.tree == old(db.subs.tree)
    ensures db.contexts[i].msgs == ReleasedList(old(db.contexts[i].msgs), mid, lim.maxInflight, now)
    ensures forall j :: 0 <= j < |db.contexts| && j != i ==> db.contexts[j].msgs == old(db.contexts[j].msgs)
  {
    hide ReleasedList, Pubrecs;
  }

  lemma {:induction false} ReleasedTree(stored: seq<Stored>, tree: ST.Tree, msgs: seq<ClientMsg>, at: nat)
    requires S.RootWellFormed(tree) && TreeOk(stored, tree) && ListOk(stored, msgs) && Routable(msgs)
    requires at < |msgs| && msgs[at].direction == In
    ensures TreeOk(stored, Filed(tree, msgs[at]))
    ensures OwnTopics(stored, tree) ==> OwnTopics(stored, Filed(tree, msgs[at]))
  {
    hide TreeOk, OwnTopics, PlainTopic, S.RootWellFormed, S.Retain;
    var m := msgs[at];
    assert EntryOk(stored, m);
    if m.store.topic.Some? && m.retain { FiledOk(stored, tree, m.store.topic.value, m.store); }
  }

  twostate lemma ReleasedLists(db: Database, new i: nat, new cfg: Config, new lim: Limits, new upgrade: bool,
                               new mid: nat, new now: int)
    requires old(Savable(db)) && db.contexts == old(db.contexts) && db.stored == old(db.stored) && i < |db.contexts|
    requires db.MessageReleased(i, cfg, lim, upgrade, mid, now)
    requires var was := old(db.contexts[i].msgs); was[IndexOf(was, mid, In, 0)].store in db.stored
    ensures ClientsOk(db)
    ensures var was := old(db.contexts[i].msgs); db.subs.tree == Filed(old(db.subs.tree), was[IndexOf(was, mid, In, 0)])
  {
    hide ListOk, IdOk, MessagesOk, TreeOk, DeliverAll, Finds, Filed, ReleasedList, Pubrecs;
    var was := old(db.contexts[i].msgs);
    var s := was[IndexOf(was, mid, In, 0)].store;
    var d, hits, before := Publishing(cfg, lim, upgrade, s, now), Finds(old(db.subs.tree), s), old(db.Clients(s.id));
    var r := DeliverAll(d, before, hits);
    var list := ReleasedList(r[i].box.msgs, mid, lim.maxInflight, now);
    db.ClientsAre(s.id, Moved(r, i, list, db.contexts[i].sent));
    forall j | 0 <= j < |db.contexts| ensures ListOk(db.stored, db.contexts[j].msgs) {
      var c := before[j];
      DeliveredOk(db.stored, d, c.connected, c.id, c.box, hits);
      if j == i { ReleasedOk(db.stored, r[i].box.msgs, mid, lim.maxInflight, now); }
    }
  }

  method HandlesPubrec(db: Database, i: nat, mid: nat, now: int) returns (rc: nat)
    requires db.Valid() && Savable(db) && i < |db.contexts|
    modifies db.contexts[i]
    ensures db.Valid() && StillSavable(db)
  {
    hide Database.Valid, Savable, ListOk, Faithful;
    ghost var list := db.contexts[i].msgs;
    ListOf(db, i);
    db.ClientReady(i);
    rc := db.HandlePubrec(i, mid, now);
    InPlaceOk(db.stored, list, Updated(list, mid, Out, WaitForPubcomp, now));
    ListChanged(db, i);
  }

  method HandlesPubackcomp(db: Database, i: nat, lim: Limits, mid: nat, now: int)
    requires db.Valid() && Savable(db) && i < |db.contexts|
    modifies db.contexts[i], db.store`refs
    ensures db.Valid() && StillSavable(db)
  {
    hide Database.Valid, Savable, ListOk, Faithful, AtMostOne, Without, PromoteFirst, Swept;
    ghost var list := db.contexts[i].msgs;
    ListOf(db, i);
    db.ClientReady(i);
    db.HandlePubackcomp(i, lim, mid, now);
    if mid != 0 {
      ghost var k: nat :| k <= |list| && db.contexts[i].msgs == Swept(Without(list[..k], mid, Out), list, k,
                                                                      lim.maxInflight, now);
      SweptOk(db.stored, list, k, mid, lim.maxInflight, now);
    }
    ListChanged(db, i);
  }

  method WritesOut(db: Database, i: nat, lim: Limits, room: nat, now: int) returns (ok: bool)
    requires db.Valid() && Savable(db) && i < |db.contexts| && db.contexts[i].connected
    modifies db.contexts[i], db.store`refs
    ensures db.Valid() && StillSavable(db)
  {
    hide Database.Valid, Savable, ListOk, Faithful, WritePass;
    ghost var list := db.contexts[i].msgs;
    ListOf(db, i);
    db.ClientReady(i);
    ok := db.WriteOut(i, lim, room, now);
    PassOk(db.stored, list, lim.maxInflight, 0, room, now);
    ListChanged(db, i);
  }

  method ChecksTimeouts(db: Database, i: nat, timeout: nat, now: int)
    requires db.Valid() && Savable(db) && i < |db.contexts|
    modifies db.contexts[i]
    ensures db.Valid() && StillSavable(db)
  {
    hide Database.Valid, Savable, ListOk, Faithful;
    ghost var list := db.contexts[i].msgs;
    ListOf(db, i);
    db.ClientReady(i);
    db.CheckTimeouts(i, timeout, now);
    InPlaceOk(db.stored, list, db.contexts[i].msgs);
    ListChanged(db, i);
  }

  // mqtt3_context_disconnect, with or without a will.
  method Disconnects(db: Database, i: nat, cfg: Config, lim: Limits, upgrade: bool, will: Option<Will>, tag: nat,
                     now: int)
    requires db.Valid() && Savable(db) && i < |db.contexts|
    requires will.Some? ==> WillOk(will.value) && will.value.topic != [] && TextOk(will.value.topic)
                            && |will.value.payload| < 0x8000_0000
    modifies db`stored, db`msgStoreCount, db`lastDbId, db.subs.Repr, db.counters, db.store, db.contexts
    ensures db.Valid() && StillSavable(db)
  {
    hide Database.Valid, MessagesOk, TreeOk, OwnTopics, ListOk, IdOk, PlainTopic, S.RootWellFormed, TextOk,
      Database.WillGiven, S.Retain, Tokens.Tokens;
    ghost var stored, tree := db.stored, db.subs.tree;
    assert S.RootWellFormed(tree) by { TreeWellFormed(db); }
    db.Disconnect(i, cfg, lim, upgrade, will, tag, now);
    if will.Some? {
      ghost var w := will.value;
      ghost var s := WillStored(old(db.lastDbId) + 1, old(db.contexts[i].id), w, tag);
      WillMessage(s, w);
      MoreStored(stored, s, tree);
      OneOf(stored, s, s);
      WillLists(db, i, cfg, lim, upgrade, w, tag, now);
      if w.retain { FiledOk([s] + stored, tree, w.topic, s); }
    }
  }

  lemma {:induction false} WillMessage(s: Stored, w: Will)
    requires s == WillStored(s.id, s.sourceId, w, s.tag) && IdOk(s.sourceId) && WillOk(w)
    requires w.topic != [] && TextOk(w.topic) && |w.payload| < 0x8000_0000
    ensures MessageOk(s)
  {
    hide PlainTopic;
  }

  twostate lemma WillLists(db: Database, new i: nat, new cfg: Config, new lim: Limits, new upgrade: bool, new w: Will,
                           new tag: nat, new now: int)
    requires old(Savable(db)) && db.contexts == old(db.contexts) && i < |db.contexts|
    requires db.WillGiven(i, cfg, lim, upgrade, w, tag, now)
    ensures ClientsOk(db)
    ensures var s := WillStored(old(db.lastDbId) + 1, old(db.contexts[i].id), w, tag);
      && db.stored == [s] + old(db.stored)
      && db.subs.tree == (if w.retain then S.Retain(old(db.subs.tree), Tokens.Tokens(w.topic), Keeps(s))
                          else old(db.subs.tree))
  {
    hide Savable, ClientsOk, DeliverAll, S.Recipients, S.Retain, Tokens.Tokens;
    var s := WillStored(old(db.lastDbId) + 1, old(db.contexts[i].id), w, tag);
    OneOf(old(db.stored), s, s);
    GivenLists(db, Delivery(cfg, lim, upgrade, w.qos, s, now), [],
               S.Recipients(old(db.subs.tree), Tokens.Tokens(w.topic)));
  }

  // mqtt3_db_store_clean: what lists and nodes point to stays.
  method StoreCleans(db: Database)
    requires db.Valid() && Savable(db)
    modifies db`stored, db`msgStoreCount, db.store
    ensures db.Valid() && StillSavable(db)
  {
    hide Database.Valid, MessageOk, ListOk, IdOk, TreeOk, OwnTopics, Referenced, Kept, ListRefs, ST.RetainedRefs;
    ghost var stored, refs := db.stored, db.store.refs;
    ghost var lists := db.Lists();
    db.StoreClean();
    assert db.Lists() == lists;
    forall k | 0 <= k < |db.stored| ensures MessageOk(db.stored[k]) {
      ReferencedExact(stored, refs, db.stored[k]);
      var j :| 0 <= j < |stored| && stored[j] == db.stored[k];
      assert MessageOk(stored[j]);
    }
    forall j | 0 <= j < |db.contexts| ensures ListOk(db.stored, db.contexts[j].msgs) {
      CleanedList(stored, db.stored, lists, j, db.subs.tree);
    }
    CleanedTree(stored, db.stored, lists, db.subs.tree);
  }

  ghost predicate OnlyUnused(stored: seq<Stored>, stored': seq<Stored>, lists: seq<seq<ClientMsg>>, tree: ST.Tree) {
    forall s :: s in stored ==> (s in stored' <==> ListRefs(lists, s.id) + ST.RetainedRefs(tree, s.id) > 0)
  }

  lemma {:induction false} CleanedList(stored: seq<Stored>, stored': seq<Stored>, lists: seq<seq<ClientMsg>>, j: nat,
                                       tree: ST.Tree)
    requires OnlyUnused(stored, stored', lists, tree) && j < |lists| && ListOk(stored, lists[j])
    ensures ListOk(stored', lists[j])
  {
    forall k | 0 <= k < |lists[j]| ensures lists[j][k].store in stored' {
      assert EntryOk(stored, lists[j][k]);
      EntryCounts(lists[j], k);
      ListCounts(lists, j, lists[j][k].store.id);
    }
  }

  lemma {:induction false} CleanedTree(stored: seq<Stored>, stored': seq<Stored>, lists: seq<seq<ClientMsg>>,
                                       tree: ST.Tree)
    requires OnlyUnused(stored, stored', lists, tree) && TreeOk(stored, tree)
    ensures TreeOk(stored', tree) && (OwnTopics(stored, tree) ==> OwnTopics(stored', tree))
  {
    hide R.SubLegal, ST.Lookup, ST.RetainedAt, NodeOk, OwnNode, ListRefs, ST.RetainedRefs;
    forall p | ST.RetainedAt(tree, p).Some?
      ensures Retainable(stored', ST.RetainedAt(tree, p).value)
      ensures Own(stored, p, ST.RetainedAt(tree, p).value) ==> Own(stored', p, ST.RetainedAt(tree, p).value)
    {
      var id := ST.RetainedAt(tree, p).value;
      RetainedCounts(tree, p);
      assert Retainable(stored, id);
      var s :| s in stored && NodeOk(s, id);
      assert s.id == id by { NodeId(s, id); }
      assert s in stored';
      if Own(stored, p, id) {
        var t :| t in stored && OwnNode(t, p, id);
        assert t.id == id by { OwnId(t, p, id); }
        assert t in stored';
      }
    }
  }

  lemma {:induction false} NodeId(s: Stored, id: nat)
    requires NodeOk(s, id)
    ensures s.id == id
  {
  }

  lemma {:induction false} OwnId(s: Stored, p: seq<string>, id: nat)
    requires OwnNode(s, p, id)
    ensures s.id == id
  {
  }

  // A node with a message points to it.
  lemma {:induction false} RetainedCounts(t: ST.Tree, p: seq<string>)
    requires ST.RetainedAt(t, p).Some?
    ensures ST.RetainedRefs(t, ST.RetainedAt(t, p).value) > 0
    decreases |p|
  {
    if p != [] {
      var i := ST.FindChild(t.children, p[0], 0);
      RetainedCounts(t.children[i], p[1..]);
      ChildRefs(t, i, |t.children|, ST.RetainedAt(t, p).value);
    }
  }

  // ----- What is saved -----

  // Two things that the rest of the model leaves out: whether the session is clean, and when the
  // client disconnected.
  datatype Session = Session(clean: bool, disconnectT: nat)

  function SavedMessageOf(s: Stored): P.SavedMessage
    requires MessageOk(s)
  {
    P.SavedMessage(s.id, s.sourceId, s.sourceMid, s.topic.value, s.qos, s.retain,
                   seq(|s.payload|, k requires 0 <= k < |s.payload| => s.payload[k] as int))
  }

  function SavedEntryOf(m: ClientMsg): P.SavedEntry
    requires m.qos <= 2
  {
    P.SavedEntry(m.store.id, m.mid, m.qos, m.retain, m.direction, m.state, m.dup)
  }

  function SavedMessages(stored: seq<Stored>): (r: seq<P.SavedMessage>)
    requires MessagesOk(stored)
    ensures |r| == |stored| && forall k :: 0 <= k < |r| ==> r[k] == SavedMessageOf(stored[k])
  {
    seq(|stored|, k requires 0 <= k < |stored| => SavedMessageOf(stored[k]))
  }

  function SavedEntries(msgs: seq<ClientMsg>): (r: seq<P.SavedEntry>)
    requires QosInRange(msgs)
    ensures |r| == |msgs| && forall k :: 0 <= k < |r| ==> r[k] == SavedEntryOf(msgs[k])
  {
    seq(|msgs|, k requires 0 <= k < |msgs| => SavedEntryOf(msgs[k]))
  }

  ghost function SavedClients(cs: seq<Context>, sessions: seq<Session>): (r: seq<P.SavedClient>)
    requires |sessions| == |cs| && forall j :: 0 <= j < |cs| ==> QosInRange(cs[j].msgs)
    reads cs
    ensures |r| == |cs| && forall j :: 0 <= j < |r| ==>
      r[j] == P.SavedClient(cs[j].id, sessions[j].clean, cs[j].lastMid, sessions[j].disconnectT,
                            SavedEntries(cs[j].msgs))
  {
    if cs == [] then []
    else
      var last := |cs| - 1;
      SavedClients(cs[..last], sessions[..last])
      + [P.SavedClient(cs[last].id, sessions[last].clean, cs[last].lastMid, sessions[last].disconnectT,
                       SavedEntries(cs[last].msgs))]
  }

  // The database as mqtt3_db_backup finds it.
  ghost function View(db: Database, sessions: seq<Session>): P.Saved
    requires db.Valid() && Savable(db) && |sessions| == |db.contexts|
    reads db, db.subs, db.subs.Repr, db.counters, db.store, db.contexts
  {
    P.Saved(db.lastDbId, SavedMessages(db.stored), SavedClients(db.contexts, sessions), db.subs.tree)
  }

  lemma {:induction false} FoundSaved(stored: seq<Stored>, s: Stored)
    requires MessagesOk(stored) && s in stored && forall i, j :: 0 <= i < j < |stored| ==> stored[i].id != stored[j].id
    ensures MessageOk(s)
    ensures var saved := SavedMessages(stored); var i := P.Find(saved, s.id, 0);
      i < |saved| && saved[i] == SavedMessageOf(s)
  {
    hide MessageOk;
    var k :| 0 <= k < |stored| && stored[k] == s;
    var saved := SavedMessages(stored);
    assert saved[k] == SavedMessageOf(stored[k]);
    var i := P.Find(saved, s.id, 0);
    assert saved[i] == SavedMessageOf(stored[i]);
  }

  lemma {:induction false} MessagesFitted(stored: seq<Stored>, ids: set<nat>, lastDbId: nat)
    requires MessagesOk(stored) && StoreWellFormed(stored, ids, lastDbId) && PersistFile.IsId(lastDbId)
    ensures R.MessagesFit(SavedMessages(stored))
    ensures forall i, j :: 0 <= i < j < |stored| ==> stored[i].id != stored[j].id
    ensures forall k :: 0 <= k < |stored| ==> PersistFile.IsId(stored[k].id)
  {
    hide PlainTopic, P.CText;
    var saved := SavedMessages(stored);
    forall k | 0 <= k < |saved| ensures R.MessageFits(saved[k]) {
      assert MessageOk(stored[k]) && saved[k] == SavedMessageOf(stored[k]);
    }
    forall i, j | 0 <= i < j < |saved| ensures saved[i].id != saved[j].id {
      assert stored[i].id != stored[j].id;
    }
  }

  lemma {:induction false} EntriesFitted(stored: seq<Stored>, msgs: seq<ClientMsg>)
    requires MessagesOk(stored) && ListOk(stored, msgs) && QosInRange(msgs)
    requires forall i, j :: 0 <= i < j < |stored| ==> stored[i].id != stored[j].id
    requires forall k :: 0 <= k < |stored| ==> PersistFile.IsId(stored[k].id)
    ensures forall k :: 0 <= k < |msgs| ==> R.EntryFits(SavedMessages(stored), SavedEntries(msgs)[k])
  {
    hide MessageOk;
    forall k | 0 <= k < |msgs| ensures R.EntryFits(SavedMessages(stored), SavedEntries(msgs)[k]) {
      assert EntryOk(stored, msgs[k]);
      FoundSaved(stored, msgs[k].store);
    }
  }

  /**
   What the operations leave can be saved and restored: the ids that are handed out and the
   disconnection times fit their fields, and everything else does.
   */
  lemma {:induction false} ReachablePersistable(db: Database, sessions: seq<Session>)
    requires db.Valid() && Savable(db) && |sessions| == |db.contexts| && PersistFile.IsId(db.lastDbId)
    requires forall j :: 0 <= j < |sessions| ==> PersistFile.IsId(sessions[j].disconnectT)
    ensures R.Persistable(View(db, sessions))
  {
    hide MessageOk, ListOk, R.MessageFits, R.EntryFits, S.RootWellFormed, R.SubLegal, P.Durable;
    MessagesFitted(db.stored, db.store.refs.Keys, db.lastDbId);
    var v := View(db, sessions);
    ClientsFitted(db, sessions);
    assert S.RootWellFormed(v.root);
    assert R.TreeFits(v) by {
      forall p | ST.RetainedAt(v.root, p).Some?
        ensures PersistFile.IsId(ST.RetainedAt(v.root, p).value) && R.RetKnown(v.stored, ST.RetainedAt(v.root, p).value)
      {
        NodeKnown(db.stored, db.subs.tree, p);
      }
    }
  }

  lemma {:induction false} ClientsFitted(db: Database, sessions: seq<Session>)
    requires db.Valid() && Savable(db) && |sessions| == |db.contexts| && PersistFile.IsId(db.lastDbId)
    requires forall j :: 0 <= j < |sessions| ==> PersistFile.IsId(sessions[j].disconnectT)
    ensures R.ClientsFit(SavedMessages(db.stored), SavedClients(db.contexts, sessions))
  {
    hide MessageOk, ListOk, EntryOk, R.EntryFits, TreeOk, P.CText;
    MessagesFitted(db.stored, db.store.refs.Keys, db.lastDbId);
    var stored, clients := SavedMessages(db.stored), SavedClients(db.contexts, sessions);
    forall j | 0 <= j < |clients| ensures R.ClientFits(stored, clients[j]) {
      assert db.contexts[j].Valid() && IdOk(db.contexts[j].id);
      EntriesFitted(db.stored, db.contexts[j].msgs);
    }
  }

  lemma {:induction false} NodeKnown(stored: seq<Stored>, tree: ST.Tree, p: seq<string>)
    requires MessagesOk(stored) && TreeOk(stored, tree) && ST.RetainedAt(tree, p).Some?
    requires forall i, j :: 0 <= i < j < |stored| ==> stored[i].id != stored[j].id
    requires forall k :: 0 <= k < |stored| ==> PersistFile.IsId(stored[k].id)
    ensures PersistFile.IsId(ST.RetainedAt(tree, p).value)
    ensures R.RetKnown(SavedMessages(stored), ST.RetainedAt(tree, p).value)
  {
    hide MessageOk, ST.RetainedAt, ST.Lookup, R.SubLegal;
    var id := ST.RetainedAt(tree, p).value;
    assert Retainable(stored, id);
    var s :| s in stored && NodeOk(s, id);
    FoundSaved(stored, s);
  }

  /**
   A faithful database's retained messages come back: in the saved database every node holds a
   message of its own topic.
   */
  lemma {:induction false} FaithfulRetains(db: Database, sessions: seq<Session>)
    requires db.Valid() && Savable(db) && |sessions| == |db.contexts| && PersistFile.IsId(db.lastDbId) && Faithful(db)
    ensures R.RetainsOwn(View(db, sessions)) && R.DollarRetainsOwn(View(db, sessions))
  {
    hide MessageOk, ListOk, ST.RetainedAt, ST.Lookup, R.SubLegal, S.RootWellFormed, S.Filed;
    MessagesFitted(db.stored, db.store.refs.Keys, db.lastDbId);
    var v := View(db, sessions);
    forall p | ST.RetainedAt(v.root, p).Some? ensures R.OwnTopic(v, p, ST.RetainedAt(v.root, p).value) {
      var id := ST.RetainedAt(v.root, p).value;
      assert Own(db.stored, p, id);
      var s :| s in db.stored && OwnNode(s, p, id);
      FoundSaved(db.stored, s);
    }
  }
}
