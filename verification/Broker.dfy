/**
 The broker's database: struct mosquitto_db with its clients, its subscription tree and its list
 of stored messages, whose reference counts the queues and the tree share.
 */
module Broker {
  import opened Topics
  import opened MessageQueue
  import opened ClientContext
  import opened FanOut
  import opened Served
  import ST = SubTree
  import SH = SubHierarchy
  import Subscriptions
  import RetainSearch
  import Tokens

  // ----- Counting pointers -----

  // Pointers to a stored message from all client lists.
  function ListRefs(lists: seq<seq<ClientMsg>>, id: nat): nat {
    if lists == [] then 0 else ListRefs(lists[..|lists| - 1], id) + Refs(lists[|lists| - 1], id)
  }

  lemma {:induction false} ListRefsUpdate(lists: seq<seq<ClientMsg>>, j: nat, list: seq<ClientMsg>, id: nat)
    requires j < |lists|
    ensures ListRefs(lists[j := list], id) == ListRefs(lists, id) - Refs(lists[j], id) + Refs(list, id)
    decreases |lists|
  {
    var last := |lists| - 1;
    if j == last {
      assert lists[j := list][..last] == lists[..last];
    } else {
      ListRefsUpdate(lists[..last], j, list, id);
      assert lists[j := list][..last] == lists[..last][j := list];
    }
  }

  // Every stored message's counter is the number of queue entries and tree nodes pointing to it.
  ghost predicate RefsRight(refs: map<nat, int>, lists: seq<seq<ClientMsg>>, tree: ST.Tree) {
    forall id :: id in refs ==> refs[id] == ListRefs(lists, id) + ST.RetainedRefs(tree, id)
  }

  // A change of one list that the counters followed.
  lemma {:induction false} ListMoves(refs: map<nat, int>, refs': map<nat, int>, lists: seq<seq<ClientMsg>>, j: nat,
                                     list: seq<ClientMsg>, tree: ST.Tree)
    requires RefsRight(refs, lists, tree) && j < |lists| && RefsFollow(refs, lists[j], refs', list)
    ensures RefsRight(refs', lists[j := list], tree)
  {
    forall id: nat | id in refs'
      ensures refs'[id] == ListRefs(lists[j := list], id) + ST.RetainedRefs(tree, id)
    {
      assert id in refs;
      ListRefsUpdate(lists, j, list, id);
    }
  }

  // A change of the tree that the counters followed.
  lemma {:induction false} TreeMoves(refs: map<nat, int>, refs': map<nat, int>, lists: seq<seq<ClientMsg>>,
                                     tree: ST.Tree, tree': ST.Tree)
    requires RefsRight(refs, lists, tree) && SH.RetainFollows(refs, tree, refs', tree')
    ensures RefsRight(refs', lists, tree')
  {
    forall id: nat | id in refs'
      ensures refs'[id] == ListRefs(lists, id) + ST.RetainedRefs(tree', id)
    {
      assert id in refs;
    }
  }

  predicate KnownLists(lists: seq<seq<ClientMsg>>, ids: set<nat>) {
    forall j :: 0 <= j < |lists| ==> KnownList(lists[j], ids)
  }

  predicate KnownList(list: seq<ClientMsg>, ids: set<nat>) {
    forall i :: 0 <= i < |list| ==> list[i].store.id in ids
  }

  // Nothing points to an id that is not in the store.
  lemma {:induction false} NoRefsOutside(list: seq<ClientMsg>, ids: set<nat>, id: nat)
    requires KnownList(list, ids) && id !in ids
    ensures Refs(list, id) == 0
    decreases |list|
  {
    if list != [] { NoRefsOutside(list[..|list| - 1], ids, id); }
  }

  lemma {:induction false} NoListRefsOutside(lists: seq<seq<ClientMsg>>, ids: set<nat>, id: nat)
    requires KnownLists(lists, ids) && id !in ids
    ensures ListRefs(lists, id) == 0
    decreases |lists|
  {
    if lists != [] {
      NoListRefsOutside(lists[..|lists| - 1], ids, id);
      NoRefsOutside(lists[|lists| - 1], ids, id);
    }
  }

  // A tree with no more pointers than one whose messages are known has known messages.
  lemma {:induction false} StepKnown(t: ST.Tree, t': ST.Tree, ids: set<nat>)
    requires SH.RetainedKnown(t, ids) && forall id :: ST.RetainedRefs(t', id) == ST.RetainedRefs(t, id)
    ensures SH.RetainedKnown(t', ids)
  {
    forall id: nat | id !in ids ensures ST.RetainedRefs(t', id) == 0 { NoRetainedOutside(t, ids, id); }
    NoneOutsideKnown(t', ids);
  }

  lemma {:induction false} NoneOutsideKnown(t: ST.Tree, ids: set<nat>)
    requires forall id: nat :: id !in ids ==> ST.RetainedRefs(t, id) == 0
    ensures SH.RetainedKnown(t, ids)
    decreases t
  {
    forall i | 0 <= i < |t.children| ensures SH.RetainedKnown(t.children[i], ids) {
      forall id: nat | id !in ids ensures ST.RetainedRefs(t.children[i], id) == 0 { ChildRefs(t, i, |t.children|, id); }
      NoneOutsideKnown(t.children[i], ids);
    }
    if t.retained.Some? { assert ST.RetainedRefs(t, t.retained.value) > 0; }
  }

  lemma {:induction false} NoRetainedOutside(t: ST.Tree, ids: set<nat>, id: nat)
    requires SH.RetainedKnown(t, ids) && id !in ids
    ensures ST.RetainedRefs(t, id) == 0
    decreases t, |t.children| + 1
  {
    NoRetainedFirstOutside(t, |t.children|, ids, id);
  }

  lemma {:induction false} NoRetainedFirstOutside(t: ST.Tree, k: nat, ids: set<nat>, id: nat)
    requires SH.RetainedKnown(t, ids) && id !in ids && k <= |t.children|
    ensures ST.RetainedRefsFirst(t, k, id) == 0
    decreases t, k
  {
    if k > 0 {
      NoRetainedFirstOutside(t, k - 1, ids, id);
      NoRetainedOutside(t.children[k - 1], ids, id);
    }
  }

  // One client more, with an empty list.
  lemma {:induction false} ClientListGrows(tree: ST.Tree, stored: seq<Stored>, count: int, lastId: nat,
                                           refs: map<nat, int>,
                                           dests: map<nat, seq<string>>, lists: seq<seq<ClientMsg>>)
    requires StoreOk(stored, count, lastId, refs, dests, lists, tree)
    ensures StoreOk(stored, count, lastId, refs, dests, lists + [[]], tree)
  {
    assert (lists + [[]])[..|lists|] == lists;
    forall id ensures ListRefs(lists + [[]], id) == ListRefs(lists, id) { assert Refs([], id) == 0; }
    hide StoreWellFormed, ListRefs, SH.RetainedKnown;
  }

  lemma {:induction false} OpOwned(s: Subscriptions.Counted, op: Subscriptions.Op, contexts: seq<Context>)
    requires Subscriptions.RootWellFormed(s.root) && Subscriptions.Admissible(op) && SubsOwned(s.root, contexts)
    requires op.Subscribe? ==> op.leaf.qos <= 2 && exists i :: 0 <= i < |contexts| && contexts[i].id == op.leaf.client
    ensures SubsOwned(Subscriptions.Step(s, op).root, contexts)
  {
    var t := Subscriptions.Step(s, op).root;
    forall p, c | ST.Lookup(t, p, c).Some?
      ensures ST.Lookup(t, p, c).value <= 2 && exists i :: 0 <= i < |contexts| && contexts[i].id == c
    {
      Subscriptions.StepLookup(s, op, p, c);
      hide Subscriptions.Step;
    }
  }

  lemma {:induction false} CleanLeaves(root: ST.Tree, client: string)
    requires root.subs == []
    ensures ST.CountLeaves(Subscriptions.SubClean(root, client)) ==
      ST.CountLeaves(root) - ST.CountClientFirst(root, |root.children|, client)
  {
    Subscriptions.SubCleanCounts(root, client, |root.children|);
  }

  lemma {:induction false} OwnedByMore(tree: ST.Tree, contexts: seq<Context>, more: seq<Context>)
    requires SubsOwned(tree, contexts) && contexts <= more
    ensures SubsOwned(tree, more)
  {
    hide ST.Lookup;
    forall p, c | ST.Lookup(tree, p, c).Some?
      ensures exists i :: 0 <= i < |more| && more[i].id == c
    {
      var i :| 0 <= i < |contexts| && contexts[i].id == c;
      assert more[i].id == c;
    }
  }

  // A list with an entry for the id has a pointer to it.
  lemma {:induction false} EntryCounts(list: seq<ClientMsg>, i: nat)
    requires i < |list|
    ensures Refs(list, list[i].store.id) > 0
    decreases |list|
  {
    if i < |list| - 1 { EntryCounts(list[..|list| - 1], i); }
  }

  lemma {:induction false} ListCounts(lists: seq<seq<ClientMsg>>, j: nat, id: nat)
    requires j < |lists|
    ensures Refs(lists[j], id) <= ListRefs(lists, id)
    decreases |lists|
  {
    if j < |lists| - 1 { ListCounts(lists[..|lists| - 1], j, id); }
  }

  // ----- Stored messages -----

  function Ids(stored: seq<Stored>): set<nat> {
    set i | 0 <= i < |stored| :: stored[i].id
  }

  predicate StoreWellFormed(stored: seq<Stored>, ids: set<nat>, lastId: nat) {
    && ids == Ids(stored)
    && (forall i, j :: 0 <= i < j < |stored| ==> stored[i].id != stored[j].id)
    && (forall i :: 0 <= i < |stored| ==> 0 < stored[i].id <= lastId)
  }

  // The messages whose counter is not zero, in order.
  function Referenced(stored: seq<Stored>, refs: map<nat, int>): seq<Stored> {
    if stored == [] then []
    else
      var last := stored[|stored| - 1];
      Referenced(stored[..|stored| - 1], refs) + if last.id in refs && refs[last.id] == 0 then [] else [last]
  }

  lemma {:induction false} ReferencedExact(stored: seq<Stored>, refs: map<nat, int>, s: Stored)
    ensures s in Referenced(stored, refs) <==> s in stored && !(s.id in refs && refs[s.id] == 0)
    decreases |stored|
  {
    if stored != [] {
      var a, last := stored[..|stored| - 1], stored[|stored| - 1];
      ReferencedExact(a, refs, s);
      assert stored == a + [last];
    }
  }

  lemma {:induction false} ReferencedDistinct(stored: seq<Stored>, refs: map<nat, int>)
    requires forall i, j :: 0 <= i < j < |stored| ==> stored[i].id != stored[j].id
    ensures var r := Referenced(stored, refs); forall i, j :: 0 <= i < j < |r| ==> r[i].id != r[j].id
    decreases |stored|
  {
    if stored != [] {
      var a, last := stored[..|stored| - 1], stored[|stored| - 1];
      ReferencedDistinct(a, refs);
      var r := Referenced(a, refs);
      forall i | 0 <= i < |r|
        ensures r[i].id != last.id
      {
        ReferencedExact(a, refs, r[i]);
      }
    }
  }

  ghost function MsgsOf(cs: seq<Context>): (r: seq<seq<ClientMsg>>)
    reads cs
    ensures |r| == |cs|
    ensures forall j :: 0 <= j < |r| ==> r[j] == cs[j].msgs
  {
    if cs == [] then [] else MsgsOf(cs[..|cs| - 1]) + [cs[|cs| - 1].msgs]
  }

  ghost function ClientsOf(cs: seq<Context>, dests: seq<string>): (r: seq<Client>)
    reads cs
    ensures |r| == |cs|
    ensures forall j :: 0 <= j < |r| ==> r[j] == Client(cs[j].id, cs[j].connected, Box(cs[j], dests), cs[j].sent)
  {
    if cs == [] then []
    else
      var c := cs[|cs| - 1];
      ClientsOf(cs[..|cs| - 1], dests) + [Client(c.id, c.connected, Box(c, dests), c.sent)]
  }

  // Inbound messages waiting for their PUBREL can be given to mqtt3_db_messages_queue.
  predicate Routable(msgs: seq<ClientMsg>) {
    forall i :: 0 <= i < |msgs| && msgs[i].direction == In ==>
      msgs[i].store.qos <= 2 && (msgs[i].store.topic.Some? ==> PlainTopic(msgs[i].store.topic.value))
  }

  lemma {:induction false} UpdatedRoutable(msgs: seq<ClientMsg>, mid: nat, dir: Direction, state: MsgState, now: int)
    requires Routable(msgs)
    ensures Routable(Updated(msgs, mid, dir, state, now))
  {
    hide PlainTopic;
  }

  lemma {:induction false} TimeoutRoutable(msgs: seq<ClientMsg>, threshold: int, now: int)
    requires Routable(msgs)
    ensures Routable(TimeoutList(msgs, threshold, now))
  {
    hide PlainTopic;
  }

  lemma {:induction false} ResetRoutable(msgs: seq<ClientMsg>, n: nat)
    requires Routable(msgs)
    ensures Routable(ResetList(msgs, n))
  {
    hide PlainTopic;
  }

  // The walk of a delete, which ends early behind the window.
  ghost predicate SweptFrom(was: seq<ClientMsg>, mid: nat, lim: Limits, now: int, msgs: seq<ClientMsg>) {
    exists k: nat :: k <= |was| && msgs == Swept(Without(was[..k], mid, Out), was, k, lim.maxInflight, now)
  }

  lemma {:induction false} SweptRoutable(was: seq<ClientMsg>, mid: nat, dir: Direction, n: nat, now: int,
                                         msgs: seq<ClientMsg>)
    requires Routable(was) && exists k: nat :: k <= |was| && msgs == Swept(Without(was[..k], mid, dir), was, k, n, now)
    ensures Routable(msgs)
  {
    var k: nat :| k <= |was| && msgs == Swept(Without(was[..k], mid, dir), was, k, n, now);
    var kept := Without(was[..k], mid, dir);
    WithoutRoutable(was[..k], mid, dir);
    hide PlainTopic, Without;
    forall i | 0 <= i < |msgs| && msgs[i].direction == In
      ensures msgs[i].store.qos <= 2 && (msgs[i].store.topic.Some? ==> PlainTopic(msgs[i].store.topic.value))
    {
      if i < |kept| {
        assert msgs[i].store == kept[i].store && msgs[i].direction == kept[i].direction;
      } else {
        assert msgs[i] == was[k + i - |kept|];
      }
    }
  }

  lemma {:induction false} WithoutRoutable(msgs: seq<ClientMsg>, mid: nat, dir: Direction)
    requires Routable(msgs)
    ensures Routable(Without(msgs, mid, dir))
  {
    if msgs != [] {
      assert Routable(msgs[..|msgs| - 1]) by { hide PlainTopic; }
      WithoutRoutable(msgs[..|msgs| - 1], mid, dir);
      hide PlainTopic;
    }
  }

  lemma {:induction false} WriteRoutable(rest: seq<ClientMsg>, n: nat, seen: nat, room: nat, now: int)
    requires Routable(rest)
    ensures Routable(WritePass(rest, n, seen, room, now).msgs)
    decreases |rest|, if rest != [] && rest[0].state == Queued then 1 else 0
  {
    if rest != [] {
      var m := rest[0];
      var seen' := seen + if m.direction == In then 1 else 0;
      RestRoutable(rest);
      PassCases(rest, n, seen, room, now);
      hide WritePass, Routable;
      if Admissible(m, n, seen') {
        WriteRoutable([m.(state := SendPubrec)] + rest[1..], n, seen', room, now);
      } else if Wants(m) == None {
        WriteRoutable(rest[1..], n, seen', room, now);
        RoutableAppend([m], WritePass(rest[1..], n, seen', room, now).msgs);
      } else if room > 0 {
        WriteRoutable(rest[1..], n, seen', room - 1, now);
        RoutableAppend(ToSeq(AfterSend(m, now)), WritePass(rest[1..], n, seen', room - 1, now).msgs);
      }
    }
  }

  lemma {:induction false} AppendRoutable(was: seq<ClientMsg>, msgs: seq<ClientMsg>, s: Stored)
    requires Routable(was) && s.qos <= 2 && (s.topic.Some? ==> PlainTopic(s.topic.value))
    requires msgs == was || (|msgs| == |was| + 1 && msgs[..|was|] == was && msgs[|was|].store == s)
    ensures Routable(msgs)
  {
    hide PlainTopic;
    assert forall k :: 0 <= k < |was| ==> msgs[k] == msgs[..|was|][k] || msgs == was;
  }

  // The search by source id finds the inbound entry with this id.
  lemma {:induction false} FoundInbound(c: Context, mid: nat, found: Option<Stored>)
    requires c.Valid()
    requires found.Some? <==> exists i :: 0 <= i < |c.msgs| && Is(c.msgs[i], mid, In)
    requires found.Some? ==> exists i :: 0 <= i < |c.msgs| && Is(c.msgs[i], mid, In) && c.msgs[i].store == found.value
    ensures var at := IndexOf(c.msgs, mid, In, 0);
      && (found.Some? <==> at < |c.msgs|)
      && (found.Some? ==> c.msgs[at].store == found.value)
  {
    assert InboundWellFormed(c.msgs);
  }

  lemma {:induction false} OneInbound(c: Context, mid: nat)
    requires c.Valid()
    ensures var at := IndexOf(c.msgs, mid, In, 0); forall j :: at < j < |c.msgs| ==> !Is(c.msgs[j], mid, In)
  {
    assert InboundWellFormed(c.msgs);
  }

  lemma {:induction false} RestRoutable(rest: seq<ClientMsg>)
    requires rest != [] && Routable(rest)
    ensures Routable(rest[1..]) && Routable([rest[0]]) && Routable([rest[0].(state := SendPubrec)] + rest[1..])
    ensures forall now :: Routable(ToSeq(AfterSend(rest[0], now)))
  {
    hide PlainTopic;
  }

  lemma {:induction false} RoutableAppend(a: seq<ClientMsg>, b: seq<ClientMsg>)
    requires Routable(a) && Routable(b)
    ensures Routable(a + b)
  {
    hide PlainTopic;
  }

  lemma {:induction false} StillRoutable(msgs: seq<ClientMsg>, i: nat, now: int)
    requires Routable(msgs) && i < |msgs|
    ensures Routable(msgs[i := Promote(msgs[i], now)]) && Routable(RemoveAt(msgs, i))
  {
  }

  predicate PlainTopic(topic: string) {
    Subscriptions.TopicTokens(Tokens.Tokens(topic))
  }

  // Distinct client ids.
  ghost predicate DistinctIds(contexts: seq<Context>) {
    && (forall i, j :: 0 <= i < j < |contexts| ==> contexts[i] != contexts[j] && contexts[i].id != contexts[j].id)
  }

  // Every subscription belongs to a client of the database and has a valid QoS.
  ghost predicate SubsOwned(root: ST.Tree, contexts: seq<Context>) {
    forall p, c :: ST.Lookup(root, p, c).Some? ==>
      ST.Lookup(root, p, c).value <= 2 && exists i :: 0 <= i < |contexts| && contexts[i].id == c
  }

  datatype Will = Will(topic: string, qos: nat, retain: bool, payload: seq<bv8>)

  // CONNECT checks the QoS of a will, and its topic as a filter. A will that is to be retained has
  // no wildcards here.
  predicate WillOk(w: Will) {
    w.qos <= 2 && (w.retain ==> PlainTopic(w.topic))
  }

  function WillStored(id: nat, source: string, w: Will, tag: nat): Stored {
    Stored(id, tag, source, 0, Some(w.topic), w.qos, w.retain, w.payload)
  }

  // What the access check says about a publication.
  datatype Access = Allowed | Denied | Failed(rc: nat)

  // A publication is taken, acknowledged without being taken, or an error that ends the connection.
  datatype Reception = Accept | Swallow | Fail(rc: nat)

  function Receive(topic: string, qos: nat, payload: seq<bv8>, sizeLimit: nat, access: Access): Reception {
    if qos > 2 || topic == [] || !PassesLenCheck(topic) then Fail(1)
    else if 0 < sizeLimit < |payload| then Swallow
    else
      match access
      case Allowed => Accept
      case Denied => Swallow
      case Failed(rc) => Fail(rc)
  }

  lemma {:induction false} WildcardFreePlain(topic: string)
    requires WildcardFree(topic)
    ensures PlainTopic(topic)
  {
    Tokens.PlainTokens(topic);
    hide Tokens.Tokens;
    forall i | 0 <= i < |Tokens.Tokens(topic)|
      ensures Tokens.Tokens(topic)[i] != "#" && Tokens.Tokens(topic)[i] != "+"
    {
      assert WildcardFree(Tokens.Tokens(topic)[i]);
      assert IsWild("#"[0]) && IsWild("+"[0]);
    }
  }

  class Database {
    const subs: SH.SubHier
    const counters: SH.Counters
    const store: MessageStore
    var contexts: seq<Context>
    var stored: seq<Stored>       // msg_store, newest first
    var msgStoreCount: int
    var lastDbId: nat

    // mqtt3_db_open: the top-level nodes for ordinary topics and for $SYS exist from the start.
    constructor ()
      ensures Valid() && contexts == [] && stored == [] && subs.tree == Subscriptions.Opened
      ensures fresh(subs.Repr) && fresh(counters) && fresh(store)
    {
      hide Subscriptions.RootWellFormed, ST.CountLeaves, ST.CountRetained, StoreOk, SubsOwned, SH.SubHier.Valid;
      subs := new SH.SubHier("");
      counters := new SH.Counters();
      store := new MessageStore();
      contexts, stored, msgStoreCount, lastDbId := [], [], 0, 0;
      new;
      subs.LinkEmpty("");
      subs.LinkEmpty("$SYS");
      assert subs.tree == Subscriptions.Opened;
      NothingSubscribed();
    }

    ghost function Lists(): (r: seq<seq<ClientMsg>>)
      reads this`contexts, contexts
      ensures |r| == |contexts|
      ensures forall j :: 0 <= j < |r| ==> r[j] == contexts[j].msgs
    {
      MsgsOf(contexts)
    }

    // The clients as a delivery of this stored message finds them.
    ghost function Clients(id: nat): (r: seq<Client>)
      requires id in store.dests
      reads this`contexts, contexts, store`dests
      ensures |r| == |contexts|
      ensures forall j :: 0 <= j < |r| ==>
        r[j] == Client(contexts[j].id, contexts[j].connected, Box(contexts[j], store.dests[id]), contexts[j].sent)
    {
      ClientsOf(contexts, store.dests[id])
    }

    ghost predicate Valid()
      reads this, subs, subs.Repr, counters, store, contexts
    {
      && TreeValid() && ClientsValid() && SubsOwned(subs.tree, contexts)
      && StoreOk(stored, msgStoreCount, lastDbId, store.refs, store.dests, Lists(), subs.tree)
    }

    ghost predicate TreeValid()
      reads subs, subs.Repr, counters
    {
      && subs.Valid() && Subscriptions.RootWellFormed(subs.tree)
      && counters.subscriptionCount == ST.CountLeaves(subs.tree)
      && counters.retainedCount == ST.CountRetained(subs.tree)
    }

    ghost predicate ClientsValid()
      reads this`contexts, contexts
    {
      DistinctIds(contexts) && forall j :: 0 <= j < |contexts| ==> contexts[j].Valid() && Routable(contexts[j].msgs)
    }

    // mqtt3_db_message_store (src/database.c:459-531) with store_id 0.
    method StoreMessage(sourceId: string, sourceMid: nat, topic: Option<string>, qos: nat, retain: bool,
                        payload: seq<bv8>, tag: nat)
      returns (s: Stored)
      requires Valid()
      modifies this`stored, this`msgStoreCount, this`lastDbId, store
      ensures Valid() && s == Stored(lastDbId, tag, sourceId, sourceMid, topic, qos, retain, payload)
      ensures lastDbId == old(lastDbId) + 1 && stored == [s] + old(stored)
      ensures store.refs == old(store.refs)[s.id := 0] && store.dests == old(store.dests)[s.id := []]
      ensures s.id !in old(store.refs)
    {
      hide Database.Valid, Database.Lists;
      s := Stored(lastDbId + 1, tag, sourceId, sourceMid, topic, qos, retain, payload);
      label before:
      lastDbId := lastDbId + 1;
      stored := [s] + stored;
      msgStoreCount := msgStoreCount + 1;
      store.refs := store.refs[s.id := 0];
      store.dests := store.dests[s.id := []];
      StoreGrew@before(s);
    }

    // One more message is in the store, and nothing points to it.
    twostate lemma StoreGrew(s: Stored)
      requires old(Valid()) && unchanged(this`contexts) && unchanged(subs) && unchanged(subs.Repr)
      requires unchanged(counters)
      requires forall j :: 0 <= j < |contexts| ==> unchanged(contexts[j])
      requires s.id == lastDbId == old(lastDbId) + 1 && stored == [s] + old(stored)
      requires msgStoreCount == old(msgStoreCount) + 1
      requires store.refs == old(store.refs)[s.id := 0] && store.dests == old(store.dests)[s.id := []]
      ensures Valid() && s.id !in old(store.refs)
    {
      hide StoreOk, SubsOwned, TreeValid, ClientsValid;
      StoreMore(old(stored), old(msgStoreCount), old(lastDbId), old(store.refs), old(store.dests), old(Lists()),
                subs.tree, s);
      assert Lists() == old(Lists());
      assert TreeValid() by { assert old(TreeValid()); }
      assert ClientsValid() by { assert old(ClientsValid()); }
    }

    // mqtt3_db_store_clean (src/database.c:869-903).
    method StoreClean()
      requires Valid()
      modifies this`stored, this`msgStoreCount, store
      ensures Valid()
      ensures forall s :: s in old(stored) ==>
                (s in stored <==> ListRefs(Lists(), s.id) + ST.RetainedRefs(subs.tree, s.id) > 0)
      ensures stored == Referenced(old(stored), old(store.refs))
      ensures store.refs == Kept(old(store.refs), old(store.refs))
    {
      hide Database.Valid, StoreOk, Referenced, Kept, IdsKnown, ListRefs, ST.RetainedRefs;
      StoreReady();
      label before:
      Sweep();
      StoreSwept@before();
    }

    lemma {:induction false} StoreReady()
      requires Valid()
      ensures IdsKnown(stored, store.refs) && store.dests.Keys == store.refs.Keys && msgStoreCount == |stored|
      ensures forall s :: s in stored ==>
        (s in Referenced(stored, store.refs) <==> ListRefs(Lists(), s.id) + ST.RetainedRefs(subs.tree, s.id) > 0)
    {
      StoreLess(stored, msgStoreCount, lastDbId, store.refs, store.dests, Lists(), subs.tree);
      IdsAllKnown(stored, store.refs, lastDbId);
    }

    // The sweep took away what nothing points to.
    twostate lemma StoreSwept()
      requires old(Valid()) && unchanged(this`contexts) && unchanged(this`lastDbId) && unchanged(subs)
      requires unchanged(subs.Repr) && unchanged(counters)
      requires forall j :: 0 <= j < |contexts| ==> unchanged(contexts[j])
      requires stored == Referenced(old(stored), old(store.refs)) && msgStoreCount == |stored|
      requires store.refs == Kept(old(store.refs), old(store.refs))
      requires store.dests == Kept(old(store.dests), old(store.refs))
      ensures Valid() && Lists() == old(Lists())
    {
      hide StoreOk, Referenced, Kept, SubsOwned, TreeValid;
      StoreLess(old(stored), old(msgStoreCount), lastDbId, old(store.refs), old(store.dests), old(Lists()), subs.tree);
      assert Lists() == old(Lists());
      assert TreeValid() by { assert old(TreeValid()); }
    }

    // A sweep over the first k messages has come to position tail.
    ghost predicate SweepAt(was: seq<Stored>, refs: map<nat, int>, dests: map<nat, seq<string>>, k: nat, tail: nat)
      reads this`stored, this`msgStoreCount, store
    {
      && k <= |was| && msgStoreCount == |stored| && stored == SweptList(was, k, refs) && tail == Seen(was, k, refs)
      && store.refs == KeptAfter(refs, refs, was, k) && store.dests == KeptAfter(dests, refs, was, k)
    }

    // Its loop over the list.
    method Sweep()
      requires IdsKnown(stored, store.refs) && store.dests.Keys == store.refs.Keys && msgStoreCount == |stored|
      modifies this`stored, this`msgStoreCount, store
      ensures stored == Referenced(old(stored), old(store.refs)) && msgStoreCount == |stored|
      ensures store.refs == Kept(old(store.refs), old(store.refs))
      ensures store.dests == Kept(old(store.dests), old(store.refs))
    {
      hide Referenced, KeptAfter, Kept, IdsKnown, SweptList, Seen;
      ghost var was, refs, dests := stored, store.refs, store.dests;
      SweepNothing(was, refs, dests);
      var tail: nat := 0;
      ghost var k := 0;
      assert SweepAt(was, refs, dests, k, tail);
      hide Database.SweepAt;
      while tail < |stored|
        invariant SweepAt(was, refs, dests, k, tail)
        decreases |was| - k
      {
        tail := SweepTurn(tail, was, refs, dests, k);
        k := k + 1;
      }
      SweepDone(tail, was, refs, dests, k);
    }

    lemma {:induction false} SweepDone(tail: nat, was: seq<Stored>, refs: map<nat, int>, dests: map<nat, seq<string>>,
                                       k: nat)
      requires SweepAt(was, refs, dests, k, tail) && |stored| <= tail
      requires IdsKnown(was, refs) && dests.Keys == refs.Keys
      ensures stored == Referenced(was, refs) && msgStoreCount == |stored|
      ensures store.refs == Kept(refs, refs) && store.dests == Kept(dests, refs)
    {
      SweptAll(was, k, refs, dests);
    }

    // One message is looked at, and unlinked if nothing points to it.
    method SweepTurn(tail: nat, ghost was: seq<Stored>, ghost refs: map<nat, int>,
                     ghost dests: map<nat, seq<string>>, ghost k: nat) returns (tail': nat)
      requires SweepAt(was, refs, dests, k, tail) && tail < |stored|
      requires IdsKnown(was, refs) && dests.Keys == refs.Keys
      modifies this`stored, this`msgStoreCount, store
      ensures k < |was| && SweepAt(was, refs, dests, k + 1, tail')
    {
      hide KeptAfter, IdsKnown, Forget, SweptList, Seen, Unlinked;
      SweepMore(was, k, refs);
      SweepLook(was, k, refs);
      tail' := tail;
      if store.refs[stored[tail].id] == 0 {
        SweepGone(was, k, refs, dests);
        Unlink(tail);
      } else {
        SweepPassed(was, k, refs, dests);
        tail' := tail + 1;
      }
    }

    method Unlink(tail: nat)
      requires tail < |stored|
      modifies this`stored, this`msgStoreCount, store
      ensures stored == Unlinked(old(stored), tail) && |stored| == |old(stored)| - 1
      ensures msgStoreCount == old(msgStoreCount) - 1
      ensures store.refs == Forget(old(store.refs), old(stored)[tail].id)
      ensures store.dests == Forget(old(store.dests), old(stored)[tail].id)
    {
      hide Forget;
      store.refs := Forget(store.refs, stored[tail].id);
      store.dests := Forget(store.dests, stored[tail].id);
      stored := stored[..tail] + stored[tail + 1..];
      msgStoreCount := msgStoreCount - 1;
    }

    // ----- Sessions and subscriptions -----

    // A client that connects for the first time (src/read_handle_server.c:82-304 find no entry for its id).
    method AddClient(id: string) returns (c: Context)
      requires Valid() && forall j :: 0 <= j < |contexts| ==> contexts[j].id != id
      modifies this`contexts
      ensures Valid() && contexts == old(contexts) + [c] && fresh(c) && c.id == id && c.msgs == [] && c.sent == []
    {
      hide Count12, ListWellFormed, PlainTopic;
      ghost var lists := Lists();
      ClientListGrows(subs.tree, stored, msgStoreCount, lastDbId, store.refs, store.dests, lists);
      hide StoreOk, TreeValid, SubsOwned;
      c := new Context(id);
      contexts := contexts + [c];
      assert Lists() == lists + [[]];
      OwnedByMore(subs.tree, contexts[..|contexts| - 1], contexts);
    }

    // mqtt3_sub_add (src/subs.c:375-427).
    method Subscribe(i: nat, filter: string, qos: nat)
      requires Valid() && i < |contexts| && qos <= 2 && Subscriptions.FilterTokens(Tokens.Tokens(filter))
      modifies subs.Repr, counters
      ensures Valid() && fresh(subs.Repr - old(subs.Repr))
      ensures subs.tree == Subscriptions.SubAdd(old(subs.tree), Tokens.Tokens(filter), ST.Leaf(contexts[i].id, qos))
    {
      hide Database.Valid, Subscriptions.SubAdd, SH.SubHier.Valid, SH.RetainedKnown, ST.DistinctNames,
        Subscriptions.FilterTokens, ST.CountLeaves, Context.Valid;
      var tokens := Tokens.TopicTokenise(filter);
      TreeReady();
      ghost var op := Subscriptions.Subscribe(tokens, ST.Leaf(contexts[i].id, qos));
      label before:
      subs.RootAdd(counters, tokens, ST.Leaf(contexts[i].id, qos));
      TreeStepped@before(op);
    }

    // mqtt3_retain_queue (src/subs.c:658-685) with _retain_process: queue what the new subscription is offered.
    method QueueRetained(i: nat, o: Offering, filter: string)
      requires Valid() && i < |contexts| && o.subQos <= 2 && o.connected == contexts[i].connected
      requires Subscriptions.FilterTokens(Tokens.Tokens(filter))
      modifies contexts[i], store
      ensures Valid() && store.dests == old(store.dests) && contexts[i].sent == old(contexts[i].sent)
      ensures OffersKnown(RetainSearch.QueueOffers(subs.tree, Tokens.Tokens(filter)), old(stored))
      ensures old(contexts[i].lastMid) <= MAX_MID
      ensures Box(contexts[i], []) ==
        OfferAll(o, old(Box(contexts[i], [])),
                 Named(RetainSearch.QueueOffers(subs.tree, Tokens.Tokens(filter)), old(stored)))
      ensures var offers := Named(RetainSearch.QueueOffers(subs.tree, Tokens.Tokens(filter)), old(stored));
        exists entries :: contexts[i].msgs == old(contexts[i].msgs) + entries
                && RetainedCopies(o, Count12(old(contexts[i].msgs)), offers, entries)
    {
      hide Database.Valid, Context.Valid, RetainSearch.QueueOffers, SH.SubHier.Valid, RefsFollow, Routable, Count12,
        OfferAll, OfferOne, Named, RetainedCopies, WithId, OffersKnown, Ids, SH.RetainedKnown,
        Subscriptions.FilterTokens;
      var tokens := Tokens.TopicTokenise(filter);
      TreeReady();
      OffersReady(tokens);
      ClientReady(i);
      var c := contexts[i];
      var offers := subs.RootRetained(tokens);
      ghost var box, all := Box(c, []), Named(offers, stored);
      var n := 0;
      OfferNothing(o, box, all);
      while n < |offers|
        invariant n <= |offers| && Valid() && c.connected == o.connected && c.sent == old(c.sent)
        invariant store.dests == old(store.dests)
        invariant Box(c, []) == OfferAll(o, box, all[..n]) && store.refs.Keys == Ids(stored)
      {
        OfferKnown(offers, stored, n);
        var s := FindStored(offers[n].id);
        label before:
        ClientReady(i);
        OfferMore(o, box, all, n);
        RetainProcess(c, store, o, s);
        ClientMoved@before(i);
        n := n + 1;
      }
      ghost var entries := EachOfferOnce(o, box, all);
      CopiesOfAll(o, Count12(box.msgs), all, entries);
    }

    // Follow a tree node's pointer to its retained message.
    method FindStored(id: nat) returns (s: Stored)
      requires id in Ids(stored)
      ensures s == WithId(stored, id)
    {
      var k := |stored| - 1;
      assert stored[..k + 1] == stored;
      while stored[k].id != id
        invariant 0 <= k < |stored|
        invariant id in Ids(stored[..k + 1]) && WithId(stored, id) == WithId(stored[..k + 1], id)
        decreases k
      {
        assert stored[..k + 1][..k] == stored[..k];
        StepBack(stored, k, id);
        k := k - 1;
      }
      assert stored[..k + 1][k] == stored[k];
      s := stored[k];
    }

    // mqtt3_sub_remove (src/subs.c:429-457).
    method Unsubscribe(i: nat, filter: string)
      requires Valid() && i < |contexts|
      modifies subs.Repr, counters
      ensures Valid() && fresh(subs.Repr - old(subs.Repr))
      ensures subs.tree == Subscriptions.SubRemove(old(subs.tree), Tokens.Tokens(filter), contexts[i].id)
    {
      hide Database.Valid, Subscriptions.SubRemove, SH.SubHier.Valid, SH.RetainedKnown, ST.DistinctNames,
        Subscriptions.FilterTokens, ST.CountLeaves, Context.Valid;
      var tokens := Tokens.TopicTokenise(filter);
      TreeReady();
      ghost var op := Subscriptions.Unsubscribe(tokens, contexts[i].id);
      label before:
      subs.RootRemove(counters, tokens, contexts[i].id);
      TreeStepped@before(op);
    }

    // What mqtt3_context_cleanup does for a clean session (src/context.c:142-145).
    method CleanSession(i: nat)
      requires Valid() && i < |contexts|
      modifies subs.Repr, counters, contexts[i], store`refs
      ensures Valid() && fresh(subs.Repr - old(subs.Repr)) && contexts[i].msgs == []
      ensures contexts[i].sent == old(contexts[i].sent)
      ensures subs.tree == Subscriptions.SubClean(old(subs.tree), contexts[i].id)
    {
      hide Database.Valid, Subscriptions.SubClean, SH.SubHier.Valid, Context.Valid, RefsFollow, SH.RetainedKnown,
        ST.CountLeaves, ST.CountClientFirst, PlainTopic;
      TreeReady();
      ghost var op := Subscriptions.CleanSession(contexts[i].id);
      CleanLeaves(subs.tree, contexts[i].id);
      label before:
      subs.RootClean(counters, contexts[i].id);
      TreeStepped@before(op);
      ClientReady(i);
      label cleaned:
      contexts[i].DeleteAll(store);
      assert Routable([]);
      ClientMoved@cleaned(i);
    }

    // A known client is back (src/read_handle_server.c:388-428): its session is dropped if it
    // asks for a clean one, and its list is made ready for sending again.
    method Reconnect(i: nat, lim: Limits, clean: bool)
      requires Valid() && i < |contexts|
      modifies subs.Repr, counters, contexts[i], store`refs
      ensures Valid() && fresh(subs.Repr - old(subs.Repr)) && contexts[i].connected
      ensures contexts[i].sent == old(contexts[i].sent)
      ensures var was := if clean then [] else old(contexts[i].msgs);
        contexts[i].msgs == ResetList(was, lim.maxInflight) && ListTakenUp(was, contexts[i].msgs, lim.maxInflight)
      ensures subs.tree == if clean then Subscriptions.SubClean(old(subs.tree), contexts[i].id) else old(subs.tree)
    {
      hide Database.Valid, Subscriptions.SubClean, Context.Valid, RefsFollow, ResetList, ListTakenUp, Routable;
      if clean {
        CleanSession(i);
      }
      ClientReady(i);
      label before:
      var c := contexts[i];
      ghost var msgs := c.msgs;
      RefsFollowRefl(store.refs, c.msgs);
      c.Connected(store, lim);
      ResetRoutable(msgs, lim.maxInflight);
      ClientMoved@before(i);
    }

    /**
     mqtt3_context_disconnect (src/context.c:196-215): the will is stored and given to its
     recipients unless the client said goodbye, and then the connection is closed.
     */
    method Disconnect(i: nat, cfg: Config, lim: Limits, upgrade: bool, will: Option<Will>, tag: nat, now: int)
      requires Valid() && i < |contexts| && (will.Some? ==> WillOk(will.value))
      modifies this`stored, this`msgStoreCount, this`lastDbId, subs.Repr, counters, store, contexts
      ensures Valid() && fresh(subs.Repr - old(subs.Repr)) && contexts == old(contexts)
      ensures Parted(i, cfg, lim, upgrade, will, tag, now)
    {
      hide Database.Valid, ServedTo, RetainsFor, Context.Valid, DeliverAll, Subscriptions.Recipients,
        Subscriptions.Retain, Tokens.Tokens, MidsInRange, PlainTopic;
      if will.Some? {
        MessagesEasyQueue(i, cfg, lim, upgrade, will.value, tag, now);
      }
      Close(i);
    }

    method Close(i: nat)
      requires Valid() && i < |contexts|
      modifies contexts[i]
      ensures Valid() && !contexts[i].connected && contexts[i].msgs == old(contexts[i].msgs)
      ensures contexts[i].sent == old(contexts[i].sent)
      ensures forall j :: 0 <= j < |contexts| && j != i ==> contexts[j] != contexts[i]
    {
      hide Database.Valid, Context.Valid, Routable, RefsFollow;
      ClientReady(i);
      label before:
      RefsFollowRefl(store.refs, contexts[i].msgs);
      contexts[i].Disconnect();
      ClientMoved@before(i);
    }

    // mqtt3_db_messages_easy_queue (src/database.c:440-457) for a message of client i.
    method MessagesEasyQueue(i: nat, cfg: Config, lim: Limits, upgrade: bool, w: Will, tag: nat, now: int)
      requires Valid() && i < |contexts| && WillOk(w)
      modifies this`stored, this`msgStoreCount, this`lastDbId, subs.Repr, counters, store, contexts
      ensures Valid() && fresh(subs.Repr - old(subs.Repr)) && contexts == old(contexts)
      ensures forall j :: 0 <= j < |contexts| ==> contexts[j].connected == old(contexts[j].connected)
      ensures WillGiven(i, cfg, lim, upgrade, w, tag, now)
      ensures PlainTopic(w.topic) ==> WillPublished(i, cfg, lim, upgrade, w, tag, now)
    {
      hide Database.Valid, Context.Valid, Database.WillPublished, DeliverAll, Subscriptions.Recipients,
        Subscriptions.Retain, Tokens.Tokens, MidsInRange, PlainTopic, Database.Clients;
      ghost var d, hits := Delivery(cfg, lim, upgrade, w.qos, WillStored(lastDbId + 1, contexts[i].id, w, tag), now),
        Subscriptions.Recipients(subs.tree, Tokens.Tokens(w.topic));
      ghost var before := ClientsOf(contexts, []);
      EasyQueue(i, cfg, lim, upgrade, w, tag, now);
      ClientsAre(d.stored.id, DeliverAll(d, before, hits));
      ConnectedWere(d.stored.id, before);
      if PlainTopic(w.topic) { WillPublishes(i, cfg, lim, upgrade, w, tag, now); }
    }

    // Storing it and handing it on.
    method EasyQueue(i: nat, cfg: Config, lim: Limits, upgrade: bool, w: Will, tag: nat, now: int)
      requires Valid() && i < |contexts| && WillOk(w)
      modifies this`stored, this`msgStoreCount, this`lastDbId, subs.Repr, counters, store, contexts
      ensures Valid() && fresh(subs.Repr - old(subs.Repr)) && contexts == old(contexts)
      ensures var s := WillStored(old(lastDbId) + 1, old(contexts[i].id), w, tag);
        && stored == [s] + old(stored) && s.id in store.dests && MidsInRange(old(ClientsOf(contexts, [])))
        && subs.tree == (if w.retain then Subscriptions.Retain(old(subs.tree), Tokens.Tokens(w.topic), Keeps(s))
                         else old(subs.tree))
        && Clients(s.id) == DeliverAll(Delivery(cfg, lim, upgrade, w.qos, s, now), old(ClientsOf(contexts, [])),
                                       Subscriptions.Recipients(old(subs.tree), Tokens.Tokens(w.topic)))
    {
      hide Database.Valid, Context.Valid, DeliverAll, Subscriptions.Recipients,
        Subscriptions.Retain, Tokens.Tokens, MidsInRange, PlainTopic, Database.Clients;
      var s := StoreMessage(contexts[i].id, 0, Some(w.topic), w.qos, w.retain, w.payload, tag);
      ClientsKept(s.id, []);
      MidsReady();
      MessagesQueue(Delivery(cfg, lim, upgrade, w.qos, s, now), true, w.topic, w.retain);
    }

    lemma {:induction false} ClientsAre(id: nat, r: seq<Client>)
      requires id in store.dests && Clients(id) == r
      ensures |r| == |contexts| && forall j :: 0 <= j < |contexts| ==>
        contexts[j].msgs == r[j].box.msgs && contexts[j].sent == r[j].sent && contexts[j].connected == r[j].connected
    {
    }

    twostate lemma ConnectedWere(new id: nat, before: seq<Client>)
      requires before == old(ClientsOf(contexts, []))
      ensures forall j :: 0 <= j < |before| ==> before[j].connected == old(contexts[j].connected)
    {
    }

    // The will is the newest stored message, and every list and its packets are as its delivery leaves them.
    twostate predicate WillGiven(i: nat, cfg: Config, lim: Limits, upgrade: bool, w: Will, tag: nat, now: int)
      requires i < |old(contexts)|
      reads this, subs, contexts
    {
      var s := WillStored(old(lastDbId) + 1, old(contexts[i].id), w, tag);
      var before := old(ClientsOf(contexts, []));
      && stored == [s] + old(stored) && MidsInRange(before)
      && subs.tree == (if w.retain then Subscriptions.Retain(old(subs.tree), Tokens.Tokens(w.topic), Keeps(s))
                       else old(subs.tree))
      && var r := DeliverAll(Delivery(cfg, lim, upgrade, w.qos, s, now), before,
                             Subscriptions.Recipients(old(subs.tree), Tokens.Tokens(w.topic)));
      && |r| == |contexts|
      && forall j :: 0 <= j < |contexts| ==> contexts[j].msgs == r[j].box.msgs && contexts[j].sent == r[j].sent
    }

    // ----- What a publication does to the lists and to the tree -----

    // The clients as they were, for a message that has been given to `dests`.
    twostate predicate Published(new d: Delivery, new dests: seq<string>, new topic: string, retain: bool)
      requires contexts == old(contexts)
      reads this, subs, contexts
    {
      && (forall j :: 0 <= j < |contexts| ==>
            ServedTo(d, old(subs.tree), Tokens.Tokens(topic), old(ClientsOf(contexts, dests))[j], contexts[j].msgs))
      && RetainsFor(old(subs.tree), subs.tree, Tokens.Tokens(topic), retain, d.stored)
    }

    twostate lemma DeliveryPublishes(new d: Delivery, new dests: seq<string>, new topic: string, new retain: bool)
      requires contexts == old(contexts) && PlainTopic(topic) && Subscriptions.RootWellFormed(old(subs.tree))
      requires MidsInRange(old(ClientsOf(contexts, dests)))
      requires var r := DeliverAll(d, old(ClientsOf(contexts, dests)),
                                   Subscriptions.Recipients(old(subs.tree), Tokens.Tokens(topic)));
        forall j :: 0 <= j < |contexts| ==> contexts[j].msgs == r[j].box.msgs
      requires subs.tree == if retain then Subscriptions.Retain(old(subs.tree), Tokens.Tokens(topic), Keeps(d.stored))
                            else old(subs.tree)
      ensures Published(d, dests, topic, retain)
    {
      hide ServedTo, RetainsFor, DeliverAll, Subscriptions.Recipients, Subscriptions.Retain, PlainTopic,
        Subscriptions.RootWellFormed, MidsInRange;
      AllServed(d, old(subs.tree), topic, old(ClientsOf(contexts, dests)));
      FiledRetains(old(subs.tree), topic, retain, d.stored);
    }

    /**
     The message that waited for this PUBREL has been published: every client has been served, the
     list of client i has then been looked over for the release, and the tree retains what it should.
     A message without a topic was refused, and goes nowhere.
     */
    twostate predicate HeldPublished(i: nat, cfg: Config, lim: Limits, upgrade: bool, mid: nat, now: int)
      requires contexts == old(contexts) && i < |contexts|
      reads this, subs, contexts
    {
      var was := old(contexts[i].msgs);
      var at := IndexOf(was, mid, In, 0);
      at < |was| && was[at].store.id in old(store.dests) &&
      var s, before := was[at].store, old(ClientsOf(contexts, store.dests[was[at].store.id]));
      var d := Delivery(cfg, lim, upgrade, s.qos, s, now);
      match s.topic
      case None =>
        && subs.tree == old(subs.tree) && contexts[i].msgs == ReleasedList(was, mid, lim.maxInflight, now)
        && forall j :: 0 <= j < |contexts| && j != i ==> contexts[j].msgs == old(contexts[j].msgs)
      case Some(topic) =>
        && (forall j :: 0 <= j < |contexts| && j != i ==>
              ServedTo(d, old(subs.tree), Tokens.Tokens(topic), before[j], contexts[j].msgs))
        && (exists mine :: ServedTo(d, old(subs.tree), Tokens.Tokens(topic), before[i], mine)
                           && contexts[i].msgs == ReleasedList(mine, mid, lim.maxInflight, now))
        && RetainsFor(old(subs.tree), subs.tree, Tokens.Tokens(topic), was[at].retain, s)
    }

    twostate lemma ReleasePublishes(i: nat, new cfg: Config, new lim: Limits, new upgrade: bool, new mid: nat,
                                    new now: int)
      requires old(Valid()) && contexts == old(contexts) && i < |contexts|
      requires IndexOf(old(contexts[i].msgs), mid, In, 0) < |old(contexts[i].msgs)|
      requires Releases(i, cfg, lim, upgrade, mid, now)
      ensures HeldPublished(i, cfg, lim, upgrade, mid, now)
    {
      hide DeliverAll, Subscriptions.Recipients, Subscriptions.Retain, Subscriptions.RootWellFormed, ServedTo,
        RetainsFor, ReleasedList, Pubrecs, PlainTopic, MidsInRange, StoreOk, SubsOwned, Context.Valid, SH.SubHier.Valid;
      var was := old(contexts[i].msgs);
      var at := IndexOf(was, mid, In, 0);
      var s, before := was[at].store, old(ClientsOf(contexts, store.dests[was[at].store.id]));
      var d := Delivery(cfg, lim, upgrade, s.qos, s, now);
      var r := DeliverAll(d, before, Finds(old(subs.tree), s));
      ClientsAre(s.id, Moved(r, i, contexts[i].msgs, contexts[i].sent));
      assert Routable(was);
      match s.topic {
        case None => DeliverNone(d, before, []);
        case Some(topic) =>
          AllServed(d, old(subs.tree), topic, before);
          FiledRetains(old(subs.tree), topic, was[at].retain, s);
          assert ServedTo(d, old(subs.tree), Tokens.Tokens(topic), before[i], r[i].box.msgs);
      }
    }

    // A QoS 0 or 1 publication: the message that it brings, or stands for, has been published.
    twostate predicate PublishedAtOnce(i: nat, cfg: Config, lim: Limits, upgrade: bool, mid: nat, topic: string,
                                       qos: nat, retain: bool, now: int, new s: Stored)
      requires contexts == old(contexts) && i < |contexts|
      reads this, subs, contexts
    {
      && (Known(i, mid, qos) ==> s.id in old(store.dests))
      && Published(Delivery(cfg, lim, upgrade, qos, s, now),
                   if Known(i, mid, qos) then old(store.dests[s.id]) else [], topic, retain)
    }

    twostate lemma GivenPublishes(i: nat, new cfg: Config, new lim: Limits, new upgrade: bool, new mid: nat,
                                  new topic: string, new qos: nat, new retain: bool, new now: int, new s: Stored)
      requires old(Valid()) && contexts == old(contexts) && i < |contexts| && PlainTopic(topic)
      requires GivenOnce(i, cfg, lim, upgrade, mid, topic, qos, retain, now, s)
      ensures PublishedAtOnce(i, cfg, lim, upgrade, mid, topic, qos, retain, now, s)
    {
      hide DeliverAll, Subscriptions.Recipients, Subscriptions.Retain, Subscriptions.RootWellFormed, MidsInRange,
        PlainTopic, StoreOk, SubsOwned, Database.ClientsValid, SH.SubHier.Valid, Database.Published;
      var dests := if Known(i, mid, qos) then old(store.dests[s.id]) else [];
      var d := Delivery(cfg, lim, upgrade, qos, s, now);
      var r := DeliverAll(d, old(ClientsOf(contexts, dests)),
                          Subscriptions.Recipients(old(subs.tree), Tokens.Tokens(topic)));
      ClientsAre(s.id, Moved(r, i, r[i].box.msgs, r[i].sent + if qos == 1 then [SentPuback(mid)] else []));
      DeliveryPublishes(d, dests, topic, retain);
    }

    // The connection is closed, and nothing else has happened, or the will has been published.
    twostate predicate Parted(i: nat, cfg: Config, lim: Limits, upgrade: bool, will: Option<Will>, tag: nat, now: int)
      requires i < |old(contexts)|
      reads this, subs, contexts
    {
      && contexts == old(contexts)
      && (forall j :: 0 <= j < |contexts| ==> contexts[j].connected == (j != i && old(contexts[j].connected)))
      && match will
         case None =>
           && subs.tree == old(subs.tree) && stored == old(stored)
           && forall j :: 0 <= j < |contexts| ==>
                contexts[j].msgs == old(contexts[j].msgs) && contexts[j].sent == old(contexts[j].sent)
         case Some(w) =>
           && WillGiven(i, cfg, lim, upgrade, w, tag, now)
           && (PlainTopic(w.topic) ==> WillPublished(i, cfg, lim, upgrade, w, tag, now))
    }

    // The will has been published.
    twostate predicate WillPublished(i: nat, cfg: Config, lim: Limits, upgrade: bool, w: Will, tag: nat, now: int)
      requires i < |old(contexts)|
      reads this, subs, contexts
    {
      var s := WillStored(old(lastDbId) + 1, old(contexts[i].id), w, tag);
      contexts == old(contexts) && Published(Delivery(cfg, lim, upgrade, w.qos, s, now), [], w.topic, w.retain)
    }

    twostate lemma WillPublishes(i: nat, new cfg: Config, new lim: Limits, new upgrade: bool, new w: Will, new tag: nat,
                                 new now: int)
      requires old(Valid()) && contexts == old(contexts) && i < |contexts| && PlainTopic(w.topic)
      requires WillGiven(i, cfg, lim, upgrade, w, tag, now)
      ensures WillPublished(i, cfg, lim, upgrade, w, tag, now)
    {
      hide DeliverAll, Subscriptions.Recipients, Subscriptions.Retain, Subscriptions.RootWellFormed, MidsInRange,
        PlainTopic, StoreOk, SubsOwned, Database.ClientsValid, SH.SubHier.Valid, Database.Published;
      var stored_ := WillStored(old(lastDbId) + 1, old(contexts[i].id), w, tag);
      DeliveryPublishes(Delivery(cfg, lim, upgrade, w.qos, stored_, now), [], w.topic, w.retain);
    }

    // ----- Receiving a publication -----

    /**
     mqtt3_handle_publish (src/read_handle.c:88-295) from the check of the topic on. A QoS 2
     publication waits in the list for its PUBREL; the others are given out at once. One that is too
     large or that the access check denies is acknowledged and goes nowhere.
     */
    method HandlePublish(i: nat, cfg: Config, lim: Limits, upgrade: bool, sizeLimit: nat, access: Access, mid: nat,
                         topic: string, qos: nat, retain: bool, payload: seq<bv8>, tag: nat, now: int)
      returns (rc: nat, s: Option<Stored>)
      requires Valid() && i < |contexts|
      modifies this`stored, this`msgStoreCount, this`lastDbId, subs.Repr, counters, store, contexts
      ensures Valid() && fresh(subs.Repr - old(subs.Repr)) && contexts == old(contexts)
      ensures Receive(topic, qos, payload, sizeLimit, access).Fail? ==>
                rc == Receive(topic, qos, payload, sizeLimit, access).rc && s == None && Untouched()
      ensures Receive(topic, qos, payload, sizeLimit, access).Swallow? ==>
                Swallowed(i, cfg, lim, mid, qos, tag, now, s, rc)
      ensures Receive(topic, qos, payload, sizeLimit, access).Accept? ==>
        && rc == 0 && s.Some? && Arrived(i, mid, Some(topic), qos, retain, payload, tag, s.value)
        && (qos == 2 ==> HeldOnce(i, cfg, lim, mid, retain, now, s.value))
        && (qos < 2 ==> GivenOnce(i, cfg, lim, upgrade, mid, topic, qos, retain, now, s.value)
                        && PublishedAtOnce(i, cfg, lim, upgrade, mid, topic, qos, retain, now, s.value))
    {
      hide Database.Valid, Database.Arrived, Database.HeldOnce, Database.GivenOnce, PlainTopic, WildcardFree,
        Database.Swallowed, Database.PublishedAtOnce;
      s := None;
      if qos > 2 || topic == [] || !PassesLenCheck(topic) {
        return 1, None;
      }
      assert PlainTopic(topic) by { WildcardFreePlain(topic); }
      if (payload != [] && sizeLimit > 0 && |payload| > sizeLimit) || access == Denied {
        rc, s := ProcessBadMessage(i, cfg, lim, mid, qos, tag, now);
      } else if access.Failed? {
        rc := access.rc;
      } else {
        var stored_ := AcceptPublish(i, cfg, lim, upgrade, mid, topic, qos, retain, payload, tag, now);
        rc, s := 0, Some(stored_);
        if qos < 2 { GivenPublishes(i, cfg, lim, upgrade, mid, topic, qos, retain, now, stored_); }
      }
    }

    // From the duplicate check on, for a topic that has been checked.
    method AcceptPublish(i: nat, cfg: Config, lim: Limits, upgrade: bool, mid: nat, topic: string, qos: nat,
                         retain: bool, payload: seq<bv8>, tag: nat, now: int) returns (s: Stored)
      requires Valid() && i < |contexts| && qos <= 2 && PlainTopic(topic)
      modifies this`stored, this`msgStoreCount, this`lastDbId, subs.Repr, counters, store, contexts
      ensures Valid() && fresh(subs.Repr - old(subs.Repr)) && contexts == old(contexts)
      ensures Arrived(i, mid, Some(topic), qos, retain, payload, tag, s)
      ensures qos == 2 ==> HeldOnce(i, cfg, lim, mid, retain, now, s)
      ensures qos < 2 ==> GivenOnce(i, cfg, lim, upgrade, mid, topic, qos, retain, now, s)
    {
      hide Database.Valid, Database.Arrived, Database.Known, Database.HeldOnce, Database.GivenOnce, PlainTopic;
      if qos == 2 {
        var res;
        res, s := HoldQos2(i, cfg, lim, mid, Some(topic), retain, payload, tag, now);
      } else {
        s := PublishAtOnce(i, cfg, lim, upgrade, mid, topic, qos, retain, payload, tag, now);
      }
    }

    // Under process_bad_message: a QoS 2 publication is stored without a topic, for its PUBREL.
    method ProcessBadMessage(i: nat, cfg: Config, lim: Limits, mid: nat, qos: nat, tag: nat, now: int)
      returns (rc: nat, s: Option<Stored>)
      requires Valid() && i < |contexts| && qos <= 2
      modifies this`stored, this`msgStoreCount, this`lastDbId, store, contexts[i]
      ensures Valid() && contexts == old(contexts) && Swallowed(i, cfg, lim, mid, qos, tag, now, s, rc)
    {
      hide Database.Valid, Database.Arrived, Database.Known, Database.HeldOnce;
      match qos
      case 0 =>
        rc, s := 0, None;
      case 1 =>
        AckQos1Refused(i, mid);
        rc, s := 0, None;
      case _ =>
        var held;
        rc, held := HoldQos2(i, cfg, lim, mid, None, false, [], tag, now);
        s := Some(held);
    }

    method AckQos1Refused(i: nat, mid: nat)
      requires Valid() && i < |contexts|
      modifies contexts[i]
      ensures Valid() && contexts[i].sent == old(contexts[i].sent) + [SentPuback(mid)]
      ensures contexts[i].msgs == old(contexts[i].msgs) && contexts[i].connected == old(contexts[i].connected)
      ensures forall j :: 0 <= j < |contexts| && j != i ==> unchanged(contexts[j])
    {
      hide Database.Valid, Context.Valid, RefsFollow, Routable;
      ClientReady(i);
      label before:
      RefsFollowRefl(store.refs, contexts[i].msgs);
      contexts[i].SendAck(SentPuback(mid));
      ClientMoved@before(i);
    }

    twostate predicate Untouched()
      reads this, subs, store, contexts
    {
      unchanged(this) && unchanged(store) && subs.tree == old(subs.tree)
      && forall j :: 0 <= j < |contexts| ==> unchanged(contexts[j])
    }

    // A refused publication has been acknowledged as its QoS asks. Nothing has been given out.
    twostate predicate Swallowed(i: nat, cfg: Config, lim: Limits, mid: nat, qos: nat, tag: nat, now: int,
                                 new s: Option<Stored>, rc: nat)
      requires contexts == old(contexts) && i < |contexts|
      reads this, subs, store, contexts
    {
      if qos == 2 then
        && s.Some? && Arrived(i, mid, None, 2, false, [], tag, s.value)
        && HeldOnce(i, cfg, lim, mid, false, now, s.value)
        && rc == if Known(i, mid, 2) then 0
                 else Admit(lim, old(contexts[i].connected), cfg.queueQos0, Count12(old(contexts[i].msgs)), In, 2).rc
      else
        && s == None && rc == 0 && unchanged(this) && unchanged(store) && subs.tree == old(subs.tree)
        && contexts[i].msgs == old(contexts[i].msgs) && contexts[i].connected == old(contexts[i].connected)
        && contexts[i].sent == old(contexts[i].sent) + (if qos == 1 then [SentPuback(mid)] else [])
        && forall j :: 0 <= j < |contexts| && j != i ==> unchanged(contexts[j])
    }

    // The QoS 2 publication is in the list, where it may have been before, and acknowledged unless
    // the list had no place for it in the window; nothing else has changed.
    twostate predicate HeldOnce(i: nat, cfg: Config, lim: Limits, mid: nat, retain: bool, now: int, s: Stored)
      requires contexts == old(contexts) && i < |contexts|
      reads this, subs, contexts
    {
      var c, msgs, sent := contexts[i], old(contexts[i].msgs), old(contexts[i].sent);
      var v := Admit(lim, c.connected, cfg.queueQos0, Count12(msgs), In, 2);
      && (if Known(i, mid, 2) then c.msgs == msgs && c.sent == sent + [SentPubrec(mid)]
          else
            && c.msgs == InsertedList(msgs, v, NewEntry(old(contexts[i].nextNode), s, mid, 2, retain, now, In, Invalid))
            && c.sent == sent + if v.rc == 0 then [SentPubrec(mid)] else [])
      && subs.tree == old(subs.tree) && c.connected == old(contexts[i].connected)
      && forall j :: 0 <= j < |contexts| && j != i ==> unchanged(contexts[j])
    }

    // The QoS 0 or 1 publication has been filed and given to its recipients, and acknowledged.
    twostate predicate GivenOnce(i: nat, cfg: Config, lim: Limits, upgrade: bool, mid: nat, topic: string, qos: nat,
                                 retain: bool, now: int, s: Stored)
      requires i < |old(contexts)|
      reads this, subs, contexts, store
    {
      && s.id in store.dests && (Known(i, mid, qos) ==> s.id in old(store.dests))
      && subs.tree == (if retain then Subscriptions.Retain(old(subs.tree), Tokens.Tokens(topic), Keeps(s))
                       else old(subs.tree))
      && var before := if Known(i, mid, qos) then old(ClientsOf(contexts, store.dests[s.id]))
                       else old(ClientsOf(contexts, []));
      && MidsInRange(before)
      && var r := DeliverAll(Delivery(cfg, lim, upgrade, qos, s, now), before,
                             Subscriptions.Recipients(old(subs.tree), Tokens.Tokens(topic)));
      && i < |r| && Clients(s.id) == Moved(r, i, r[i].box.msgs, r[i].sent + if qos == 1 then [SentPuback(mid)] else [])
    }

    method HoldQos2(i: nat, cfg: Config, lim: Limits, mid: nat, topic: Option<string>, retain: bool,
                    payload: seq<bv8>, tag: nat, now: int) returns (res: nat, s: Stored)
      requires Valid() && i < |contexts| && (topic.Some? ==> PlainTopic(topic.value))
      modifies this`stored, this`msgStoreCount, this`lastDbId, contexts[i], store
      ensures Valid() && contexts == old(contexts)
      ensures Arrived(i, mid, topic, 2, retain, payload, tag, s) && HeldOnce(i, cfg, lim, mid, retain, now, s)
      ensures res == if Known(i, mid, 2) then 0
        else Admit(lim, old(contexts[i].connected), cfg.queueQos0, Count12(old(contexts[i].msgs)), In, 2).rc
      ensures res != 1
    {
      hide Database.Valid, PlainTopic, Context.Valid, Routable, Database.Arrived, Database.Known, Count12;
      ClientReady(i);
      var dup;
      s, dup := FindOrStore(i, mid, topic, 2, retain, payload, tag);
      res := ReceiveQos2(i, cfg, lim, mid, retain, s, dup, now);
    }

    method PublishAtOnce(i: nat, cfg: Config, lim: Limits, upgrade: bool, mid: nat, topic: string, qos: nat,
                         retain: bool, payload: seq<bv8>, tag: nat, now: int) returns (s: Stored)
      requires Valid() && i < |contexts| && qos < 2 && PlainTopic(topic)
      modifies this`stored, this`msgStoreCount, this`lastDbId, subs.Repr, counters, store, contexts
      ensures Valid() && fresh(subs.Repr - old(subs.Repr)) && contexts == old(contexts)
      ensures Arrived(i, mid, Some(topic), qos, retain, payload, tag, s)
      ensures GivenOnce(i, cfg, lim, upgrade, mid, topic, qos, retain, now, s)
    {
      hide Database.Valid, DeliverAll, Subscriptions.Recipients, Subscriptions.Retain, Tokens.Tokens, Moved,
        MidsInRange, PlainTopic, Context.Valid, Routable, Database.Arrived, Database.Known, Database.Clients;
      var dup;
      s, dup := FindOrStore(i, mid, Some(topic), qos, retain, payload, tag);
      ClientsKept(s.id, store.dests[s.id]);
      GiveAtOnce(i, Delivery(cfg, lim, upgrade, qos, s, now), mid, topic, retain);
    }

    twostate lemma ClientsKept(new id: nat, new dests: seq<string>)
      requires unchanged(this`contexts) && forall j :: 0 <= j < |contexts| ==> unchanged(contexts[j])
      requires id in store.dests && dests == store.dests[id]
      ensures Clients(id) == old(ClientsOf(contexts, dests))
    {
    }

    // The duplicate check: QoS 1 and 2 look for an inbound message with this id, whatever their own QoS.
    method FindOrStore(i: nat, mid: nat, topic: Option<string>, qos: nat, retain: bool, payload: seq<bv8>,
                       tag: nat) returns (s: Stored, dup: bool)
      requires Valid() && i < |contexts|
      modifies this`stored, this`msgStoreCount, this`lastDbId, store
      ensures Valid() && dup == Known(i, mid, qos) && Arrived(i, mid, topic, qos, retain, payload, tag, s)
      ensures s.id in store.dests && s.id in store.refs && store.refs.Keys == store.dests.Keys
      ensures !dup ==> s.sourceMid == mid && s.qos == qos && s.topic == topic
      ensures !dup && qos > 0 ==> IndexOf(contexts[i].msgs, mid, In, 0) == |contexts[i].msgs|
      ensures if dup then s.id in old(store.dests) && store.dests == old(store.dests)
        else s.id !in old(store.dests) && store.dests == old(store.dests)[s.id := []]
    {
      hide Database.Valid, Context.Valid, Routable;
      ClientReady(i);
      MidsReady();
      var found := None;
      if qos > 0 {
        found := contexts[i].StoreFind(mid);
        FoundInbound(contexts[i], mid, found);
        FoundKnown(i, mid);
      }
      dup := found.Some?;
      if found.None? {
        s := StoreMessage(contexts[i].id, mid, topic, qos, retain, payload, tag);
      } else {
        s := found.value;
      }
    }

    lemma {:induction false} FoundKnown(i: nat, mid: nat)
      requires Valid() && i < |contexts|
      ensures var at := IndexOf(contexts[i].msgs, mid, In, 0);
        at < |contexts[i].msgs| ==> contexts[i].msgs[at].store.id in store.refs
    {
      ClientReady(i);
    }

    // A QoS 2 publication: it is put into the list unless it is there, and acknowledged unless it
    // was dropped or has to wait.
    method ReceiveQos2(i: nat, cfg: Config, lim: Limits, mid: nat, retain: bool, s: Stored, dup: bool,
                       now: int) returns (res: nat)
      requires Valid() && i < |contexts| && s.id in store.refs && s.id in store.dests
      requires !dup ==> s.sourceMid == mid && s.qos <= 2 && (s.topic.Some? ==> PlainTopic(s.topic.value))
      requires !dup ==> IndexOf(contexts[i].msgs, mid, In, 0) == |contexts[i].msgs|
      modifies contexts[i], store
      ensures Valid() && contexts[i].connected == old(contexts[i].connected)
      ensures var v := if dup then Refused(0) else Admit(lim, contexts[i].connected, cfg.queueQos0,
                                                         Count12(old(contexts[i].msgs)), In, 2);
        && res == v.rc
        && contexts[i].msgs == InsertedList(old(contexts[i].msgs), v,
                                            NewEntry(old(contexts[i].nextNode), s, mid, 2, retain, now, In, Invalid))
        && contexts[i].sent == old(contexts[i].sent) + if v.rc == 0 then [SentPubrec(mid)] else []
    {
      hide Database.Valid, Context.Valid, RefsFollow, Routable, PlainTopic, Count12, Admit;
      ClientReady(i);
      label before:
      var c := contexts[i];
      res := 0;
      RefsFollowRefl(store.refs, c.msgs);
      if !dup {
        CountReady(c);
        res := c.Insert(store, cfg, lim, mid, In, 2, retain, s, now);
        AppendRoutable(old(c.msgs), c.msgs, s);
      }
      if res == 0 {
        c.SendAck(SentPubrec(mid));
      }
      ClientMoved@before(i);
    }

    lemma {:induction false} CountReady(c: Context)
      requires c.Valid()
      ensures c.msgCount12 == Count12(c.msgs)
    {
    }

    // A QoS 0 or 1 publication.
    method GiveAtOnce(i: nat, d: Delivery, mid: nat, topic: string, retain: bool)
      requires Valid() && i < |contexts| && d.stored.id in store.refs && d.stored.id in store.dests && d.qos < 2
      requires PlainTopic(topic)
      modifies subs.Repr, counters, store, contexts
      ensures Valid() && fresh(subs.Repr - old(subs.Repr)) && d.stored.id in store.dests
      ensures subs.tree == if retain then Subscriptions.Retain(old(subs.tree), Tokens.Tokens(topic), Keeps(d.stored))
                           else old(subs.tree)
      ensures MidsInRange(old(Clients(d.stored.id))) &&
        var r := DeliverAll(d, old(Clients(d.stored.id)),
                            Subscriptions.Recipients(old(subs.tree), Tokens.Tokens(topic)));
        Clients(d.stored.id) == Moved(r, i, r[i].box.msgs, r[i].sent + if d.qos == 1 then [SentPuback(mid)] else [])
    {
      hide Database.Valid, DeliverAll, Subscriptions.Recipients, Subscriptions.Retain, Tokens.Tokens, Moved,
        MidsInRange, PlainTopic, Context.Valid;
      ghost var before, hits := Clients(d.stored.id), Subscriptions.Recipients(subs.tree, Tokens.Tokens(topic));
      MidsReady();
      MessagesQueue(d, true, topic, retain);
      ghost var r := DeliverAll(d, before, hits);
      assert contexts[i].msgs == r[i].box.msgs && contexts[i].sent == r[i].sent;
      AckQos1(i, mid, d.qos, d.stored.id);
    }

    // A QoS 1 publication is acknowledged when it has been given out.
    method AckQos1(i: nat, mid: nat, qos: nat, id: nat)
      requires Valid() && i < |contexts| && id in store.dests
      modifies contexts[i]
      ensures Valid() && Clients(id) == Moved(old(Clients(id)), i, contexts[i].msgs, contexts[i].sent)
      ensures contexts[i].msgs == old(contexts[i].msgs)
      ensures contexts[i].sent == old(contexts[i].sent) + if qos == 1 then [SentPuback(mid)] else []
    {
      hide Database.Valid, Context.Valid, RefsFollow, Routable, Database.Clients, Database.Tracks, Moved;
      ClientReady(i);
      ReleaseReady(i, mid);
      TrackedNow(i, id);
      label before:
      RefsFollowRefl(store.refs, contexts[i].msgs);
      if qos == 1 {
        contexts[i].SendAck(SentPuback(mid));
        ClientMoved@before(i);
        QueueMoved@before(i, map[id := old(Clients(id))]);
        TrackedAt(i, map[id := old(Clients(id))], id);
      }
    }

    lemma {:induction false} TrackedNow(i: nat, id: nat)
      requires Valid() && i < |contexts| && id in store.dests
      ensures Clients(id) == Moved(Clients(id), i, contexts[i].msgs, contexts[i].sent)
      ensures Tracks(i, map[id := Clients(id)])
    {
    }

    // A publication with this id waits for its PUBREL.
    twostate predicate Known(i: nat, mid: nat, qos: nat)
      requires i < |old(contexts)|
    {
      qos > 0 && IndexOf(old(contexts[i].msgs), mid, In, 0) < |old(contexts[i].msgs)|
    }

    // The stored message is that of the waiting publication, or a new one.
    twostate predicate Arrived(i: nat, mid: nat, topic: Option<string>, qos: nat, retain: bool, payload: seq<bv8>,
                               tag: nat, s: Stored)
      requires i < |old(contexts)|
      reads this
    {
      if Known(i, mid, qos) then
        && s == old(contexts[i].msgs)[IndexOf(old(contexts[i].msgs), mid, In, 0)].store
        && stored == old(stored)
      else
        && s == Stored(old(lastDbId) + 1, tag, old(contexts[i].id), mid, topic, qos, retain, payload)
        && stored == [s] + old(stored)
    }

    // ----- Work on one client's list -----

    // PUBACK and PUBCOMP (lib/read_handle_shared.c:80-116, WITH_BROKER).
    method HandlePubackcomp(i: nat, lim: Limits, mid: nat, now: int)
      requires Valid() && i < |contexts|
      modifies contexts[i], store`refs
      ensures Valid() && contexts[i].sent == old(contexts[i].sent)
      ensures mid != 0 && AtMostOne(old(contexts[i].msgs), mid, Out) ==>
        contexts[i].msgs == PromoteFirst(Without(old(contexts[i].msgs), mid, Out), lim.maxInflight, now)
      ensures mid == 0 ==> contexts[i].msgs == old(contexts[i].msgs)
      ensures mid != 0 ==> SweptFrom(old(contexts[i].msgs), mid, lim, now, contexts[i].msgs)
    {
      hide Database.Valid, Context.Valid, RefsFollow, Routable, Swept, AtMostOne;
      ClientReady(i);
      if mid != 0 {
        label before:
        contexts[i].Delete(store, lim, mid, Out, now);
        SweptRoutable(old(contexts[i].msgs), mid, Out, lim.maxInflight, now, contexts[i].msgs);
        ClientMoved@before(i);
      }
    }

    // PUBREC (lib/read_handle_shared.c:118-145, WITH_BROKER): the PUBREL goes out only for a known id.
    method HandlePubrec(i: nat, mid: nat, now: int) returns (rc: nat)
      requires Valid() && i < |contexts|
      modifies contexts[i]
      ensures Valid() && contexts[i].msgs == Updated(old(contexts[i].msgs), mid, Out, WaitForPubcomp, now)
      ensures rc == 0 <==> exists k :: 0 <= k < |old(contexts[i].msgs)| && Is(old(contexts[i].msgs)[k], mid, Out)
      ensures contexts[i].sent == old(contexts[i].sent) + if rc == 0 then [SentPubrel(mid, false)] else []
    {
      hide Database.Valid, Context.Valid, RefsFollow, Routable, Updated;
      ClientReady(i);
      label before:
      var c := contexts[i];
      rc := c.Update(store, mid, Out, WaitForPubcomp, now);
      UpdatedRoutable(old(c.msgs), mid, Out, WaitForPubcomp, now);
      if rc == 0 {
        c.SendAck(SentPubrel(mid, false));
      }
      ClientMoved@before(i);
    }

    // No message waits for this PUBREL.
    twostate predicate NothingReleased(i: nat, lim: Limits, mid: nat, now: int)
      requires contexts == old(contexts) && i < |contexts|
      reads this, subs, contexts
    {
      var was := old(contexts[i].msgs);
      && subs.tree == old(subs.tree) && contexts[i].msgs == ReleasedList(was, mid, lim.maxInflight, now)
      && contexts[i].sent == old(contexts[i].sent) + Pubrecs(was, lim.maxInflight) + [SentPubcomp(mid)]
      && OthersKept(i)
    }

    // The message has been given to everyone and has left the list, which its delivery may have
    // put further entries into. The other clients are as the delivery leaves them.
    twostate predicate MessageReleased(i: nat, cfg: Config, lim: Limits, upgrade: bool, mid: nat, now: int)
      requires contexts == old(contexts) && i < |contexts|
      reads this, subs, contexts, store
    {
      var was := old(contexts[i].msgs);
      var at := IndexOf(was, mid, In, 0);
      at < |was| && was[at].store.id in old(store.dests) && was[at].store.id in store.dests &&
      var before := old(Clients(was[at].store.id));
      MidsInRange(before) && subs.tree == Filed(old(subs.tree), was[at]) &&
      var r := DeliverAll(Publishing(cfg, lim, upgrade, was[at].store, now), before,
                          Finds(old(subs.tree), was[at].store));
      var box := r[i].box;
      && contexts[i].msgs == ReleasedList(box.msgs, mid, lim.maxInflight, now)
      && contexts[i].sent == old(contexts[i].sent) + Pubrecs(box.msgs, lim.maxInflight) + [SentPubcomp(mid)]
      && Clients(was[at].store.id) == Moved(r, i, contexts[i].msgs, contexts[i].sent)
    }

    // PUBREL (lib/read_handle_shared.c:147-195, WITH_BROKER): the PUBCOMP always goes out.
    method HandlePubrel(i: nat, cfg: Config, lim: Limits, upgrade: bool, mid: nat, now: int)
      requires Valid() && i < |contexts|
      modifies subs.Repr, counters, store, contexts
      ensures Valid() && fresh(subs.Repr - old(subs.Repr)) && store.refs.Keys == old(store.refs.Keys)
      ensures contexts == old(contexts)
      ensures IndexOf(old(contexts[i].msgs), mid, In, 0) == |old(contexts[i].msgs)| ==>
                NothingReleased(i, lim, mid, now)
      ensures IndexOf(old(contexts[i].msgs), mid, In, 0) < |old(contexts[i].msgs)| ==>
                MessageReleased(i, cfg, lim, upgrade, mid, now) && HeldPublished(i, cfg, lim, upgrade, mid, now)
    {
      hide Database.Valid, ServedTo, RetainsFor, DeliverAll, ReleasedList, Pubrecs, Finds, Filed, Moved,
        Database.Clients, Publishing, MidsInRange;
      var rc := Release(i, cfg, lim, upgrade, mid, now);
      ghost var at := IndexOf(old(contexts[i].msgs), mid, In, 0);
      ghost var id := if at < |old(contexts[i].msgs)| then Some(old(contexts[i].msgs)[at].store.id) else None;
      ghost var msgs, sent := contexts[i].msgs, contexts[i].sent;
      SendPubcomp(i, mid, id);
      if id.Some? {
        ghost var s := old(contexts[i].msgs)[at].store;
        MovedTwice(DeliverAll(Publishing(cfg, lim, upgrade, s, now), old(Clients(s.id)), Finds(old(subs.tree), s)), i,
                   msgs, sent, contexts[i].msgs, contexts[i].sent);
      }
    }

    // Acknowledge to client i; the clients stay as they are otherwise.
    method SendPubcomp(i: nat, mid: nat, ghost id: Option<nat>)
      requires Valid() && i < |contexts| && (id.Some? ==> id.value in store.dests)
      modifies contexts[i]
      ensures Valid() && contexts[i].msgs == old(contexts[i].msgs)
      ensures contexts[i].sent == old(contexts[i].sent) + [SentPubcomp(mid)]
      ensures contexts[i].connected == old(contexts[i].connected)
      ensures forall j :: 0 <= j < |contexts| && j != i ==> contexts[j] != contexts[i]
      ensures id.Some? ==> Clients(id.value) == Moved(old(Clients(id.value)), i, contexts[i].msgs, contexts[i].sent)
    {
      hide Database.Valid, Context.Valid, RefsFollow, Routable, Database.Clients, Moved, Database.Tracks;
      ClientReady(i);
      ReleaseReady(i, mid);
      if id.Some? { TrackedNow(i, id.value); }
      label before:
      RefsFollowRefl(store.refs, contexts[i].msgs);
      contexts[i].SendAck(SentPubcomp(mid));
      ClientMoved@before(i);
      if id.Some? {
        QueueMoved@before(i, map[id.value := old(Clients(id.value))]);
        TrackedAt(i, map[id.value := old(Clients(id.value))], id.value);
      }
    }

    // mqtt3_db_message_write for a connected client.
    method WriteOut(i: nat, lim: Limits, room: nat, now: int) returns (ok: bool)
      requires Valid() && i < |contexts| && contexts[i].connected
      modifies contexts[i], store`refs
      ensures var pass := WritePass(old(contexts[i].msgs), lim.maxInflight, 0, room, now);
        && Valid() && contexts[i].connected && contexts[i].msgs == pass.msgs
        && contexts[i].sent == old(contexts[i].sent) + pass.sent && ok == pass.complete
    {
      hide Database.Valid, Context.Valid, RefsFollow, Routable, WritePass;
      ClientReady(i);
      label before:
      ok := contexts[i].Write(store, lim, room, now);
      WriteRoutable(old(contexts[i].msgs), lim.maxInflight, 0, room, now);
      ClientMoved@before(i);
    }

    // mqtt3_db_message_timeout_check for one client.
    method CheckTimeouts(i: nat, timeout: nat, now: int)
      requires Valid() && i < |contexts|
      modifies contexts[i]
      ensures Valid() && contexts[i].msgs == TimeoutList(old(contexts[i].msgs), now - timeout, now)
      ensures contexts[i].sent == old(contexts[i].sent) && contexts[i].connected == old(contexts[i].connected)
    {
      hide Database.Valid, Context.Valid, RefsFollow, Routable, TimeoutList;
      ClientReady(i);
      label before:
      contexts[i].TimeoutCheck(store, timeout, now);
      TimeoutRoutable(old(contexts[i].msgs), now - timeout, now);
      ClientMoved@before(i);
    }

    // Follow a leaf's pointer to its client.
    method FindContext(client: string) returns (i: nat)
      requires exists j :: 0 <= j < |contexts| && contexts[j].id == client
      ensures i < |contexts| && contexts[i].id == client
    {
      i := 0;
      while contexts[i].id != client
        invariant i < |contexts|
        invariant forall j :: 0 <= j < i ==> contexts[j].id != client
        decreases |contexts| - i
      {
        i := i + 1;
      }
    }

    // One leaf.
    method Give(d: Delivery, hit: ST.Hit)
      requires Valid() && d.stored.id in store.refs && d.stored.id in store.dests && d.qos <= 2 && hit.leaf.qos <= 2
      requires exists j :: 0 <= j < |contexts| && contexts[j].id == hit.leaf.client
      modifies store, contexts
      ensures Valid() && store.refs.Keys == store.dests.Keys == old(store.refs.Keys)
      ensures MidsInRange(old(Clients(d.stored.id)))
      ensures Clients(d.stored.id) == DeliverAll(d, old(Clients(d.stored.id)), [hit])
      ensures forall id :: id in store.dests && id != d.stored.id ==> store.dests[id] == old(store.dests[id])
    {
      hide Database.Valid, Context.Valid, Given, Deliver;
      var i := FindContext(hit.leaf.client);
      ClientReady(i);
      label before:
      GiveClient(contexts[i], store, d, hit);
      ClientMoved@before(i);
      ghost var was := old(Clients(d.stored.id));
      GivenOne(d, was, i, hit);
      assert Clients(d.stored.id) == was[i := was[i].(box := Box(contexts[i], store.dests[d.stored.id]))];
    }

    /**
     mqtt3_db_messages_queue (src/subs.c:459-491): file the message as retained if asked to, and
     give it to the client of every leaf found. Without a source nobody gets it.
     */
    method MessagesQueue(d: Delivery, hasSource: bool, topic: string, retain: bool)
      requires Valid() && d.stored.id in store.refs && d.stored.id in store.dests && d.qos <= 2
      requires retain ==> PlainTopic(topic)
      modifies subs.Repr, counters, store, contexts
      ensures Valid() && fresh(subs.Repr - old(subs.Repr))
      ensures store.refs.Keys == store.dests.Keys == old(store.refs.Keys)
      ensures subs.tree == if retain then Subscriptions.Retain(old(subs.tree), Tokens.Tokens(topic), Keeps(d.stored))
                           else old(subs.tree)
      ensures MidsInRange(old(Clients(d.stored.id))) && Clients(d.stored.id) ==
        DeliverAll(d, old(Clients(d.stored.id)),
                   if hasSource then Subscriptions.Recipients(old(subs.tree), Tokens.Tokens(topic)) else [])
      ensures forall id :: id in store.dests && id != d.stored.id ==> store.dests[id] == old(store.dests[id])
    {
      hide Database.Valid, Deliver, Subscriptions.Recipients, Subscriptions.Retain, SH.SubHier.Valid, Context.Valid,
        Subscriptions.TopicTokens,
        Tokens.Tokens, DeliverAll, MidsInRange, Database.HitsOwned, Levels, Database.Clients, Database.TreeValid;
      MidsReady();
      var tokens := Tokens.TopicTokenise(topic);
      var hits := FileAndFind(tokens, if retain then Some(Keeps(d.stored)) else None);
      if hasSource {
        GiveAll(d, hits);
      } else {
        DeliverNone(d, Clients(d.stored.id), []);
      }
    }

    /**
     What the PUBREL of an inbound message does: the message is given to its recipients as any
     publication is and leaves the list of client i, and the window is looked over, with PUBRECs
     for inbound entries that come out of the queue. Nothing is given out if the id is not known.
     */
    twostate predicate Releases(i: nat, cfg: Config, lim: Limits, upgrade: bool, mid: nat, now: int)
      requires i < |old(contexts)| && contexts == old(contexts)
      reads this, subs, store, contexts
    {
      var was, n := old(contexts[i].msgs), lim.maxInflight;
      var at := IndexOf(was, mid, In, 0);
      if at < |was| then
        var s := was[at].store;
        && subs.tree == Filed(old(subs.tree), was[at])
        && s.id in old(store.dests) && s.id in store.dests && MidsInRange(old(Clients(s.id)))
        && var r := DeliverAll(Publishing(cfg, lim, upgrade, s, now), old(Clients(s.id)), Finds(old(subs.tree), s));
        && contexts[i].msgs == ReleasedList(r[i].box.msgs, mid, n, now)
        && contexts[i].sent == old(contexts[i].sent) + Pubrecs(r[i].box.msgs, n)
        && Clients(s.id) == Moved(r, i, contexts[i].msgs, contexts[i].sent)
      else
        && subs.tree == old(subs.tree) && store.dests == old(store.dests)
        && contexts[i].msgs == ReleasedList(was, mid, n, now)
        && contexts[i].sent == old(contexts[i].sent) + Pubrecs(was, n)
        && (forall id :: id in store.dests ==>
              Clients(id) == Moved(old(Clients(id)), i, contexts[i].msgs, contexts[i].sent))
        && OthersKept(i)
    }

    /**
     mqtt3_db_message_release (src/database.c:680-745) for an inbound message of client i: its
     PUBREL has come, so it is given to its recipients and leaves the list.
     */
    method Release(i: nat, cfg: Config, lim: Limits, upgrade: bool, mid: nat, now: int) returns (rc: nat)
      requires Valid() && i < |contexts|
      modifies subs.Repr, counters, store, contexts
      ensures Valid() && fresh(subs.Repr - old(subs.Repr))
      ensures store.refs.Keys == store.dests.Keys == old(store.refs.Keys)
      ensures rc == 0 <==> IndexOf(old(contexts[i].msgs), mid, In, 0) < |old(contexts[i].msgs)|
      ensures Releases(i, cfg, lim, upgrade, mid, now)
      ensures rc == 0 ==> HeldPublished(i, cfg, lim, upgrade, mid, now)
    {
      hide Database.Valid, Database.HeldPublished, DeliverAll, Finds, Filed, ReleasedList, Pubrecs, Moved,
        Database.Clients, Database.Tracks, Publishing, MidsInRange;
      ReleaseReady(i, mid);
      ghost var start, was := map id | id in store.dests :: Clients(id), contexts[i].msgs;
      ghost var base, all;
      rc, base, all := ReleaseLoop(i, cfg, lim, upgrade, mid, now, start);
      forall id | id in base
        ensures id in store.dests && Clients(id) == Moved(base[id], i, contexts[i].msgs, contexts[i].sent)
      {
        TrackedAt(i, base, id);
      }
      if rc == 0 { ReleasePublishes(i, cfg, lim, upgrade, mid, now); }
    }

    // Its loop over the list. The messages in base have been given to clients that were as in start.
    method ReleaseLoop(i: nat, cfg: Config, lim: Limits, upgrade: bool, mid: nat, now: int,
                       ghost start: map<nat, seq<Client>>)
      returns (rc: nat, ghost base: map<nat, seq<Client>>, ghost all: seq<ClientMsg>)
      requires Valid() && i < |contexts| && ReleaseReadyFor(i, mid, start)
      modifies subs.Repr, counters, store, contexts
      ensures Valid() && fresh(subs.Repr - old(subs.Repr))
      ensures store.refs.Keys == store.dests.Keys == old(store.refs.Keys)
      ensures Tracks(i, base) && contexts[i].msgs == ReleasedList(all, mid, lim.maxInflight, now)
      ensures contexts[i].sent == old(contexts[i].sent) + Pubrecs(all, lim.maxInflight)
      ensures var was := old(contexts[i].msgs); var at := IndexOf(was, mid, In, 0);
        if at < |was| then
          && rc == 0 && subs.tree == Filed(old(subs.tree), was[at])
          && GivenOut(base, start, was[at].store, Publishing(cfg, lim, upgrade, was[at].store, now),
                      Finds(old(subs.tree), was[at].store), i, all)
        else
          && rc == 1 && all == was && base == start && subs.tree == old(subs.tree) && store.dests == old(store.dests)
          && OthersKept(i)
    {
      hide Database.Valid, Context.Valid, ReleasedList, Pubrecs, Moved, Database.Clients, Progress, Database.Tracks,
        GivenOut, StartsFrom;
      var c, n := contexts[i], lim.maxInflight;
      var tail: nat, msgIndex: nat, deleted := 0, 0, false;
      ghost var was, sent, t0 := c.msgs, c.sent, subs.tree;
      base, all := start, was;
      ProgressStart(was, mid, n, now, sent);
      while tail < |c.msgs|
        invariant Valid() && fresh(subs.Repr - old(subs.Repr))
        invariant store.refs.Keys == store.dests.Keys == old(store.refs.Keys)
        invariant Progress(was, all, msgIndex, deleted, mid, n, now, sent, c.msgs, c.sent, tail) && Tracks(i, base)
        invariant Sofar(i, cfg, lim, upgrade, mid, now, start, was, t0, deleted, base, all, subs.tree)
        invariant !deleted ==> store.dests == old(store.dests) && OthersKept(i)
        decreases !deleted, |all| - msgIndex
      {
        tail, deleted, base, all := ReleaseStep(i, cfg, lim, upgrade, mid, now, msgIndex, tail, deleted, start, was,
                                                sent, t0, base, all);
        msgIndex := msgIndex + 1;
        if msgIndex > n && deleted {
          break;
        }
      }
      ProgressEnd(was, all, msgIndex, deleted, mid, n, now, sent, c.msgs, c.sent, tail);
      rc := if deleted then 0 else 1;
    }

    // The other clients are as they were, and so is the connection of client i.
    twostate predicate OthersKept(i: nat)
      requires contexts == old(contexts) && i < |contexts|
      reads this, contexts
    {
      contexts[i].connected == old(contexts[i].connected)
      && forall j :: 0 <= j < |contexts| && j != i ==> unchanged(contexts[j])
    }

    // One turn of the loop.
    method ReleaseStep(i: nat, cfg: Config, lim: Limits, upgrade: bool, mid: nat, now: int, k: nat, tail: nat,
                       deleted: bool,
                       ghost start: map<nat, seq<Client>>, ghost was: seq<ClientMsg>, ghost sent: seq<Sent>,
                       ghost t0: ST.Tree,
                       ghost base: map<nat, seq<Client>>, ghost all: seq<ClientMsg>)
      returns (tail': nat, deleted': bool, ghost base': map<nat, seq<Client>>, ghost all': seq<ClientMsg>)
      requires Valid() && i < |contexts| && tail < |contexts[i].msgs| && store.refs.Keys == store.dests.Keys
      requires Progress(was, all, k, deleted, mid, lim.maxInflight, now, sent, contexts[i].msgs, contexts[i].sent, tail)
      requires Tracks(i, base)
      requires Sofar(i, cfg, lim, upgrade, mid, now, start, was, t0, deleted, base, all, subs.tree)
      requires StartsFrom(start, was, i, |contexts|, mid)
      modifies subs.Repr, counters, store, contexts
      ensures Valid() && fresh(subs.Repr - old(subs.Repr))
      ensures store.refs.Keys == store.dests.Keys == old(store.refs.Keys)
      ensures Progress(was, all', k + 1, deleted', mid, lim.maxInflight, now, sent, contexts[i].msgs, contexts[i].sent,
                       tail')
      ensures Tracks(i, base')
      ensures Sofar(i, cfg, lim, upgrade, mid, now, start, was, t0, deleted', base', all', subs.tree)
      ensures !deleted' ==> store.dests == old(store.dests) && OthersKept(i)
      ensures (deleted ==> deleted') && (deleted == deleted' ==> all' == all && k < |all|)
    {
      hide Database.Valid, Context.Valid, DeliverAll, Finds, Filed, PubrecFor, Moved, Database.Clients, Progress,
        Database.Tracks, Promote, RemoveAt, Count12, Matched, AllOut, MidsInRange, Publishing, GivenOut, StartsFrom,
        Sofar;
      var c, n := contexts[i], lim.maxInflight;
      tail', deleted', base', all' := tail, deleted, base, all;
      ghost var list, log := c.msgs, c.sent;
      if c.msgs[tail].state == Queued && k + 1 <= n {
        PromoteAt(i, tail, now, base);
      }
      ProgressLook(was, all, k, deleted, mid, n, now, sent, list, log, tail);
      if c.msgs[tail].mid == mid && c.msgs[tail].direction == In {
        list, log := c.msgs, c.sent;
        MatchedEntry(was, k, mid, n, now, sent, list, log, tail, t0);
        StartEntry(i, cfg, lim, upgrade, mid, now, start, was, t0, base, all, subs.tree, |contexts|);
        ghost var echo;
        echo, base' := Depart(i, tail, cfg, lim, upgrade, now, base);
        ProgressMatch(was, k, mid, n, now, sent, list, log, tail, echo);
        all' := was + echo;
        deleted' := true;
        SofarGiven(i, cfg, lim, upgrade, mid, now, start, was, t0, base', all', subs.tree);
      } else {
        tail' := tail + 1;
      }
    }

    ghost predicate ReleaseReadyFor(i: nat, mid: nat, start: map<nat, seq<Client>>)
      requires i < |contexts|
      reads this`contexts, contexts, store
    {
      && Tracks(i, start) && store.refs.Keys == store.dests.Keys
      && StartsFrom(start, contexts[i].msgs, i, |contexts|, mid)
      && var msgs := contexts[i].msgs; var at := IndexOf(msgs, mid, In, 0);
      forall j :: at < j < |msgs| ==> !Is(msgs[j], mid, In)
    }

    lemma {:induction false} ReleaseReady(i: nat, mid: nat)
      requires Valid() && i < |contexts|
      ensures ReleaseReadyFor(i, mid, map id | id in store.dests :: Clients(id))
    {
      hide Database.Valid, MidsInRange, Routable, InboundWellFormed, Database.Clients;
      ClientReady(i);
      MidsReady();
      OneInbound(contexts[i], mid);
      forall id | id in store.dests ensures Clients(id) == Moved(Clients(id), i, contexts[i].msgs, contexts[i].sent) {
        TrackedClient(i, id);
      }
    }

    lemma {:induction false} TrackedClient(i: nat, id: nat)
      requires i < |contexts| && id in store.dests
      ensures |Clients(id)| == |contexts| && Clients(id)[i].box.msgs == contexts[i].msgs
      ensures Clients(id) == Moved(Clients(id), i, contexts[i].msgs, contexts[i].sent)
    {
    }

    // As far as these stored messages go, the clients are as in base but for the list of client i
    // and what was sent to it.
    ghost predicate Tracks(i: nat, base: map<nat, seq<Client>>)
      reads this`contexts, contexts, store`dests
    {
      i < |contexts| && forall id :: id in base ==>
        && id in store.dests && MidsInRange(base[id])
        && Clients(id) == Moved(base[id], i, contexts[i].msgs, contexts[i].sent)
    }

    lemma {:induction false} TrackedAt(i: nat, base: map<nat, seq<Client>>, id: nat)
      requires Tracks(i, base) && id in base
      ensures i < |contexts| && id in store.dests && MidsInRange(base[id])
      ensures Clients(id) == Moved(base[id], i, contexts[i].msgs, contexts[i].sent)
    {
    }

    lemma {:induction false} TrackOne(i: nat, id: nat, r: seq<Client>)
      requires i < |contexts| && id in store.dests && MidsInRange(r)
      requires Clients(id) == Moved(r, i, contexts[i].msgs, contexts[i].sent)
      ensures Tracks(i, map[id := r])
    {
    }

    // The entry is given out and leaves the list.
    method Depart(i: nat, tail: nat, cfg: Config, lim: Limits, upgrade: bool, now: int,
                  ghost base: map<nat, seq<Client>>)
      returns (ghost echo: seq<ClientMsg>, ghost base': map<nat, seq<Client>>)
      requires Valid() && i < |contexts| && Tracks(i, base) && tail < |contexts[i].msgs|
      requires contexts[i].msgs[tail].direction == In
      requires var id := contexts[i].msgs[tail].store.id;
        id in base && |base[id]| == |contexts| && Count12(contexts[i].msgs) == Count12(base[id][i].box.msgs)
      modifies subs.Repr, counters, store, contexts
      ensures Valid() && fresh(subs.Repr - old(subs.Repr))
      ensures store.refs.Keys == store.dests.Keys == old(store.refs.Keys)
      ensures AllOut(echo) && contexts[i].msgs == RemoveAt(old(contexts[i].msgs) + echo, tail)
      ensures contexts[i].sent == old(contexts[i].sent)
      ensures var m := old(contexts[i].msgs[tail]); var s := m.store;
        && MidsInRange(base[s.id]) && subs.tree == Filed(old(subs.tree), m)
        && base' == map[s.id := DeliverAll(Publishing(cfg, lim, upgrade, s, now), base[s.id], Finds(old(subs.tree), s))]
        && base'[s.id][i].box.msgs == base[s.id][i].box.msgs + echo
      ensures Tracks(i, base')
    {
      hide Database.Valid, Context.Valid, DeliverAll, Finds, Filed, Moved, Database.Clients, Count12, RemoveAt,
        Database.Tracks, MidsInRange, AllOut, Publishing;
      ghost var m, list, log := contexts[i].msgs[tail], contexts[i].msgs, contexts[i].sent;
      ghost var d, hits := Publishing(cfg, lim, upgrade, m.store, now), Finds(subs.tree, m.store);
      TrackedAt(i, base, m.store.id);
      RouteEntry(i, tail, cfg, lim, upgrade, now);
      echo := DeliverMoved(d, base[m.store.id], i, list, log, hits);
      ghost var r := DeliverAll(d, base[m.store.id], hits);
      MovedTwice(r, i, list + echo, log, RemoveAt(list + echo, tail), log);
      assert contexts[i].msgs == Clients(m.store.id)[i].box.msgs == list + echo;
      assert contexts[i].sent == Clients(m.store.id)[i].sent == log;
      base' := map[m.store.id := r];
      TrackOne(i, m.store.id, r);
      RemoveEntry(i, tail, base');
    }

    // A queued entry has come inside the window; an inbound one is acknowledged.
    method PromoteAt(i: nat, tail: nat, now: int, ghost base: map<nat, seq<Client>>)
      requires Valid() && i < |contexts| && Tracks(i, base) && tail < |contexts[i].msgs|
      requires contexts[i].msgs[tail].state == Queued
      modifies contexts[i]
      ensures Valid() && store.refs.Keys == store.dests.Keys && Tracks(i, base)
      ensures contexts[i].msgs == old(contexts[i].msgs)[tail := Promote(old(contexts[i].msgs)[tail], now)]
      ensures OthersKept(i)
      ensures contexts[i].sent == old(contexts[i].sent) + PubrecFor(old(contexts[i].msgs)[tail])
    {
      hide Database.Valid, Database.Clients, Moved, Context.Valid, RefsFollow, PubrecFor, Promote, Routable,
        Database.Tracks;
      ClientReady(i);
      StillRoutable(contexts[i].msgs, tail, now);
      label before:
      contexts[i].PromoteEntry(store, tail, now);
      ClientMoved@before(i);
      QueueMoved@before(i, base);
    }

    // Unlink an entry.
    method RemoveEntry(i: nat, tail: nat, ghost base: map<nat, seq<Client>>)
      requires Valid() && i < |contexts| && Tracks(i, base) && tail < |contexts[i].msgs|
      modifies contexts[i], store`refs
      ensures Valid() && store.refs.Keys == store.dests.Keys == old(store.refs.Keys) && Tracks(i, base)
      ensures contexts[i].msgs == RemoveAt(old(contexts[i].msgs), tail) && contexts[i].sent == old(contexts[i].sent)
    {
      hide Database.Valid, Database.Clients, Moved, Context.Valid, RefsFollow, PubrecFor, Promote, Routable,
        Database.Tracks;
      ClientReady(i);
      StillRoutable(contexts[i].msgs, tail, 0);
      label before:
      contexts[i].MessageRemove(store, tail);
      ClientMoved@before(i);
      QueueMoved@before(i, base);
    }

    // Give an inbound entry's message to its recipients, unless it has no topic.
    method RouteEntry(i: nat, tail: nat, cfg: Config, lim: Limits, upgrade: bool, now: int)
      requires Valid() && i < |contexts| && tail < |contexts[i].msgs| && contexts[i].msgs[tail].direction == In
      modifies subs.Repr, counters, store, contexts
      ensures Valid() && fresh(subs.Repr - old(subs.Repr))
      ensures store.refs.Keys == store.dests.Keys == old(store.refs.Keys)
      ensures var m := old(contexts[i].msgs[tail]); var s := m.store;
        && s.id in old(store.dests) && s.id in store.dests && MidsInRange(old(Clients(s.id)))
        && subs.tree == Filed(old(subs.tree), m)
        && Clients(s.id) ==
             DeliverAll(Publishing(cfg, lim, upgrade, s, now), old(Clients(s.id)), Finds(old(subs.tree), s))
    {
      ClientReady(i);
      MidsReady();
      var m := contexts[i].msgs[tail];
      hide Database.Valid, MidsInRange, DeliverAll, Subscriptions.Retain, Subscriptions.Recipients, Tokens.Tokens,
        Context.Valid;
      if m.store.topic.Some? {
        MessagesQueue(Publishing(cfg, lim, upgrade, m.store, now), true, m.store.topic.value, m.retain);
      } else {
        DeliverNone(Publishing(cfg, lim, upgrade, m.store, now), Clients(m.store.id), []);
      }
    }

    // The walk over the tree.
    method FileAndFind(tokens: seq<string>, value: Option<Option<nat>>) returns (hits: seq<ST.Hit>)
      requires Valid() && tokens != [] && (value.Some? ==> Subscriptions.TopicTokens(tokens))
      requires SH.ValueKnown(value, store.refs.Keys)
      modifies subs.Repr, counters, store`refs
      ensures Valid() && fresh(subs.Repr - old(subs.Repr))
      ensures store.refs.Keys == store.dests.Keys == old(store.refs.Keys)
      ensures subs.tree ==
        if value.Some? then Subscriptions.Retain(old(subs.tree), tokens, value.value) else old(subs.tree)
      ensures hits == Subscriptions.Recipients(old(subs.tree), tokens) && HitsOwned(hits)
      ensures forall id :: id in store.dests ==> Clients(id) == old(Clients(id))
    {
      RecipientsOwned(tokens);
      TreeReady();
      label before:
      hide Database.Valid, Context.Valid, Subscriptions.Recipients, Subscriptions.Retain, SH.SubHier.Valid;
      hits := subs.RootPublish(counters, store, tokens, value);
      TreePublished@before(tokens, value);
      assert ClientsUntouched@before();
    }

    ghost predicate HitsOwned(hits: seq<ST.Hit>)
      reads this`contexts
    {
      forall h :: h in hits ==> h.leaf.qos <= 2 && exists j :: 0 <= j < |contexts| && contexts[j].id == h.leaf.client
    }

    // The loops over the leaves of the nodes found.
    method GiveAll(d: Delivery, hits: seq<ST.Hit>)
      requires Valid() && d.stored.id in store.refs && d.stored.id in store.dests && d.qos <= 2 && HitsOwned(hits)
      modifies store, contexts
      ensures Valid() && store.refs.Keys == store.dests.Keys == old(store.refs.Keys)
      ensures MidsInRange(old(Clients(d.stored.id)))
      ensures Clients(d.stored.id) == DeliverAll(d, old(Clients(d.stored.id)), hits)
      ensures forall id :: id in store.dests && id != d.stored.id ==> store.dests[id] == old(store.dests[id])
    {
      hide Database.Valid, Deliver;
      ghost var was := Clients(d.stored.id);
      MidsReady();
      DeliverNone(d, was, hits);
      for n := 0 to |hits|
        invariant Valid() && store.refs.Keys == store.dests.Keys == old(store.refs.Keys)
        invariant Clients(d.stored.id) == DeliverAll(d, was, hits[..n])
        invariant forall id :: id in store.dests && id != d.stored.id ==> store.dests[id] == old(store.dests[id])
      {
        Give(d, hits[n]);
        DeliverOneMore(d, was, hits, n);
      }
    }

    lemma {:induction false} MidsReady()
      requires Valid()
      ensures store.refs.Keys == store.dests.Keys
      ensures forall id :: id in store.dests ==> MidsInRange(Clients(id))
    {
    }

    lemma {:induction false} OffersReady(tokens: seq<string>)
      requires Valid() && Subscriptions.FilterTokens(tokens)
      ensures OffersKnown(RetainSearch.QueueOffers(subs.tree, tokens), stored) && store.refs.Keys == Ids(stored)
    {
      forall k | 0 <= k < |RetainSearch.QueueOffers(subs.tree, tokens)|
        ensures RetainSearch.QueueOffers(subs.tree, tokens)[k].id in Ids(stored)
      {
        var x := RetainSearch.QueueOffers(subs.tree, tokens)[k];
        RetainSearch.OfferedAt(subs.tree, tokens, x);
        KnownAt(subs.tree, store.refs.Keys, Subscriptions.Filed(x.path));
      }
    }

    lemma {:induction false} TreeReady()
      requires Valid()
      ensures subs.Valid() && ST.DistinctNames(subs.tree.children) && SH.RetainedKnown(subs.tree, store.refs.Keys)
      ensures subs.tree.subs == []
      ensures forall j :: 0 <= j < |contexts| ==> contexts[j].lastMid <= MAX_MID
      ensures store.refs.Keys == store.dests.Keys
    {
    }

    lemma {:induction false} RecipientsOwned(tokens: seq<string>)
      requires Valid() && tokens != []
      ensures HitsOwned(Subscriptions.Recipients(subs.tree, tokens))
    {
      forall h | h in Subscriptions.Recipients(subs.tree, tokens)
        ensures h.leaf.qos <= 2 && exists j :: 0 <= j < |contexts| && contexts[j].id == h.leaf.client
      {
        Subscriptions.RecipientSubscribed(subs.tree, tokens, h);
        assert ST.Lookup(subs.tree, Subscriptions.Filed(h.path), h.leaf.client).Some?;
      }
    }

    twostate predicate ClientsUntouched()
      reads this, contexts
    {
      unchanged(this) && forall j :: 0 <= j < |contexts| ==> unchanged(contexts[j])
    }

    // Only the list of client i and what was sent to it changed.
    twostate lemma QueueMoved(i: nat, new base: map<nat, seq<Client>>)
      requires old(Tracks(i, base)) && unchanged(this) && unchanged(store`dests) && i < |contexts|
      requires forall j :: 0 <= j < |contexts| && j != i ==> unchanged(contexts[j]) && contexts[j] != contexts[i]
      requires contexts[i].nextNode == old(contexts[i].nextNode) && contexts[i].lastMid == old(contexts[i].lastMid)
      requires contexts[i].connected == old(contexts[i].connected)
      ensures Tracks(i, base)
    {
      forall id | id in base
        ensures Clients(id) == Moved(base[id], i, contexts[i].msgs, contexts[i].sent)
      {
        assert forall j :: 0 <= j < |contexts| ==>
                 Clients(id)[j] == Moved(base[id], i, contexts[i].msgs, contexts[i].sent)[j];
      }
    }

    // The tree took a subscription change, and its counter followed.
    twostate lemma TreeStepped(new op: Subscriptions.Op)
      requires old(Valid()) && ClientsUntouched() && unchanged(store) && subs.Valid()
      requires Subscriptions.Admissible(op) && !op.RetainedPublish?
      requires op.Subscribe? ==> op.leaf.qos <= 2 && exists i :: 0 <= i < |contexts| && contexts[i].id == op.leaf.client
      requires subs.tree == Subscriptions.Step(Subscriptions.Counted(old(subs.tree), 0, 0), op).root
      requires counters.subscriptionCount - ST.CountLeaves(subs.tree) ==
          old(counters.subscriptionCount - ST.CountLeaves(subs.tree))
      requires counters.retainedCount == old(counters.retainedCount)
      ensures Valid()
    {
      ghost var s := Subscriptions.Counted(old(subs.tree), 0, 0);
      Subscriptions.StepRefs(s, op);
      Subscriptions.StepWellFormed(s, op);
      OpOwned(s, op, contexts);
      assert Lists() == old(Lists());
      StepKnown(s.root, subs.tree, store.refs.Keys);
      hide Subscriptions.Step, Subscriptions.RootWellFormed, ST.CountLeaves, ST.CountRetained, SH.RetainedKnown,
        SubsOwned, ST.RetainedRefs,
        SH.SubHier.Valid, Context.Valid, StoreWellFormed, KnownLists, Routable;
    }

    // The tree took a retained message, or not, and the counters followed.
    twostate lemma TreePublished(new tokens: seq<string>, new value: Option<Option<nat>>)
      requires old(Valid()) && ClientsUntouched()
      requires subs.Valid() && tokens != [] && (value.Some? ==> Subscriptions.TopicTokens(tokens))
      requires unchanged(store`dests)
      requires subs.tree ==
        if value.Some? then Subscriptions.Retain(old(subs.tree), tokens, value.value) else old(subs.tree)
      requires counters.subscriptionCount == old(counters.subscriptionCount)
      requires counters.retainedCount - ST.CountRetained(subs.tree) ==
        old(counters.retainedCount - ST.CountRetained(subs.tree))
      requires SH.RetainFollows(old(store.refs), old(subs.tree), store.refs, subs.tree)
      requires SH.RetainedKnown(subs.tree, store.refs.Keys)
      ensures Valid()
    {
      ghost var t0, t1 := old(subs.tree), subs.tree;
      if value.Some? {
        Subscriptions.RetainWellFormed(t0, tokens, value.value);
        Subscriptions.RetainCounts(t0, tokens, value.value, 0);
        forall p, c ensures ST.Lookup(t1, p, c) == ST.Lookup(t0, p, c) {
          Subscriptions.LookupRetain(t0, tokens, value.value, p, c);
        }
      }
      assert Lists() == old(Lists());
      TreeMoves(old(store.refs), store.refs, Lists(), t0, t1);
      hide Subscriptions.Retain, Subscriptions.RootWellFormed, ST.CountLeaves, ST.CountRetained, SH.RetainedKnown,
        ST.Lookup, SH.SubHier.Valid, Context.Valid, StoreWellFormed;
    }

    lemma {:induction false} ClientReady(i: nat)
      requires Valid() && i < |contexts|
      ensures contexts[i].Valid() && store.Knows(contexts[i].msgs) && Routable(contexts[i].msgs)
      ensures forall j :: 0 <= j < |contexts| && j != i ==>
                contexts[j] != contexts[i] && contexts[j].id != contexts[i].id
      ensures forall j :: 0 <= j < |contexts| ==> contexts[j].lastMid <= MAX_MID
    {
      KnowsList(stored, msgStoreCount, lastDbId, store.refs, store.dests, Lists(), subs.tree, i);
    }

    // Client i changed, nothing else did but the counters.
    twostate lemma ClientMoved(i: nat)
      requires old(Valid()) && unchanged(this) && unchanged(subs) && unchanged(subs.Repr) && unchanged(counters)
      requires i < |contexts| && forall j :: 0 <= j < |contexts| && j != i ==> unchanged(contexts[j])
      requires contexts[i].Valid() && store.Knows(contexts[i].msgs) && Routable(contexts[i].msgs)
      requires RefsFollow(old(store.refs), old(contexts[i].msgs), store.refs, contexts[i].msgs)
      ensures Valid()
    {
      hide ListWellFormed, Count12, RefsFollow, StoreOk, SubsOwned, TreeValid;
      ghost var lists := old(Lists());
      assert Lists() == lists[i := contexts[i].msgs];
      assert TreeValid() by { assert old(TreeValid()); }
      StoreMoves(stored, msgStoreCount, lastDbId, old(store.refs), old(store.dests), lists, subs.tree, i, store.refs,
                 store.dests, contexts[i].msgs);
    }
  }

  // The body of the loop in _subs_process (src/subs.c:108-147) for a leaf of client c.
  method GiveClient(c: Context, store: MessageStore, d: Delivery, hit: ST.Hit)
    requires c.Valid() && store.Knows(c.msgs) && d.stored.id in store.refs && d.qos <= 2 && hit.leaf.qos <= 2
    requires hit.leaf.client == c.id
    modifies c, store
    ensures c.Valid() && store.Knows(c.msgs) && store.refs.Keys == old(store.refs.Keys)
    ensures Box(c, store.dests[d.stored.id]) == Given(d, c.connected, c.id, old(Box(c, store.dests[d.stored.id])), hit)
    ensures c.connected == old(c.connected) && c.sent == old(c.sent)
    ensures forall id :: id in store.dests && id != d.stored.id ==> store.dests[id] == old(store.dests[id])
    ensures forall x :: x != c.id ==> (x in store.dests[d.stored.id] <==> x in old(store.dests[d.stored.id]))
    ensures Routable(old(c.msgs)) ==> Routable(c.msgs)
    ensures RefsFollow(old(store.refs), old(c.msgs), store.refs, c.msgs)
  {
    hide Routable, ListWellFormed, Count12, RefsFollow, Given, InsertVerdict, InsertedList, InsertedDests, NewEntry,
      Remembers, MsgQos, NodesOrdered, InboundWellFormed, QosInRange, Refs;
    assert MsgQos(d, hit.leaf.qos) == if d.upgrade || d.qos > hit.leaf.qos then hit.leaf.qos else d.qos by {
      MsgQosIs(d, hit.leaf.qos);
    }
    InsertIsGiven(d, c.connected, c.id, c.msgs, c.nextNode, c.lastMid, store.dests, hit);
    var leafQos := hit.leaf.qos;
    var msgQos := if d.upgrade then leafQos else if d.qos > leafQos then leafQos else d.qos;
    var mid := 0;
    if msgQos > 0 {
      mid := c.MidGenerate();
    }
    var rc := c.Insert(store, d.cfg, d.lim, mid, Out, msgQos, false, d.stored, d.now);
  }

  lemma {:induction false} MsgQosIs(d: Delivery, subQos: nat)
    ensures MsgQos(d, subQos) == if d.upgrade || d.qos > subQos then subQos else d.qos
  {
  }

  // One hit concerns one client.
  lemma {:induction false} GivenOne(d: Delivery, was: seq<Client>, i: nat, hit: ST.Hit)
    requires MidsInRange(was) && i < |was| && was[i].id == hit.leaf.client
    requires forall j :: 0 <= j < |was| && j != i ==> was[j].id != hit.leaf.client
    ensures was[i].box.lastMid <= MAX_MID
    ensures DeliverAll(d, was, [hit]) ==
      was[i := was[i].(box := Given(d, was[i].connected, was[i].id, was[i].box, hit))]
  {
    forall j | 0 <= j < |was|
      ensures DeliverAll(d, was, [hit])[j] ==
                if j == i then was[i].(box := Given(d, was[i].connected, was[i].id, was[i].box, hit)) else was[j]
    {
      DeliverOne(d, was[j].connected, was[j].id, was[j].box, hit);
      if j != i { GivenOthers(d, was[j].connected, was[j].id, was[j].box, hit); }
    }
  }

  // A delivery to all clients serves each of them.
  lemma {:induction false} AllServed(d: Delivery, root: ST.Tree, topic: string, before: seq<Client>)
    requires Subscriptions.RootWellFormed(root) && PlainTopic(topic) && MidsInRange(before)
    ensures var r := DeliverAll(d, before, Subscriptions.Recipients(root, Tokens.Tokens(topic)));
      |r| == |before| &&
      forall j :: 0 <= j < |r| ==> ServedTo(d, root, Tokens.Tokens(topic), before[j], r[j].box.msgs)
  {
    hide Subscriptions.RootWellFormed, ServedTo, Deliver, Subscriptions.Recipients, Tokens.Tokens,
      Subscriptions.TopicTokens;
    forall j | 0 <= j < |before|
      ensures ServedTo(d, root, Tokens.Tokens(topic), before[j],
                       DeliverAll(d, before, Subscriptions.Recipients(root, Tokens.Tokens(topic)))[j].box.msgs)
    {
      DeliverServes(d, root, Tokens.Tokens(topic), before[j]);
    }
  }

  // ... and what it files is retained.
  lemma {:induction false} FiledRetains(root: ST.Tree, topic: string, retain: bool, s: Stored)
    requires Subscriptions.RootWellFormed(root) && PlainTopic(topic)
    ensures RetainsFor(root, if retain then Subscriptions.Retain(root, Tokens.Tokens(topic), Keeps(s)) else root,
                       Tokens.Tokens(topic), retain, s)
  {
    hide Subscriptions.RootWellFormed, RetainsFor, Tokens.Tokens, Subscriptions.TopicTokens, Subscriptions.Retain;
    if retain {
      MessageRetained(root, Tokens.Tokens(topic), s);
    } else {
      NothingRetained(root, Tokens.Tokens(topic), s);
    }
  }

  // ----- Releasing an inbound message -----

  function Publishing(cfg: Config, lim: Limits, upgrade: bool, s: Stored, now: int): Delivery {
    Delivery(cfg, lim, upgrade, s.qos, s, now)
  }

  // The leaves it goes to. Without a topic it was refused when it came, and goes nowhere.
  function Finds(root: ST.Tree, s: Stored): seq<ST.Hit> {
    if s.topic.Some? then Subscriptions.Recipients(root, Tokens.Tokens(s.topic.value)) else []
  }

  function Filed(root: ST.Tree, m: ClientMsg): ST.Tree {
    if m.store.topic.Some? && m.retain then
      Subscriptions.Retain(root, Tokens.Tokens(m.store.topic.value), Keeps(m.store))
    else root
  }

  // The clients with another list and other packets sent for client i.
  function Moved(cs: seq<Client>, i: nat, msgs: seq<ClientMsg>, sent: seq<Sent>): seq<Client> {
    if i < |cs| then cs[i := cs[i].(box := cs[i].box.(msgs := msgs), sent := sent)] else cs
  }

  // The message has been given to the clients as they were at the start; `all` is client i's list after that.
  ghost predicate GivenOut(base: map<nat, seq<Client>>, start: map<nat, seq<Client>>, s: Stored, d: Delivery,
                           hits: seq<ST.Hit>, i: nat,
                           all: seq<ClientMsg>) {
    && s.id in start && MidsInRange(start[s.id]) && base == map[s.id := DeliverAll(d, start[s.id], hits)]
    && i < |base[s.id]| && all == base[s.id][i].box.msgs
  }

  // The message to release, if there is one, is known to `start`, where client i's list is the old one.
  ghost predicate StartsFrom(start: map<nat, seq<Client>>, was: seq<ClientMsg>, i: nat, count: nat, mid: nat) {
    var at := IndexOf(was, mid, In, 0);
    && i < count
    && (at < |was| ==> was[at].store.id in start && |start[was[at].store.id]| == count
                       && start[was[at].store.id][i].box.msgs == was)
  }

  // What a release has done besides walking the list.
  ghost predicate Sofar(i: nat, cfg: Config, lim: Limits, upgrade: bool, mid: nat, now: int,
                        start: map<nat, seq<Client>>, was: seq<ClientMsg>,
                        t0: ST.Tree, deleted: bool, base: map<nat, seq<Client>>, all: seq<ClientMsg>, tree: ST.Tree) {
    var at := IndexOf(was, mid, In, 0);
    if deleted then
      && at < |was| && tree == Filed(t0, was[at])
      && GivenOut(base, start, was[at].store, Publishing(cfg, lim, upgrade, was[at].store, now),
                  Finds(t0, was[at].store), i, all)
    else base == start && tree == t0 && all == was
  }

  lemma {:induction false} StartEntry(i: nat, cfg: Config, lim: Limits, upgrade: bool, mid: nat, now: int,
                                      start: map<nat, seq<Client>>,
                                      was: seq<ClientMsg>, t0: ST.Tree, base: map<nat, seq<Client>>,
                                      all: seq<ClientMsg>, tree: ST.Tree, count: nat)
    requires Sofar(i, cfg, lim, upgrade, mid, now, start, was, t0, false, base, all, tree)
    requires StartsFrom(start, was, i, count, mid)
    ensures var at := IndexOf(was, mid, In, 0);
      && base == start && tree == t0 && all == was
      && (at < |was| ==> was[at].store.id in base && |base[was[at].store.id]| == count && i < count
                         && base[was[at].store.id][i].box.msgs == was)
  {
  }

  lemma {:induction false} SofarGiven(i: nat, cfg: Config, lim: Limits, upgrade: bool, mid: nat, now: int,
                                      start: map<nat, seq<Client>>,
                                      was: seq<ClientMsg>, t0: ST.Tree, base: map<nat, seq<Client>>,
                                      all: seq<ClientMsg>, tree: ST.Tree)
    requires var at := IndexOf(was, mid, In, 0);
      at < |was| && tree == Filed(t0, was[at])
    requires var s := was[IndexOf(was, mid, In, 0)].store;
      && s.id in start && MidsInRange(start[s.id])
      && base == map[s.id := DeliverAll(Publishing(cfg, lim, upgrade, s, now), start[s.id], Finds(t0, s))]
      && i < |start[s.id]| && base[s.id][i].box.msgs == all
    ensures Sofar(i, cfg, lim, upgrade, mid, now, start, was, t0, true, base, all, tree)
  {
  }

  // A release has looked at the first k entries of `all`: the old list, with the echo of the
  // delivery behind it once the message has gone out.
  ghost predicate Progress(was: seq<ClientMsg>, all: seq<ClientMsg>, k: nat, deleted: bool, mid: nat, n: nat, now: int,
                           sent0: seq<Sent>, list: seq<ClientMsg>, sent: seq<Sent>, tail: nat) {
    && k <= |all| && tail == |ReleasedFirst(all, k, mid, n, now)|
    && list == ReleasedFirst(all, k, mid, n, now) + all[k..] && sent == sent0 + Pubrecs(all[..k], n)
    && var at := IndexOf(was, mid, In, 0);
    && (forall j :: at < j < |all| ==> !Is(all[j], mid, In))
    && if deleted then at < |was| && at < k else k <= at && all == was
  }

  lemma {:induction false} ProgressStart(was: seq<ClientMsg>, mid: nat, n: nat, now: int, sent: seq<Sent>)
    requires var at := IndexOf(was, mid, In, 0); forall j :: at < j < |was| ==> !Is(was[j], mid, In)
    ensures Progress(was, was, 0, false, mid, n, now, sent, was, sent, 0)
  {
    ReleaseStart(was, mid, n, now);
  }

  // One more entry is looked at: it is the message to release, or the progress goes on.
  lemma {:induction false} ProgressLook(was: seq<ClientMsg>, all: seq<ClientMsg>, k: nat, deleted: bool, mid: nat,
                                        n: nat, now: int,
                                        sent0: seq<Sent>, list: seq<ClientMsg>, sent: seq<Sent>, tail: nat)
    requires Progress(was, all, k, deleted, mid, n, now, sent0, list, sent, tail) && tail < |list|
    ensures var list' := if k < n then list[tail := Promote(list[tail], now)] else list;
      var sent' := if k < n then sent + PubrecFor(list[tail]) else sent;
      && k < |all| && (list[tail].state != Queued ==> list' == list && sent' == sent)
      && (Is(list[tail], mid, In) <==> Is(list'[tail], mid, In))
      && (Is(list'[tail], mid, In) ==> Matched(was, k, mid, n, now, sent0, list', sent', tail))
      && (Is(list'[tail], mid, In) ==> !deleted && all == was)
      && (!Is(list'[tail], mid, In) ==> Progress(was, all, k + 1, deleted, mid, n, now, sent0, list', sent', tail + 1))
  {
    hide ReleasedFirst, Pubrecs, PubrecFor, Promote;
    assert k < |all| && list[tail] == all[k];
    ReleaseEntry(all, k, mid, n, now);
    PromoteUnqueued(all[k], mid, now);
    assert (sent0 + Pubrecs(all[..k], n)) + (if k < n then PubrecFor(all[k]) else []) ==
           sent0 + Pubrecs(all[..k + 1], n);
    assert sent + [] == sent && list[tail := list[tail]] == list;
  }

  lemma {:induction false} PromoteUnqueued(m: ClientMsg, mid: nat, now: int)
    ensures m.state != Queued ==> Promote(m, now) == m && PubrecFor(m) == []
    ensures Is(m, mid, In) <==> Is(Promote(m, now), mid, In)
  {
  }

  // The first k entries when they have been looked at.
  function ReleasedFirst(all: seq<ClientMsg>, k: nat, mid: nat, n: nat, now: int): seq<ClientMsg>
    requires k <= |all|
  {
    ReleasedList(all[..k], mid, n, now)
  }

  lemma {:induction false} ReleaseStart(all: seq<ClientMsg>, mid: nat, n: nat, now: int)
    ensures ReleasedFirst(all, 0, mid, n, now) == [] && [] + all[0..] == all && Pubrecs(all[..0], n) == []
    ensures forall s: seq<Sent> :: s + [] == s
  {
  }

  // Entry k, before and after it is looked at.
  lemma {:induction false} ReleaseEntry(all: seq<ClientMsg>, k: nat, mid: nat, n: nat, now: int)
    requires k < |all|
    ensures var kept, next := ReleasedFirst(all, k, mid, n, now), ReleasedFirst(all, k + 1, mid, n, now);
      var list, m := kept + all[k..], if k < n then Promote(all[k], now) else all[k];
      && list[|kept|] == all[k]
      && next == kept + (if Is(all[k], mid, In) then [] else [m])
      && (!Is(all[k], mid, In) ==> list[|kept| := m] == next + all[k + 1..])
      && Pubrecs(all[..k + 1], n) == Pubrecs(all[..k], n) + if k < n then PubrecFor(all[k]) else []
  {
    var m := if k < n then Promote(all[k], now) else all[k];
    assert all[..k + 1][..k] == all[..k];
    assert PromoteFirst(all[..k + 1], n, now) == PromoteFirst(all[..k], n, now) + [m];
    WithoutConcat(PromoteFirst(all[..k], n, now), [m], mid, In);
    assert Without([m], mid, In) == if Is(all[k], mid, In) then [] else [m] by { assert [m][..0] == []; }
  }

  // Up to the message released the list has only changed in place.
  lemma {:induction false} ReleaseShape(was: seq<ClientMsg>, k: nat, list: seq<ClientMsg>, mid: nat, n: nat, now: int)
    requires k < |was| && forall j :: 0 <= j < k ==> !Is(was[j], mid, In)
    requires var kept := ReleasedFirst(was, k, mid, n, now);
      list == (kept + was[k..])[|kept| := if k < n then Promote(was[k], now) else was[k]]
    ensures Count12(list) == Count12(was)
  {
    WithoutNone(PromoteFirst(was[..k], n, now), mid, In);
    SameShape(was, list);
  }

  // ... where it goes, with what its own delivery may have put at the end.
  lemma {:induction false} ReleaseMatch(was: seq<ClientMsg>, k: nat, list: seq<ClientMsg>, echo: seq<ClientMsg>,
                                        mid: nat, n: nat, now: int)
    requires k < |was| && Is(was[k], mid, In) && AllOut(echo)
    requires forall j :: k < j < |was| ==> !Is(was[j], mid, In)
    requires var kept := ReleasedFirst(was, k, mid, n, now);
      list == (kept + was[k..])[|kept| := if k < n then Promote(was[k], now) else was[k]]
    ensures var all, tail := was + echo, |ReleasedFirst(was, k, mid, n, now)|;
      && RemoveAt(list + echo, tail) == ReleasedFirst(all, k + 1, mid, n, now) + all[k + 1..]
      && |ReleasedFirst(all, k + 1, mid, n, now)| == tail
      && all[..k + 1] == was[..k + 1]
      && forall j :: k < j < |all| ==> !Is(all[j], mid, In)
  {
    var all := was + echo;
    assert all[..k + 1] == was[..k + 1];
    assert ReleasedFirst(all, k + 1, mid, n, now) == ReleasedFirst(was, k + 1, mid, n, now) by { hide ReleasedList; }
    hide ReleasedFirst, Promote, Pubrecs, PubrecFor, RemoveAt;
    ReleaseEntry(was, k, mid, n, now);
    var kept, m := ReleasedFirst(was, k, mid, n, now), if k < n then Promote(was[k], now) else was[k];
    assert kept + [] == kept;
    MatchLeaves(kept, was, k, m, echo);
  }

  lemma {:induction false} MatchLeaves(kept: seq<ClientMsg>, was: seq<ClientMsg>, k: nat, m: ClientMsg,
                                       echo: seq<ClientMsg>)
    requires k < |was|
    ensures RemoveAt((kept + was[k..])[|kept| := m] + echo, |kept|) == kept + (was + echo)[k + 1..]
  {
  }

  lemma {:induction false} DeliverMoved(d: Delivery, cs: seq<Client>, i: nat, list: seq<ClientMsg>, log: seq<Sent>,
                                        hits: seq<ST.Hit>)
    returns (echo: seq<ClientMsg>)
    requires MidsInRange(cs) && i < |cs| && Count12(list) == Count12(cs[i].box.msgs)
    ensures AllOut(echo) && DeliverAll(d, cs, hits)[i].box.msgs == cs[i].box.msgs + echo
    ensures MidsInRange(Moved(cs, i, list, log))
    ensures DeliverAll(d, Moved(cs, i, list, log), hits) == Moved(DeliverAll(d, cs, hits), i, list + echo, log)
  {
    echo := DeliverElsewhere(d, cs[i].connected, cs[i].id, cs[i].box, list, hits);
  }

  lemma {:induction false} MovedTwice(cs: seq<Client>, i: nat, a: seq<ClientMsg>, s: seq<Sent>, b: seq<ClientMsg>,
                                      t: seq<Sent>)
    ensures Moved(Moved(cs, i, a, s), i, b, t) == Moved(cs, i, b, t)
    ensures |Moved(cs, i, a, s)| == |cs|
    ensures i < |cs| ==> Moved(cs, i, a, s)[i].box.msgs == a && Moved(cs, i, a, s)[i].sent == s
  {
  }

  // The message to release has been found in position k and has not left yet.
  ghost predicate Matched(was: seq<ClientMsg>, k: nat, mid: nat, n: nat, now: int, sent0: seq<Sent>,
                          list: seq<ClientMsg>, sent: seq<Sent>, tail: nat) {
    && k < |was| && k == IndexOf(was, mid, In, 0) && tail == |ReleasedFirst(was, k, mid, n, now)|
    && (forall j :: k < j < |was| ==> !Is(was[j], mid, In))
    && list == (ReleasedFirst(was, k, mid, n, now) + was[k..])[tail := if k < n then Promote(was[k], now) else was[k]]
    && sent == sent0 + Pubrecs(was[..k + 1], n)
  }

  lemma {:induction false} MatchedEntry(was: seq<ClientMsg>, k: nat, mid: nat, n: nat, now: int, sent0: seq<Sent>,
                                        list: seq<ClientMsg>, sent: seq<Sent>, tail: nat, root: ST.Tree)
    requires Matched(was, k, mid, n, now, sent0, list, sent, tail)
    ensures Count12(list) == Count12(was) && tail < |list| && list[tail].store == was[k].store
    ensures Filed(root, list[tail]) == Filed(root, was[k]) && k == IndexOf(was, mid, In, 0) && k < |was|
  {
    ReleaseShape(was, k, list, mid, n, now);
  }

  lemma {:induction false} ProgressMatch(was: seq<ClientMsg>, k: nat, mid: nat, n: nat, now: int, sent0: seq<Sent>,
                                         list: seq<ClientMsg>, sent: seq<Sent>, tail: nat, echo: seq<ClientMsg>)
    requires Matched(was, k, mid, n, now, sent0, list, sent, tail) && AllOut(echo)
    ensures tail < |list|
    ensures Progress(was, was + echo, k + 1, true, mid, n, now, sent0, RemoveAt(list + echo, tail), sent, tail)
  {
    ReleaseMatch(was, k, list, echo, mid, n, now);
  }

  lemma {:induction false} ProgressEnd(was: seq<ClientMsg>, all: seq<ClientMsg>, k: nat, deleted: bool, mid: nat,
                                       n: nat, now: int,
                                       sent0: seq<Sent>, list: seq<ClientMsg>, sent: seq<Sent>, tail: nat)
    requires Progress(was, all, k, deleted, mid, n, now, sent0, list, sent, tail)
    requires (tail >= |list| || (deleted && k > n))
    ensures list == ReleasedList(all, mid, n, now) && sent == sent0 + Pubrecs(all, n)
    ensures deleted <==> IndexOf(was, mid, In, 0) < |was|
    ensures !deleted ==> all == was
  {
    ReleaseEnd(all, k, mid, n, now);
  }

  // The rest of the list needs no look.
  lemma {:induction false} ReleaseEnd(all: seq<ClientMsg>, k: nat, mid: nat, n: nat, now: int)
    requires k <= |all| && (k == |all| || k >= n) && forall j :: k <= j < |all| ==> !Is(all[j], mid, In)
    ensures ReleasedFirst(all, k, mid, n, now) + all[k..] == ReleasedList(all, mid, n, now)
    ensures Pubrecs(all[..k], n) == Pubrecs(all, n)
  {
    assert PromoteFirst(all, n, now) == PromoteFirst(all[..k], n, now) + all[k..];
    WithoutConcat(PromoteFirst(all[..k], n, now), all[k..], mid, In);
    WithoutNone(all[k..], mid, In);
    PubrecsEnd(all, k, n);
  }

  lemma {:induction false} PubrecsEnd(all: seq<ClientMsg>, k: nat, n: nat)
    requires k <= |all| && (k == |all| || k >= n)
    ensures Pubrecs(all[..k], n) == Pubrecs(all, n)
    decreases |all|
  {
    if k < |all| {
      PubrecsEnd(all[..|all| - 1], k, n);
      assert all[..|all| - 1][..k] == all[..k];
      assert Pubrecs(all, n) == Pubrecs(all[..|all| - 1], n) + [];
    } else {
      assert all[..k] == all;
    }
  }

  // What a retained publication leaves at its node: itself, or nothing if it is empty.
  function Keeps(s: Stored): Option<nat> {
    if s.payload != [] then Some(s.id) else None
  }

  // ----- Queueing retained messages -----

  function WithId(stored: seq<Stored>, id: nat): (s: Stored)
    requires id in Ids(stored)
    ensures s.id == id
  {
    var last := |stored| - 1;
    if stored[last].id == id then stored[last] else BackIds(stored, id); WithId(stored[..last], id)
  }

  lemma {:induction false} BackIds(stored: seq<Stored>, id: nat)
    requires id in Ids(stored) && stored != [] && stored[|stored| - 1].id != id
    ensures id in Ids(stored[..|stored| - 1])
  {
    var k :| 0 <= k < |stored| && stored[k].id == id;
    assert stored[..|stored| - 1][k].id == id;
  }

  lemma {:induction false} StepBack(stored: seq<Stored>, k: nat, id: nat)
    requires k < |stored| && id in Ids(stored[..k + 1]) && stored[k].id != id
    ensures k > 0 && id in Ids(stored[..k]) && WithId(stored[..k + 1], id) == WithId(stored[..k], id)
  {
    assert stored[..k + 1][..k] == stored[..k];
    BackIds(stored[..k + 1], id);
  }

  ghost predicate OffersKnown(offers: seq<RetainSearch.Offer>, stored: seq<Stored>) {
    forall k :: 0 <= k < |offers| ==> offers[k].id in Ids(stored)
  }

  lemma {:induction false} OfferKnown(offers: seq<RetainSearch.Offer>, stored: seq<Stored>, n: nat)
    requires OffersKnown(offers, stored) && n < |offers|
    ensures offers[n].id in Ids(stored)
  {
  }

  // The messages behind the offers.
  ghost function Named(offers: seq<RetainSearch.Offer>, stored: seq<Stored>): (r: seq<Stored>)
    requires OffersKnown(offers, stored)
    ensures |r| == |offers| && forall k :: 0 <= k < |r| ==> r[k] == WithId(stored, offers[k].id)
  {
    seq(|offers|, k requires 0 <= k < |offers| => WithId(stored, offers[k].id))
  }

  lemma {:induction false} KnownAt(t: ST.Tree, ids: set<nat>, path: seq<string>)
    requires SH.RetainedKnown(t, ids) && ST.RetainedAt(t, path).Some?
    ensures ST.RetainedAt(t, path).value in ids
    decreases |path|
  {
    if path != [] {
      KnownAt(t.children[ST.FindChild(t.children, path[0], 0)], ids, path[1..]);
    }
  }

  // The entries are the copies of the offered messages that there is room for, in their order.
  ghost predicate RetainedCopies(o: Offering, count: nat, all: seq<Stored>, entries: seq<ClientMsg>) {
    OffersAt(o, count, all, Taken(o, count, all, |all|), entries)
  }

  lemma {:induction false} CopiesOfAll(o: Offering, count: nat, all: seq<Stored>, entries: seq<ClientMsg>)
    requires OffersAt(o, count, all, Taken(o, count, all, |all|), entries)
    ensures RetainedCopies(o, count, all, entries)
  {
  }

  lemma {:induction false} OfferNothing(o: Offering, box: Inbox, all: seq<Stored>)
    requires box.lastMid <= MAX_MID
    ensures OfferAll(o, box, all[..0]) == box && all[..|all|] == all
  {
  }

  lemma {:induction false} OfferMore(o: Offering, box: Inbox, all: seq<Stored>, n: nat)
    requires n < |all| && box.lastMid <= MAX_MID
    ensures OfferAll(o, box, all[..n + 1]) == OfferOne(o, OfferAll(o, box, all[..n]), all[n])
  {
    assert all[..n + 1][..n] == all[..n];
  }

  // _retain_process (src/subs.c:591-613).
  method RetainProcess(c: Context, store: MessageStore, o: Offering, s: Stored)
    requires c.Valid() && store.Knows(c.msgs) && s.id in store.refs && o.subQos <= 2 && o.connected == c.connected
    requires Routable(c.msgs)
    modifies c, store
    ensures c.Valid() && store.Knows(c.msgs) && store.dests == old(store.dests) && Routable(c.msgs)
    ensures old(c.lastMid) <= MAX_MID && Box(c, []) == OfferOne(o, old(Box(c, [])), s)
    ensures c.connected == old(c.connected) && c.sent == old(c.sent)
    ensures RefsFollow(old(store.refs), old(c.msgs), store.refs, c.msgs)
  {
    hide ListWellFormed, Count12, RefsFollow, Routable, Admit;
    var qos := s.qos;
    if qos > o.subQos {
      qos := o.subQos;
    }
    var mid := 0;
    if qos > 0 {
      mid := c.MidGenerate();
    }
    var rc := c.Insert(store, o.cfg, o.lim, mid, Out, qos, true, s, o.now);
    OutRoutable(old(c.msgs), c.msgs);
  }

  lemma {:induction false} OutRoutable(was: seq<ClientMsg>, msgs: seq<ClientMsg>)
    requires Routable(was)
    requires msgs == was || (|msgs| == |was| + 1 && msgs[..|was|] == was && msgs[|was|].direction == Out)
    ensures Routable(msgs)
  {
    hide PlainTopic;
    assert forall k :: 0 <= k < |was| ==> msgs[k] == msgs[..|was|][k] || msgs == was;
  }

  // What GiveClient's calls do is what a delivery says.
  lemma {:induction false} InsertIsGiven(d: Delivery, connected: bool, id: string, msgs: seq<ClientMsg>, node: nat,
                                         lastMid: nat,
                                         dests: map<nat, seq<string>>, hit: ST.Hit)
    requires lastMid <= MAX_MID && hit.leaf.client == id && d.stored.id in dests
    ensures var qos := MsgQos(d, hit.leaf.qos);
      var mid := if qos > 0 then NextMid(lastMid) else 0;
      var v := InsertVerdict(d.cfg, d.lim, connected, dests[d.stored.id], id, Count12(msgs), Out, qos, false);
      var dests' := InsertedDests(dests, d.stored.id, id, v.Admitted? && Remembers(d.cfg, Out, false));
      && Given(d, connected, id, Inbox(msgs, node, lastMid, id in dests[d.stored.id]), hit) ==
           Inbox(InsertedList(msgs, v, NewEntry(node, d.stored, mid, qos, false, d.now, Out, Invalid)),
                 node + (if v.Admitted? then 1 else 0), if qos > 0 then NextMid(lastMid) else lastMid,
                 id in dests'[d.stored.id])
      && (Routable(msgs) ==>
            Routable(InsertedList(msgs, v, NewEntry(node, d.stored, mid, qos, false, d.now, Out, Invalid))))
      && dests'.Keys == dests.Keys
      && (forall k :: k in dests && k != d.stored.id ==> dests'[k] == dests[k])
      && (forall x :: x != id ==> (x in dests'[d.stored.id] <==> x in dests[d.stored.id]))
  {
  }

  lemma {:induction false} GivenOthers(d: Delivery, connected: bool, id: string, box: Inbox, hit: ST.Hit)
    requires box.lastMid <= MAX_MID && hit.leaf.client != id
    ensures Given(d, connected, id, box, hit) == box
  {
  }

  // What a delivery of the message with these recipients sees of a client.
  ghost function Box(c: Context, dests: seq<string>): Inbox
    reads c
  {
    Inbox(c.msgs, c.nextNode, c.lastMid, c.id in dests)
  }

  lemma {:induction false} KnowsList(stored: seq<Stored>, count: int, lastId: nat, refs: map<nat, int>,
                                     dests: map<nat, seq<string>>,
                                     lists: seq<seq<ClientMsg>>, tree: ST.Tree, i: nat)
    requires StoreOk(stored, count, lastId, refs, dests, lists, tree) && i < |lists|
    ensures refs.Keys == dests.Keys && forall k :: 0 <= k < |lists[i]| ==> lists[i][k].store.id in refs
  {
    assert KnownList(lists[i], refs.Keys);
  }

  // One list changes, and the counters follow.
  lemma {:induction false} StoreMoves(stored: seq<Stored>, count: int, lastId: nat, refs: map<nat, int>,
                                      dests: map<nat, seq<string>>,
                                      lists: seq<seq<ClientMsg>>, tree: ST.Tree, i: nat,
                                      refs': map<nat, int>, dests': map<nat, seq<string>>, list: seq<ClientMsg>)
    requires StoreOk(stored, count, lastId, refs, dests, lists, tree) && i < |lists|
    requires RefsFollow(refs, lists[i], refs', list) && refs'.Keys == dests'.Keys
    requires forall k :: 0 <= k < |list| ==> list[k].store.id in refs'
    ensures StoreOk(stored, count, lastId, refs', dests', lists[i := list], tree)
  {
    ListMoves(refs, refs', lists, i, list, tree);
  }

  // What StoreOk says without the counters of removed messages.
  lemma {:induction false} StoreLess(stored: seq<Stored>, count: int, lastId: nat, refs: map<nat, int>,
                                     dests: map<nat, seq<string>>,
                                     lists: seq<seq<ClientMsg>>, tree: ST.Tree)
    requires StoreOk(stored, count, lastId, refs, dests, lists, tree)
    ensures var r := Referenced(stored, refs);
      && StoreOk(r, |r|, lastId, Kept(refs, refs), Kept(dests, refs), lists, tree)
      && forall s :: s in stored ==> (s in r <==> ListRefs(lists, s.id) + ST.RetainedRefs(tree, s.id) > 0)
  {
    LessStored(stored, refs, lastId);
    LessReferred(stored, refs, lists, tree, lastId);
    LessKnown(lists, refs, tree);
    RetainedStays(refs, Kept(refs, refs), lists, tree, tree);
    hide StoreWellFormed, KnownLists, Referenced, ListRefs, SH.RetainedKnown, ST.RetainedRefs;
  }

  lemma {:induction false} LessStored(stored: seq<Stored>, refs: map<nat, int>, lastId: nat)
    requires StoreWellFormed(stored, refs.Keys, lastId)
    ensures StoreWellFormed(Referenced(stored, refs), Kept(refs, refs).Keys, lastId)
  {
    var r := Referenced(stored, refs);
    ReferencedDistinct(stored, refs);
    hide Referenced, Ids, Kept;
    forall i | 0 <= i < |r| ensures r[i] in stored {
      assert r[i] in r;
      ReferencedExact(stored, refs, r[i]);
    }
    forall id ensures id in Ids(r) <==> id in Kept(refs, refs) { LessId(stored, refs, id); }
  }

  lemma {:induction false} LessId(stored: seq<Stored>, refs: map<nat, int>, id: nat)
    requires refs.Keys == Ids(stored)
    ensures id in Ids(Referenced(stored, refs)) <==> id in Kept(refs, refs)
  {
    var r := Referenced(stored, refs);
    hide Referenced;
    if id in Kept(refs, refs) {
      var i :| 0 <= i < |stored| && stored[i].id == id;
      ReferencedExact(stored, refs, stored[i]);
      assert stored[i] in r;
    }
    if id in Ids(r) {
      var i :| 0 <= i < |r| && r[i].id == id;
      ReferencedExact(stored, refs, r[i]);
      assert r[i] in stored;
    }
  }

  lemma {:induction false} LessReferred(stored: seq<Stored>, refs: map<nat, int>, lists: seq<seq<ClientMsg>>,
                                        tree: ST.Tree, lastId: nat)
    requires StoreWellFormed(stored, refs.Keys, lastId) && RefsRight(refs, lists, tree)
    ensures forall s :: s in stored ==>
      (s in Referenced(stored, refs) <==> ListRefs(lists, s.id) + ST.RetainedRefs(tree, s.id) > 0)
  {
    forall s | s in stored
      ensures s in Referenced(stored, refs) <==> ListRefs(lists, s.id) + ST.RetainedRefs(tree, s.id) > 0
    {
      ReferencedExact(stored, refs, s);
      var i :| 0 <= i < |stored| && stored[i] == s;
      assert stored[i].id in Ids(stored);
    }
  }

  lemma {:induction false} LessKnown(lists: seq<seq<ClientMsg>>, refs: map<nat, int>, tree: ST.Tree)
    requires KnownLists(lists, refs.Keys) && RefsRight(refs, lists, tree)
    ensures KnownLists(lists, Kept(refs, refs).Keys)
  {
    forall j | 0 <= j < |lists|
      ensures KnownList(lists[j], Kept(refs, refs).Keys)
    {
      forall i | 0 <= i < |lists[j]|
        ensures lists[j][i].store.id in Kept(refs, refs)
      {
        assert KnownList(lists[j], refs.Keys);
        EntryCounts(lists[j], i);
        ListCounts(lists, j, lists[j][i].store.id);
      }
    }
  }

  function Forget<V>(m: map<nat, V>, id: nat): map<nat, V> {
    map k: nat | k in m && k != id :: m[k]
  }

  // After a sweep over the first k messages: the counters of those that went are gone.
  function KeptAfter<V>(m: map<nat, V>, refs: map<nat, int>, stored: seq<Stored>, k: nat): map<nat, V>
    requires k <= |stored|
  {
    map id: nat | id in m && !(id in refs && refs[id] == 0 && id in Ids(stored[..k])) :: m[id]
  }

  // The list without message r.
  function Unlinked(list: seq<Stored>, r: nat): seq<Stored>
    requires r < |list|
  {
    list[..r] + list[r + 1..]
  }

  // The list when its first k messages have been looked at.
  function SweptList(was: seq<Stored>, k: nat, refs: map<nat, int>): seq<Stored>
    requires k <= |was|
  {
    Referenced(was[..k], refs) + was[k..]
  }

  function Seen(was: seq<Stored>, k: nat, refs: map<nat, int>): nat
    requires k <= |was|
  {
    |Referenced(was[..k], refs)|
  }

  // While messages of the list are left, so are messages of the old one.
  lemma {:induction false} SweepMore(was: seq<Stored>, k: nat, refs: map<nat, int>)
    requires k <= |was| && Seen(was, k, refs) < |SweptList(was, k, refs)|
    ensures k < |was|
  {
  }

  predicate IdsKnown(stored: seq<Stored>, refs: map<nat, int>) {
    && (forall i :: 0 <= i < |stored| ==> stored[i].id in refs)
    && (forall i, j :: 0 <= i < j < |stored| ==> stored[i].id != stored[j].id)
    && refs.Keys == Ids(stored)
  }

  lemma {:induction false} IdsAllKnown(stored: seq<Stored>, refs: map<nat, int>, lastId: nat)
    requires StoreWellFormed(stored, refs.Keys, lastId)
    ensures IdsKnown(stored, refs)
  {
    forall i | 0 <= i < |stored| ensures stored[i].id in refs { assert stored[i].id in Ids(stored); }
  }

  lemma {:induction false} SweepNothing(was: seq<Stored>, refs: map<nat, int>, dests: map<nat, seq<string>>)
    ensures Seen(was, 0, refs) == 0 && SweptList(was, 0, refs) == was
    ensures KeptAfter(refs, refs, was, 0) == refs && KeptAfter(dests, refs, was, 0) == dests
  {
  }

  // Message k, before it is looked at.
  lemma {:induction false} SweepLook(was: seq<Stored>, k: nat, refs: map<nat, int>)
    requires k < |was| && IdsKnown(was, refs)
    ensures var r, list := Seen(was, k, refs), SweptList(was, k, refs);
      r < |list| && list[r] == was[k] && was[k].id in KeptAfter(refs, refs, was, k)
      && was[k].id in refs && KeptAfter(refs, refs, was, k)[was[k].id] == refs[was[k].id]
  {
    SweepOneList(was, k, refs);
    IdsStep(was, k);
    hide Seen, SweptList;
  }

  // ... and after, unlinked or passed over.
  lemma {:induction false} SweepGone(was: seq<Stored>, k: nat, refs: map<nat, int>, dests: map<nat, seq<string>>)
    requires k < |was| && IdsKnown(was, refs) && dests.Keys == refs.Keys && was[k].id in refs && refs[was[k].id] == 0
    ensures var r, list := Seen(was, k, refs), SweptList(was, k, refs);
      r < |list| && Unlinked(list, r) == SweptList(was, k + 1, refs)
    ensures Seen(was, k + 1, refs) == Seen(was, k, refs)
    ensures KeptAfter(refs, refs, was, k + 1) == Forget(KeptAfter(refs, refs, was, k), was[k].id)
    ensures KeptAfter(dests, refs, was, k + 1) == Forget(KeptAfter(dests, refs, was, k), was[k].id)
  {
    SweepOneList(was, k, refs);
    hide Seen, SweptList, Forget;
    KeptMore(refs, refs, was, k);
    KeptMore(dests, refs, was, k);
  }

  lemma {:induction false} SweepPassed(was: seq<Stored>, k: nat, refs: map<nat, int>, dests: map<nat, seq<string>>)
    requires k < |was| && IdsKnown(was, refs) && dests.Keys == refs.Keys && was[k].id in refs && refs[was[k].id] != 0
    ensures SweptList(was, k, refs) == SweptList(was, k + 1, refs) && Seen(was, k + 1, refs) == Seen(was, k, refs) + 1
    ensures KeptAfter(refs, refs, was, k + 1) == KeptAfter(refs, refs, was, k)
    ensures KeptAfter(dests, refs, was, k + 1) == KeptAfter(dests, refs, was, k)
  {
    SweepOneList(was, k, refs);
    hide Seen, SweptList, Forget;
    KeptMore(refs, refs, was, k);
    KeptMore(dests, refs, was, k);
  }

  lemma {:induction false} SweepOneList(was: seq<Stored>, k: nat, refs: map<nat, int>)
    requires k < |was| && was[k].id in refs
    ensures var r, list, gone := Seen(was, k, refs), SweptList(was, k, refs), refs[was[k].id] == 0;
      && r < |list| && list[r] == was[k]
      && (gone ==> list[..r] + list[r + 1..] == SweptList(was, k + 1, refs))
      && (!gone ==> list == SweptList(was, k + 1, refs))
      && Seen(was, k + 1, refs) == r + (if gone then 0 else 1)
  {
    assert was[..k + 1][..k] == was[..k];
    var r, list := Referenced(was[..k], refs), Referenced(was[..k], refs) + was[k..];
    assert list[..|r|] == r && list[|r| + 1..] == was[k + 1..];
    assert r + [was[k]] + was[k + 1..] == list;
    assert r + [] == r;
  }

  lemma {:induction false} KeptMore<V>(m: map<nat, V>, refs: map<nat, int>, was: seq<Stored>, k: nat)
    requires k < |was| && IdsKnown(was, refs)
    ensures KeptAfter(m, refs, was, k + 1) ==
      if refs[was[k].id] == 0 then Forget(KeptAfter(m, refs, was, k), was[k].id) else KeptAfter(m, refs, was, k)
  {
    IdsStep(was, k);
    hide Ids;
  }

  lemma {:induction false} IdsStep(was: seq<Stored>, k: nat)
    requires k < |was| && forall i, j :: 0 <= i < j < |was| ==> was[i].id != was[j].id
    ensures Ids(was[..k + 1]) == Ids(was[..k]) + {was[k].id} && was[k].id !in Ids(was[..k])
  {
    forall id ensures id in Ids(was[..k + 1]) <==> id in Ids(was[..k]) || id == was[k].id {
      if id in Ids(was[..k]) { var i :| 0 <= i < k && was[..k][i].id == id; assert was[..k + 1][i].id == id; }
      if id == was[k].id { assert was[..k + 1][k].id == id; }
    }
  }

  lemma {:induction false} SweptAll(was: seq<Stored>, k: nat, refs: map<nat, int>, dests: map<nat, seq<string>>)
    requires k <= |was| && |SweptList(was, k, refs)| <= Seen(was, k, refs)
    requires IdsKnown(was, refs) && dests.Keys == refs.Keys
    ensures SweptList(was, k, refs) == Referenced(was, refs)
    ensures KeptAfter(refs, refs, was, k) == Kept(refs, refs) && KeptAfter(dests, refs, was, k) == Kept(dests, refs)
  {
    assert k == |was| && was[..k] == was && was[k..] == [];
  }

  function Kept<V>(m: map<nat, V>, refs: map<nat, int>): map<nat, V> {
    map id: nat | id in m && !(id in refs && refs[id] == 0) :: m[id]
  }

  // Retained messages below t have a pointer, so they stay known.
  lemma {:induction false} RetainedStays(refs: map<nat, int>, refs': map<nat, int>, lists: seq<seq<ClientMsg>>,
                                         root: ST.Tree, t: ST.Tree)
    requires RefsRight(refs, lists, root) && refs' == Kept(refs, refs) && SH.RetainedKnown(t, refs.Keys)
    requires forall id: nat :: ST.RetainedRefs(t, id) <= ST.RetainedRefs(root, id)
    ensures SH.RetainedKnown(t, refs'.Keys)
    decreases t
  {
    forall i | 0 <= i < |t.children|
      ensures SH.RetainedKnown(t.children[i], refs'.Keys)
    {
      forall id: nat ensures ST.RetainedRefs(t.children[i], id) <= ST.RetainedRefs(root, id) {
        ChildRefs(t, i, |t.children|, id);
      }
      RetainedStays(refs, refs', lists, root, t.children[i]);
    }
    if t.retained.Some? {
      assert ST.RetainedRefs(t, t.retained.value) > 0;
    }
  }

  lemma {:induction false} ChildRefs(t: ST.Tree, i: nat, k: nat, id: nat)
    requires i < k <= |t.children|
    ensures ST.RetainedRefs(t.children[i], id) <= ST.RetainedRefsFirst(t, k, id)
    decreases k
  {
    if i < k - 1 { ChildRefs(t, i, k - 1, id); }
  }

  // The message store agrees with everything that points into it.
  ghost predicate StoreOk(stored: seq<Stored>, count: int, lastId: nat, refs: map<nat, int>,
                          dests: map<nat, seq<string>>,
                          lists: seq<seq<ClientMsg>>, tree: ST.Tree) {
    && refs.Keys == dests.Keys
    && StoreWellFormed(stored, refs.Keys, lastId) && count == |stored|
    && KnownLists(lists, refs.Keys) && SH.RetainedKnown(tree, refs.Keys)
    && RefsRight(refs, lists, tree)
  }

  // One message more, which nothing points to.
  lemma {:induction false} StoreMore(stored: seq<Stored>, count: int, lastId: nat, refs: map<nat, int>,
                                     dests: map<nat, seq<string>>,
                                     lists: seq<seq<ClientMsg>>, tree: ST.Tree, s: Stored)
    requires StoreOk(stored, count, lastId, refs, dests, lists, tree) && s.id == lastId + 1
    ensures s.id !in refs
    ensures StoreOk([s] + stored, count + 1, lastId + 1, refs[s.id := 0], dests[s.id := []], lists, tree)
  {
    FreshId(stored, refs.Keys, lastId);
    RefsMore(refs, lists, tree, s.id);
    KnownMore(lists, tree, refs.Keys, s.id);
    StoredMore(stored, refs.Keys, lastId, s);
    assert refs[s.id := 0].Keys == refs.Keys + {s.id} == dests[s.id := []].Keys;
  }

  lemma {:induction false} RefsMore(refs: map<nat, int>, lists: seq<seq<ClientMsg>>, tree: ST.Tree, id: nat)
    requires RefsRight(refs, lists, tree) && id !in refs
    requires KnownLists(lists, refs.Keys) && SH.RetainedKnown(tree, refs.Keys)
    ensures RefsRight(refs[id := 0], lists, tree)
  {
    NoListRefsOutside(lists, refs.Keys, id);
    NoRetainedOutside(tree, refs.Keys, id);
  }

  // The tree that mqtt3_db_open builds, with nothing in it and nothing stored.
  lemma {:induction false} NothingSubscribed()
    ensures Subscriptions.RootWellFormed(Subscriptions.Opened) && SubsOwned(Subscriptions.Opened, [])
    ensures ST.CountLeaves(Subscriptions.Opened) == 0 && ST.CountRetained(Subscriptions.Opened) == 0
    ensures StoreOk([], 0, 0, map[], map[], [], Subscriptions.Opened)
  {
    Subscriptions.OpenedAgrees();
  }

  lemma {:induction false} FreshId(stored: seq<Stored>, ids: set<nat>, lastId: nat)
    requires StoreWellFormed(stored, ids, lastId)
    ensures lastId + 1 !in ids
  {
  }

  lemma {:induction false} StoredMore(stored: seq<Stored>, ids: set<nat>, lastId: nat, s: Stored)
    requires StoreWellFormed(stored, ids, lastId) && s.id == lastId + 1
    ensures StoreWellFormed([s] + stored, ids + {s.id}, lastId + 1)
  {
    var r := [s] + stored;
    assert forall i :: 0 < i < |r| ==> r[i] == stored[i - 1];
    forall id ensures id in Ids(r) <==> id in ids || id == s.id {
      if id in ids { var i :| 0 <= i < |stored| && stored[i].id == id; assert r[i + 1].id == id; }
      if id == s.id { assert r[0].id == id; }
    }
  }

  lemma {:induction false} KnownMore(lists: seq<seq<ClientMsg>>, t: ST.Tree, ids: set<nat>, id: nat)
    requires KnownLists(lists, ids) && SH.RetainedKnown(t, ids)
    ensures KnownLists(lists, ids + {id}) && SH.RetainedKnown(t, ids + {id})
    decreases t
  {
    forall i | 0 <= i < |t.children| ensures SH.RetainedKnown(t.children[i], ids + {id}) {
      KnownMore(lists, t.children[i], ids, id);
    }
  }
}
