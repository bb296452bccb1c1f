/**
 Who gets a publication, and what: said by the filters that clients have subscribed with and the
 topics they match, without the search that finds them or the code that queues the entries.
 */
module Served {
  import opened Topics
  import opened MessageQueue
  import opened ClientContext
  import opened FanOut
  import opened Subscriptions
  import ST = SubTree
  import Tokens

  // The client has subscribed with this filter, and the filter matches the topic.
  predicate Reaches(root: ST.Tree, filter: seq<string>, client: string, topic: seq<string>) {
    filter != [] && ST.Lookup(root, Filed(filter), client).Some? && Tokens.TokensMatch(filter, topic)
  }

  // The entry is the copy that the client's subscription with this filter asks for.
  predicate CopyFor(d: Delivery, root: ST.Tree, filter: seq<string>, c: Client, topic: seq<string>, count: nat,
                    m: ClientMsg) {
    Reaches(root, filter, c.id, topic) && IsCopy(d, c.connected, count, ST.Lookup(root, Filed(filter), c.id).value, m)
  }

  // The subscription matches, and the limits admit its copy as things stand.
  predicate RoomFor(d: Delivery, root: ST.Tree, filter: seq<string>, c: Client, topic: seq<string>) {
    && Reaches(root, filter, c.id, topic)
    && HasRoom(d.cfg, d.lim, c.connected, Count12(c.box.msgs),
               CopyQos(d, ST.Lookup(root, Filed(filter), c.id).value))
  }

  // The new entries are the copies for these filters, each for another one.
  predicate ForFilters(d: Delivery, root: ST.Tree, topic: seq<string>, c: Client, news: seq<ClientMsg>,
                       fs: seq<seq<string>>) {
    && |fs| == |news| && (forall i, j :: 0 <= i < j < |fs| ==> fs[i] != fs[j])
    && forall k :: 0 <= k < |fs| ==> CopyFor(d, root, fs[k], c, topic, Count12(c.box.msgs + news[..k]), news[k])
  }

  ghost predicate Every(d: Delivery, root: ST.Tree, topic: seq<string>, c: Client, fs: seq<seq<string>>) {
    forall f :: Reaches(root, f, c.id, topic) ==> f in fs
  }

  /**
   What a publication adds to a client's list. Every new entry carries the message with the smaller
   of its QoS and that of a matching subscription (or with the latter, if QoS is upgraded). There
   is at most one, however many subscriptions match, and none if the client has been given this
   message before; there is one if the limits admit the copy for any of them. If the configuration
   allows duplicates there may be one for each, and there is if nothing is limited.
   */
  ghost predicate NewEntries(d: Delivery, root: ST.Tree, topic: seq<string>, c: Client, news: seq<ClientMsg>) {
    && (exists fs ::
          && ForFilters(d, root, topic, c, news, fs)
          && (d.cfg.allowDuplicates && c.connected && (d.lim.maxInflight == 0 || d.lim.maxQueued == 0) ==>
                Every(d, root, topic, c, fs)))
    && (!d.cfg.allowDuplicates ==> |news| <= if c.box.already then 0 else 1)
    && ((d.cfg.allowDuplicates || !c.box.already) && news == [] ==> forall f :: !RoomFor(d, root, f, c, topic))
  }

  // The client's list afterwards.
  ghost predicate ServedTo(d: Delivery, root: ST.Tree, topic: seq<string>, c: Client, msgs: seq<ClientMsg>) {
    c.box.msgs <= msgs && NewEntries(d, root, topic, c, msgs[|c.box.msgs|..])
  }

  // A client no filter of which matches is given nothing.
  lemma {:induction false} UnmatchedUnserved(d: Delivery, root: ST.Tree, topic: seq<string>, c: Client,
                                             msgs: seq<ClientMsg>)
    requires ServedTo(d, root, topic, c, msgs) && forall f :: !Reaches(root, f, c.id, topic)
    ensures msgs == c.box.msgs
  {
    hide Reaches;
    var news := msgs[|c.box.msgs|..];
    assert msgs == c.box.msgs + news;
    var fs :| ForFilters(d, root, topic, c, news, fs);
    if news != [] { FirstFilter(d, root, topic, c, news, fs); }
  }

  lemma {:induction false} FirstFilter(d: Delivery, root: ST.Tree, topic: seq<string>, c: Client,
                                       news: seq<ClientMsg>, fs: seq<seq<string>>)
    requires ForFilters(d, root, topic, c, news, fs) && news != []
    ensures CopyFor(d, root, fs[0], c, topic, Count12(c.box.msgs), news[0]) && Reaches(root, fs[0], c.id, topic)
  {
    hide Reaches, IsCopy, Count12;
    assert c.box.msgs + news[..0] == c.box.msgs;
    assert CopyFor(d, root, fs[0], c, topic, Count12(c.box.msgs + news[..0]), news[0]);
  }

  /**
   Without duplicates, a client that has not been given the message yet gets exactly one entry for
   it if the limits admit the copy for any matching subscription, and none otherwise.
   */
  lemma {:induction false} OneEntryPerSubscriber(d: Delivery, root: ST.Tree, topic: seq<string>, c: Client)
    requires RootWellFormed(root) && TopicTokens(topic) && c.box.lastMid <= MAX_MID
    requires !d.cfg.allowDuplicates && !c.box.already
    ensures var msgs := Deliver(d, c.connected, c.id, c.box, Recipients(root, topic)).msgs;
      if exists f :: RoomFor(d, root, f, c, topic) then
        && |msgs| == |c.box.msgs| + 1 && msgs[..|c.box.msgs|] == c.box.msgs
        && exists f :: CopyFor(d, root, f, c, topic, Count12(c.box.msgs), msgs[|c.box.msgs|])
      else msgs == c.box.msgs
  {
    hide Recipients, Deliver, RootWellFormed, IsCopy, HasRoom, Reaches, CopyQos, Count12;
    DeliverServes(d, root, topic, c);
    var msgs := Deliver(d, c.connected, c.id, c.box, Recipients(root, topic)).msgs;
    var news := msgs[|c.box.msgs|..];
    assert msgs == c.box.msgs + news;
    var fs :| ForFilters(d, root, topic, c, news, fs);
    if news != [] {
      FirstFilter(d, root, topic, c, news, fs);
      CopyHasRoom(d, root, fs[0], c, topic, news[0]);
    }
  }

  lemma {:induction false} CopyHasRoom(d: Delivery, root: ST.Tree, filter: seq<string>, c: Client, topic: seq<string>,
                                       m: ClientMsg)
    requires CopyFor(d, root, filter, c, topic, Count12(c.box.msgs), m)
    ensures RoomFor(d, root, filter, c, topic)
  {
    hide HasRoom, Count12;
  }

  // A delivery to the leaves that the search finds serves the clients so.
  lemma {:induction false} DeliverServes(d: Delivery, root: ST.Tree, topic: seq<string>, c: Client)
    requires RootWellFormed(root) && TopicTokens(topic) && c.box.lastMid <= MAX_MID
    ensures ServedTo(d, root, topic, c, Deliver(d, c.connected, c.id, c.box, Recipients(root, topic)).msgs)
  {
    hide Recipients, Deliver, RootWellFormed, IsCopy, HasRoom, Reaches, CopyQos, Count12, Copies;
    var hits := Recipients(root, topic);
    var news, at := DeliverAdds(d, c.connected, c.id, c.box, hits);
    assert (c.box.msgs + news)[|c.box.msgs|..] == news;
    var fs := CopiedFilters(d, root, topic, c, hits, news, at);
    if news == [] && (d.cfg.allowDuplicates || !c.box.already) {
      forall f ensures !RoomFor(d, root, f, c, topic) {
        if RoomFor(d, root, f, c, topic) {
          var i := HitOf(root, topic, c, f);
        }
      }
    }
    if d.cfg.allowDuplicates && c.connected && (d.lim.maxInflight == 0 || d.lim.maxQueued == 0) {
      forall f | Reaches(root, f, c.id, topic) ensures f in fs {
        var i := HitOf(root, topic, c, f);
        assert i in at;
        var k :| 0 <= k < |at| && at[k] == i;
        assert fs[k] == f;
      }
    }
  }

  // The hit of a matching filter.
  lemma {:induction false} HitOf(root: ST.Tree, topic: seq<string>, c: Client, filter: seq<string>) returns (i: nat)
    requires RootWellFormed(root) && TopicTokens(topic) && Reaches(root, filter, c.id, topic)
    ensures var hits := Recipients(root, topic);
      i < |hits| && hits[i] == ST.Hit(filter, ST.Leaf(c.id, ST.Lookup(root, Filed(filter), c.id).value))
  {
    var h := ST.Hit(filter, ST.Leaf(c.id, ST.Lookup(root, Filed(filter), c.id).value));
    RecipientExact(root, topic, h);
    hide Recipients, RootWellFormed;
    i :| 0 <= i < |Recipients(root, topic)| && Recipients(root, topic)[i] == h;
  }

  lemma {:induction false} CopiedFilters(d: Delivery, root: ST.Tree, topic: seq<string>, c: Client, hits: seq<ST.Hit>,
                                         news: seq<ClientMsg>, at: seq<nat>) returns (fs: seq<seq<string>>)
    requires RootWellFormed(root) && TopicTokens(topic) && hits == Recipients(root, topic)
    requires Copies(d, c.connected, c.id, c.box.msgs, hits, news, at)
    ensures ForFilters(d, root, topic, c, news, fs)
    ensures |fs| == |at| && forall k :: 0 <= k < |at| ==> at[k] < |hits| && fs[k] == hits[at[k]].path
  {
    hide Recipients, RootWellFormed, IsCopy, Count12, TopicTokens, Reaches;
    fs := seq(|at|, k requires 0 <= k < |at| => hits[at[k]].path);
    forall k | 0 <= k < |at|
      ensures CopyFor(d, root, fs[k], c, topic, Count12(c.box.msgs + news[..k]), news[k])
    {
      HitReaches(root, topic, hits[at[k]]);
    }
    forall i, j | 0 <= i < j < |at| ensures fs[i] != fs[j] {
      HitsApart(root, topic, at[i], at[j]);
    }
  }

  lemma {:induction false} HitReaches(root: ST.Tree, topic: seq<string>, h: ST.Hit)
    requires RootWellFormed(root) && TopicTokens(topic) && h in Recipients(root, topic)
    ensures Reaches(root, h.path, h.leaf.client, topic)
    ensures ST.Lookup(root, Filed(h.path), h.leaf.client) == Some(h.leaf.qos)
  {
    RecipientExact(root, topic, h);
  }

  // Two hits of one client are for different filters.
  lemma {:induction false} HitsApart(root: ST.Tree, topic: seq<string>, i: nat, j: nat)
    requires RootWellFormed(root) && TopicTokens(topic) && i < j < |Recipients(root, topic)|
    ensures var hits := Recipients(root, topic);
      hits[i].leaf.client == hits[j].leaf.client ==> hits[i].path != hits[j].path
  {
    var hits := Recipients(root, topic);
    RecipientsOnce(root, topic);
    HitReaches(root, topic, hits[i]);
    HitReaches(root, topic, hits[j]);
    hide Recipients, RootWellFormed, ST.Lookup;
  }

  // ----- What is retained -----

  /**
   A publication leaves the subscriptions as they are. If it is to be retained, the node of its
   topic retains its message, or nothing if it has no payload, unless the top-level node does not
   exist; every other node retains what it did.
   */
  ghost predicate RetainsFor(root: ST.Tree, root': ST.Tree, topic: seq<string>, retain: bool, s: Stored)
    requires topic != []
  {
    && (forall p, c :: ST.Lookup(root', p, c) == ST.Lookup(root, p, c))
    && forall p :: ST.RetainedAt(root', p) ==
         if retain && p == Filed(topic) && HasTop(root, topic) then (if s.payload == [] then None else Some(s.id))
         else ST.RetainedAt(root, p)
  }

  lemma {:induction false} NothingRetained(root: ST.Tree, topic: seq<string>, s: Stored)
    requires topic != []
    ensures RetainsFor(root, root, topic, false, s)
  {
  }

  lemma {:induction false} MessageRetained(root: ST.Tree, topic: seq<string>, s: Stored)
    requires RootWellFormed(root) && TopicTokens(topic)
    ensures RetainsFor(root, Retain(root, topic, if s.payload != [] then Some(s.id) else None), topic, true, s)
  {
    hide Retain, RootWellFormed, ST.Lookup, ST.RetainedAt, HasTop, Filed;
    var value := if s.payload != [] then Some(s.id) else None;
    var root' := Retain(root, topic, value);
    forall p, c ensures ST.Lookup(root', p, c) == ST.Lookup(root, p, c) { LookupRetain(root, topic, value, p, c); }
    forall p
      ensures ST.RetainedAt(root', p) ==
        if p == Filed(topic) && HasTop(root, topic) then value else ST.RetainedAt(root, p)
    {
      LookupRetain(root, topic, value, p, "");
    }
  }
}
