/**
 The broker's side of the hand-over is the database of Broker: handling a QoS 2 PUBLISH or a
 PUBREL there, writing packets out, noticing lost connections and taking a client back are steps of
 the state machine in Handover, with the packets that they put on the link.
 */
module HandoverBroker {
  import opened Topics
  import opened MessageQueue
  import opened ClientContext
  import opened Handover
  import opened Broker
  import opened FanOut
  import ClientLibrary
  import ST = SubTree
  import HandoverLink
  import Subscriptions
  import Tokens

  // What the broker holds for the client, by id and tag, in order.
  function Tags(held: seq<Held>): (r: seq<(nat, nat)>)
    ensures |r| == |held| && forall k :: 0 <= k < |r| ==> r[k] == (held[k].mid, held[k].stored.tag)
  {
    seq(|held|, k requires 0 <= k < |held| => (held[k].mid, held[k].stored.tag))
  }

  // The client's list in the database holds the publications that the state machine's list holds.
  ghost predicate IsBroker(list: seq<ClientMsg>, s: Sys) {
    HeldWellFormed(Inbound(list)) && HeldWellFormed(Inbound(s.list)) && Tags(Inbound(list)) == Tags(Inbound(s.list))
  }

  // Inbound entries are QoS 2 and wait for PUBREL, or for their PUBREC to be sent again; the other
  // entries never do.
  predicate StateFits(m: ClientMsg) {
    if m.direction == In then m.qos == 2 && (m.state == WaitForPubrel || m.state == SendPubrec)
    else m.state != WaitForPubrel && m.state != SendPubrec && m.state != ResendPubcomp
  }

  predicate StatesFit(list: seq<ClientMsg>) {
    forall k :: 0 <= k < |list| ==> StateFits(list[k])
  }

  // Client i of the database is the broker's side of the state machine.
  ghost predicate Serves(db: Database, i: nat, s: Sys)
    reads db, db.contexts
  {
    && i < |db.contexts| && db.contexts[i].connected == s.brokerUp
    && IsBroker(db.contexts[i].msgs, s) && StatesFit(db.contexts[i].msgs)
  }

  // Packets for the client, as the state machine sees them.
  function OnWire(p: Sent): ClientLibrary.Packet {
    match p
    case SentPubrec(mid) => ClientLibrary.Pubrec(mid)
    case SentPubcomp(mid) => ClientLibrary.Pubcomp(mid)
    case _ => ClientLibrary.Other
  }

  function AllOnWire(sent: seq<Sent>): (r: seq<ClientLibrary.Packet>)
    ensures |r| == |sent| && forall k :: 0 <= k < |r| ==> r[k] == OnWire(sent[k])
  {
    seq(|sent|, k requires 0 <= k < |sent| => OnWire(sent[k]))
  }

  // What the broker handed to its link is what the link to the client gained.
  predicate Gained(s: Sys, s': Sys, before: seq<Sent>, after: seq<Sent>) {
    && |before| <= |after| && after[..|before|] == before
    && s'.down == s.down + if s.clientUp then AllOnWire(after[|before|..]) else []
  }

  lemma {:induction false} GainedOne(s: Sys, s': Sys, before: seq<Sent>, p: Sent)
    requires s'.down == s.down + if s.clientUp then [OnWire(p)] else []
    ensures Gained(s, s', before, before + [p])
  {
    assert (before + [p])[|before|..] == [p] && AllOnWire([p]) == [OnWire(p)];
  }

  lemma {:induction false} GainedNothing(s: Sys, s': Sys, sent: seq<Sent>)
    requires s'.down == s.down
    ensures Gained(s, s', sent, sent)
  {
    assert sent[|sent|..] == [] && s.down + [] == s.down;
  }

  lemma {:induction false} InboundAppend(list: seq<ClientMsg>, m: ClientMsg)
    ensures Inbound(list + [m]) == Inbound(list) + if m.direction == In then [Held(m.mid, m.store)] else []
  {
    assert (list + [m])[..|list|] == list;
  }

  lemma {:induction false} TagsAppend(held: seq<Held>, h: Held)
    ensures Tags(held + [h]) == Tags(held) + [(h.mid, h.stored.tag)]
  {
  }

  // Both lists find an id, or neither does; and then under the same tag.
  lemma {:induction false} SameHeld(list: seq<ClientMsg>, s: Sys, mid: nat)
    requires IsBroker(list, s)
    ensures mid in HeldView(list) <==> mid in HeldView(s.list)
    ensures mid in HeldView(list) ==> HeldView(list)[mid] == HeldView(s.list)[mid]
  {
    var a, b := Inbound(list), Inbound(s.list);
    ViewOfHas(a);
    ViewOfHas(b);
    assert forall k :: 0 <= k < |a| ==> Tags(a)[k] == Tags(b)[k];
    if mid in ViewOf(a) { var k :| 0 <= k < |a| && a[k].mid == mid; assert b[k].mid == mid; }
    if mid in ViewOf(b) { var k :| 0 <= k < |b| && b[k].mid == mid; assert a[k].mid == mid; }
  }

  lemma {:induction false} SameUnheld(a: seq<Held>, b: seq<Held>, mid: nat)
    requires Tags(a) == Tags(b)
    ensures Tags(Unheld(a, mid)) == Tags(Unheld(b, mid))
    decreases |a|
  {
    assert |a| == |b| && forall k :: 0 <= k < |a| ==> Tags(a)[k] == Tags(b)[k];
    if a != [] {
      var a', b', x, y := a[..|a| - 1], b[..|b| - 1], a[|a| - 1], b[|b| - 1];
      assert Tags(a') == Tags(b');
      SameUnheld(a', b', mid);
      assert x.mid == y.mid && x.stored.tag == y.stored.tag;
      if x.mid == mid {
        assert Unheld(a', mid) + [] == Unheld(a', mid) && Unheld(b', mid) + [] == Unheld(b', mid);
      } else {
        TagsAppend(Unheld(a', mid), x);
        TagsAppend(Unheld(b', mid), y);
      }
    }
  }

  // ----- PUBLISH -----

  lemma {:induction false} PublishStep(list: seq<ClientMsg>, s: Sys, m: ClientMsg, tag: nat, dup: bool)
    requires IsBroker(list, s) && m.direction == In && m.mid == m.store.sourceMid && m.store.tag == tag && s.brokerUp
    ensures var s' := BrokerHandles(s, ClientLibrary.Publish(m.mid, tag, dup));
      && IsBroker(if m.mid in HeldView(list) then list else list + [m], s')
      && s'.brokerUp && s'.down == s.down + if s.clientUp then [ClientLibrary.Pubrec(m.mid)] else []
  {
    SameHeld(list, s, m.mid);
    HeldViewFind(s.list, m.mid);
    assert s.down + [] == s.down;
    if m.mid !in HeldView(list) {
      var x := InboundEntry(s, m.mid, tag, WaitForPubrel);
      HeldViewAppend(list, m);
      HeldViewAppend(s.list, x);
      InboundAppend(list, m);
      InboundAppend(s.list, x);
      TagsAppend(Inbound(list), Held(m.mid, m.store));
      TagsAppend(Inbound(s.list), Held(x.mid, x.store));
    }
  }

  // mqtt3_handle_publish for a QoS 2 packet that is not refused, without limits on the messages in
  // flight.
  method ReceivesPublish(db: Database, i: nat, cfg: Config, upgrade: bool, sizeLimit: nat, access: Access, mid: nat,
                         topic: string, retain: bool, payload: seq<bv8>, tag: nat, dup: bool, now: int, ghost s: Sys)
    requires db.Valid() && Serves(db, i, s) && Enabled(s, BrokerReceive)
    requires s.up[0] == ClientLibrary.Publish(mid, tag, dup) && Receive(topic, 2, payload, sizeLimit, access) == Accept
    modifies db`stored, db`msgStoreCount, db`lastDbId, db.subs.Repr, db.counters, db.store, db.contexts
    ensures db.Valid() && db.contexts == old(db.contexts) && db.subs.tree == old(db.subs.tree)
    ensures Serves(db, i, Next(s, BrokerReceive))
    ensures Gained(s, Next(s, BrokerReceive), old(db.contexts[i].sent), db.contexts[i].sent)
  {
    hide Database.Valid, Context.Valid, Receive, IsBroker, HeldView, HeldWellFormed, BrokerHandles, Count12,
      DeliverAll, MidsInRange, Subscriptions.Retain, Subscriptions.Recipients, Tokens.Tokens, Database.Clients, Moved,
      Gained, StatesFit;
    ghost var list, sent := db.contexts[i].msgs, db.contexts[i].sent;
    ghost var node, s1 := db.contexts[i].nextNode, s.(up := s.up[1..]);
    SameBroker(list, s, s1);
    HeldFound(list, s1, mid);
    var rc, stored := db.HandlePublish(i, cfg, NoLimits, upgrade, sizeLimit, access, mid, topic, 2, retain, payload,
                                       tag, now);
    ghost var fresh_ := Stored(old(db.lastDbId) + 1, tag, old(db.contexts[i].id), mid, Some(topic), 2, retain, payload);
    ghost var m := NewEntry(node, fresh_, mid, 2, retain, now, In, WaitForPubrel);
    PublishStep(list, s1, m, tag, dup);
    OneMoreFits(list, m);
    GainedOne(s, Next(s, BrokerReceive), sent, SentPubrec(mid));
  }

  lemma {:induction false} SameBroker(list: seq<ClientMsg>, s: Sys, s1: Sys)
    requires IsBroker(list, s) && s1.list == s.list
    ensures IsBroker(list, s1)
  {
  }

  lemma {:induction false} OneMoreFits(list: seq<ClientMsg>, m: ClientMsg)
    requires StatesFit(list) && StateFits(m)
    ensures StatesFit(list + [m])
  {
  }

  lemma {:induction false} HeldFound(list: seq<ClientMsg>, s: Sys, mid: nat)
    requires IsBroker(list, s)
    ensures mid in HeldView(list) <==> IndexOf(list, mid, In, 0) < |list|
    ensures mid in HeldView(list) ==> HeldView(list)[mid] == list[IndexOf(list, mid, In, 0)].store.tag
  {
    HeldViewFind(list, mid);
  }

  // ----- PUBREL -----

  lemma {:induction false} ReleaseStepHeld(list: seq<ClientMsg>, echo: seq<ClientMsg>, s: Sys, mid: nat, dup: bool,
                                           now: int)
    requires IsBroker(list, s) && AllOut(echo)
    ensures var s' := BrokerHandles(s, ClientLibrary.Pubrel(mid, dup));
      && IsBroker(ReleasedList(list + echo, mid, 0, now), s')
      && s'.routed == s.routed + (if mid in HeldView(list) then [HeldView(list)[mid]] else [])
  {
    hide Inbound, Tags, Unheld, HeldView, HeldWellFormed, Without, ReleasedList, Pubrecs, AllOut;
    SameHeld(list, s, mid);
    HeldViewFind(s.list, mid);
    EchoHeld(list, echo);
    UnlimitedRelease(list + echo, mid, now);
    UnlimitedRelease(s.list, mid, 0);
    InboundWithout(list + echo, mid);
    InboundWithout(s.list, mid);
    SameUnheld(Inbound(list), Inbound(s.list), mid);
    UnheldDistinct(Inbound(list), mid);
    UnheldDistinct(Inbound(s.list), mid);
    if mid !in HeldView(s.list) { NothingUnheld(s.list, mid); }
    assert s.routed + [] == s.routed;
  }

  lemma {:induction false} UnlimitedRelease(list: seq<ClientMsg>, mid: nat, now: int)
    ensures ReleasedList(list, mid, 0, now) == Without(list, mid, In) && Pubrecs(list, 0) == []
    decreases |list|
  {
    assert PromoteFirst(list, 0, now) == list;
    if list != [] { UnlimitedRelease(list[..|list| - 1], mid, now); }
  }

  // Outbound entries hold nothing.
  lemma {:induction false} EchoHeld(list: seq<ClientMsg>, echo: seq<ClientMsg>)
    requires AllOut(echo)
    ensures Inbound(list + echo) == Inbound(list)
    decreases |echo|
  {
    if echo == [] {
      assert list + echo == list;
    } else {
      var shorter, m := echo[..|echo| - 1], echo[|echo| - 1];
      EchoHeld(list, shorter);
      assert list + echo == (list + shorter) + [m];
      InboundAppend(list + shorter, m);
    }
  }

  lemma {:induction false} NothingUnheld(list: seq<ClientMsg>, mid: nat)
    requires HeldWellFormed(Inbound(list)) && mid !in HeldView(list)
    ensures Unheld(Inbound(list), mid) == Inbound(list)
  {
    ViewOfHas(Inbound(list));
    UnheldNone(Inbound(list), mid);
  }

  lemma {:induction false} UnheldNone(held: seq<Held>, mid: nat)
    requires forall k :: 0 <= k < |held| ==> held[k].mid != mid
    ensures Unheld(held, mid) == held
    decreases |held|
  {
    if held != [] { UnheldNone(held[..|held| - 1], mid); }
  }

  lemma {:induction false} PubrelWire(s: Sys, mid: nat, dup: bool)
    requires s.brokerUp
    ensures var s' := BrokerHandles(s, ClientLibrary.Pubrel(mid, dup));
      s'.brokerUp && s'.down == s.down + if s.clientUp then [ClientLibrary.Pubcomp(mid)] else []
  {
    assert s.down + [] == s.down;
    hide ReleasedList, Without;
  }

  lemma {:induction false} WithoutFits(list: seq<ClientMsg>, mid: nat)
    requires StatesFit(list)
    ensures StatesFit(Without(list, mid, In))
    decreases |list|
  {
    if list != [] {
      assert StatesFit(list[..|list| - 1]) && StateFits(list[|list| - 1]);
      WithoutFits(list[..|list| - 1], mid);
      hide StateFits;
    }
  }

  // A delivery puts entries behind the list that are not inbound.
  lemma {:induction false} DeliveredFits(d: Delivery, connected: bool, id: string, box: Inbox, hits: seq<ST.Hit>)
    requires box.lastMid <= MAX_MID && StatesFit(box.msgs)
    ensures StatesFit(Deliver(d, connected, id, box, hits).msgs)
    decreases |hits|
  {
    if hits != [] {
      var shorter := hits[..|hits| - 1];
      DeliveredFits(d, connected, id, box, shorter);
      GivenFits(d, connected, id, Deliver(d, connected, id, box, shorter), hits[|hits| - 1]);
      hide Given, StatesFit;
    }
  }

  lemma {:induction false} GivenFits(d: Delivery, connected: bool, id: string, box: Inbox, hit: ST.Hit)
    requires box.lastMid <= MAX_MID && StatesFit(box.msgs)
    ensures StatesFit(Given(d, connected, id, box, hit).msgs)
  {
    hide Count12;
  }

  // _mosquitto_handle_pubrel without limits: the held publication, if there is one, is given out
  // once and leaves the list, and its tag joins the routed ones. That it is routed means that every
  // client with a matching subscription has been served.
  method ReceivesPubrel(db: Database, i: nat, cfg: Config, upgrade: bool, mid: nat, dup: bool, now: int, ghost s: Sys)
    requires db.Valid() && Serves(db, i, s) && Enabled(s, BrokerReceive) && s.up[0] == ClientLibrary.Pubrel(mid, dup)
    modifies db.subs.Repr, db.counters, db.store, db.contexts
    ensures db.Valid() && db.contexts == old(db.contexts) && Serves(db, i, Next(s, BrokerReceive))
    ensures Gained(s, Next(s, BrokerReceive), old(db.contexts[i].sent), db.contexts[i].sent)
    ensures var was := old(db.contexts[i].msgs); var at := IndexOf(was, mid, In, 0);
      Next(s, BrokerReceive).routed == s.routed + if at < |was| then [was[at].store.tag] else []
    ensures IndexOf(old(db.contexts[i].msgs), mid, In, 0) < |old(db.contexts[i].msgs)| ==>
              && db.MessageReleased(i, cfg, NoLimits, upgrade, mid, now)
              && db.HeldPublished(i, cfg, NoLimits, upgrade, mid, now)
  {
    hide Database.Valid, Context.Valid, IsBroker, HeldView, HeldWellFormed, BrokerHandles, ReleasedList, Pubrecs,
      Database.MessageReleased, Database.NothingReleased, Database.HeldPublished, AllOut, Gained, StatesFit;
    ghost var list, sent, s1 := db.contexts[i].msgs, db.contexts[i].sent, s.(up := s.up[1..]);
    SameBroker(list, s, s1);
    HeldFound(list, s1, mid);
    db.HandlePubrel(i, cfg, NoLimits, upgrade, mid, now);
    ghost var at := IndexOf(list, mid, In, 0);
    ghost var echo: seq<ClientMsg> := [];
    if at < |list| {
      echo := Echo(db, i, cfg, upgrade, mid, now);
    } else {
      NoEcho(db, i, mid, now);
      NoneOut();
    }
    assert list + [] == list;
    ReleaseStepHeld(list, echo, s1, mid, dup, now);
    UnlimitedRelease(list + echo, mid, now);
    WithoutFits(list + echo, mid);
    PubrelWire(s1, mid, dup);
    GainedOne(s, Next(s, BrokerReceive), sent, SentPubcomp(mid));
    assert sent + [] == sent;
  }

  twostate lemma NoEcho(db: Database, new i: nat, new mid: nat, new now: int)
    requires db.contexts == old(db.contexts) && i < |db.contexts| && db.NothingReleased(i, NoLimits, mid, now)
    ensures db.contexts[i].msgs == ReleasedList(old(db.contexts[i].msgs), mid, 0, now)
    ensures db.contexts[i].sent == old(db.contexts[i].sent) + Pubrecs(old(db.contexts[i].msgs), 0) + [SentPubcomp(mid)]
    ensures db.contexts[i].connected == old(db.contexts[i].connected)
  {
  }

  // What the delivery of the client's own message put into its list.
  twostate lemma Echo(db: Database, new i: nat, new cfg: Config, new upgrade: bool, new mid: nat, new now: int)
    returns (echo: seq<ClientMsg>)
    requires db.contexts == old(db.contexts) && i < |db.contexts|
    requires db.MessageReleased(i, cfg, NoLimits, upgrade, mid, now) && StatesFit(old(db.contexts[i].msgs))
    ensures AllOut(echo) && StatesFit(old(db.contexts[i].msgs) + echo)
    ensures db.contexts[i].msgs == ReleasedList(old(db.contexts[i].msgs) + echo, mid, 0, now)
    ensures db.contexts[i].sent ==
      old(db.contexts[i].sent) + Pubrecs(old(db.contexts[i].msgs) + echo, 0) + [SentPubcomp(mid)]
    ensures db.contexts[i].connected == old(db.contexts[i].connected)
  {
    hide StatesFit, ReleasedList, Pubrecs;
    var was := old(db.contexts[i].msgs);
    var at := IndexOf(was, mid, In, 0);
    var before := old(db.Clients(was[at].store.id));
    var d, hits := Publishing(cfg, NoLimits, upgrade, was[at].store, now), Finds(old(db.subs.tree), was[at].store);
    echo := DeliverElsewhere(d, before[i].connected, before[i].id, before[i].box, before[i].box.msgs, hits);
    DeliveredFits(d, before[i].connected, before[i].id, before[i].box, hits);
    assert db.Clients(was[at].store.id)[i].connected == before[i].connected;
  }

  // ----- Writing out -----

  predicate HoldsMid(list: seq<ClientMsg>, mid: nat) {
    exists k :: 0 <= k < |list| && list[k].direction == In && list[k].mid == mid
  }

  // A PUBREC for an entry of the list, or a packet of the other direction.
  predicate RetryOk(list: seq<ClientMsg>, p: Sent) {
    p.SentPublish? || p.SentPubrel? || (p.SentPubrec? && HoldsMid(list, p.mid))
  }

  lemma {:induction false} PassSends(rest: seq<ClientMsg>, seen: nat, room: nat, now: int)
    requires StatesFit(rest)
    ensures var p := WritePass(rest, 0, seen, room, now);
      && StatesFit(p.msgs) && SameInbound(rest, p.msgs)
      && forall k :: 0 <= k < |p.sent| ==> RetryOk(rest, p.sent[k])
    decreases |rest|
  {
    if rest != [] {
      var m, tail := rest[0], rest[1..];
      var seen' := seen + if m.direction == In then 1 else 0;
      HeadFits(rest);
      assert rest == [m] + tail;
      assert SameInbound(rest, rest);
      hide StateFits, StatesFit, HoldsMid, SameInbound;
      if Wants(m).None? {
        PassSends(tail, seen', room, now);
        PassBehind([m], [], m, tail, WritePass(tail, 0, seen', room, now));
      } else if room > 0 {
        PassSends(tail, seen', room - 1, now);
        SentFits(m, now);
        PassBehind(ToSeq(AfterSend(m, now)), [Wants(m).value], m, tail, WritePass(tail, 0, seen', room - 1, now));
      }
    }
  }

  lemma {:induction false} HeadFits(rest: seq<ClientMsg>)
    requires rest != [] && StatesFit(rest)
    ensures StateFits(rest[0]) && StatesFit([rest[0]]) && StatesFit(rest[1..])
    ensures forall n, seen :: !Admissible(rest[0], n, seen)
    ensures Wants(rest[0]).Some? ==> RetryOk([rest[0]], Wants(rest[0]).value)
  {
    assert [rest[0]][0] == rest[0];
  }

  // The entry after its packet has been sent.
  lemma {:induction false} SentFits(m: ClientMsg, now: int)
    requires StateFits(m) && Wants(m).Some?
    ensures StatesFit(ToSeq(AfterSend(m, now))) && SameInbound([m], ToSeq(AfterSend(m, now)))
  {
    assert [m][..0] == [];
    if AfterSend(m, now).Some? { assert [AfterSend(m, now).value][..0] == []; }
  }

  lemma {:induction false} PassBehind(msgs: seq<ClientMsg>, sent: seq<Sent>, m: ClientMsg, tail: seq<ClientMsg>,
                                      p: Pass)
    requires StatesFit(msgs) && StatesFit(p.msgs) && SameInbound([m], msgs) && SameInbound(tail, p.msgs)
    requires forall k :: 0 <= k < |sent| ==> RetryOk([m], sent[k])
    requires forall k :: 0 <= k < |p.sent| ==> RetryOk(tail, p.sent[k])
    ensures var r := Behind(msgs, sent, p);
      && StatesFit(r.msgs) && SameInbound([m] + tail, r.msgs)
      && forall k :: 0 <= k < |r.sent| ==> RetryOk([m] + tail, r.sent[k])
  {
    HandoverLink.InboundConcat([m], tail);
    HandoverLink.InboundConcat(msgs, p.msgs);
    hide StateFits, Inbound, HoldsMid;
    forall mid ensures HoldsMid([m], mid) || HoldsMid(tail, mid) ==> HoldsMid([m] + tail, mid) {
      HoldsMore(m, tail, mid);
    }
  }

  lemma {:induction false} HoldsMore(m: ClientMsg, tail: seq<ClientMsg>, mid: nat)
    ensures HoldsMid([m], mid) || HoldsMid(tail, mid) ==> HoldsMid([m] + tail, mid)
  {
    if HoldsMid([m], mid) { assert ([m] + tail)[0] == m; }
    if k :| 0 <= k < |tail| && tail[k].direction == In && tail[k].mid == mid { assert ([m] + tail)[k + 1] == tail[k]; }
  }

  lemma {:induction false} InboundIndex(list: seq<ClientMsg>, j: nat) returns (k: nat)
    requires j < |Inbound(list)|
    ensures k < |list| && list[k].direction == In && list[k].mid == Inbound(list)[j].mid
    decreases |list|
  {
    if j < |Inbound(list[..|list| - 1])| { k := InboundIndex(list[..|list| - 1], j); } else { k := |list| - 1; }
  }

  lemma {:induction false} IndexInbound(list: seq<ClientMsg>, k: nat) returns (j: nat)
    requires k < |list| && list[k].direction == In
    ensures j < |Inbound(list)| && Inbound(list)[j].mid == list[k].mid
    decreases |list|
  {
    if k < |list| - 1 { j := IndexInbound(list[..|list| - 1], k); } else { j := |Inbound(list)| - 1; }
  }

  // The state machine's list has the entry too.
  lemma {:induction false} HeldThere(list: seq<ClientMsg>, s: Sys, mid: nat) returns (k: nat)
    requires IsBroker(list, s) && HoldsMid(list, mid)
    ensures k < |s.list| && s.list[k].direction == In && s.list[k].mid == mid
  {
    var at :| 0 <= at < |list| && list[at].direction == In && list[at].mid == mid;
    var j := IndexInbound(list, at);
    assert Tags(Inbound(list))[j] == Tags(Inbound(s.list))[j];
    k := InboundIndex(s.list, j);
  }

  predicate Retries(events: seq<Event>) {
    forall k :: 0 <= k < |events| ==> events[k].BrokerRetry? || events[k].BrokerChatter?
  }

  function Told(s: Sys, packets: seq<Sent>): Sys {
    s.(down := s.down + if s.clientUp then AllOnWire(packets) else [])
  }

  // The packets of a write pass are retries and other packets, one step each.
  lemma {:induction false} PacketsLead(list: seq<ClientMsg>, s: Sys, packets: seq<Sent>) returns (events: seq<Event>)
    requires IsBroker(list, s) && s.brokerUp && forall k :: 0 <= k < |packets| ==> RetryOk(list, packets[k])
    ensures Leads(s, events, Told(s, packets)) && Retries(events)
    decreases |packets|
  {
    hide Leads, IsBroker, Told, RetryOk, Enabled, Next, Inv, ToClient;
    if packets == [] {
      events := [];
      ToldNothing(s);
    } else {
      var shorter, p := packets[..|packets| - 1], packets[|packets| - 1];
      var before := PacketsLead(list, s, shorter);
      var s1 := Told(s, shorter);
      ToldMore(s, shorter, p);
      var e := PacketEvent(list, s, s1, p);
      assert packets == shorter + [p];
      OneEvent(s1, e);
      LeadsOn(s, before, s1, [e], Next(s1, e));
      events := before + [e];
    }
  }

  lemma {:induction false} PacketEvent(list: seq<ClientMsg>, s: Sys, s1: Sys, p: Sent) returns (e: Event)
    requires IsBroker(list, s) && s1.list == s.list && s1.brokerUp && RetryOk(list, p)
    ensures Enabled(s1, e) && Next(s1, e) == ToClient(s1, OnWire(p)) && (e.BrokerRetry? || e.BrokerChatter?)
  {
    hide IsBroker, HoldsMid, ToClient;
    e := BrokerChatter;
    if p.SentPubrec? {
      var k := HeldThere(list, s, p.mid);
      e := BrokerRetry(k);
    }
  }

  lemma {:induction false} ToldNothing(s: Sys)
    ensures Leads(s, [], Told(s, []))
  {
    assert s.down + [] == s.down;
  }

  lemma {:induction false} ToldMore(s: Sys, packets: seq<Sent>, p: Sent)
    requires s.brokerUp
    ensures ToClient(Told(s, packets), OnWire(p)) == Told(s, packets + [p]) && Told(s, packets).list == s.list
    ensures Told(s, packets).brokerUp
  {
    assert AllOnWire(packets + [p]) == AllOnWire(packets) + [OnWire(p)];
    assert (s.down + AllOnWire(packets)) + [OnWire(p)] == s.down + (AllOnWire(packets) + [OnWire(p)]);
  }

  lemma {:induction false} SameInboundServed(list: seq<ClientMsg>, list': seq<ClientMsg>, s: Sys, s': Sys)
    requires IsBroker(list, s) && SameInbound(list, list') && SameInbound(s.list, s'.list)
    ensures IsBroker(list', s')
  {
  }

  // mqtt3_db_message_write on a connection: PUBRECs that are due again and packets of the other
  // direction, in the order of the list.
  method WritesOut(db: Database, i: nat, room: nat, now: int, ghost s: Sys)
    returns (ghost events: seq<Event>, ghost s': Sys)
    requires db.Valid() && Serves(db, i, s) && s.brokerUp
    modifies db.contexts[i], db.store`refs
    ensures db.Valid() && Serves(db, i, s') && Leads(s, events, s') && Retries(events)
    ensures Gained(s, s', old(db.contexts[i].sent), db.contexts[i].sent)
  {
    hide Database.Valid, IsBroker, StatesFit, WritePass, SameInbound, Leads, Retries, RetryOk;
    ghost var list, sent := db.contexts[i].msgs, db.contexts[i].sent;
    ghost var pass := WritePass(list, 0, 0, room, now);
    PassSends(list, 0, room, now);
    events := PacketsLead(list, s, pass.sent);
    s' := Told(s, pass.sent);
    var ok := db.WriteOut(i, NoLimits, room, now);
    assert SameInbound(s.list, s'.list) by { SelfInbound(s.list); }
    SameInboundServed(list, pass.msgs, s, s');
    assert (sent + pass.sent)[..|sent|] == sent && (sent + pass.sent)[|sent|..] == pass.sent;
  }

  lemma {:induction false} SelfInbound(list: seq<ClientMsg>)
    ensures SameInbound(list, list)
  {
  }

  // ----- Time and connections -----

  // mqtt3_db_message_timeout_check: which PUBRECs are due again is not part of the machine's state.
  method ChecksTimeouts(db: Database, i: nat, timeout: nat, now: int, ghost s: Sys)
    requires db.Valid() && Serves(db, i, s)
    modifies db.contexts[i]
    ensures db.Valid() && Serves(db, i, s) && db.contexts[i].sent == old(db.contexts[i].sent)
  {
    hide Database.Valid, IsBroker, SameInbound;
    ghost var list := db.contexts[i].msgs;
    db.CheckTimeouts(i, timeout, now);
    SameInboundPointwise(list, db.contexts[i].msgs);
    SelfInbound(s.list);
    SameInboundServed(list, db.contexts[i].msgs, s, s);
  }

  // mqtt3_handle_connect for a client that comes back to its session.
  method Reconnects(db: Database, i: nat, ghost s: Sys)
    requires db.Valid() && Serves(db, i, s) && Enabled(s, Reconnect)
    modifies db.subs.Repr, db.counters, db.contexts[i], db.store`refs
    ensures db.Valid() && Serves(db, i, Next(s, Reconnect)) && db.contexts[i].sent == old(db.contexts[i].sent)
    ensures db.subs.tree == old(db.subs.tree)
  {
    hide Database.Valid, IsBroker, SameInbound, Subscriptions.SubClean;
    ghost var list := db.contexts[i].msgs;
    db.Reconnect(i, NoLimits, false);
    SameInboundPointwise(list, db.contexts[i].msgs);
    SameInboundPointwise(s.list, ResetList(s.list, 0));
    SameInboundServed(list, db.contexts[i].msgs, s, Next(s, Reconnect));
  }

  // mqtt3_context_disconnect: the broker notices that the connection is gone. The client's will may
  // come to the client's own list.
  method Disconnects(db: Database, i: nat, cfg: Config, lim: Limits, upgrade: bool, will: Option<Will>, tag: nat,
                     now: int, ghost s: Sys, ghost kept: nat)
    requires db.Valid() && Serves(db, i, s) && Enabled(s, BrokerLoses(kept)) && (will.Some? ==> WillOk(will.value))
    modifies db`stored, db`msgStoreCount, db`lastDbId, db.subs.Repr, db.counters, db.store, db.contexts
    ensures db.Valid() && db.contexts == old(db.contexts) && Serves(db, i, Next(s, BrokerLoses(kept)))
    ensures db.contexts[i].sent == old(db.contexts[i].sent)
  {
    hide Database.Valid, IsBroker, SameInbound, StatesFit, Database.WillGiven, WillOk;
    ghost var list := db.contexts[i].msgs;
    SelfInbound(list);
    SelfInbound(s.list);
    db.Disconnect(i, cfg, lim, upgrade, will, tag, now);
    if will.Some? { OwnWill(db, i, cfg, lim, upgrade, will.value, tag, now); }
    SameInboundServed(list, db.contexts[i].msgs, s, Next(s, BrokerLoses(kept)));
  }

  twostate lemma OwnWill(db: Database, new i: nat, new cfg: Config, new lim: Limits, new upgrade: bool, new w: Will,
                         new tag: nat, new now: int)
    requires db.contexts == old(db.contexts) && i < |db.contexts| && db.WillGiven(i, cfg, lim, upgrade, w, tag, now)
    requires StatesFit(old(db.contexts[i].msgs))
    ensures SameInbound(old(db.contexts[i].msgs), db.contexts[i].msgs) && StatesFit(db.contexts[i].msgs)
    ensures db.contexts[i].sent == old(db.contexts[i].sent)
  {
    hide StatesFit;
    var before := old(ClientsOf(db.contexts, []));
    var stored := WillStored(old(db.lastDbId) + 1, old(db.contexts[i].id), w, tag);
    var d, hits := Delivery(cfg, lim, upgrade, w.qos, stored, now),
      Subscriptions.Recipients(old(db.subs.tree), Tokens.Tokens(w.topic));
    var c := before[i];
    var echo := DeliverElsewhere(d, c.connected, c.id, c.box, c.box.msgs, hits);
    DeliveredFits(d, c.connected, c.id, c.box, hits);
    EchoHeld(c.box.msgs, echo);
  }
}
