/**
 Giving one publication to the clients of the leaves a search found: the delivering half of
 _subs_process with mqtt3_db_message_insert, for clients that are no bridges and an access check
 that always allows.
 */
module FanOut {
  import opened Topics
  import opened MessageQueue
  import opened ClientContext
  import SubTree

  // The part of a client that a delivery touches. `already`: its id is recorded with the message.
  datatype Inbox = Inbox(msgs: seq<ClientMsg>, nextNode: nat, lastMid: nat, already: bool)

  // The publication and the settings that stay fixed while it is given out.
  datatype Delivery = Delivery(cfg: Config, lim: Limits, upgrade: bool, qos: nat, stored: Stored, now: int)

  function MsgQos(d: Delivery, leafQos: nat): nat {
    if d.upgrade then leafQos else if d.qos > leafQos then leafQos else d.qos
  }

  function Accepts(d: Delivery, connected: bool, msgs: seq<ClientMsg>, leafQos: nat): Verdict {
    Admit(d.lim, connected, d.cfg.queueQos0, Count12(msgs), Out, MsgQos(d, leafQos))
  }

  function Entry(d: Delivery, box: Inbox, leafQos: nat, state: MsgState): ClientMsg
    requires box.lastMid <= MAX_MID
  {
    var qos := MsgQos(d, leafQos);
    NewEntry(box.nextNode, d.stored, if qos > 0 then NextMid(box.lastMid) else 0, qos, false, d.now, Out, state)
  }

  // One leaf given to the client `id`.
  function Given(d: Delivery, connected: bool, id: string, box: Inbox, hit: SubTree.Hit): Inbox
    requires box.lastMid <= MAX_MID
  {
    if hit.leaf.client != id then box
    else
      var qos := MsgQos(d, hit.leaf.qos);
      var v := if Remembers(d.cfg, Out, false) && box.already then Refused(0)
               else Accepts(d, connected, box.msgs, hit.leaf.qos);
      Inbox(if v.Admitted? then box.msgs + [Entry(d, box, hit.leaf.qos, v.state)] else box.msgs,
            box.nextNode + if v.Admitted? then 1 else 0,
            if qos > 0 then NextMid(box.lastMid) else box.lastMid,
            box.already || (v.Admitted? && Remembers(d.cfg, Out, false)))
  }

  function Deliver(d: Delivery, connected: bool, id: string, box: Inbox, hits: seq<SubTree.Hit>): (r: Inbox)
    requires box.lastMid <= MAX_MID
    ensures r.lastMid <= MAX_MID
  {
    if hits == [] then box
    else Given(d, connected, id, Deliver(d, connected, id, box, hits[..|hits| - 1]), hits[|hits| - 1])
  }

  // ----- What the limits and QoS values ask for -----

  function Smaller(a: nat, b: nat): (r: nat)
    ensures r <= a && r <= b && (r == a || r == b)
  {
    if a < b then a else b
  }

  // The limits leave room for an entry of this QoS when `count` QoS 1 and 2 entries came before it.
  predicate HasRoom(cfg: Config, lim: Limits, connected: bool, count: nat, qos: nat) {
    if connected then
      qos == 0 || lim.maxInflight == 0 || lim.maxQueued == 0 || count < lim.maxInflight + lim.maxQueued
    else (qos > 0 || cfg.queueQos0) && (lim.maxQueued == 0 || count < lim.maxQueued)
  }

  // An entry is to be sent at once inside the window of a connected client, and queued otherwise.
  predicate StartsRight(lim: Limits, connected: bool, count: nat, m: ClientMsg) {
    if connected && (m.qos == 0 || lim.maxInflight == 0 || count < lim.maxInflight) then
      && (m.qos == 0 ==> m.state == PublishQos0) && (m.qos == 1 ==> m.state == PublishQos1)
      && (m.qos == 2 ==> m.state == PublishQos2)
    else m.state == Queued
  }

  // ----- Retained messages for a new subscription (_retain_process) -----

  // What stays fixed while they are queued.
  datatype Offering = Offering(cfg: Config, lim: Limits, connected: bool, subQos: nat, now: int)

  function OfferedQos(o: Offering, s: Stored): nat {
    if s.qos > o.subQos then o.subQos else s.qos
  }

  // One retained message, which keeps its retain flag and does not count as already delivered.
  function OfferOne(o: Offering, box: Inbox, s: Stored): (r: Inbox)
    requires box.lastMid <= MAX_MID
    ensures r.lastMid <= MAX_MID
  {
    var qos := OfferedQos(o, s);
    var v := Admit(o.lim, o.connected, o.cfg.queueQos0, Count12(box.msgs), Out, qos);
    var mid := if qos > 0 then NextMid(box.lastMid) else 0;
    box.(msgs := InsertedList(box.msgs, v, NewEntry(box.nextNode, s, mid, qos, true, o.now, Out, Invalid)),
         nextNode := box.nextNode + (if v.Admitted? then 1 else 0),
         lastMid := if qos > 0 then mid else box.lastMid)
  }

  function OfferAll(o: Offering, box: Inbox, ss: seq<Stored>): (r: Inbox)
    requires box.lastMid <= MAX_MID
    ensures r.lastMid <= MAX_MID
  {
    if ss == [] then box else OfferOne(o, OfferAll(o, box, ss[..|ss| - 1]), ss[|ss| - 1])
  }

  // How many of the first n offers are of QoS 1 or 2.
  function Offered12(o: Offering, ss: seq<Stored>, n: nat): nat
    requires n <= |ss|
  {
    if n == 0 then 0
    else Offered12(o, ss, n - 1) + if Smaller(ss[n - 1].qos, o.subQos) > 0 then 1 else 0
  }

  predicate RoomFor(o: Offering, count: nat, ss: seq<Stored>, k: nat)
    requires k < |ss|
  {
    HasRoom(o.cfg, o.lim, o.connected, count + Offered12(o, ss, k), Smaller(ss[k].qos, o.subQos))
  }

  // The positions of those of the first n offers that there is room for.
  function Taken(o: Offering, count: nat, ss: seq<Stored>, n: nat): (r: seq<nat>)
    requires n <= |ss|
    ensures forall j :: 0 <= j < |r| ==> r[j] < n
    ensures forall i, j :: 0 <= i < j < |r| ==> r[i] < r[j]
    ensures forall k: nat :: k in r <==> k < n && RoomFor(o, count, ss, k)
  {
    if n == 0 then [] else Taken(o, count, ss, n - 1) + if RoomFor(o, count, ss, n - 1) then [n - 1] else []
  }

  // The offered message in the list, with the smaller of its own QoS and the subscription's.
  predicate IsOffer(o: Offering, count: nat, s: Stored, m: ClientMsg) {
    && m.store == s && m.retain && m.direction == Out && !m.dup
    && m.qos <= s.qos && m.qos <= o.subQos && (m.qos == s.qos || m.qos == o.subQos)
    && (m.qos > 0 <==> m.mid > 0) && m.mid <= MAX_MID && StartsRight(o.lim, o.connected, count, m)
  }

  // The entries behind the list are those of the offers taken.
  predicate OffersAt(o: Offering, count: nat, ss: seq<Stored>, taken: seq<nat>, entries: seq<ClientMsg>) {
    && |entries| == |taken|
    && forall j :: 0 <= j < |taken| ==>
         taken[j] < |ss| && IsOffer(o, count + Offered12(o, ss, taken[j]), ss[taken[j]], entries[j])
  }

  /**
   Under any limits, connected or not: the retained messages offered are put behind the list in
   their order, each at most once, with the retain flag set and the smaller of the message's own
   QoS and the subscription's. Left out are exactly those that there is no room for.
   */
  lemma {:induction false} EachOfferOnce(o: Offering, box: Inbox, ss: seq<Stored>) returns (entries: seq<ClientMsg>)
    requires box.lastMid <= MAX_MID
    ensures OfferAll(o, box, ss).msgs == box.msgs + entries
    ensures OffersAt(o, Count12(box.msgs), ss, Taken(o, Count12(box.msgs), ss, |ss|), entries)
  {
    assert ss[..|ss|] == ss;
    entries := FirstOffers(o, box, ss, |ss|);
  }

  lemma {:induction false} FirstOffers(o: Offering, box: Inbox, ss: seq<Stored>, n: nat)
    returns (entries: seq<ClientMsg>)
    requires box.lastMid <= MAX_MID && n <= |ss|
    ensures OfferAll(o, box, ss[..n]).msgs == box.msgs + entries
    ensures OffersAt(o, Count12(box.msgs), ss, Taken(o, Count12(box.msgs), ss, n), entries)
    ensures SameRoom(o, Count12(OfferAll(o, box, ss[..n]).msgs), Count12(box.msgs) + Offered12(o, ss, n))
    decreases n
  {
    hide OfferOne, Count12, HasRoom, IsOffer, SameRoom, Smaller, OffersAt, Taken;
    if n == 0 {
      entries := [];
      NothingOffered(o, Count12(box.msgs), ss);
      assert box.msgs + [] == box.msgs;
    } else {
      var s, count := ss[n - 1], Count12(box.msgs);
      var was := FirstOffers(o, box, ss, n - 1);
      assert ss[..n][..n - 1] == ss[..n - 1];
      var a := OfferAll(o, box, ss[..n - 1]);
      var more := OneOffer(o, a, s, count + Offered12(o, ss, n - 1));
      entries := was + more;
      assert (box.msgs + was) + more == box.msgs + entries;
      TakenOneMore(o, count, ss, n, was, more);
    }
  }

  lemma {:induction false} NothingOffered(o: Offering, count: nat, ss: seq<Stored>)
    ensures OffersAt(o, count, ss, Taken(o, count, ss, 0), []) && SameRoom(o, count, count + Offered12(o, ss, 0))
  {
  }

  lemma {:induction false} TakenOneMore(o: Offering, count: nat, ss: seq<Stored>, n: nat, was: seq<ClientMsg>,
                                        more: seq<ClientMsg>)
    requires 0 < n <= |ss| && OffersAt(o, count, ss, Taken(o, count, ss, n - 1), was)
    requires if RoomFor(o, count, ss, n - 1) then
               |more| == 1 && IsOffer(o, count + Offered12(o, ss, n - 1), ss[n - 1], more[0])
             else more == []
    ensures OffersAt(o, count, ss, Taken(o, count, ss, n), was + more)
  {
    hide Offered12, RoomFor, IsOffer;
  }

  // The two numbers are the same, or both over every limit.
  predicate SameRoom(o: Offering, a: nat, b: nat) {
    a == b || (a < b && !HasRoom(o.cfg, o.lim, o.connected, a, 1) && (o.connected ==> a >= o.lim.maxInflight))
  }

  lemma {:induction false} OneOffer(o: Offering, box: Inbox, s: Stored, count: nat) returns (more: seq<ClientMsg>)
    requires box.lastMid <= MAX_MID && SameRoom(o, Count12(box.msgs), count)
    ensures OfferOne(o, box, s).msgs == box.msgs + more
    ensures if HasRoom(o.cfg, o.lim, o.connected, count, Smaller(s.qos, o.subQos)) then
              |more| == 1 && IsOffer(o, count, s, more[0])
            else more == []
    ensures SameRoom(o, Count12(OfferOne(o, box, s).msgs), count + if Smaller(s.qos, o.subQos) > 0 then 1 else 0)
  {
    hide Count12;
    var qos := OfferedQos(o, s);
    var v := Admit(o.lim, o.connected, o.cfg.queueQos0, Count12(box.msgs), Out, qos);
    var mid := if qos > 0 then NextMid(box.lastMid) else 0;
    if v.Admitted? {
      more := [NewEntry(box.nextNode, s, mid, qos, true, o.now, Out, v.state)];
      OneCount12(more[0]);
    } else {
      more := [];
      assert box.msgs + more == box.msgs;
    }
    Count12Concat(box.msgs, more);
  }

  lemma {:induction false} OneCount12(m: ClientMsg)
    ensures Count12([m]) == if m.qos > 0 then 1 else 0
  {
    assert [m][..0] == [];
  }

  // A client as a publication finds it.
  datatype Client = Client(id: string, connected: bool, box: Inbox, sent: seq<Sent>)

  predicate MidsInRange(cs: seq<Client>) {
    forall j :: 0 <= j < |cs| ==> cs[j].box.lastMid <= MAX_MID
  }

  // All clients after the leaves have been given out.
  function DeliverAll(d: Delivery, cs: seq<Client>, hits: seq<SubTree.Hit>): (r: seq<Client>)
    requires MidsInRange(cs)
    ensures MidsInRange(r) && |r| == |cs|
    ensures forall j :: 0 <= j < |r| ==> r[j] == cs[j].(box := Deliver(d, cs[j].connected, cs[j].id, cs[j].box, hits))
  {
    seq(|cs|, j requires 0 <= j < |cs| => cs[j].(box := Deliver(d, cs[j].connected, cs[j].id, cs[j].box, hits)))
  }

  lemma {:induction false} DeliverOneMore(d: Delivery, cs: seq<Client>, hits: seq<SubTree.Hit>, n: nat)
    requires n < |hits| && MidsInRange(cs)
    ensures DeliverAll(d, DeliverAll(d, cs, hits[..n]), [hits[n]]) == DeliverAll(d, cs, hits[..n + 1])
  {
    assert hits[..n + 1][..n] == hits[..n];
    var a, b := DeliverAll(d, DeliverAll(d, cs, hits[..n]), [hits[n]]), DeliverAll(d, cs, hits[..n + 1]);
    forall j | 0 <= j < |cs| ensures a[j] == b[j] {
      DeliverOne(d, cs[j].connected, cs[j].id, DeliverAll(d, cs, hits[..n])[j].box, hits[n]);
    }
  }

  lemma {:induction false} DeliverOne(d: Delivery, connected: bool, id: string, box: Inbox, hit: SubTree.Hit)
    requires box.lastMid <= MAX_MID
    ensures Deliver(d, connected, id, box, [hit]) == Given(d, connected, id, box, hit)
  {
    assert [hit][..0] == [];
  }

  lemma {:induction false} DeliverNone(d: Delivery, cs: seq<Client>, hits: seq<SubTree.Hit>)
    requires MidsInRange(cs)
    ensures DeliverAll(d, cs, []) == cs && hits[..0] == [] && hits[..|hits|] == hits
  {
  }

  predicate AllOut(msgs: seq<ClientMsg>) {
    forall k :: 0 <= k < |msgs| ==> msgs[k].direction == Out
  }

  // ----- The entries a delivery adds -----

  // The QoS a subscriber is sent a publication with.
  function CopyQos(d: Delivery, subQos: nat): nat { if d.upgrade then subQos else Smaller(d.qos, subQos) }

  // The entry that a leaf with this QoS gives to a client with `count` QoS 1 and 2 entries.
  predicate IsCopy(d: Delivery, connected: bool, count: nat, subQos: nat, m: ClientMsg) {
    && m.store == d.stored && m.direction == Out && !m.retain && !m.dup && m.qos == CopyQos(d, subQos)
    && (m.qos > 0 <==> m.mid > 0) && m.mid <= MAX_MID
    && HasRoom(d.cfg, d.lim, connected, count, m.qos) && StartsRight(d.lim, connected, count, m)
  }

  // The new entries, in order, are for these of the leaves.
  predicate Copies(d: Delivery, connected: bool, id: string, msgs: seq<ClientMsg>, hits: seq<SubTree.Hit>,
                   news: seq<ClientMsg>, at: seq<nat>) {
    && |at| == |news| && (forall i, j :: 0 <= i < j < |at| ==> at[i] < at[j])
    && forall k :: 0 <= k < |at| ==>
         && at[k] < |hits| && hits[at[k]].leaf.client == id
         && IsCopy(d, connected, Count12(msgs + news[..k]), hits[at[k]].leaf.qos, news[k])
  }

  /**
   What a delivery adds to a client's list: entries for some of the client's leaves, in their order.
   Without duplicates it is at most one, and none if the message has been given to the client
   before; it is at least one if there is room for any. With duplicates and no limits it is one
   for every leaf.
   */
  lemma {:induction false} DeliverAdds(d: Delivery, connected: bool, id: string, box: Inbox, hits: seq<SubTree.Hit>)
    returns (news: seq<ClientMsg>, at: seq<nat>)
    requires box.lastMid <= MAX_MID
    ensures Deliver(d, connected, id, box, hits).msgs == box.msgs + news
    ensures Copies(d, connected, id, box.msgs, hits, news, at)
    ensures !d.cfg.allowDuplicates ==> |news| <= if box.already then 0 else 1
    ensures Deliver(d, connected, id, box, hits).already == (box.already || (news != [] && !d.cfg.allowDuplicates))
    ensures (d.cfg.allowDuplicates || !box.already) && news == [] ==> forall i :: 0 <= i < |hits| ==>
              !(hits[i].leaf.client == id &&
                HasRoom(d.cfg, d.lim, connected, Count12(box.msgs), CopyQos(d, hits[i].leaf.qos)))
    ensures d.cfg.allowDuplicates && connected && (d.lim.maxInflight == 0 || d.lim.maxQueued == 0) ==>
              forall i :: 0 <= i < |hits| && hits[i].leaf.client == id ==> i in at
    decreases |hits|
  {
    hide Given, Count12, HasRoom, IsCopy, CopyQos;
    if hits == [] {
      news, at := [], [];
      assert box.msgs + [] == box.msgs;
    } else {
      var last := |hits| - 1;
      var shorter, hit := hits[..last], hits[last];
      var before, was := DeliverAdds(d, connected, id, box, shorter);
      var s := Deliver(d, connected, id, box, shorter);
      var more := GivenAdds(d, connected, id, s, hit);
      news, at := before + more, was + if more == [] then [] else [last];
      Regroup(box.msgs, before, more);
      CopiesMore(d, connected, id, box.msgs, hits, before, was, more);
      if before == [] { assert box.msgs + [] == box.msgs; }
    }
  }

  lemma {:induction false} CopiesMore(d: Delivery, connected: bool, id: string, msgs: seq<ClientMsg>,
                                      hits: seq<SubTree.Hit>, news: seq<ClientMsg>, at: seq<nat>, more: seq<ClientMsg>)
    requires hits != [] && Copies(d, connected, id, msgs, hits[..|hits| - 1], news, at) && |more| <= 1
    requires more != [] ==> hits[|hits| - 1].leaf.client == id
                            && IsCopy(d, connected, Count12(msgs + news), hits[|hits| - 1].leaf.qos, more[0])
    ensures Copies(d, connected, id, msgs, hits, news + more, at + if more == [] then [] else [|hits| - 1])
  {
    hide Count12, IsCopy;
    var all := news + more;
    assert forall k :: 0 <= k <= |news| ==> all[..k] == news[..k];
    assert news[..|news|] == news;
  }

  // One leaf.
  lemma {:induction false} GivenAdds(d: Delivery, connected: bool, id: string, box: Inbox, hit: SubTree.Hit)
    returns (more: seq<ClientMsg>)
    requires box.lastMid <= MAX_MID
    ensures var r, mine := Given(d, connected, id, box, hit), hit.leaf.client == id;
      && r.msgs == box.msgs + more && |more| <= 1
      && (more != [] ==> mine && IsCopy(d, connected, Count12(box.msgs), hit.leaf.qos, more[0]))
      && (!d.cfg.allowDuplicates && box.already ==> more == [])
      && (mine && more == [] && (d.cfg.allowDuplicates || !box.already) ==>
            !HasRoom(d.cfg, d.lim, connected, Count12(box.msgs), CopyQos(d, hit.leaf.qos)))
      && (mine && d.cfg.allowDuplicates && connected && (d.lim.maxInflight == 0 || d.lim.maxQueued == 0) ==> more != [])
      && r.already == (box.already || (more != [] && !d.cfg.allowDuplicates))
  {
    hide Count12;
    assert box.msgs + [] == box.msgs;
    var mine := hit.leaf.client == id;
    var v := if Remembers(d.cfg, Out, false) && box.already then Refused(0)
             else Accepts(d, connected, box.msgs, hit.leaf.qos);
    more := if mine && v.Admitted? then [Entry(d, box, hit.leaf.qos, v.state)] else [];
  }

  // What a client is given depends on its list only through the number of its QoS 1 and 2 entries.
  lemma {:induction false} DeliverElsewhere(d: Delivery, connected: bool, id: string, box: Inbox,
                                            msgs: seq<ClientMsg>, hits: seq<SubTree.Hit>)
    returns (echo: seq<ClientMsg>)
    requires box.lastMid <= MAX_MID && Count12(msgs) == Count12(box.msgs)
    ensures AllOut(echo) && Deliver(d, connected, id, box, hits).msgs == box.msgs + echo
    ensures Deliver(d, connected, id, box.(msgs := msgs), hits) ==
      Deliver(d, connected, id, box, hits).(msgs := msgs + echo)
    decreases |hits|
  {
    hide Given, Count12, AllOut;
    if hits == [] {
      echo := [];
      assert msgs + [] == msgs && box.msgs + [] == box.msgs;
      NoneOut();
    } else {
      var shorter := hits[..|hits| - 1];
      var was := DeliverElsewhere(d, connected, id, box, msgs, shorter);
      Count12Concat(box.msgs, was);
      Count12Concat(msgs, was);
      var s := Deliver(d, connected, id, box, shorter);
      var more := GivenElsewhere(d, connected, id, s, msgs + was, hits[|hits| - 1]);
      echo := was + more;
      Regroup(msgs, was, more);
      Regroup(box.msgs, was, more);
      AllOutConcat(was, more);
    }
  }

  lemma {:induction false} NoneOut()
    ensures AllOut([])
  {
  }

  lemma {:induction false} AllOutConcat(a: seq<ClientMsg>, b: seq<ClientMsg>)
    requires AllOut(a) && AllOut(b)
    ensures AllOut(a + b)
  {
  }

  lemma {:induction false} Regroup(a: seq<ClientMsg>, b: seq<ClientMsg>, c: seq<ClientMsg>)
    ensures (a + b) + c == a + (b + c)
  {
  }

  lemma {:induction false} GivenElsewhere(d: Delivery, connected: bool, id: string, box: Inbox, msgs: seq<ClientMsg>,
                                          hit: SubTree.Hit)
    returns (more: seq<ClientMsg>)
    requires box.lastMid <= MAX_MID && Count12(msgs) == Count12(box.msgs)
    ensures AllOut(more) && Given(d, connected, id, box, hit).msgs == box.msgs + more
    ensures Given(d, connected, id, box.(msgs := msgs), hit) == Given(d, connected, id, box, hit).(msgs := msgs + more)
  {
    hide Count12, Admit;
    var r := Given(d, connected, id, box, hit);
    more := r.msgs[|box.msgs|..];
    assert more == [] ==> msgs + more == msgs;
    assert |box.msgs| < |r.msgs| ==> more == [r.msgs[|box.msgs|]];
  }

  // Clients none of whose leaves were reached are left alone.
  lemma {:induction false} OthersGetNothing(d: Delivery, connected: bool, id: string, box: Inbox,
                                            hits: seq<SubTree.Hit>)
    requires box.lastMid <= MAX_MID && forall i :: 0 <= i < |hits| ==> hits[i].leaf.client != id
    ensures Deliver(d, connected, id, box, hits) == box
    decreases |hits|
  {
    if hits != [] {
      OthersGetNothing(d, connected, id, box, hits[..|hits| - 1]);
    }
  }
}
