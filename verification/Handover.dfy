/**
 QoS 2 hand-over from the client library to the broker (section 4.3.3 of MQTT 3.1.1) as a state
 machine: two queues, one FIFO link in each direction, and connections that may break at any
 moment, each side noticing on its own.

 Both sides use the list functions of their own code: FindMid and Cut of ClientLibrary,
 FindInbound and Without of MessageQueue. No in-flight limits, persistent session.
 */
module Handover {
  import opened Topics
  import opened MessageQueue
  import opened ClientLibrary
  import ClientContext

  datatype Sys = Sys(
    // client library
    lastMid: nat, published: nat, out: seq<LibMsg>, confirmed: seq<nat>,
    // connection, as each side sees it, and what is in flight
    clientUp: bool, brokerUp: bool, up: seq<Packet>, down: seq<Packet>,
    // broker: this client's list, and the publications routed to subscribers
    list: seq<ClientMsg>, nextNode: nat, routed: seq<nat>,
    // ids taken since the client lost its connection; packets of that connection may still carry them
    taken: set<nat>)

  const Start := Sys(0, 0, [], [], false, false, [], [], [], 0, [], {})

  datatype Event =
    | AppPublish
    | ClientReceive
    | ClientRetry(i: nat)
    | ClientChatter
    | ClientLoses(kept: nat)            // the client's side goes down; `kept` packets still arrive
    | BrokerReceive
    | BrokerRetry(i: nat)
    | BrokerChatter
    | BrokerLoses(kept: nat)
    | BrokerOther(list: seq<ClientMsg>, nextNode: nat)   // any other work on the client's list
    | Reconnect

  const NoLimits := Limits(0, 0)

  // ----- Sending -----

  // A packet sent by a side that is up reaches the link unless the other side is gone.
  function ToBroker(s: Sys, p: Packet): Sys {
    if s.clientUp && s.brokerUp then s.(up := s.up + [p]) else s
  }

  function ToClient(s: Sys, p: Packet): Sys {
    if s.clientUp && s.brokerUp then s.(down := s.down + [p]) else s
  }

  // ----- Handlers -----

  function ClientHandles(s: Sys, p: Packet): Sys {
    match p
    case Pubrec(mid) =>
      var i := FindMid(s.out, mid, 0);
      if i < |s.out| then ToBroker(s.(out := s.out[i := s.out[i].(state := WaitForPubcomp)]), Pubrel(mid, false))
      else s.(clientUp := false, down := [])   // an unknown id closes the connection
    case Pubcomp(mid) =>
      var i := FindMid(s.out, mid, 0);
      if i < |s.out| then s.(out := Cut(s.out, i), confirmed := s.confirmed + [s.out[i].tag]) else s
    case _ => s
  }

  // The stored message of a publication; only its id and tag matter here.
  function StoredFor(s: Sys, mid: nat, tag: nat): Stored {
    Stored(s.nextNode + 1, tag, "client", mid, Some("topic"), 2, false, [])
  }

  function InboundEntry(s: Sys, mid: nat, tag: nat, state: MsgState): ClientMsg {
    ClientContext.NewEntry(s.nextNode, StoredFor(s, mid, tag), mid, 2, false, 0, In, state)
  }

  function BrokerHandles(s: Sys, p: Packet): Sys {
    match p
    case Publish(mid, tag, _) =>
      if FindInbound(s.list, mid, 0) < |s.list| then ToClient(s, Pubrec(mid))
      else
        var v := Admit(NoLimits, true, false, Count12(s.list), In, 2);
        var s' := s.(list := ClientContext.InsertedList(s.list, v, InboundEntry(s, mid, tag, Invalid)),
                     nextNode := s.nextNode + 1);
        if v.rc == 0 then ToClient(s', Pubrec(mid)) else s'
    case Pubrel(mid, _) =>
      var i := IndexOf(s.list, mid, In, 0);
      var s' := if i < |s.list|
                then s.(list := ReleasedList(s.list, mid, 0, 0), routed := s.routed + [s.list[i].store.tag])
                else s;
      ToClient(s', Pubcomp(mid))
    case _ => s
  }

  // What no other work on the list may change: the inbound entries, apart from state, time and dup.
  predicate SameInbound(a: seq<ClientMsg>, b: seq<ClientMsg>) {
    Inbound(a) == Inbound(b)
  }

  datatype Held = Held(mid: nat, stored: Stored)

  function Inbound(list: seq<ClientMsg>): seq<Held> {
    if list == [] then []
    else
      var last := list[|list| - 1];
      Inbound(list[..|list| - 1]) + if last.direction == In then [Held(last.mid, last.store)] else []
  }

  // ----- Steps -----

  // The id is still in use: by a pending publication, or on a link whose answer would reach the
  // client.
  predicate InUse(s: Sys, mid: nat) {
    || FindMid(s.out, mid, 0) < |s.out|
    || (s.clientUp && exists i :: 0 <= i < |s.up| && IsPubrel(s.up[i], mid))
    || exists i :: 0 <= i < |s.down| && IsPubcomp(s.down[i], mid)
  }

  predicate IsPubrel(p: Packet, mid: nat) { p.Pubrel? && p.mid == mid }

  predicate IsPubcomp(p: Packet, mid: nat) { p.Pubcomp? && p.mid == mid }

  predicate Enabled(s: Sys, e: Event) {
    match e
    case AppPublish => s.lastMid <= MAX_MID && !InUse(s, NextMid(s.lastMid))
    case ClientReceive => s.clientUp && s.down != []
    case ClientRetry(i) => s.clientUp && i < |s.out| && RetryPacket(s.out[i]).Some?
    case ClientChatter => s.clientUp
    case ClientLoses(kept) => s.clientUp && kept <= |s.up|
    case BrokerReceive => s.brokerUp && s.up != []
    case BrokerRetry(i) => s.brokerUp && i < |s.list| && s.list[i].direction == In
    case BrokerChatter => s.brokerUp
    case BrokerLoses(kept) => s.brokerUp && kept <= |s.down|
    case BrokerOther(list, _) => SameInbound(s.list, list)
    case Reconnect => !s.clientUp
  }

  // A publication with the next id, whether or not the id is in use.
  function Published(s: Sys): Sys
    requires s.lastMid <= MAX_MID
  {
    var mid := NextMid(s.lastMid);
    var m := LibMsg(mid, s.published, 2, WaitState(2), false, 0);
    var taken := if s.clientUp then s.taken else s.taken + {mid};
    ToBroker(s.(lastMid := mid, published := s.published + 1, out := s.out + [m], taken := taken),
             Publish(mid, s.published, false))
  }

  function Next(s: Sys, e: Event): Sys
    requires Enabled(s, e)
  {
    match e
    case AppPublish => Published(s)
    case ClientReceive => ClientHandles(s.(down := s.down[1..]), s.down[0])
    case ClientRetry(i) => ToBroker(s, RetryPacket(s.out[i]).value)
    case ClientChatter => ToBroker(s, Other)
    case ClientLoses(kept) => s.(clientUp := false, up := s.up[..kept], down := [])
    case BrokerReceive => BrokerHandles(s.(up := s.up[1..]), s.up[0])
    case BrokerRetry(i) => ToClient(s, Pubrec(s.list[i].mid))
    case BrokerChatter => ToClient(s, Other)
    case BrokerLoses(kept) => s.(brokerUp := false, up := [], down := s.down[..kept])
    case BrokerOther(list, nextNode) => s.(list := list, nextNode := nextNode)
    case Reconnect => s.(clientUp := true, brokerUp := true, up := [], down := [],
                         list := ResetList(s.list, 0), taken := {})
  }

  // ----- Views -----

  // The client's pending publications by id.
  function OutView(out: seq<LibMsg>): map<nat, LibMsg> {
    if out == [] then map[]
    else OutView(out[..|out| - 1])[out[|out| - 1].mid := out[|out| - 1]]
  }

  predicate DistinctMids(out: seq<LibMsg>) {
    forall i, j :: 0 <= i < j < |out| ==> out[i].mid != out[j].mid
  }

  function Minus<V>(c: map<nat, V>, mid: nat): map<nat, V> {
    map k: nat | k in c && k != mid :: c[k]
  }

  lemma {:induction false} MinusPut<V>(c: map<nat, V>, k: nat, v: V, mid: nat)
    ensures Minus(c[k := v], mid) == if k == mid then Minus(c, mid) else Minus(c, mid)[k := v]
  {
  }

  // The publications the broker holds, by id.
  function HeldView(list: seq<ClientMsg>): map<nat, nat> {
    ViewOf(Inbound(list))
  }

  function ViewOf(held: seq<Held>): map<nat, nat> {
    if held == [] then map[]
    else ViewOf(held[..|held| - 1])[held[|held| - 1].mid := held[|held| - 1].stored.tag]
  }

  predicate HeldWellFormed(held: seq<Held>) {
    && (forall i :: 0 <= i < |held| ==> held[i].mid == held[i].stored.sourceMid)
    && (forall i, j :: 0 <= i < j < |held| ==> held[i].mid != held[j].mid)
  }

  // ----- The invariant -----

  predicate WaitsRec(m: LibMsg) { m.state == WaitForPubrec }
  predicate WaitsComp(m: LibMsg) { m.state == WaitForPubcomp }

  // A PUBLISH under way: its message is pending and was not routed yet. A PUBREL under way: its
  // message is in the second phase, unless the id was taken again behind a lost connection.
  predicate UpOk(c: map<nat, LibMsg>, routed: seq<nat>, taken: set<nat>, p: Packet) {
    && (p.Publish? ==> p.mid in c && c[p.mid].tag == p.tag && p.tag !in routed && p.mid !in taken)
    && (p.Pubrel? && p.mid in c && p.mid !in taken ==> WaitsComp(c[p.mid]))
  }

  predicate DownOk(c: map<nat, LibMsg>, b: map<nat, nat>, routed: seq<nat>, p: Packet) {
    && (p.Pubrec? ==> p.mid in c && (p.mid in b || (WaitsComp(c[p.mid]) && c[p.mid].tag in routed)))
    && (p.Pubcomp? ==> p.mid !in b && (p.mid in c ==> WaitsComp(c[p.mid]) && c[p.mid].tag in routed))
  }

  // On each link the second phase of an id follows its first.
  predicate UpOrdered(up: seq<Packet>) {
    forall i, j :: 0 <= i < j < |up| && up[i].Pubrel? && up[j].Publish? ==> up[i].mid != up[j].mid
  }

  predicate DownOrdered(down: seq<Packet>) {
    forall i, j :: 0 <= i < j < |down| && down[i].Pubcomp? && down[j].Pubrec? ==> down[i].mid != down[j].mid
  }

  predicate LinksOk(c: map<nat, LibMsg>, b: map<nat, nat>, routed: seq<nat>, taken: set<nat>, up: seq<Packet>,
                    down: seq<Packet>) {
    && (forall m :: m in taken ==> m !in b)
    && (forall i :: 0 <= i < |up| ==> UpOk(c, routed, taken, up[i]))
    && (forall i :: 0 <= i < |down| ==> DownOk(c, b, routed, down[i]))
    && UpOrdered(up) && DownOrdered(down)
  }

  // Every pending message is in one of four phases.
  predicate PhasesOk(c: map<nat, LibMsg>, b: map<nat, nat>, routed: seq<nat>) {
    && (forall m :: m in b ==> m in c && b[m] == c[m].tag && c[m].tag !in routed)
    && (forall m :: m in c ==> c[m].mid == m && (WaitsRec(c[m]) || WaitsComp(c[m])))
    && (forall m :: m in c && WaitsRec(c[m]) ==> c[m].tag !in routed)
    && (forall m :: m in c && WaitsComp(c[m]) && m !in b ==> c[m].tag in routed)
    && (forall m, m' :: m in c && m' in c && m != m' ==> c[m].tag != c[m'].tag)
  }

  predicate Distinct(s: seq<nat>) {
    forall i, j :: 0 <= i < j < |s| ==> s[i] != s[j]
  }

  // Every publication is pending or confirmed, and never both.
  predicate LedgerOk(c: map<nat, LibMsg>, published: nat, confirmed: seq<nat>, routed: seq<nat>) {
    && Distinct(routed) && Distinct(confirmed)
    && (forall t :: t in routed ==> t < published)
    && (forall t :: t in confirmed ==> t in routed)
    && (forall m :: m in c ==> c[m].tag < published && c[m].tag !in confirmed)
    && (forall t :: 0 <= t < published ==> t in confirmed || PendingTag(c, t))
  }

  predicate PendingTag(c: map<nat, LibMsg>, t: nat) {
    exists m :: m in c && c[m].tag == t
  }

  predicate Inv(s: Sys) {
    var c, b := OutView(s.out), HeldView(s.list);
    && s.lastMid <= MAX_MID && (s.clientUp ==> s.taken == {})
    && DistinctMids(s.out) && HeldWellFormed(Inbound(s.list))
    && PhasesOk(c, b, s.routed) && LinksOk(c, b, s.routed, s.taken, s.up, s.down)
    && LedgerOk(c, s.published, s.confirmed, s.routed)
  }

  // ----- Views: what the list operations do to them -----

  lemma {:induction false} OutViewHas(out: seq<LibMsg>)
    requires DistinctMids(out)
    ensures forall i :: 0 <= i < |out| ==> out[i].mid in OutView(out) && OutView(out)[out[i].mid] == out[i]
    ensures forall m :: m in OutView(out) ==> exists i :: 0 <= i < |out| && out[i].mid == m
    decreases |out|
  {
    if out != [] {
      var shorter := out[..|out| - 1];
      OutViewHas(shorter);
      forall m | m in OutView(out)
        ensures exists i :: 0 <= i < |out| && out[i].mid == m
      {
        if m in OutView(shorter) {
          var i :| 0 <= i < |shorter| && shorter[i].mid == m;
          assert out[i].mid == m;
        } else {
          assert out[|out| - 1].mid == m;
        }
      }
    }
  }

  lemma {:induction false} OutViewFind(out: seq<LibMsg>, mid: nat)
    requires DistinctMids(out)
    ensures mid in OutView(out) <==> FindMid(out, mid, 0) < |out|
    ensures mid in OutView(out) ==> OutView(out)[mid] == out[FindMid(out, mid, 0)]
  {
    OutViewHas(out);
    if mid in OutView(out) {
      var i :| 0 <= i < |out| && out[i].mid == mid;
    }
  }

  lemma {:induction false} OutViewUpdate(out: seq<LibMsg>, i: nat, m: LibMsg)
    requires DistinctMids(out) && i < |out| && m.mid == out[i].mid
    ensures DistinctMids(out[i := m])
    ensures OutView(out[i := m]) == OutView(out)[m.mid := m]
    decreases |out|
  {
    var last := |out| - 1;
    if i == last {
      assert out[i := m][..last] == out[..last];
    } else {
      OutViewUpdate(out[..last], i, m);
      assert out[i := m][..last] == out[..last][i := m];
    }
  }

  lemma {:induction false} OutViewCut(out: seq<LibMsg>, i: nat)
    requires DistinctMids(out) && i < |out|
    ensures DistinctMids(Cut(out, i))
    ensures OutView(Cut(out, i)) == Minus(OutView(out), out[i].mid)
    decreases |out|
  {
    var last := |out| - 1;
    if i == last {
      assert Cut(out, i) == out[..last];
      OutViewFind(out[..last], out[last].mid);
    } else {
      OutViewCut(out[..last], i);
      var c, m := Cut(out, i), out[last];
      assert c[..last - 1] == Cut(out[..last], i) && c[last - 1] == m && m.mid != out[i].mid;
      assert OutView(c) == OutView(c[..last - 1])[m.mid := m];
      MinusPut(OutView(out[..last]), m.mid, m, out[i].mid);
      hide OutView, Cut, Minus;
    }
  }

  lemma {:induction false} OutViewAppend(out: seq<LibMsg>, m: LibMsg)
    requires DistinctMids(out) && FindMid(out, m.mid, 0) == |out|
    ensures DistinctMids(out + [m])
    ensures OutView(out + [m]) == OutView(out)[m.mid := m]
  {
    assert (out + [m])[..|out|] == out;
  }

  lemma {:induction false} ViewOfHas(held: seq<Held>)
    requires HeldWellFormed(held)
    ensures forall i :: 0 <= i < |held| ==>
              held[i].mid in ViewOf(held) && ViewOf(held)[held[i].mid] == held[i].stored.tag
    ensures forall m :: m in ViewOf(held) ==> exists i :: 0 <= i < |held| && held[i].mid == m
    decreases |held|
  {
    if held != [] {
      var shorter := held[..|held| - 1];
      ViewOfHas(shorter);
      forall m | m in ViewOf(held)
        ensures exists i :: 0 <= i < |held| && held[i].mid == m
      {
        if m in ViewOf(shorter) {
          var i :| 0 <= i < |shorter| && shorter[i].mid == m;
          assert held[i].mid == m;
        } else {
          assert held[|held| - 1].mid == m;
        }
      }
    }
  }

  lemma {:induction false} InboundHas(list: seq<ClientMsg>)
    ensures forall i :: 0 <= i < |list| && list[i].direction == In ==> Held(list[i].mid, list[i].store) in Inbound(list)
    ensures forall h :: h in Inbound(list) ==> exists i :: 0 <= i < |list| && IsHeld(list[i], h)
    decreases |list|
  {
    if list != [] {
      var shorter := list[..|list| - 1];
      InboundHas(shorter);
      forall h | h in Inbound(list)
        ensures exists i :: 0 <= i < |list| && IsHeld(list[i], h)
      {
        if h in Inbound(shorter) {
          var i :| 0 <= i < |shorter| && IsHeld(shorter[i], h);
          assert IsHeld(list[i], h);
        } else {
          assert IsHeld(list[|list| - 1], h);
        }
      }
    }
  }

  predicate IsHeld(m: ClientMsg, h: Held) {
    m.direction == In && m.mid == h.mid && m.store == h.stored
  }

  // Looking an id up in the list, by either key, finds what the view holds.
  lemma {:induction false} HeldViewFind(list: seq<ClientMsg>, mid: nat)
    requires HeldWellFormed(Inbound(list))
    ensures mid in HeldView(list) <==> IndexOf(list, mid, In, 0) < |list|
    ensures mid in HeldView(list) <==> FindInbound(list, mid, 0) < |list|
    ensures mid in HeldView(list) ==> HeldView(list)[mid] == list[IndexOf(list, mid, In, 0)].store.tag
  {
    var held := Inbound(list);
    InboundHas(list);
    ViewOfHas(held);
    if mid in HeldView(list) {
      var k :| 0 <= k < |held| && held[k].mid == mid;
      assert held[k] in held;
      var i :| 0 <= i < |list| && IsHeld(list[i], held[k]);
      assert Is(list[i], mid, In);
    }
    var i := IndexOf(list, mid, In, 0);
    if i < |list| {
      assert Held(list[i].mid, list[i].store) in held;
    }
    var j := FindInbound(list, mid, 0);
    if j < |list| {
      assert Held(list[j].mid, list[j].store) in held;
    }
  }

  lemma {:induction false} HeldViewEntry(list: seq<ClientMsg>, i: nat)
    requires HeldWellFormed(Inbound(list)) && i < |list| && list[i].direction == In
    ensures list[i].mid in HeldView(list)
  {
    InboundHas(list);
    ViewOfHas(Inbound(list));
    assert Held(list[i].mid, list[i].store) in Inbound(list);
  }

  lemma {:induction false} HeldViewAppend(list: seq<ClientMsg>, m: ClientMsg)
    requires HeldWellFormed(Inbound(list)) && m.direction == In && m.mid == m.store.sourceMid
    requires m.mid !in HeldView(list)
    ensures HeldWellFormed(Inbound(list + [m]))
    ensures HeldView(list + [m]) == HeldView(list)[m.mid := m.store.tag]
  {
    assert (list + [m])[..|list|] == list;
    ViewOfAppend(Inbound(list), Held(m.mid, m.store));
  }

  lemma {:induction false} ViewOfAppend(held: seq<Held>, h: Held)
    requires HeldWellFormed(held) && h.mid == h.stored.sourceMid && h.mid !in ViewOf(held)
    ensures HeldWellFormed(held + [h])
    ensures ViewOf(held + [h]) == ViewOf(held)[h.mid := h.stored.tag]
  {
    ViewOfHas(held);
    assert (held + [h])[..|held|] == held;
  }

  function Unheld(held: seq<Held>, mid: nat): seq<Held> {
    if held == [] then []
    else Unheld(held[..|held| - 1], mid) + if held[|held| - 1].mid == mid then [] else [held[|held| - 1]]
  }

  lemma {:induction false} InboundWithout(list: seq<ClientMsg>, mid: nat)
    ensures Inbound(Without(list, mid, In)) == Unheld(Inbound(list), mid)
    decreases |list|
  {
    if list != [] {
      var last := |list| - 1;
      var a, h := Without(list[..last], mid, In), Inbound(list[..last]);
      InboundWithout(list[..last], mid);
      if list[last].direction == In {
        var x := Held(list[last].mid, list[last].store);
        assert (h + [x])[..|h|] == h;
        if list[last].mid == mid {
          assert a + [] == a && Unheld(h, mid) + [] == Unheld(h, mid);
        } else {
          assert (a + [list[last]])[..|a|] == a;
        }
      } else {
        assert (a + [list[last]])[..|a|] == a;
        assert Inbound(a) + [] == Inbound(a) && h + [] == h;
      }
    }
  }

  lemma {:induction false} UnheldFrom(held: seq<Held>, mid: nat)
    ensures forall h :: h in Unheld(held, mid) ==> h in held
    decreases |held|
  {
    if held != [] { UnheldFrom(held[..|held| - 1], mid); }
  }

  lemma {:induction false} UnheldDistinct(held: seq<Held>, mid: nat)
    requires HeldWellFormed(held)
    ensures HeldWellFormed(Unheld(held, mid))
    decreases |held|
  {
    if held != [] {
      var last := |held| - 1;
      var u := Unheld(held[..last], mid);
      UnheldDistinct(held[..last], mid);
      UnheldFrom(held[..last], mid);
      hide Unheld;
      forall i | 0 <= i < |u|
        ensures u[i].mid != held[last].mid
      {
        assert u[i] in held[..last];
      }
    }
  }

  lemma {:induction false} UnheldView(held: seq<Held>, mid: nat)
    requires HeldWellFormed(held)
    ensures HeldWellFormed(Unheld(held, mid))
    ensures ViewOf(Unheld(held, mid)) == Minus(ViewOf(held), mid)
    decreases |held|
  {
    UnheldDistinct(held, mid);
    if held != [] {
      var last := |held| - 1;
      var u := Unheld(held[..last], mid);
      UnheldView(held[..last], mid);
      MinusPut(ViewOf(held[..last]), held[last].mid, held[last].stored.tag, mid);
      if held[last].mid == mid {
        assert u + [] == u;
      } else {
        assert (u + [held[last]])[..|u|] == u;
      }
      hide HeldWellFormed, Minus;
    }
  }

  lemma {:induction false} HeldViewWithout(list: seq<ClientMsg>, mid: nat)
    requires HeldWellFormed(Inbound(list))
    ensures var list' := ReleasedList(list, mid, 0, 0);
      HeldWellFormed(Inbound(list')) && HeldView(list') == Minus(HeldView(list), mid)
  {
    InboundWithout(list, mid);
    UnheldView(Inbound(list), mid);
    assert PromoteFirst(list, 0, 0) == list;
  }

  // Lists that differ in state, time and dup only hold the same publications.
  lemma {:induction false} SameInboundPointwise(a: seq<ClientMsg>, b: seq<ClientMsg>)
    requires |a| == |b|
    requires forall i :: 0 <= i < |a| ==> ClientContext.SameBut(a[i], b[i])
    ensures SameInbound(a, b)
    decreases |a|
  {
    if a != [] {
      SameInboundPointwise(a[..|a| - 1], b[..|b| - 1]);
      assert ClientContext.SameBut(a[|a| - 1], b[|b| - 1]);
    }
  }

  // ----- Sending keeps the links in order -----

  predicate CanSendUp(c: map<nat, LibMsg>, routed: seq<nat>, taken: set<nat>, p: Packet) {
    UpOk(c, routed, taken, p) && (p.Publish? ==> WaitsRec(c[p.mid]))
  }

  predicate CanSendDown(c: map<nat, LibMsg>, b: map<nat, nat>, routed: seq<nat>, p: Packet) {
    DownOk(c, b, routed, p) && (p.Pubrec? ==> p.mid in b)
  }

  lemma {:induction false} SendUp(c: map<nat, LibMsg>, b: map<nat, nat>, routed: seq<nat>, taken: set<nat>,
                                  up: seq<Packet>, down: seq<Packet>, p: Packet)
    requires PhasesOk(c, b, routed) && LinksOk(c, b, routed, taken, up, down) && CanSendUp(c, routed, taken, p)
    ensures LinksOk(c, b, routed, taken, up + [p], down)
  {
    forall i | 0 <= i < |up| && up[i].Pubrel? && p.Publish?
      ensures up[i].mid != p.mid
    {
      assert UpOk(c, routed, taken, up[i]);
    }
  }

  lemma {:induction false} SendDown(c: map<nat, LibMsg>, b: map<nat, nat>, routed: seq<nat>, taken: set<nat>,
                                    up: seq<Packet>, down: seq<Packet>, p: Packet)
    requires LinksOk(c, b, routed, taken, up, down) && CanSendDown(c, b, routed, p)
    ensures LinksOk(c, b, routed, taken, up, down + [p])
  {
    forall i | 0 <= i < |down| && down[i].Pubcomp? && p.Pubrec?
      ensures down[i].mid != p.mid
    {
      assert DownOk(c, b, routed, down[i]);
    }
  }

  // Losing or receiving packets leaves the links in order.
  lemma {:induction false} LinksSlice(c: map<nat, LibMsg>, b: map<nat, nat>, routed: seq<nat>, taken: set<nat>,
                                      up: seq<Packet>, down: seq<Packet>,
                                     i: nat, j: nat, k: nat, l: nat)
    requires LinksOk(c, b, routed, taken, up, down) && i <= j <= |up| && k <= l <= |down|
    ensures LinksOk(c, b, routed, taken, up[i..j], down[k..l])
  {
  }

  lemma {:induction false} ToBrokerInv(s: Sys, p: Packet)
    requires Inv(s) && CanSendUp(OutView(s.out), s.routed, s.taken, p)
    ensures Inv(ToBroker(s, p))
  {
    SendUp(OutView(s.out), HeldView(s.list), s.routed, s.taken, s.up, s.down, p);
  }

  lemma {:induction false} ToClientInv(s: Sys, p: Packet)
    requires Inv(s) && CanSendDown(OutView(s.out), HeldView(s.list), s.routed, p)
    ensures Inv(ToClient(s, p))
  {
    SendDown(OutView(s.out), HeldView(s.list), s.routed, s.taken, s.up, s.down, p);
  }

  // ----- Each event keeps the invariant -----

  // A free id: what still carries it on the way to the broker is of a lost connection.
  lemma {:induction false} AddPending(c: map<nat, LibMsg>, b: map<nat, nat>, routed: seq<nat>, taken: set<nat>,
                                      up: seq<Packet>, down: seq<Packet>,
                                      m: LibMsg, taken': set<nat>)
    requires PhasesOk(c, b, routed) && LinksOk(c, b, routed, taken, up, down)
    requires m.mid !in c && m.mid !in b && WaitsRec(m)
    requires m.tag !in routed && forall k :: k in c ==> c[k].tag != m.tag
    requires taken' == taken || taken' == taken + {m.mid}
    requires forall i :: 0 <= i < |up| && IsPubrel(up[i], m.mid) ==> m.mid in taken'
    requires forall i :: 0 <= i < |down| ==> !IsPubcomp(down[i], m.mid)
    ensures PhasesOk(c[m.mid := m], b, routed) && LinksOk(c[m.mid := m], b, routed, taken', up, down)
  {
    var c' := c[m.mid := m];
    forall i | 0 <= i < |up| ensures UpOk(c', routed, taken', up[i]) { assert UpOk(c, routed, taken, up[i]); }
    forall i | 0 <= i < |down| ensures DownOk(c', b, routed, down[i]) { assert DownOk(c, b, routed, down[i]); }
  }

  // A message that the broker holds, or has routed, may go to its second phase.
  lemma {:induction false} Advance(c: map<nat, LibMsg>, b: map<nat, nat>, routed: seq<nat>, taken: set<nat>,
                                   up: seq<Packet>, down: seq<Packet>, mid: nat)
    requires PhasesOk(c, b, routed) && LinksOk(c, b, routed, taken, up, down)
    requires mid in c && (mid in b || WaitsComp(c[mid]))
    ensures var c' := c[mid := c[mid].(state := WaitForPubcomp)];
      PhasesOk(c', b, routed) && LinksOk(c', b, routed, taken, up, down)
  {
    var c' := c[mid := c[mid].(state := WaitForPubcomp)];
    forall i | 0 <= i < |up| ensures UpOk(c', routed, taken, up[i]) { assert UpOk(c, routed, taken, up[i]); }
    forall i | 0 <= i < |down| ensures DownOk(c', b, routed, down[i]) { assert DownOk(c, b, routed, down[i]); }
  }

  lemma {:induction false} AppPublishInv(s: Sys)
    requires Inv(s) && Enabled(s, AppPublish)
    ensures Inv(Next(s, AppPublish))
  {
    hide PhasesOk, LinksOk, LedgerOk, InUse, OutView, HeldView, HeldWellFormed, DistinctMids;
    var mid, tag := NextMid(s.lastMid), s.published;
    var m := LibMsg(mid, tag, 2, WaitState(2), false, 0);
    var c, b := OutView(s.out), HeldView(s.list);
    var taken := if s.clientUp then s.taken else s.taken + {mid};
    FreeId(s, mid);
    FreeTag(c, s.published, s.confirmed, s.routed);
    OutViewAppend(s.out, m);
    AddPending(c, b, s.routed, s.taken, s.up, s.down, m, taken);
    PublishLedger(c, tag, s.confirmed, s.routed, m);
    var s' := s.(lastMid := mid, published := tag + 1, out := s.out + [m], taken := taken);
    assert Inv(s');
    if s.clientUp { SendFresh(s', m); }
  }

  // An id that is not in use.
  lemma {:induction false} FreeId(s: Sys, mid: nat)
    requires Inv(s) && !InUse(s, mid)
    ensures FindMid(s.out, mid, 0) == |s.out| && mid !in OutView(s.out) && mid !in HeldView(s.list)
    ensures s.clientUp ==> forall i :: 0 <= i < |s.up| ==> !IsPubrel(s.up[i], mid)
    ensures forall i :: 0 <= i < |s.down| ==> !IsPubcomp(s.down[i], mid)
  {
    OutViewFind(s.out, mid);
  }

  lemma {:induction false} FreeTag(c: map<nat, LibMsg>, published: nat, confirmed: seq<nat>, routed: seq<nat>)
    requires LedgerOk(c, published, confirmed, routed)
    ensures published !in routed && forall k :: k in c ==> c[k].tag != published
  {
  }

  lemma {:induction false} SendFresh(s: Sys, m: LibMsg)
    requires Inv(s) && s.clientUp && s.out != [] && s.out[|s.out| - 1] == m && WaitsRec(m) && m.tag !in s.routed
    ensures Inv(ToBroker(s, Publish(m.mid, m.tag, false)))
  {
    OutViewHas(s.out);
    ToBrokerInv(s, Publish(m.mid, m.tag, false));
  }

  lemma {:induction false} PublishLedger(c: map<nat, LibMsg>, tag: nat, confirmed: seq<nat>, routed: seq<nat>,
                                         m: LibMsg)
    requires LedgerOk(c, tag, confirmed, routed) && m.mid !in c && m.tag == tag
    ensures LedgerOk(c[m.mid := m], tag + 1, confirmed, routed)
  {
    var c' := c[m.mid := m];
    forall t: nat | t < tag + 1
      ensures t in confirmed || PendingTag(c', t)
    {
      if t == tag {
        assert m.mid in c' && c'[m.mid].tag == t;
      } else if t !in confirmed {
        var k :| k in c && c[k].tag == t;
        assert k in c' && c'[k].tag == t;
      }
    }
  }

  lemma {:induction false} ClientPubrecInv(s: Sys, mid: nat)
    requires Inv(s) && DownOk(OutView(s.out), HeldView(s.list), s.routed, Pubrec(mid))
    ensures Inv(ClientHandles(s, Pubrec(mid)))
    ensures FindMid(s.out, mid, 0) < |s.out|
  {
    hide OutView, HeldView, PhasesOk, LinksOk, LedgerOk, HeldWellFormed, DistinctMids, Inbound;
    var c, b := OutView(s.out), HeldView(s.list);
    OutViewFind(s.out, mid);
    var i := FindMid(s.out, mid, 0);
    var m := s.out[i].(state := WaitForPubcomp);
    OutViewUpdate(s.out, i, m);
    Advance(c, b, s.routed, s.taken, s.up, s.down, mid);
    UpdateLedger(c, s.published, s.confirmed, s.routed, m);
    assert Inv(s.(out := s.out[i := m]));
    ToBrokerInv(s.(out := s.out[i := m]), Pubrel(mid, false));
  }

  lemma {:induction false} UpdateLedger(c: map<nat, LibMsg>, published: nat, confirmed: seq<nat>, routed: seq<nat>,
                                        m: LibMsg)
    requires LedgerOk(c, published, confirmed, routed) && m.mid in c && c[m.mid].tag == m.tag
    ensures LedgerOk(c[m.mid := m], published, confirmed, routed)
  {
    var c' := c[m.mid := m];
    forall t: nat | t < published
      ensures t in confirmed || PendingTag(c', t)
    {
      if t !in confirmed {
        var k :| k in c && c[k].tag == t;
        assert k in c' && c'[k].tag == t;
      }
    }
  }

  // The packet is no longer on the link, so no PUBREC of the id follows it.
  lemma {:induction false} ClientPubcompInv(s: Sys, mid: nat)
    requires Inv(s) && DownOk(OutView(s.out), HeldView(s.list), s.routed, Pubcomp(mid))
    requires forall i :: 0 <= i < |s.down| && s.down[i].Pubrec? ==> s.down[i].mid != mid
    ensures Inv(ClientHandles(s, Pubcomp(mid)))
  {
    var c, b := OutView(s.out), HeldView(s.list);
    OutViewFind(s.out, mid);
    var i := FindMid(s.out, mid, 0);
    if i < |s.out| {
      OutViewCut(s.out, i);
      var c' := Minus(c, mid);
      assert LinksOk(c', b, s.routed, s.taken, s.up, s.down) by {
        forall i | 0 <= i < |s.up| ensures UpOk(c', s.routed, s.taken, s.up[i]) {
          assert UpOk(c, s.routed, s.taken, s.up[i]);
        }
        forall i | 0 <= i < |s.down| ensures DownOk(c', b, s.routed, s.down[i]) {
          assert DownOk(c, b, s.routed, s.down[i]);
        }
      }
      assert LedgerOk(c', s.published, s.confirmed + [c[mid].tag], s.routed) by {
        ConfirmLedger(c, b, s.published, s.confirmed, s.routed, mid);
      }
    }
  }

  lemma {:induction false} ConfirmLedger(c: map<nat, LibMsg>, b: map<nat, nat>, published: nat, confirmed: seq<nat>,
                                         routed: seq<nat>, mid: nat)
    requires LedgerOk(c, published, confirmed, routed) && PhasesOk(c, b, routed)
    requires mid in c && c[mid].tag in routed
    ensures LedgerOk(Minus(c, mid), published, confirmed + [c[mid].tag], routed)
  {
    var c' := Minus(c, mid);
    var confirmed' := confirmed + [c[mid].tag];
    assert c[mid].tag in confirmed';
    forall t: nat | t < published
      ensures t in confirmed' || PendingTag(c', t)
    {
      if t !in confirmed' {
        assert t !in confirmed;
        var k :| k in c && c[k].tag == t;
        assert k in c' && c'[k].tag == t;
      }
    }
  }

  // The broker keeps a publication it does not hold yet.
  lemma {:induction false} Hold(c: map<nat, LibMsg>, b: map<nat, nat>, routed: seq<nat>, taken: set<nat>,
                                up: seq<Packet>, down: seq<Packet>, mid: nat)
    requires PhasesOk(c, b, routed) && LinksOk(c, b, routed, taken, up, down)
    requires mid in c && mid !in b && c[mid].tag !in routed && mid !in taken
    ensures var b' := b[mid := c[mid].tag];
      PhasesOk(c, b', routed) && LinksOk(c, b', routed, taken, up, down)
  {
    var b' := b[mid := c[mid].tag];
    forall i | 0 <= i < |down| ensures DownOk(c, b', routed, down[i]) { assert DownOk(c, b, routed, down[i]); }
  }

  lemma {:induction false} PendingHeld(s: Sys, mid: nat)
    requires Inv(s) && mid in HeldView(s.list)
    ensures CanSendDown(OutView(s.out), HeldView(s.list), s.routed, Pubrec(mid))
  {
  }

  lemma {:induction false} BrokerPublishInv(s: Sys, mid: nat, tag: nat, dup: bool)
    requires Inv(s) && UpOk(OutView(s.out), s.routed, s.taken, Publish(mid, tag, dup))
    ensures Inv(BrokerHandles(s, Publish(mid, tag, dup)))
  {
    hide PhasesOk, LinksOk, LedgerOk, HeldWellFormed, DistinctMids, OutView, HeldView;
    var c, b := OutView(s.out), HeldView(s.list);
    HeldViewFind(s.list, mid);
    if mid in b {
      PendingHeld(s, mid);
      ToClientInv(s, Pubrec(mid));
    } else {
      var m := InboundEntry(s, mid, tag, WaitForPubrel);
      Hold(c, b, s.routed, s.taken, s.up, s.down, mid);
      HeldViewAppend(s.list, m);
      var s' := s.(list := s.list + [m], nextNode := s.nextNode + 1);
      assert Inv(s');
      ToClientInv(s', Pubrec(mid));
    }
  }

  // Routing a held publication: its PUBLISH packets are all gone, and its client waits for PUBCOMP.
  lemma {:induction false} Route(c: map<nat, LibMsg>, b: map<nat, nat>, routed: seq<nat>, taken: set<nat>,
                                 up: seq<Packet>, down: seq<Packet>, mid: nat)
    requires PhasesOk(c, b, routed) && LinksOk(c, b, routed, taken, up, down)
    requires mid in b && WaitsComp(c[mid])
    requires forall i :: 0 <= i < |up| && up[i].Publish? ==> up[i].mid != mid
    ensures var b', routed' := Minus(b, mid), routed + [b[mid]];
      PhasesOk(c, b', routed') && LinksOk(c, b', routed', taken, up, down)
  {
    var b', routed' := Minus(b, mid), routed + [b[mid]];
    assert b[mid] in routed';
    forall t ensures t in routed' <==> t in routed || t == b[mid] {}
    forall i | 0 <= i < |up| ensures UpOk(c, routed', taken, up[i]) { assert UpOk(c, routed, taken, up[i]); }
    forall i | 0 <= i < |down| ensures DownOk(c, b', routed', down[i]) { assert DownOk(c, b, routed, down[i]); }
  }

  lemma {:induction false} RouteLedger(c: map<nat, LibMsg>, b: map<nat, nat>, published: nat, confirmed: seq<nat>,
                                       routed: seq<nat>, mid: nat)
    requires LedgerOk(c, published, confirmed, routed) && PhasesOk(c, b, routed) && mid in b
    ensures LedgerOk(c, published, confirmed, routed + [b[mid]])
  {
    forall t ensures t in routed + [b[mid]] <==> t in routed || t == b[mid] {}
  }

  lemma {:induction false} RouteInv(s: Sys, mid: nat)
    requires Inv(s) && mid in HeldView(s.list) && UpOk(OutView(s.out), s.routed, s.taken, Pubrel(mid, false))
    requires forall i :: 0 <= i < |s.up| && s.up[i].Publish? ==> s.up[i].mid != mid
    ensures var s' := s.(list := ReleasedList(s.list, mid, 0, 0), routed := s.routed + [HeldView(s.list)[mid]]);
      Inv(s') && CanSendDown(OutView(s'.out), HeldView(s'.list), s'.routed, Pubcomp(mid))
  {
    var c, b := OutView(s.out), HeldView(s.list);
    Route(c, b, s.routed, s.taken, s.up, s.down, mid);
    RouteLedger(c, b, s.published, s.confirmed, s.routed, mid);
    HeldViewWithout(s.list, mid);
    assert b[mid] in s.routed + [b[mid]];
    assert CanSendDown(c, Minus(b, mid), s.routed + [b[mid]], Pubcomp(mid));
    hide PhasesOk, LinksOk, LedgerOk, CanSendDown, ReleasedList, HeldWellFormed;
  }

  lemma {:induction false} BrokerPubrelInv(s: Sys, mid: nat, dup: bool)
    requires Inv(s) && UpOk(OutView(s.out), s.routed, s.taken, Pubrel(mid, dup))
    requires forall i :: 0 <= i < |s.up| && s.up[i].Publish? ==> s.up[i].mid != mid
    ensures Inv(BrokerHandles(s, Pubrel(mid, dup)))
  {
    HeldViewFind(s.list, mid);
    if mid in HeldView(s.list) {
      RouteInv(s, mid);
      hide Inv, ReleasedList, HeldView, CanSendDown;
      ToClientInv(s.(list := ReleasedList(s.list, mid, 0, 0), routed := s.routed + [HeldView(s.list)[mid]]),
                  Pubcomp(mid));
    } else if s.clientUp {
      ToClientInv(s, Pubcomp(mid));
    }
  }

  lemma {:induction false} ReceiveInv(s: Sys, e: Event)
    requires Inv(s) && Enabled(s, e) && (e == ClientReceive || e == BrokerReceive)
    ensures Inv(Next(s, e))
  {
    var c, b := OutView(s.out), HeldView(s.list);
    if e == ClientReceive {
      var p, s' := s.down[0], s.(down := s.down[1..]);
      LinksSlice(c, b, s.routed, s.taken, s.up, s.down, 0, |s.up|, 1, |s.down|);
      assert s.up[0..|s.up|] == s.up && DownOk(c, b, s.routed, p);
      if p.Pubrec? {
        ClientPubrecInv(s', p.mid);
      } else if p.Pubcomp? {
        ClientPubcompInv(s', p.mid);
      }
    } else {
      var p, s' := s.up[0], s.(up := s.up[1..]);
      LinksSlice(c, b, s.routed, s.taken, s.up, s.down, 1, |s.up|, 0, |s.down|);
      assert s.down[0..|s.down|] == s.down && UpOk(c, s.routed, s.taken, p);
      if p.Publish? {
        BrokerPublishInv(s', p.mid, p.tag, p.dup);
      } else if p.Pubrel? {
        BrokerPubrelInv(s', p.mid, p.dup);
      }
    }
  }

  lemma {:induction false} RetryInv(s: Sys, e: Event)
    requires Inv(s) && Enabled(s, e) && (e.ClientRetry? || e.BrokerRetry?)
    ensures Inv(Next(s, e))
  {
    if e.ClientRetry? {
      OutViewHas(s.out);
      ToBrokerInv(s, RetryPacket(s.out[e.i]).value);
    } else {
      HeldViewEntry(s.list, e.i);
      ToClientInv(s, Pubrec(s.list[e.i].mid));
    }
  }

  lemma {:induction false} LossInv(s: Sys, e: Event)
    requires Inv(s) && Enabled(s, e) && (e.ClientLoses? || e.BrokerLoses? || e.Reconnect?)
    ensures Inv(Next(s, e))
  {
    var c, b := OutView(s.out), HeldView(s.list);
    var keptUp := if e.ClientLoses? then e.kept else 0;
    var keptDown := if e.BrokerLoses? then e.kept else 0;
    LinksSlice(c, b, s.routed, s.taken, s.up, s.down, 0, keptUp, 0, keptDown);
    assert s.up[0..keptUp] == s.up[..keptUp] && s.down[0..keptDown] == s.down[..keptDown];
    assert s.up[..0] == [] && s.down[..0] == [];
    if e.Reconnect? {
      SameInboundPointwise(s.list, ResetList(s.list, 0));
    }
  }

  // Every event keeps the invariant, and no event makes the client give up on an unknown PUBREC.
  lemma {:induction false} NextInv(s: Sys, e: Event)
    requires Inv(s) && Enabled(s, e)
    ensures Inv(Next(s, e))
  {
    match e {
      case AppPublish => AppPublishInv(s);
      case ClientReceive => ReceiveInv(s, e);
      case BrokerReceive => ReceiveInv(s, e);
      case ClientRetry(_) => RetryInv(s, e);
      case BrokerRetry(_) => RetryInv(s, e);
      case ClientLoses(_) => LossInv(s, e);
      case BrokerLoses(_) => LossInv(s, e);
      case Reconnect => LossInv(s, e);
      case ClientChatter => ToBrokerInv(s, Other);
      case BrokerChatter => ToClientInv(s, Other);
      case BrokerOther(_, _) =>
    }
  }

  // ----- Runs -----

  predicate IsRun(states: seq<Sys>, events: seq<Event>) {
    && |states| == |events| + 1 && states[0] == Start
    && forall i :: 0 <= i < |events| ==> Enabled(states[i], events[i]) && states[i + 1] == Next(states[i], events[i])
  }

  lemma {:induction false} RunInv(states: seq<Sys>, events: seq<Event>, i: nat)
    requires IsRun(states, events) && i < |states|
    ensures Inv(states[i])
    decreases i
  {
    if i == 0 {
      assert OutView([]) == map[] && Inbound([]) == [];
    } else {
      RunInv(states, events, i - 1);
      NextInv(states[i - 1], events[i - 1]);
    }
  }

  /**
   In every state of every run: no publication has been routed twice; a publication confirmed to
   the application has been routed (so exactly once) and confirmed once; and every publication
   is either confirmed or still in the client's queue, never both and never lost.
   */
  lemma {:induction false} ExactlyOnce(states: seq<Sys>, events: seq<Event>, i: nat)
    requires IsRun(states, events) && i < |states|
    ensures var s := states[i];
      && Distinct(s.routed) && Distinct(s.confirmed)
      && (forall t :: t in s.confirmed ==> t in s.routed)
      && (forall t :: t in s.routed ==> t < s.published)
      && (forall k :: 0 <= k < |s.out| ==> s.out[k].tag < s.published && s.out[k].tag !in s.confirmed)
      && (forall t: nat :: t < s.published && t !in s.confirmed ==> exists k :: 0 <= k < |s.out| && s.out[k].tag == t)
  {
    var s := states[i];
    RunInv(states, events, i);
    OutViewHas(s.out);
    var c := OutView(s.out);
    forall t: nat | t < s.published && t !in s.confirmed
      ensures exists k :: 0 <= k < |s.out| && s.out[k].tag == t
    {
      assert PendingTag(c, t);
      var m :| m in c && c[m].tag == t;
      var k :| 0 <= k < |s.out| && s.out[k].mid == m;
      assert s.out[k].tag == t;
    }
  }

  // A PUBREC never reaches the client for an id it does not know, so it never closes a connection.
  lemma {:induction false} NoUnknownPubrec(states: seq<Sys>, events: seq<Event>, i: nat)
    requires IsRun(states, events) && i < |events| && events[i] == ClientReceive && states[i].down[0].Pubrec?
    ensures FindMid(states[i].out, states[i].down[0].mid, 0) < |states[i].out|
    ensures states[i + 1].clientUp
  {
    var s := states[i];
    RunInv(states, events, i);
    assert DownOk(OutView(s.out), HeldView(s.list), s.routed, s.down[0]);
    OutViewFind(s.out, s.down[0].mid);
  }

  // ----- Nothing is ever stuck -----

  // The events take s to s', each enabled where it happens.
  predicate Leads(s: Sys, events: seq<Event>, s': Sys)
    decreases |events|
  {
    if events == [] then s == s'
    else Enabled(s, events[0]) && Leads(Next(s, events[0]), events[1..], s')
  }

  lemma {:induction false} LeadsOn(s: Sys, a: seq<Event>, s1: Sys, b: seq<Event>, s2: Sys)
    requires Leads(s, a, s1) && Leads(s1, b, s2)
    ensures Leads(s, a + b, s2)
    decreases |a|
  {
    if a == [] {
      assert a + b == b;
    } else {
      LeadsOn(Next(s, a[0]), a[1..], s1, b, s2);
      assert (a + b)[1..] == a[1..] + b;
    }
  }

  predicate Quiet(s: Sys) {
    Inv(s) && s.clientUp && s.brokerUp && s.up == [] && s.down == []
  }

  lemma {:induction false} OneEvent(s: Sys, e: Event)
    requires Enabled(s, e)
    ensures Leads(s, [e], Next(s, e)) && (Inv(s) ==> Inv(Next(s, e)))
  {
    if Inv(s) { NextInv(s, e); }
    assert [e][1..] == [];
  }

  lemma {:induction false} BrokerAnswers(s: Sys, p: Packet)
    requires Inv(s) && s.clientUp && s.brokerUp && s.up == [p] && s.down == [] && (p.Publish? || p.Pubrel?)
    ensures var s' := Next(s, BrokerReceive);
      && Inv(s') && Leads(s, [BrokerReceive], s') && s'.clientUp && s'.brokerUp && s'.out == s.out
      && s'.up == [] && s'.down == [if p.Publish? then Pubrec(p.mid) else Pubcomp(p.mid)]
  {
    hide Inv, Leads, InUse, ReleasedList, ResetList, Published;
    OneEvent(s, BrokerReceive);
    assert s.up[1..] == [];
  }

  lemma {:induction false} ClientAnswers(s: Sys, p: Packet)
    requires Inv(s) && s.clientUp && s.brokerUp && s.up == [] && s.down == [p] && (p.Pubrec? || p.Pubcomp?)
    requires s.out != [] && s.out[0].mid == p.mid
    ensures var s' := Next(s, ClientReceive);
      && Inv(s') && Leads(s, [ClientReceive], s') && s'.clientUp && s'.brokerUp && s'.down == []
      && (p.Pubrec? ==> s'.up == [Pubrel(p.mid, false)] && |s'.out| == |s.out| && s'.out[0].mid == p.mid)
      && (p.Pubcomp? ==> s'.up == [] && |s'.out| == |s.out| - 1)
  {
    hide Inv, Leads, InUse, ReleasedList, ResetList, Published;
    OneEvent(s, ClientReceive);
    assert s.down[1..] == [] && FindMid(s.out, p.mid, 0) == 0;
  }

  lemma {:induction false} RetryFirst(s: Sys)
    requires s.clientUp && s.brokerUp && s.up == [] && s.out != [] && WaitsRec(s.out[0])
    ensures Enabled(s, ClientRetry(0))
    ensures Next(s, ClientRetry(0)) == s.(up := [Publish(s.out[0].mid, s.out[0].tag, true)])
  {
    assert [] + [Publish(s.out[0].mid, s.out[0].tag, true)] == [Publish(s.out[0].mid, s.out[0].tag, true)];
  }

  // With quiet links, a retry and the answers to it bring a message into its second phase.
  lemma {:induction false} FirstPhase(s: Sys) returns (events: seq<Event>, s': Sys)
    requires Quiet(s) && s.out != [] && WaitsRec(s.out[0])
    ensures Leads(s, events, s') && Inv(s') && s'.clientUp && s'.brokerUp
    ensures |s'.out| == |s.out| && s'.out[0].mid == s.out[0].mid
    ensures s'.up == [Pubrel(s.out[0].mid, false)] && s'.down == []
  {
    hide Inv, Leads, Next;
    var m := s.out[0];
    var s1 := s.(up := [Publish(m.mid, m.tag, true)]);
    RetryFirst(s);
    OneEvent(s, ClientRetry(0));
    BrokerAnswers(s1, Publish(m.mid, m.tag, true));
    var s2 := Next(s1, BrokerReceive);
    ClientAnswers(s2, Pubrec(m.mid));
    s' := Next(s2, ClientReceive);
    LeadsOn(s, [ClientRetry(0)], s1, [BrokerReceive], s2);
    LeadsOn(s, [ClientRetry(0)] + [BrokerReceive], s2, [ClientReceive], s');
    events := [ClientRetry(0)] + [BrokerReceive] + [ClientReceive];
  }

  // A PUBREL on quiet links is answered, and the message leaves the queue.
  lemma {:induction false} SecondPhase(s: Sys) returns (events: seq<Event>, s': Sys)
    requires Inv(s) && s.clientUp && s.brokerUp && s.out != [] && s.down == []
    requires |s.up| == 1 && s.up[0].Pubrel? && s.up[0].mid == s.out[0].mid
    ensures Leads(s, events, s') && Quiet(s') && |s'.out| < |s.out|
  {
    hide Inv, Leads, Next;
    BrokerAnswers(s, s.up[0]);
    var s1 := Next(s, BrokerReceive);
    ClientAnswers(s1, Pubcomp(s.out[0].mid));
    s' := Next(s1, ClientReceive);
    LeadsOn(s, [BrokerReceive], s1, [ClientReceive], s');
    events := [BrokerReceive] + [ClientReceive];
  }

  lemma {:induction false} Drain(s: Sys) returns (events: seq<Event>, s': Sys)
    requires Quiet(s)
    ensures Leads(s, events, s') && Quiet(s') && s'.out == []
    decreases |s.out|
  {
    if s.out == [] {
      events, s' := [], s;
    } else {
      OutViewHas(s.out);
      hide Leads;
      var a, s1: Sys;
      if WaitsRec(s.out[0]) {
        a, s1 := FirstPhase(s);
      } else {
        OneEvent(s, ClientRetry(0));
        a, s1 := [ClientRetry(0)], Next(s, ClientRetry(0));
      }
      var b, s2 := SecondPhase(s1);
      var c, s3 := Drain(s2);
      LeadsOn(s, a, s1, b, s2);
      LeadsOn(s, a + b, s2, c, s3);
      events, s' := a + b + c, s3;
    }
  }

  /**
   From every reachable state some continuation, starting with a new connection, confirms and
   routes every publication: losses never leave the two sides unable to finish.
   */
  lemma {:induction false} CanAlwaysFinish(states: seq<Sys>, events: seq<Event>, i: nat)
    returns (rest: seq<Event>, s': Sys)
    requires IsRun(states, events) && i < |states|
    ensures Leads(states[i], rest, s') && s'.out == []
    ensures forall t: nat :: t < s'.published ==> t in s'.confirmed && t in s'.routed
  {
    hide Leads, InUse, ResetList, ReleasedList, Published, ClientHandles, BrokerHandles, IsRun;
    var s := states[i];
    RunInv(states, events, i);
    var a: seq<Event>, s1: Sys := [], s;
    assert Leads(s, [], s) by { NoEvent(s); }
    if s.clientUp {
      OneEvent(s, ClientLoses(0));
      a, s1 := [ClientLoses(0)], Next(s, ClientLoses(0));
    }
    OneEvent(s1, Reconnect);
    var s2 := Next(s1, Reconnect);
    LeadsOn(s, a, s1, [Reconnect], s2);
    var b, s3 := Drain(s2);
    LeadsOn(s, a + [Reconnect], s2, b, s3);
    rest, s' := a + [Reconnect] + b, s3;
    AllSettled(s');
  }

  lemma {:induction false} NoEvent(s: Sys)
    ensures Leads(s, [], s)
  {
  }

  lemma {:induction false} AllSettled(s: Sys)
    requires Inv(s) && s.out == []
    ensures forall t: nat :: t < s.published ==> t in s.confirmed && t in s.routed
  {
    forall t: nat | t < s.published ensures t in s.confirmed && t in s.routed {
      assert t in s.confirmed || PendingTag(OutView(s.out), t);
    }
  }
}
