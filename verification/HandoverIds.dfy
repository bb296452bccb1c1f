/**
 Why mosquitto_publish must not hand out an id that is still in use (_mosquitto_mid_generate,
 lib/util_mosq.c, never checks): the hand-over is exactly-once as long as it does not, and can
 always be made to confirm a publication that was never routed as soon as it does.
 */
module HandoverIds {
  import opened Topics
  import opened MessageQueue
  import opened ClientLibrary
  import opened Handover

  // ----- Connections and links -----

  // A side that is down has nothing on its way to it.
  predicate ConnOk(s: Sys) {
    (!s.clientUp ==> s.down == []) && (!s.brokerUp ==> s.up == [])
  }

  lemma {:induction false} NextConn(s: Sys, e: Event)
    requires ConnOk(s) && Enabled(s, e)
    ensures ConnOk(Next(s, e))
  {
    hide InUse, ResetList, ReleasedList;
  }

  lemma {:induction false} RunConn(states: seq<Sys>, events: seq<Event>, i: nat)
    requires IsRun(states, events) && i < |states|
    ensures ConnOk(states[i])
    decreases i
  {
    if i > 0 {
      RunConn(states, events, i - 1);
      NextConn(states[i - 1], events[i - 1]);
    }
  }

  // ----- The same system with one more publication -----

  // The state as if m had not been published; the links to the broker are compared separately.
  predicate Doubled(sim: Sys, act: Sys, m: LibMsg) {
    act == sim.(lastMid := act.lastMid, published := act.published, taken := act.taken, out := sim.out + [m],
                up := act.up)
  }

  lemma {:induction false} FindMidAppend(out: seq<LibMsg>, m: LibMsg, mid: nat)
    ensures FindMid(out + [m], mid, 0) ==
      if FindMid(out, mid, 0) < |out| then FindMid(out, mid, 0) else if m.mid == mid then |out| else |out| + 1
  {
    var i, j := FindMid(out, mid, 0), FindMid(out + [m], mid, 0);
    assert (out + [m])[|out|] == m;
    assert forall k :: 0 <= k < |out| ==> (out + [m])[k] == out[k];
    if i < |out| { assert (out + [m])[i].mid == mid; }
  }

  predicate Unknown(s: Sys, mid: nat) { FindMid(s.out, mid, 0) == |s.out| }

  lemma {:induction false} ReceiveKeepsDoubled(sim: Sys, act: Sys, m: LibMsg)
    requires Inv(sim) && Doubled(sim, act, m) && sim.clientUp && sim.down != []
    requires !(IsPubcomp(sim.down[0], m.mid) && Unknown(sim, m.mid))
    ensures Doubled(Next(sim, ClientReceive), Next(act, ClientReceive), m)
    ensures act.up == sim.up ==> Next(act, ClientReceive).up == Next(sim, ClientReceive).up
  {
    hide Inv, FindMid, InUse, ResetList, ReleasedList, Published, BrokerHandles;
    var p := sim.down[0];
    PubrecKnown(sim);
    if p.Pubrec? || p.Pubcomp? {
      FindMidAppend(sim.out, m, p.mid);
      var i := FindMid(sim.out, p.mid, 0);
      if i < |sim.out| {
        var x := sim.out[i].(state := WaitForPubcomp);
        assert (sim.out + [m])[i := x] == sim.out[i := x] + [m];
        assert Cut(sim.out + [m], i) == Cut(sim.out, i) + [m];
      }
    }
  }

  lemma {:induction false} PubrecKnown(s: Sys)
    requires Inv(s) && s.down != []
    ensures s.down[0].Pubrec? ==> FindMid(s.out, s.down[0].mid, 0) < |s.out|
  {
    assert DownOk(OutView(s.out), HeldView(s.list), s.routed, s.down[0]);
    if s.down[0].Pubrec? { OutViewFind(s.out, s.down[0].mid); }
  }

  lemma {:induction false} BrokerKeepsDoubled(sim: Sys, act: Sys, m: LibMsg, tail: seq<Packet>)
    requires Doubled(sim, act, m) && sim.brokerUp && sim.up != [] && act.up == sim.up + tail
    ensures Doubled(Next(sim, BrokerReceive), Next(act, BrokerReceive), m)
    ensures Next(act, BrokerReceive).up == Next(sim, BrokerReceive).up + tail
  {
    assert (sim.up + tail)[1..] == sim.up[1..] + tail && (sim.up + tail)[0] == sim.up[0];
    hide ReleasedList, FindInbound, IndexOf;
  }

  lemma {:induction false} RetryKeepsDoubled(sim: Sys, act: Sys, m: LibMsg, i: nat)
    requires Doubled(sim, act, m) && act.up == sim.up && Enabled(sim, ClientRetry(i))
    ensures Enabled(act, ClientRetry(i)) && Doubled(Next(sim, ClientRetry(i)), Next(act, ClientRetry(i)), m)
    ensures Next(act, ClientRetry(i)).up == Next(sim, ClientRetry(i)).up
  {
    assert (sim.out + [m])[i] == sim.out[i];
  }

  lemma {:induction false} LeadsFirst(s: Sys, e: Event, rest: seq<Event>, s': Sys)
    requires Enabled(s, e) && Leads(Next(s, e), rest, s')
    ensures Leads(s, [e] + rest, s')
  {
    assert ([e] + rest)[1..] == rest && ([e] + rest)[0] == e;
  }

  // The application is told of m, which no subscriber was given.
  predicate Broken(s: Sys, m: LibMsg) { m.tag in s.confirmed && m.tag !in s.routed }

  // ----- An old answer confirms the new publication -----

  lemma {:induction false} StillUnknown(s: Sys, mid: nat)
    requires Inv(s) && s.clientUp && s.down != [] && Unknown(s, mid)
    ensures Unknown(Next(s, ClientReceive), mid)
  {
    var p := s.down[0];
    if p.Pubrec? || p.Pubcomp? {
      var i := FindMid(s.out, p.mid, 0);
      if i < |s.out| {
        var x := s.out[i].(state := WaitForPubcomp);
        var j, k := FindMid(s.out[i := x], mid, 0), FindMid(Cut(s.out, i), mid, 0);
      }
    }
  }

  lemma {:induction false} OldPubcomp(sim: Sys, act: Sys, m: LibMsg, k: nat) returns (events: seq<Event>, s': Sys)
    requires Inv(sim) && Doubled(sim, act, m) && sim.clientUp && sim.published <= m.tag
    requires k < |sim.down| && IsPubcomp(sim.down[k], m.mid) && Unknown(sim, m.mid)
    ensures Leads(act, events, s') && Broken(s', m)
    decreases k
  {
    if IsPubcomp(sim.down[0], m.mid) {
      FindMidAppend(sim.out, m, m.mid);
      events, s' := [ClientReceive], Next(act, ClientReceive);
      LeadsFirst(act, ClientReceive, [], s');
      assert [ClientReceive] + [] == [ClientReceive];
      assert (sim.out + [m])[|sim.out|] == m;
      assert m.tag !in sim.routed by { RoutedBelow(sim, m.tag); }
    } else {
      NextInv(sim, ClientReceive);
      ReceiveKeepsDoubled(sim, act, m);
      StillUnknown(sim, m.mid);
      ReceivedDown(sim);
      hide Inv, Next, Unknown, Leads;
      var rest;
      rest, s' := OldPubcomp(Next(sim, ClientReceive), Next(act, ClientReceive), m, k - 1);
      LeadsFirst(act, ClientReceive, rest, s');
      events := [ClientReceive] + rest;
    }
  }

  lemma {:induction false} RoutedBelow(s: Sys, t: nat)
    requires Inv(s) && s.published <= t
    ensures t !in s.routed
  {
  }

  // A connected client takes one packet off the link, unless it gives up the connection.
  lemma {:induction false} ReceivedDown(s: Sys)
    requires Inv(s) && s.clientUp && s.down != []
    ensures var s' := Next(s, ClientReceive);
      s'.clientUp && s'.down == s.down[1..] && s'.published == s.published && s'.brokerUp == s.brokerUp
  {
    hide OutView, HeldView, PhasesOk, LedgerOk, HeldWellFormed, UpOk, UpOrdered, DownOrdered;
    var p := s.down[0];
    assert DownOk(OutView(s.out), HeldView(s.list), s.routed, p);
    if p.Pubrec? { OutViewFind(s.out, p.mid); }
  }

  lemma {:induction false} ReceivedUp(s: Sys)
    requires s.brokerUp && s.up != []
    ensures var s' := Next(s, BrokerReceive);
      && s'.up == s.up[1..] && s'.out == s.out && s'.published == s.published
      && s'.clientUp == s.clientUp && s'.brokerUp == s.brokerUp
      && (s.clientUp && s.up[0].Pubrel? ==> s'.down == s.down + [Pubcomp(s.up[0].mid)])
  {
    hide ReleasedList;
  }

  lemma {:induction false} OldPubrel(sim: Sys, act: Sys, m: LibMsg, tail: seq<Packet>,
                                     k: nat) returns (events: seq<Event>, s': Sys)
    requires Inv(sim) && Doubled(sim, act, m) && sim.clientUp && sim.brokerUp && sim.published <= m.tag
    requires act.up == sim.up + tail && k < |sim.up| && IsPubrel(sim.up[k], m.mid) && Unknown(sim, m.mid)
    ensures Leads(act, events, s') && Broken(s', m)
    decreases k
  {
    NextInv(sim, BrokerReceive);
    BrokerKeepsDoubled(sim, act, m, tail);
    ReceivedUp(sim);
    hide Inv, Next, Leads, Broken;
    var sim1, act1 := Next(sim, BrokerReceive), Next(act, BrokerReceive);
    var rest;
    if k == 0 {
      rest, s' := OldPubcomp(sim1, act1, m, |sim.down|);
    } else {
      rest, s' := OldPubrel(sim1, act1, m, tail, k - 1);
    }
    LeadsFirst(act, BrokerReceive, rest, s');
    events := [BrokerReceive] + rest;
  }

  // ----- An id of a pending publication -----

  // Both sides up, nothing on the way down.
  predicate Calm(s: Sys, up: seq<Packet>) {
    s.clientUp && s.brokerUp && s.up == up && s.down == []
  }

  // The old publication waits for PUBCOMP and its PUBREL is under way: a second PUBREL makes the
  // broker answer twice, and the second answer is taken for the new publication.
  lemma {:induction false} TwoPubrels(sim: Sys, act: Sys, m: LibMsg, p: Packet) returns (events: seq<Event>, s': Sys)
    requires Inv(sim) && Doubled(sim, act, m) && Calm(sim, [p]) && act.up == sim.up && IsPubrel(p, m.mid)
    requires !Unknown(sim, m.mid) && WaitsComp(sim.out[FindMid(sim.out, m.mid, 0)]) && sim.published <= m.tag
    ensures Leads(act, events, s') && Broken(s', m)
  {
    hide Inv, Next, Leads, Broken, Enabled, Doubled;
    var e1 := ClientRetry(FindMid(sim.out, m.mid, 0));
    RetriedAgain(sim, e1.i);
    RetryKeepsDoubled(sim, act, m, e1.i);
    NextInv(sim, e1);
    var rest;
    rest, s' := FirstOfTwo(Next(sim, e1), Next(act, e1), m, p);
    LeadsFirst(act, e1, rest, s');
    events := [e1] + rest;
  }

  lemma {:induction false} RetriedAgain(s: Sys, i: nat)
    requires s.clientUp && s.brokerUp && i < |s.out| && WaitsComp(s.out[i])
    ensures Enabled(s, ClientRetry(i)) && Next(s, ClientRetry(i)) == s.(up := s.up + [Pubrel(s.out[i].mid, true)])
  {
  }

  // The broker answers the first of them.
  lemma {:induction false} FirstOfTwo(sim: Sys, act: Sys, m: LibMsg, p: Packet) returns (events: seq<Event>, s': Sys)
    requires Inv(sim) && Doubled(sim, act, m) && Calm(sim, [p] + [Pubrel(m.mid, true)]) && act.up == sim.up
    requires IsPubrel(p, m.mid) && !Unknown(sim, m.mid) && sim.published <= m.tag
    ensures Leads(act, events, s') && Broken(s', m)
  {
    hide Inv, Next, Leads, Broken, Doubled, Unknown;
    DoubledEnabled(sim, act, m);
    BothReceive(sim, act, m);
    NextInv(sim, BrokerReceive);
    ReceivedUp(sim);
    var sim1, act1 := Next(sim, BrokerReceive), Next(act, BrokerReceive);
    assert sim.up[1..] == [Pubrel(m.mid, true)] && [] + [Pubcomp(m.mid)] == [Pubcomp(m.mid)];
    StillKnown(sim, sim1, m.mid);
    var rest;
    rest, s' := FirstTaken(sim1, act1, m);
    LeadsFirst(act, BrokerReceive, rest, s');
    events := [BrokerReceive] + rest;
  }

  lemma {:induction false} BothReceive(sim: Sys, act: Sys, m: LibMsg)
    requires Doubled(sim, act, m) && sim.brokerUp && sim.up != [] && act.up == sim.up
    ensures Doubled(Next(sim, BrokerReceive), Next(act, BrokerReceive), m)
    ensures Next(act, BrokerReceive).up == Next(sim, BrokerReceive).up
  {
    assert act.up == sim.up + [];
    BrokerKeepsDoubled(sim, act, m, []);
    assert Next(sim, BrokerReceive).up + [] == Next(sim, BrokerReceive).up;
  }

  lemma {:induction false} StillKnown(s: Sys, s': Sys, mid: nat)
    requires s'.out == s.out && !Unknown(s, mid)
    ensures !Unknown(s', mid)
  {
  }

  // Its PUBCOMP takes the old publication off the list, with the second PUBREL still under way.
  lemma {:induction false} FirstTaken(sim: Sys, act: Sys, m: LibMsg) returns (events: seq<Event>, s': Sys)
    requires Inv(sim) && Doubled(sim, act, m) && sim.clientUp && sim.brokerUp && act.up == sim.up
    requires sim.up == [Pubrel(m.mid, true)] && sim.down == [Pubcomp(m.mid)] && !Unknown(sim, m.mid)
    requires sim.published <= m.tag
    ensures Leads(act, events, s') && Broken(s', m)
  {
    hide Inv, Next, Leads, Broken, Doubled, Unknown;
    DoubledEnabled(sim, act, m);
    NextInv(sim, ClientReceive);
    ReceiveKeepsDoubled(sim, act, m);
    CutUnknown(sim, m.mid);
    ReceivedDown(sim);
    var sim1, act1 := Next(sim, ClientReceive), Next(act, ClientReceive);
    assert act1.up == sim1.up + [] && IsPubrel(sim1.up[0], m.mid);
    var rest;
    rest, s' := OldPubrel(sim1, act1, m, [], 0);
    LeadsFirst(act, ClientReceive, rest, s');
    events := [ClientReceive] + rest;
  }

  lemma {:induction false} DoubledEnabled(sim: Sys, act: Sys, m: LibMsg)
    requires Doubled(sim, act, m) && act.up == sim.up
    ensures Enabled(sim, ClientReceive) ==> Enabled(act, ClientReceive)
    ensures Enabled(sim, BrokerReceive) ==> Enabled(act, BrokerReceive)
  {
  }

  lemma {:induction false} CutUnknown(s: Sys, mid: nat)
    requires Inv(s) && s.clientUp && s.down == [Pubcomp(mid)] && !Unknown(s, mid)
    ensures var s' := Next(s, ClientReceive); Unknown(s', mid) && s'.up == s.up && s'.published == s.published
  {
    var i := FindMid(s.out, mid, 0);
    var j := FindMid(Cut(s.out, i), mid, 0);
  }

  // From quiet links the old publication is brought to where its PUBREL is under way.
  lemma {:induction false} FromQuiet(sim: Sys, act: Sys, m: LibMsg) returns (events: seq<Event>, s': Sys)
    requires Quiet(sim) && Doubled(sim, act, m) && act.up == [] && !Unknown(sim, m.mid) && sim.published <= m.tag
    ensures Leads(act, events, s') && Broken(s', m)
  {
    var i := FindMid(sim.out, m.mid, 0);
    OutViewHas(sim.out);
    var x, e1 := sim.out[i], ClientRetry(i);
    RetryKeepsDoubled(sim, act, m, i);
    NextInv(sim, e1);
    var sim1, act1 := Next(sim, e1), Next(act, e1);
    var rest;
    if WaitsComp(x) {
      rest, s' := TwoPubrels(sim1, act1, m, Pubrel(m.mid, true));
      LeadsFirst(act, e1, rest, s');
      events := [e1] + rest;
    } else {
      assert sim1 == sim.(up := [Publish(m.mid, x.tag, true)]);
      rest, s' := FirstAnswer(sim1, act1, m, Publish(m.mid, x.tag, true));
      LeadsFirst(act, e1, rest, s');
      events := [e1] + rest;
    }
  }

  lemma {:induction false} FirstAnswer(sim: Sys, act: Sys, m: LibMsg, p: Packet) returns (events: seq<Event>, s': Sys)
    requires Inv(sim) && Doubled(sim, act, m) && Calm(sim, [p]) && act.up == sim.up && p.Publish? && p.mid == m.mid
    requires !Unknown(sim, m.mid) && sim.published <= m.tag
    ensures Leads(act, events, s') && Broken(s', m)
  {
    BrokerAnswers(sim, p);
    assert act.up == sim.up + [];
    BrokerKeepsDoubled(sim, act, m, []);
    ReceivedUp(sim);
    var sim1, act1 := Next(sim, BrokerReceive), Next(act, BrokerReceive);
    assert act1.up == sim1.up + [] == sim1.up;
    NextInv(sim1, ClientReceive);
    ReceiveKeepsDoubled(sim1, act1, m);
    var sim2, act2 := Next(sim1, ClientReceive), Next(act1, ClientReceive);
    PubrecAnswered(sim1, m.mid);
    hide Inv, Next, Leads, Broken, Doubled;
    var rest;
    rest, s' := TwoPubrels(sim2, act2, m, Pubrel(m.mid, false));
    LeadsFirst(act1, ClientReceive, rest, s') by { DoubledEnabled(sim1, act1, m); }
    LeadsFirst(act, BrokerReceive, [ClientReceive] + rest, s') by { DoubledEnabled(sim, act, m); }
    events := [BrokerReceive] + ([ClientReceive] + rest);
  }

  lemma {:induction false} PubrecAnswered(s: Sys, mid: nat)
    requires Inv(s) && s.clientUp && s.brokerUp && s.up == [] && s.down == [Pubrec(mid)] && !Unknown(s, mid)
    ensures var s' := Next(s, ClientReceive);
      && Calm(s', [Pubrel(mid, false)]) && !Unknown(s', mid) && s'.published == s.published
      && WaitsComp(s'.out[FindMid(s'.out, mid, 0)])
  {
    var i := FindMid(s.out, mid, 0);
    var out := s.out[i := s.out[i].(state := WaitForPubcomp)];
    assert FindMid(out, mid, 0) == i by { assert out[i].mid == mid; }
    assert s.down[1..] == [];
  }

  // A publication on an id of a pending one: first both connections are renewed.
  lemma {:induction false} PendingTwice(sim: Sys, act: Sys, m: LibMsg) returns (events: seq<Event>, s': Sys)
    requires Inv(sim) && Doubled(sim, act, m) && !Unknown(sim, m.mid) && sim.published <= m.tag
    ensures Leads(act, events, s') && Broken(s', m)
  {
    if sim.clientUp {
      NextInv(sim, ClientLoses(0));
      var act1 := Next(act, ClientLoses(0));
      var rest;
      rest, s' := Renewed(Next(sim, ClientLoses(0)), act1, m);
      LeadsFirst(act, ClientLoses(0), rest, s');
      events := [ClientLoses(0)] + rest;
    } else {
      events, s' := Renewed(sim, act, m);
    }
  }

  lemma {:induction false} Renewed(sim: Sys, act: Sys, m: LibMsg) returns (events: seq<Event>, s': Sys)
    requires Inv(sim) && Doubled(sim, act, m) && !sim.clientUp && !Unknown(sim, m.mid) && sim.published <= m.tag
    ensures Leads(act, events, s') && Broken(s', m)
  {
    NextInv(sim, Reconnect);
    var sim1, act1 := Next(sim, Reconnect), Next(act, Reconnect);
    assert Doubled(sim1, act1.(taken := {}), m);
    var rest;
    rest, s' := FromQuiet(sim1, act1, m);
    LeadsFirst(act, Reconnect, rest, s');
    events := [Reconnect] + rest;
  }

  // ----- Exactly when an id may be taken -----

  /**
   In every reachable state in which the next id is still in use, publishing with it leads, by
   some continuation, to a state where the new publication is confirmed to the application but
   was never routed. Handover.ExactlyOnce is the other half: on runs that publish only with ids
   that are not in use nothing of the kind happens.
   */
  lemma {:induction false} TakenIdBreaks(states: seq<Sys>, events: seq<Event>, i: nat) returns (rest: seq<Event>,
      s': Sys)
    requires IsRun(states, events) && i < |states|
    ensures states[i].lastMid <= MAX_MID
    ensures InUse(states[i], NextMid(states[i].lastMid)) ==>
      && Leads(Published(states[i]), rest, s')
      && states[i].published in s'.confirmed && states[i].published !in s'.routed
  {
    var s := states[i];
    RunInv(states, events, i);
    RunConn(states, events, i);
    var act, mid := Published(s), NextMid(s.lastMid);
    var m := LibMsg(mid, s.published, 2, WaitState(2), false, 0);
    rest, s' := [], s;
    assert Doubled(s, act, m);
    if !Unknown(s, mid) {
      rest, s' := PendingTwice(s, act, m);
    } else if s.clientUp && exists k :: 0 <= k < |s.up| && IsPubrel(s.up[k], mid) {
      var k :| 0 <= k < |s.up| && IsPubrel(s.up[k], mid);
      rest, s' := OldPubrel(s, act, m, act.up[|s.up|..], k);
    } else if k :| 0 <= k < |s.down| && IsPubcomp(s.down[k], mid) {
      rest, s' := OldPubcomp(s, act, m, k);
    }
  }

  // ----- Ids do come round -----

  function Numbered(n: nat): (r: seq<LibMsg>)
    ensures |r| == n && forall k :: 0 <= k < n ==> r[k] == LibMsg(k + 1, k, 2, WaitState(2), false, 0)
  {
    seq(n, k requires 0 <= k < n => LibMsg(k + 1, k, 2, WaitState(2), false, 0))
  }

  // n publications of a client that is not connected.
  lemma {:induction false} Unconnected(n: nat) returns (states: seq<Sys>, events: seq<Event>)
    requires n <= MAX_MID
    ensures IsRun(states, events) && |events| == n
    ensures states[n] == Start.(lastMid := n, published := n, out := Numbered(n), taken := states[n].taken)
    decreases n
  {
    if n == 0 {
      states, events := [Start], [];
      assert Numbered(0) == [];
    } else {
      var before, done := Unconnected(n - 1);
      var s := before[n - 1];
      assert !InUse(s, n);
      var s' := Next(s, AppPublish);
      assert Numbered(n - 1) + [LibMsg(n, n - 1, 2, WaitState(2), false, 0)] == Numbered(n);
      states, events := before + [s'], done + [AppPublish];
    }
  }

  // After 65535 publications with no answer the next id is the first one again.
  lemma {:induction false} IdsComeRound() returns (states: seq<Sys>, events: seq<Event>, i: nat)
    ensures IsRun(states, events) && i < |states|
    ensures states[i].lastMid <= MAX_MID && InUse(states[i], NextMid(states[i].lastMid))
  {
    states, events := Unconnected(MAX_MID);
    i := MAX_MID;
    assert states[i].out[0].mid == 1;
  }
}
