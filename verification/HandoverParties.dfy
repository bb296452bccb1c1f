/**
 The two parties of the hand-over are the real ones: every call into the client library, and every
 packet the broker handles for the client, is a step of the state machine in Handover.
 */
module HandoverParties {
  import opened Topics
  import opened MessageQueue
  import opened ClientLibrary
  import opened Handover
  import ClientContext
  import HandoverLink

  // ----- The client library -----

  predicate SameMsg(a: LibMsg, b: LibMsg) {
    a.mid == b.mid && a.tag == b.tag && a.qos == b.qos == 2 && a.state == b.state && a.state != Invalid
  }

  // The lists agree except in times and DUP flags, which no step depends on.
  predicate SameOut(a: seq<LibMsg>, b: seq<LibMsg>) {
    |a| == |b| && forall i :: 0 <= i < |a| ==> SameMsg(a[i], b[i])
  }

  // The client without a limit on messages in flight, seen as the state machine's client.
  predicate IsClient(c: LibClient, s: Sys)
    reads c
  {
    && c.Valid() && c.maxInflight == 0 && c.lastMid == s.lastMid && c.connected == s.clientUp
    && SameOut(c.out, s.out) && |c.onPublish| == |s.confirmed|
  }

  // What the client handed to its link in this step is what the link to the broker gained.
  predicate Sent(s: Sys, s': Sys, before: seq<Packet>, after: seq<Packet>) {
    && |before| <= |after| && after[..|before|] == before
    && s'.up == s.up + if s.brokerUp then after[|before|..] else []
  }

  lemma {:induction false} SameFind(a: seq<LibMsg>, b: seq<LibMsg>, mid: nat)
    requires SameOut(a, b)
    ensures FindMid(a, mid, 0) == FindMid(b, mid, 0)
  {
    var i, j := FindMid(a, mid, 0), FindMid(b, mid, 0);
    if i < |a| { assert SameMsg(a[i], b[i]); }
    if j < |b| { assert SameMsg(a[j], b[j]); }
  }

  lemma {:induction false} SameCut(a: seq<LibMsg>, b: seq<LibMsg>, i: nat, inflight: int)
    requires SameOut(a, b) && i < |a|
    ensures SameOut(Cut(a, i), Cut(b, i))
    ensures Released(Cut(a, i), 0, 0, inflight) == Promotion(Cut(a, i), inflight, [])
  {
    forall k | 0 <= k < |a| - 1 ensures SameMsg(Cut(a, i)[k], Cut(b, i)[k]) {
      assert SameMsg(a[if k < i then k else k + 1], b[if k < i then k else k + 1]);
    }
    NothingReleased(Cut(a, i), 0, 0, inflight);
  }

  lemma {:induction false} SameSet(a: seq<LibMsg>, b: seq<LibMsg>, i: nat, now: int)
    requires SameOut(a, b) && i < |a|
    ensures SameOut(a[i := a[i].(state := WaitForPubcomp, timestamp := now)], b[i := b[i].(state := WaitForPubcomp)])
  {
    assert SameMsg(a[i], b[i]);
  }

  // mosquitto_publish with QoS 2.
  method AppPublishes(c: LibClient, ghost s: Sys, tag: nat, now: int)
    requires IsClient(c, s) && tag == s.published
    modifies c
    ensures IsClient(c, Published(s)) && (s.clientUp ==> Sent(s, Published(s), old(c.sent), c.sent))
  {
    ghost var was := c.sent;
    var mid := c.PublishMessage(tag, 2, now);
    if s.clientUp { assert c.sent[|was|..] == [Publish(mid, tag, false)]; }
  }

  // _mosquitto_packet_handle (lib/read_handle.c:45-75) for the answers of the broker; an error
  // closes the connection.
  method PacketHandle(c: LibClient, ghost s: Sys, p: Packet, now: int)
    requires IsClient(c, s) && Enabled(s, ClientReceive) && s.down[0] == p && (p.Pubrec? || p.Pubcomp?)
    modifies c
    ensures IsClient(c, Next(s, ClientReceive)) && Sent(s, Next(s, ClientReceive), old(c.sent), c.sent)
  {
    hide MovesUp, Released, QosOk;
    ghost var out, sent := c.out, c.sent;
    SameFind(c.out, s.out, p.mid);
    ghost var i := FindMid(out, p.mid, 0);
    if p.Pubrec? {
      if i < |out| { SameSet(out, s.out, i, now); }
      var ok := c.HandlePubrec(p.mid, now);
      if !ok { c.connected := false; }
      assert c.sent[|sent|..] == if ok then [Pubrel(p.mid, false)] else [];
    } else {
      if i < |out| {
        SameCut(out, s.out, i, c.inflight - 1);
        assert SameMsg(out[i], s.out[i]);
      }
      c.HandlePubackcomp(p.mid);
      assert c.sent == sent + [] == sent;
    }
    assert c.sent[..|sent|] == sent && s.up + [] == s.up;
  }

  // ----- Retries -----

  function RetryEvents(out: seq<LibMsg>, k: nat, retry: nat, now: int): seq<Event>
    requires k <= |out|
  {
    if k == 0 then []
    else RetryEvents(out, k - 1, retry, now) + if Overdue(out[k - 1], retry, now) then [ClientRetry(k - 1)] else []
  }

  function Gained(s: Sys, packets: seq<Packet>): Sys { s.(up := s.up + if s.brokerUp then packets else []) }

  lemma {:induction false} RetriesLead(out: seq<LibMsg>, s: Sys, k: nat, retry: nat, now: int)
    requires SameOut(out, s.out) && s.clientUp && k <= |out|
    ensures Leads(s, RetryEvents(out, k, retry, now), Gained(s, Retried(out, k, retry, now)))
    decreases k
  {
    hide Leads, Gained, Enabled, Next, Inv, SameOut, RetryPacket;
    if k == 0 {
      GainedNothing(s);
    } else {
      RetriesLead(out, s, k - 1, retry, now);
      var before, packets := RetryEvents(out, k - 1, retry, now), Retried(out, k - 1, retry, now);
      var m := out[k - 1];
      hide Retried, RetryEvents;
      assert Retried(out, k, retry, now) == packets + (if Overdue(m, retry, now) then [RetryPacket(m).value] else [])
        && RetryEvents(out, k, retry, now) ==
             before + (if Overdue(m, retry, now) then [ClientRetry(k - 1)] else []) by {
        RetryOneMore(out, k, retry, now);
      }
      var s1 := Gained(s, packets);
      if Overdue(m, retry, now) {
        var e := ClientRetry(k - 1);
        RetryEvent(out, s, k - 1, packets);
        OneEvent(s1, e);
        LeadsOn(s, before, s1, [e], Next(s1, e));
      } else {
        assert packets + [] == packets && before + [] == before;
      }
    }
  }

  lemma {:induction false} GainedNothing(s: Sys)
    ensures Leads(s, [], Gained(s, []))
  {
    assert s.up + [] == s.up;
  }

  // One retry more.
  lemma {:induction false} RetryEvent(out: seq<LibMsg>, s: Sys, k: nat, packets: seq<Packet>)
    requires SameOut(out, s.out) && s.clientUp && k < |out| && RetryPacket(out[k]).Some?
    ensures var s1, e := Gained(s, packets), ClientRetry(k);
      Enabled(s1, e) && Next(s1, e) == Gained(s, packets + [RetryPacket(out[k]).value])
  {
    assert SameMsg(out[k], s.out[k]);
    assert (s.up + packets) + [RetryPacket(out[k]).value] == s.up + (packets + [RetryPacket(out[k]).value]);
    assert s.up + [] == s.up;
  }

  lemma {:induction false} RetryOneMore(out: seq<LibMsg>, k: nat, retry: nat, now: int)
    requires 0 < k <= |out|
    ensures var m := out[k - 1];
      && Retried(out, k, retry, now) ==
           Retried(out, k - 1, retry, now) + (if Overdue(m, retry, now) then [RetryPacket(m).value] else [])
      && RetryEvents(out, k, retry, now) ==
           RetryEvents(out, k - 1, retry, now) + (if Overdue(m, retry, now) then [ClientRetry(k - 1)] else [])
  {
  }

  // _mosquitto_message_retry_check on a connection: the overdue publications in turn.
  method RetriesOverdue(c: LibClient, ghost s: Sys, retry: nat, now: int)
    returns (ghost events: seq<Event>, ghost s': Sys)
    requires IsClient(c, s) && s.clientUp
    modifies c
    ensures Leads(s, events, s') && IsClient(c, s') && Sent(s, s', old(c.sent), c.sent)
    ensures forall k :: 0 <= k < |events| ==> events[k].ClientRetry?
  {
    ghost var out, sent := c.out, c.sent;
    RetriesLead(out, s, |out|, retry, now);
    events := RetryEvents(out, |out|, retry, now);
    AllRetries(out, |out|, retry, now);
    c.RetryCheck(retry, now);
    ghost var packets := Retried(out, |out|, retry, now);
    s' := Gained(s, packets);
    hide Retried, RetryEvents, Leads;
    forall i | 0 <= i < |out| ensures SameMsg(c.out[i], s.out[i]) { assert SameMsg(out[i], s.out[i]); }
    assert c.sent[|sent|..] == packets && c.sent[..|sent|] == sent;
  }

  lemma {:induction false} AllRetries(out: seq<LibMsg>, k: nat, retry: nat, now: int)
    requires k <= |out|
    ensures forall i :: 0 <= i < |RetryEvents(out, k, retry, now)| ==> RetryEvents(out, k, retry, now)[i].ClientRetry?
    decreases k
  {
    if k > 0 { AllRetries(out, k - 1, retry, now); }
  }

  // ----- Connections -----

  // _mosquitto_messages_reconnect_reset on the way to a new connection.
  method Reconnects(c: LibClient, ghost s: Sys)
    requires IsClient(c, s) && !s.clientUp
    modifies c
    ensures IsClient(c, Next(s, Reconnect)) && c.sent == old(c.sent)
  {
    ghost var out := c.out;
    c.ReconnectReset();
    c.connected := true;
    forall i | 0 <= i < |out| ensures SameMsg(c.out[i], s.out[i]) { assert SameMsg(out[i], s.out[i]); }
  }
}
