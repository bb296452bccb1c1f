/**
 Why the hand-over may take the rest of the broker's work on a client's list for granted: none of
 the operations for the other direction touches what the list holds for it.
 */
module HandoverLink {
  import opened Topics
  import opened MessageQueue
  import opened ClientContext
  import Handover
  import QueueRuns

  // The operations that serve messages to the client, and time and reconnects.
  predicate Outward(op: QueueRuns.Op) {
    match op
    case Insert(_, _, dir, _, _, _, _) => dir == Out
    case Delete(_, dir, _) => dir == Out
    case Update(_, dir, _, _) => dir == Out
    case Release(_, _) => false
    case DeleteAll => false
    case _ => true
  }

  // Inbound entries are QoS 2, so none is ever about to be published with QoS 0.
  predicate NoInboundQos0(msgs: seq<ClientMsg>) {
    forall i :: 0 <= i < |msgs| && msgs[i].direction == In ==> msgs[i].qos == 2 && msgs[i].state != PublishQos0
  }

  /**
   Work on the outbound half of a list is work that the hand-over allows between its own steps:
   the inbound publications stay, with their ids and in their order.
   */
  lemma {:induction false} OutwardIsOtherWork(cfg: Config, lim: Limits, s: QueueRuns.QueueState, op: QueueRuns.Op)
    requires Outward(op) && NoInboundQos0(s.msgs)
    ensures var s' := QueueRuns.Step(cfg, lim, s, op);
      Handover.SameInbound(s.msgs, s'.msgs) && NoInboundQos0(s'.msgs)
  {
    var msgs := s.msgs;
    hide NoInboundQos0, Handover.SameInbound;
    match op {
      case Insert(already, mid, dir, qos, retain, stored, now) => InsertOther(cfg, lim, s, op);
      case Delete(mid, dir, now) =>
        InboundWithoutOut(msgs, mid);
        PromoteOther(Without(msgs, mid, Out), lim.maxInflight, now);
        SameInboundTwice(msgs, Without(msgs, mid, Out), PromoteFirst(Without(msgs, mid, Out), lim.maxInflight, now));
      case Update(mid, dir, state, now) => UpdateOther(msgs, mid, state, now);
      case Timeout(timeout, now) => TimeoutOther(msgs, now - timeout, now);
      case Write(room, now) => InboundWrite(msgs, lim.maxInflight, 0, room, now);
      case Disconnect => SameInboundSelf(msgs);
      case Reconnect => ResetOther(msgs, lim.maxInflight);
    }
  }

  lemma {:induction false} InsertOther(cfg: Config, lim: Limits, s: QueueRuns.QueueState, op: QueueRuns.Op)
    requires op.Insert? && Outward(op) && NoInboundQos0(s.msgs)
    ensures var s' := QueueRuns.Step(cfg, lim, s, op);
      Handover.SameInbound(s.msgs, s'.msgs) && NoInboundQos0(s'.msgs)
  {
    var v := if op.already then Refused(0) else Admit(lim, s.connected, cfg.queueQos0, Count12(s.msgs), op.dir, op.qos);
    if v.Admitted? {
      InboundAppendOut(s.msgs, NewEntry(s.nextNode, op.stored, op.mid, op.qos, op.retain, op.now, op.dir, v.state));
    }
  }

  lemma {:induction false} SameInboundSelf(msgs: seq<ClientMsg>)
    ensures Handover.SameInbound(msgs, msgs)
  {
  }

  lemma {:induction false} SameInboundTwice(a: seq<ClientMsg>, b: seq<ClientMsg>, c: seq<ClientMsg>)
    requires Handover.SameInbound(a, b) && Handover.SameInbound(b, c)
    ensures Handover.SameInbound(a, c)
  {
  }

  // Entries changed in place.
  lemma {:induction false} InPlace(a: seq<ClientMsg>, b: seq<ClientMsg>)
    requires NoInboundQos0(a) && |a| == |b|
    requires forall i :: 0 <= i < |a| ==> SameBut(a[i], b[i])
    requires forall i :: 0 <= i < |a| && b[i].state == PublishQos0 ==> a[i].direction == Out || a[i].qos != 2
    ensures Handover.SameInbound(a, b) && NoInboundQos0(b)
  {
    Handover.SameInboundPointwise(a, b);
  }

  lemma {:induction false} PromoteOther(msgs: seq<ClientMsg>, n: nat, now: int)
    requires NoInboundQos0(msgs)
    ensures Handover.SameInbound(msgs, PromoteFirst(msgs, n, now)) && NoInboundQos0(PromoteFirst(msgs, n, now))
  {
    InPlace(msgs, PromoteFirst(msgs, n, now));
  }

  lemma {:induction false} UpdateOther(msgs: seq<ClientMsg>, mid: nat, state: MsgState, now: int)
    requires NoInboundQos0(msgs)
    ensures Handover.SameInbound(msgs, Updated(msgs, mid, Out, state, now))
    ensures NoInboundQos0(Updated(msgs, mid, Out, state, now))
  {
    InPlace(msgs, Updated(msgs, mid, Out, state, now));
  }

  lemma {:induction false} TimeoutOther(msgs: seq<ClientMsg>, threshold: int, now: int)
    requires NoInboundQos0(msgs)
    ensures Handover.SameInbound(msgs, TimeoutList(msgs, threshold, now))
    ensures NoInboundQos0(TimeoutList(msgs, threshold, now))
  {
    InPlace(msgs, TimeoutList(msgs, threshold, now));
  }

  lemma {:induction false} ResetOther(msgs: seq<ClientMsg>, n: nat)
    requires NoInboundQos0(msgs)
    ensures Handover.SameInbound(msgs, ResetList(msgs, n)) && NoInboundQos0(ResetList(msgs, n))
  {
    InPlace(msgs, ResetList(msgs, n));
  }

  lemma {:induction false} InboundAppendOut(msgs: seq<ClientMsg>, m: ClientMsg)
    requires m.direction == Out && NoInboundQos0(msgs)
    ensures Handover.SameInbound(msgs, msgs + [m]) && NoInboundQos0(msgs + [m])
  {
    assert (msgs + [m])[..|msgs|] == msgs;
    assert Handover.Inbound(msgs) + [] == Handover.Inbound(msgs);
  }

  lemma {:induction false} InboundWithoutOut(msgs: seq<ClientMsg>, mid: nat)
    requires NoInboundQos0(msgs)
    ensures Handover.SameInbound(msgs, Without(msgs, mid, Out)) && NoInboundQos0(Without(msgs, mid, Out))
    decreases |msgs|
  {
    if msgs != [] {
      var last := |msgs| - 1;
      var a := Without(msgs[..last], mid, Out);
      InboundWithoutOut(msgs[..last], mid);
      if Is(msgs[last], mid, Out) {
        assert a + [] == a && Handover.Inbound(a) + [] == Handover.Inbound(a);
      } else {
        assert (a + [msgs[last]])[..|a|] == a;
      }
    }
  }

  lemma {:induction false} InboundConcat(a: seq<ClientMsg>, b: seq<ClientMsg>)
    ensures Handover.Inbound(a + b) == Handover.Inbound(a) + Handover.Inbound(b)
    decreases |b|
  {
    if b == [] {
      assert a + b == a;
    } else {
      InboundConcat(a, b[..|b| - 1]);
      assert (a + b)[..|a + b| - 1] == a + b[..|b| - 1];
    }
  }

  lemma {:induction false} InboundWrite(rest: seq<ClientMsg>, n: nat, seen: nat, room: nat, now: int)
    requires NoInboundQos0(rest)
    ensures var msgs := WritePass(rest, n, seen, room, now).msgs;
      Handover.SameInbound(rest, msgs) && NoInboundQos0(msgs)
    decreases |rest|, if rest != [] && rest[0].state == Queued then 1 else 0
  {
    if rest != [] {
      var m, tail := rest[0], rest[1..];
      var seen' := seen + if m.direction == In then 1 else 0;
      HeadOther(m, tail, rest);
      hide WritePass, Admissible, Wants, AfterSend, NoInboundQos0, Handover.SameInbound;
      PassCases(rest, n, seen, room, now);
      if Admissible(m, n, seen') {
        InboundWrite([m.(state := SendPubrec)] + tail, n, seen', room, now);
        SameInboundTwice(rest, [m.(state := SendPubrec)] + tail, WritePass(rest, n, seen, room, now).msgs);
      } else if Wants(m).None? {
        InboundWrite(tail, n, seen', room, now);
        InboundHead(m, m, tail, WritePass(tail, n, seen', room, now).msgs);
      } else if room == 0 {
        SameInboundSelf(rest);
      } else {
        InboundWrite(tail, n, seen', room - 1, now);
        InboundSent(m, tail, WritePass(tail, n, seen', room - 1, now).msgs, now);
      }
    }
  }

  lemma {:induction false} HeadOther(m: ClientMsg, tail: seq<ClientMsg>, rest: seq<ClientMsg>)
    requires rest != [] && m == rest[0] && tail == rest[1..] && NoInboundQos0(rest)
    ensures rest == [m] + tail && NoInboundQos0([m]) && NoInboundQos0(tail)
    ensures m.state == Queued ==> NoInboundQos0([m.(state := SendPubrec)] + tail)
    ensures m.state == Queued ==> Handover.SameInbound(rest, [m.(state := SendPubrec)] + tail)
    ensures forall n, seen :: Admissible(m, n, seen) ==> m.state == Queued
  {
    assert rest[0] == m;
    InboundHead(m, m.(state := SendPubrec), tail, tail);
  }

  lemma {:induction false} InboundHead(m: ClientMsg, m': ClientMsg, a: seq<ClientMsg>, b: seq<ClientMsg>)
    requires SameBut(m, m') && Handover.SameInbound(a, b) && NoInboundQos0([m']) && NoInboundQos0(b)
    ensures Handover.SameInbound([m] + a, [m'] + b) && NoInboundQos0([m'] + b)
  {
    InboundConcat([m], a);
    InboundConcat([m'], b);
    Handover.SameInboundPointwise([m], [m']);
  }

  lemma {:induction false} InboundSent(m: ClientMsg, a: seq<ClientMsg>, b: seq<ClientMsg>, now: int)
    requires Wants(m).Some? && Handover.SameInbound(a, b) && NoInboundQos0([m]) && NoInboundQos0(b)
    ensures Handover.SameInbound([m] + a, ToSeq(AfterSend(m, now)) + b) && NoInboundQos0(ToSeq(AfterSend(m, now)) + b)
  {
    if AfterSend(m, now).Some? {
      assert NoInboundQos0([AfterSend(m, now).value]) by { assert [m][0] == m; }
      InboundHead(m, AfterSend(m, now).value, a, b);
    } else {
      assert [m][0] == m && m.direction == Out;
      InboundConcat([m], a);
      assert Handover.Inbound([m]) == [] by { assert [m][..0] == []; }
      assert [] + b == b && [] + Handover.Inbound(a) == Handover.Inbound(a);
    }
  }
}
