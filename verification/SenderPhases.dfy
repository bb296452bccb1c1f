/**
 The broker as the sender of QoS 2 messages (section 4.3.3) over whole runs of one client's list:
 what goes out for an entry before and after its PUBREC.
 */
module SenderPhases {
  import opened Topics
  import opened MessageQueue
  import opened ClientContext
  import opened QueueRuns

  // ----- The packets of a write pass, entry by entry -----

  // The packet belongs to this entry and to the phase it is in.
  predicate From(p: Sent, m: ClientMsg) {
    match p
    case SentPublish(node, mid, qos, retain, dup, stored) =>
      && m.state in {PublishQos0, PublishQos1, PublishQos2}
      && node == m.node && mid == m.mid && qos == m.qos && retain == m.retain && dup == m.dup && stored == m.store
    case SentPubrel(mid, dup) => m.state == ResendPubrel && mid == m.mid && dup
    case SentPubrec(mid) => mid == m.mid && (m.state == SendPubrec || (m.state == Queued && m.direction == In))
    case SentPubcomp(mid) => m.state == ResendPubcomp && mid == m.mid
    case SentPuback(_) => false
  }

  predicate Sendable(m: ClientMsg) {
    m.state in {PublishQos0, PublishQos1, PublishQos2, SendPubrec, ResendPubrel, ResendPubcomp}
  }

  // Packet j comes from entry o[j]; every entry sends once at most, in list order.
  predicate Explains(o: seq<nat>, sent: seq<Sent>, msgs: seq<ClientMsg>) {
    && |o| == |sent| && (forall j :: 0 <= j < |o| ==> o[j] < |msgs| && From(sent[j], msgs[o[j]]))
    && forall i, j :: 0 <= i < j < |o| ==> o[i] < o[j]
  }

  function Shifted(o: seq<nat>): (r: seq<nat>)
    ensures |r| == |o| && forall j :: 0 <= j < |o| ==> r[j] == o[j] + 1
  {
    seq(|o|, j requires 0 <= j < |o| => o[j] + 1)
  }

  /**
   The packets of a write pass come from entries of the list in their order, each in the phase of
   its entry and with the entry's fields. If the link takes them all, every entry that has something
   to send has sent it.
   */
  lemma {:induction false} PassExplained(msgs: seq<ClientMsg>, n: nat, seen: nat, room: nat, now: int)
    returns (o: seq<nat>)
    ensures var p := WritePass(msgs, n, seen, room, now);
      Explains(o, p.sent, msgs) && (p.complete ==> Covers(o, msgs))
    decreases |msgs|, if msgs != [] && msgs[0].state == Queued then 1 else 0
  {
    hide WritePass, Explains, Covers, Admissible, Wants, AfterSend;
    if msgs == [] {
      o := NoPacket([], n, seen, room, now);
    } else {
      var m := msgs[0];
      var seen' := seen + if m.direction == In then 1 else 0;
      PassPackets(msgs, n, seen, room, now);
      if Admissible(m, n, seen') {
        AdmittedHead(m, n, seen');
        var msgs' := [m.(state := SendPubrec)] + msgs[1..];
        o := PassExplained(msgs', n, seen', room, now);
        FromAdmitted(o, WritePass(msgs', n, seen', room, now).sent, msgs, n, seen');
      } else if Wants(m).None? {
        var o1 := PassExplained(msgs[1..], n, seen', room, now);
        o := Shifted(o1);
        FromRest(o1, WritePass(msgs[1..], n, seen', room, now).sent, msgs);
      } else if room == 0 {
        o := NoPacket(msgs, n, seen, room, now);
      } else {
        var o1 := PassExplained(msgs[1..], n, seen', room - 1, now);
        o := [0] + Shifted(o1);
        FromHead(o1, WritePass(msgs[1..], n, seen', room - 1, now).sent, msgs);
      }
    }
  }

  lemma {:induction false} NoPacket(msgs: seq<ClientMsg>, n: nat, seen: nat, room: nat, now: int) returns (o: seq<nat>)
    ensures Explains([], [], msgs) && o == []
    ensures msgs == [] ==> WritePass(msgs, n, seen, room, now) == Pass([], [], true) && Covers([], msgs)
  {
    o := [];
  }

  // What one step of a write pass sends.
  lemma {:induction false} PassPackets(msgs: seq<ClientMsg>, n: nat, seen: nat, room: nat, now: int)
    requires msgs != []
    ensures var m := msgs[0];
      var seen' := seen + if m.direction == In then 1 else 0;
      var p := WritePass(msgs, n, seen, room, now);
      if Admissible(m, n, seen') then
        var q := WritePass([m.(state := SendPubrec)] + msgs[1..], n, seen', room, now);
        p.sent == q.sent && p.complete == q.complete
      else if Wants(m).None? then
        var q := WritePass(msgs[1..], n, seen', room, now);
        p.sent == q.sent && p.complete == q.complete
      else if room == 0 then p.sent == [] && !p.complete
      else
        var q := WritePass(msgs[1..], n, seen', room - 1, now);
        p.sent == [Wants(m).value] + q.sent && p.complete == q.complete
  {
    assert forall q: Pass :: [] + q.sent == q.sent;
  }

  lemma {:induction false} AdmittedHead(m: ClientMsg, n: nat, seen: nat)
    requires Admissible(m, n, seen)
    ensures m.state == Queued && m.direction == In && m.qos == 2
  {
  }

  lemma {:induction false} FromAdmitted(o: seq<nat>, sent: seq<Sent>, msgs: seq<ClientMsg>, n: nat, seen: nat)
    requires msgs != [] && Admissible(msgs[0], n, seen)
    requires Explains(o, sent, [msgs[0].(state := SendPubrec)] + msgs[1..])
    ensures Explains(o, sent, msgs)
    ensures Covers(o, [msgs[0].(state := SendPubrec)] + msgs[1..]) ==> Covers(o, msgs)
  {
    var l := [msgs[0].(state := SendPubrec)] + msgs[1..];
    forall j | 0 <= j < |o| ensures o[j] < |msgs| && From(sent[j], msgs[o[j]]) {
      assert From(sent[j], l[o[j]]);
    }
    assert forall k :: 1 <= k < |msgs| ==> l[k] == msgs[k];
  }

  // All entries of the list that have something to send are among these.
  predicate Covers(o: seq<nat>, msgs: seq<ClientMsg>) {
    forall k :: 0 <= k < |msgs| && Sendable(msgs[k]) ==> k in o
  }

  lemma {:induction false} CoversShifted(o: seq<nat>, msgs: seq<ClientMsg>)
    requires msgs != [] && Covers(o, msgs[1..])
    ensures forall k :: 0 < k < |msgs| && Sendable(msgs[k]) ==> k in Shifted(o)
  {
    hide Sendable;
    forall k | 0 < k < |msgs| && Sendable(msgs[k]) ensures k in Shifted(o) {
      assert msgs[1..][k - 1] == msgs[k];
      var j :| 0 <= j < |o| && o[j] == k - 1;
      assert Shifted(o)[j] == k;
    }
  }

  lemma {:induction false} ExplainsShifted(o: seq<nat>, sent: seq<Sent>, msgs: seq<ClientMsg>)
    requires msgs != [] && Explains(o, sent, msgs[1..])
    ensures Explains(Shifted(o), sent, msgs)
  {
    hide From;
    forall j | 0 <= j < |o| ensures From(sent[j], msgs[o[j] + 1]) { assert From(sent[j], msgs[1..][o[j]]); }
  }

  lemma {:induction false} FromRest(o: seq<nat>, sent: seq<Sent>, msgs: seq<ClientMsg>)
    requires msgs != [] && Wants(msgs[0]).None? && Explains(o, sent, msgs[1..])
    ensures Explains(Shifted(o), sent, msgs)
    ensures Covers(o, msgs[1..]) ==> Covers(Shifted(o), msgs)
  {
    ExplainsShifted(o, sent, msgs);
    hide Explains;
    if Covers(o, msgs[1..]) { CoversShifted(o, msgs); }
  }

  lemma {:induction false} FromHead(o: seq<nat>, sent: seq<Sent>, msgs: seq<ClientMsg>)
    requires msgs != [] && Wants(msgs[0]).Some? && Explains(o, sent, msgs[1..])
    ensures Explains([0] + Shifted(o), [Wants(msgs[0]).value] + sent, msgs)
    ensures Covers(o, msgs[1..]) ==> Covers([0] + Shifted(o), msgs)
  {
    assert From(Wants(msgs[0]).value, msgs[0]);
    ExplainsShifted(o, sent, msgs);
    hide Wants, From, Sendable;
    if Covers(o, msgs[1..]) {
      CoversShifted(o, msgs);
      var l := [0] + Shifted(o);
      forall k | 0 <= k < |msgs| && Sendable(msgs[k]) ensures k in l {
        if k == 0 { assert l[0] == 0; }
      }
    }
  }

  // ----- What becomes of an entry in one step -----

  predicate Same(m: ClientMsg, m': ClientMsg) {
    && m'.node == m.node && m'.mid == m.mid && m'.qos == m.qos && m'.retain == m.retain && m'.direction == m.direction
    && m'.store == m.store
  }

  predicate Out2(m: ClientMsg) { m.direction == Out && m.qos == 2 }

  // An outbound QoS 2 entry keeps its fields; `hit` says that the step is its PUBREC.
  predicate Moves(op: Op, hit: bool, m: ClientMsg, m': ClientMsg) {
    && Same(m, m')
    && (Out2(m) ==>
          match op
          case Update(_, _, _, _) => m'.state == if hit then WaitForPubcomp else m.state
          case Timeout(_, _) =>
            || m'.state == m.state
            || (m.state == WaitForPubrec && m'.state == PublishQos2)
            || (m.state == WaitForPubcomp && m'.state == ResendPubrel)
            || (m.state in {WaitForPuback, WaitForPubrel})
          case Write(_, _) =>
            || m'.state == m.state
            || (m.state == PublishQos2 && m'.state == WaitForPubrec)
            || (m.state == ResendPubrel && m'.state == WaitForPubcomp)
            || (m.state in {PublishQos0, PublishQos1, SendPubrec, ResendPubcomp})
          case Reconnect =>
            if m.state == WaitForPubcomp then m'.state == ResendPubrel
            else if m.state == Queued then m'.state in {Queued, PublishQos2}
            else m'.state == PublishQos2
          case _ => m'.state == m.state || (m.state == Queued && m'.state == PublishQos2))
  }

  // Entry i of the list was this one before the step.
  predicate Becomes(s: QueueState, op: Op, i: nat, m': ClientMsg)
    requires i < |s.msgs|
  {
    Moves(op, IsPubrec(s, op, s.msgs[i].node), s.msgs[i], m')
  }

  // The entry is new in the list.
  predicate New(s: QueueState, op: Op, s': QueueState, m': ClientMsg) {
    && op.Insert? && m'.node == s.nextNode && s'.nextNode == s.nextNode + 1
    && (Out2(m') ==> m'.state in {Queued, PublishQos2})
  }

  predicate CameFrom(s: QueueState, op: Op, s': QueueState, m': ClientMsg) {
    New(s, op, s', m') || exists i :: 0 <= i < |s.msgs| && Becomes(s, op, i, m')
  }

  // A PUBREC that finds the entry with this name.
  predicate IsPubrec(s: QueueState, op: Op, node: nat) {
    op.Update? && op.dir == Out && op.state == WaitForPubcomp &&
    exists i :: 0 <= i < |s.msgs| && s.msgs[i].node == node && i == IndexOf(s.msgs, op.mid, Out, 0)
  }

  // Every entry of the new list was there before or is new, and names stay in order.
  predicate Orderly(s: QueueState, op: Op, s': QueueState) {
    && NodesOrdered(s'.msgs, s'.nextNode) && s.nextNode <= s'.nextNode
    && forall k :: 0 <= k < |s'.msgs| ==> CameFrom(s, op, s', s'.msgs[k])
  }

  // The updates of a list the broker makes for packets of its client are those for a PUBREC.
  predicate Sends(op: Op) {
    op.Update? ==> op.dir == Out && op.state == WaitForPubcomp
  }

  lemma {:induction false} StepOrderly(cfg: Config, lim: Limits, s: QueueState, op: Op)
    requires Sends(op) && NodesOrdered(s.msgs, s.nextNode)
    ensures Orderly(s, op, Step(cfg, lim, s, op))
  {
    hide Orderly, NodesOrdered, Step, Sends;
    match op {
      case Insert(_, _, _, _, _, _, _) => InsertOrderly(cfg, lim, s, op);
      case Delete(mid, dir, now) => DeleteOrderly(cfg, lim, s, op);
      case Release(mid, now) => ReleaseOrderly(cfg, lim, s, op);
      case DeleteAll => ClearOrderly(cfg, lim, s);
      case Update(mid, dir, state, now) => UpdateOrderly(cfg, lim, s, op);
      case Timeout(timeout, now) => InPlace(cfg, lim, s, op);
      case Write(room, now) => WriteOrderly(cfg, lim, s, room, now);
      case Disconnect => InPlace(cfg, lim, s, op);
      case Reconnect => InPlace(cfg, lim, s, op);
    }
  }

  lemma {:induction false} InsertOrderly(cfg: Config, lim: Limits, s: QueueState, op: Op)
    requires op.Insert? && NodesOrdered(s.msgs, s.nextNode)
    ensures Orderly(s, op, Step(cfg, lim, s, op))
  {
    var s' := Step(cfg, lim, s, op);
    forall k | 0 <= k < |s'.msgs| ensures CameFrom(s, op, s', s'.msgs[k]) {
      if k < |s.msgs| { assert Becomes(s, op, k, s'.msgs[k]); }
    }
  }

  lemma {:induction false} ClearOrderly(cfg: Config, lim: Limits, s: QueueState)
    requires NodesOrdered(s.msgs, s.nextNode)
    ensures Orderly(s, DeleteAll, Step(cfg, lim, s, DeleteAll))
  {
  }

  lemma {:induction false} UpdateOrderly(cfg: Config, lim: Limits, s: QueueState, op: Op)
    requires op.Update? && Sends(op) && NodesOrdered(s.msgs, s.nextNode)
    ensures Orderly(s, op, Step(cfg, lim, s, op))
  {
    var s' := Step(cfg, lim, s, op);
    var g := IndexOf(s.msgs, op.mid, Out, 0);
    forall k | 0 <= k < |s'.msgs| ensures CameFrom(s, op, s', s'.msgs[k]) {
      assert k == g <==> IsPubrec(s, op, s.msgs[k].node);
      assert Becomes(s, op, k, s'.msgs[k]);
    }
  }

  lemma {:induction false} InPlace(cfg: Config, lim: Limits, s: QueueState, op: Op)
    requires op.Timeout? || op.Disconnect? || op.Reconnect?
    requires NodesOrdered(s.msgs, s.nextNode)
    ensures Orderly(s, op, Step(cfg, lim, s, op))
  {
    hide Moves, IsPubrec, Rewound, Dequeued, TimedOut;
    var s' := Step(cfg, lim, s, op);
    forall k | 0 <= k < |s'.msgs|
      ensures s'.msgs[k].node == s.msgs[k].node && CameFrom(s, op, s', s'.msgs[k])
    {
      InPlaceEntry(op, IsPubrec(s, op, s.msgs[k].node), s.msgs[k], lim.maxInflight == 0 || k < lim.maxInflight);
      assert Becomes(s, op, k, s'.msgs[k]);
    }
  }

  lemma {:induction false} InPlaceEntry(op: Op, hit: bool, m: ClientMsg, inside: bool)
    ensures op.Timeout? ==>
      var m' := TimedOut(m, op.now - op.timeout, op.now);
      Moves(op, hit, m, m') && m'.node == m.node
    ensures op.Disconnect? ==> Moves(op, hit, m, m)
    ensures op.Reconnect? ==> Moves(op, hit, m, if inside then Dequeued(Rewound(m)) else Rewound(m))
    ensures Dequeued(Rewound(m)).node == Rewound(m).node == m.node
  {
  }

  // What Without leaves: entries of the list, in their order.
  lemma {:induction false} WithoutLeaves(msgs: seq<ClientMsg>, mid: nat, dir: Direction, bound: nat)
    requires NodesOrdered(msgs, bound)
    ensures NodesOrdered(Without(msgs, mid, dir), bound)
    ensures forall m :: m in Without(msgs, mid, dir) ==> m in msgs
  {
    if msgs != [] {
      var last := |msgs| - 1;
      WithoutLeaves(msgs[..last], mid, dir, bound);
      var r := Without(msgs[..last], mid, dir);
      assert Without(msgs, mid, dir) == r + if Is(msgs[last], mid, dir) then [] else [msgs[last]];
      hide Without, Is;
      forall i | 0 <= i < |r| ensures r[i].node < msgs[last].node { assert r[i] in msgs[..last]; }
    }
  }

  lemma {:induction false} DeleteOrderly(cfg: Config, lim: Limits, s: QueueState, op: Op)
    requires op.Delete? && NodesOrdered(s.msgs, s.nextNode)
    ensures Orderly(s, op, Step(cfg, lim, s, op))
  {
    hide Without;
    var s' := Step(cfg, lim, s, op);
    var w := Without(s.msgs, op.mid, op.dir);
    WithoutLeaves(s.msgs, op.mid, op.dir, s.nextNode);
    forall k | 0 <= k < |s'.msgs| ensures CameFrom(s, op, s', s'.msgs[k]) {
      assert w[k] in s.msgs;
      var i :| 0 <= i < |s.msgs| && s.msgs[i] == w[k];
      assert Becomes(s, op, i, s'.msgs[k]);
    }
  }

  lemma {:induction false} ReleaseOrderly(cfg: Config, lim: Limits, s: QueueState, op: Op)
    requires op.Release? && NodesOrdered(s.msgs, s.nextNode)
    ensures Orderly(s, op, Step(cfg, lim, s, op))
  {
    hide Without, Promote, Moves, IsPubrec;
    var s' := Step(cfg, lim, s, op);
    var w := PromoteFirst(s.msgs, lim.maxInflight, op.now);
    forall i | 0 <= i < |w| ensures w[i].node == s.msgs[i].node && Becomes(s, op, i, w[i]) {
      PromotedEntry(op, IsPubrec(s, op, s.msgs[i].node), s.msgs[i], op.now);
    }
    WithoutLeaves(w, op.mid, In, s.nextNode);
    forall k | 0 <= k < |s'.msgs| ensures CameFrom(s, op, s', s'.msgs[k]) {
      assert s'.msgs[k] in w;
      var i :| 0 <= i < |w| && w[i] == s'.msgs[k];
      assert Becomes(s, op, i, s'.msgs[k]);
    }
  }

  lemma {:induction false} PromotedEntry(op: Op, hit: bool, m: ClientMsg, now: int)
    requires op.Release?
    ensures Promote(m, now).node == m.node && Moves(op, hit, m, Promote(m, now)) && Moves(op, hit, m, m)
  {
  }

  // ----- A write pass in the same terms -----

  // What sending its packet makes of an entry, of any QoS and direction.
  predicate Written(m: ClientMsg, m': ClientMsg) {
    && Moves(Write(0, 0), false, m, m')
    && (|| m'.state == m.state
        || (m.state == PublishQos1 && m'.state == WaitForPuback)
        || (m.state == PublishQos2 && m'.state == WaitForPubrec)
        || (m.state == ResendPubrel && m'.state == WaitForPubcomp)
        || ((m.state == SendPubrec || m.state == ResendPubcomp) && m'.state == WaitForPubrel)
        || (m.state == Queued && m.direction == In && m'.state in {SendPubrec, WaitForPubrel}))
  }

  predicate Leftover(was: seq<ClientMsg>, m': ClientMsg) { exists i :: 0 <= i < |was| && Written(was[i], m') }

  predicate PassKept(was: seq<ClientMsg>, r: seq<ClientMsg>, bound: nat) {
    NodesOrdered(r, bound) && forall k :: 0 <= k < |r| ==> Leftover(was, r[k])
  }

  lemma {:induction false} PassKeeps(msgs: seq<ClientMsg>, n: nat, seen: nat, room: nat, now: int, bound: nat)
    requires NodesOrdered(msgs, bound)
    ensures PassKept(msgs, WritePass(msgs, n, seen, room, now).msgs, bound)
    decreases |msgs|, if msgs != [] && msgs[0].state == Queued then 1 else 0
  {
    hide WritePass, PassKept, NodesOrdered, Admissible, Wants, AfterSend;
    if msgs == [] {
      NothingKept(n, seen, room, now, bound);
    } else {
      var m := msgs[0];
      var seen' := seen + if m.direction == In then 1 else 0;
      PassCases(msgs, n, seen, room, now);
      TailOrdered(msgs, bound);
      if Admissible(m, n, seen') {
        AdmittedHead(m, n, seen');
        PassKeeps([m.(state := SendPubrec)] + msgs[1..], n, seen', room, now, bound);
        KeptAdmitted(msgs, WritePass([m.(state := SendPubrec)] + msgs[1..], n, seen', room, now).msgs, bound);
      } else if Wants(m).None? {
        PassKeeps(msgs[1..], n, seen', room, now, bound);
        KeptBehind(msgs, Some(m), WritePass(msgs[1..], n, seen', room, now).msgs, bound);
      } else if room == 0 {
        KeptAll(msgs, bound);
      } else {
        PassKeeps(msgs[1..], n, seen', room - 1, now, bound);
        SentOnce(m, now);
        KeptBehind(msgs, AfterSend(m, now), WritePass(msgs[1..], n, seen', room - 1, now).msgs, bound);
      }
    }
  }

  lemma {:induction false} NothingKept(n: nat, seen: nat, room: nat, now: int, bound: nat)
    ensures PassKept([], WritePass([], n, seen, room, now).msgs, bound)
  {
  }

  lemma {:induction false} TailOrdered(msgs: seq<ClientMsg>, bound: nat)
    requires msgs != [] && NodesOrdered(msgs, bound)
    ensures NodesOrdered(msgs[1..], bound)
    ensures NodesOrdered([msgs[0].(state := SendPubrec)] + msgs[1..], bound)
  {
  }

  lemma {:induction false} SentOnce(m: ClientMsg, now: int)
    requires Wants(m).Some?
    ensures AfterSend(m, now).Some? ==> Written(m, AfterSend(m, now).value)
  {
  }

  lemma {:induction false} KeptAll(msgs: seq<ClientMsg>, bound: nat)
    requires NodesOrdered(msgs, bound)
    ensures PassKept(msgs, msgs, bound)
  {
    forall k | 0 <= k < |msgs| ensures exists i :: 0 <= i < |msgs| && Written(msgs[i], msgs[k]) {
      assert Written(msgs[k], msgs[k]);
    }
  }

  lemma {:induction false} KeptAdmitted(msgs: seq<ClientMsg>, r: seq<ClientMsg>, bound: nat)
    requires msgs != [] && msgs[0].direction == In && msgs[0].state == Queued
    requires PassKept([msgs[0].(state := SendPubrec)] + msgs[1..], r, bound)
    ensures PassKept(msgs, r, bound)
  {
    var l := [msgs[0].(state := SendPubrec)] + msgs[1..];
    forall k | 0 <= k < |r| ensures Leftover(msgs, r[k]) {
      assert Leftover(l, r[k]);
      var i :| 0 <= i < |l| && Written(l[i], r[k]);
      assert Written(msgs[i], r[k]);
    }
  }

  lemma {:induction false} KeptBehind(msgs: seq<ClientMsg>, head: Option<ClientMsg>, r: seq<ClientMsg>, bound: nat)
    requires msgs != [] && NodesOrdered(msgs, bound) && PassKept(msgs[1..], r, bound)
    requires head.Some? ==> Written(msgs[0], head.value)
    ensures PassKept(msgs, ToSeq(head) + r, bound)
  {
    forall k | 0 <= k < |r|
      ensures msgs[0].node < r[k].node && Leftover(msgs, r[k])
    {
      assert Leftover(msgs[1..], r[k]);
      var i :| 0 <= i < |msgs[1..]| && Written(msgs[1..][i], r[k]);
      assert Written(msgs[i + 1], r[k]);
    }
    var l := ToSeq(head) + r;
    forall k | 0 <= k < |l| ensures Leftover(msgs, l[k]) {
      if head.Some? && k == 0 { assert Written(msgs[0], l[k]); }
    }
  }

  /**
   A complete pass leaves no entry that still has something to send: QoS 0 entries have left the list,
   the others wait for their answers.
   */
  lemma {:induction false} PassSettles(msgs: seq<ClientMsg>, n: nat, seen: nat, room: nat, now: int)
    ensures var p := WritePass(msgs, n, seen, room, now); p.complete ==> forall m :: m in p.msgs ==> !Sendable(m)
    decreases |msgs|, if msgs != [] && msgs[0].state == Queued then 1 else 0
  {
    hide WritePass, Admissible, Sendable, Wants, AfterSend;
    if msgs == [] {
      PassEmpty(n, seen, room, now);
    } else {
      var m := msgs[0];
      var seen' := seen + if m.direction == In then 1 else 0;
      PassCases(msgs, n, seen, room, now);
      PassPackets(msgs, n, seen, room, now);
      if Admissible(m, n, seen') {
        AdmittedHead(m, n, seen');
        PassSettles([m.(state := SendPubrec)] + msgs[1..], n, seen', room, now);
      } else if Wants(m).None? {
        NotSendable(m, now);
        PassSettles(msgs[1..], n, seen', room, now);
      } else if room > 0 {
        NotSendable(m, now);
        PassSettles(msgs[1..], n, seen', room - 1, now);
      }
    }
  }

  lemma {:induction false} PassEmpty(n: nat, seen: nat, room: nat, now: int)
    ensures WritePass([], n, seen, room, now).msgs == []
  {
  }

  lemma {:induction false} NotSendable(m: ClientMsg, now: int)
    ensures if Wants(m).None? then !Sendable(m)
            else forall m' :: m' in ToSeq(AfterSend(m, now)) ==> !Sendable(m')
  {
  }

  lemma {:induction false} WriteOrderly(cfg: Config, lim: Limits, s: QueueState, room: nat, now: int)
    requires NodesOrdered(s.msgs, s.nextNode)
    ensures Orderly(s, Write(room, now), Step(cfg, lim, s, Write(room, now)))
  {
    hide WritePass, NodesOrdered;
    PassKeeps(s.msgs, lim.maxInflight, 0, room, now, s.nextNode);
    var s' := Step(cfg, lim, s, Write(room, now));
    forall k | 0 <= k < |s'.msgs| ensures CameFrom(s, Write(room, now), s', s'.msgs[k]) {
      assert Leftover(s.msgs, s'.msgs[k]);
      var i :| 0 <= i < |s.msgs| && Written(s.msgs[i], s'.msgs[k]);
      assert Becomes(s, Write(room, now), i, s'.msgs[k]);
    }
  }

  // ----- Phases over runs -----

  // A PUBREC has come for the entry, and no reconnect since then has found it in ResendPubrel.
  predicate Acked(cfg: Config, lim: Limits, ops: seq<Op>, node: nat) {
    exists i :: 0 <= i < |ops| && PubrecAt(cfg, lim, ops, i, node) &&
      forall k :: i < k < |ops| ==> !ForgetsAt(cfg, lim, ops, k, node)
  }

  predicate PubrecAt(cfg: Config, lim: Limits, ops: seq<Op>, i: nat, node: nat)
    requires i < |ops|
  {
    PubrecComes(Run(cfg, lim, Empty, ops[..i]), ops[i], node)
  }

  predicate ForgetsAt(cfg: Config, lim: Limits, ops: seq<Op>, i: nat, node: nat)
    requires i < |ops|
  {
    Forgets(Run(cfg, lim, Empty, ops[..i]), ops[i], node)
  }

  // The PUBREC is for an outbound QoS 2 entry.
  predicate PubrecComes(s: QueueState, op: Op, node: nat) {
    IsPubrec(s, op, node) && exists i :: 0 <= i < |s.msgs| && s.msgs[i].node == node && Out2(s.msgs[i])
  }

  // A reconnect finds the entry on its way to a second PUBREL.
  predicate Forgets(s: QueueState, op: Op, node: nat) {
    op.Reconnect? && exists i :: 0 <= i < |s.msgs| && s.msgs[i].node == node && s.msgs[i].state == ResendPubrel
  }

  predicate SendsOnly(ops: seq<Op>) { forall i :: 0 <= i < |ops| ==> Sends(ops[i]) }

  predicate InPhase(cfg: Config, lim: Limits, ops: seq<Op>, m: ClientMsg) {
    if Acked(cfg, lim, ops, m.node) then Out2(m) && m.state in {WaitForPubcomp, ResendPubrel}
    else Out2(m) ==> m.state in {Queued, PublishQos2, WaitForPubrec}
  }

  ghost predicate Phased(cfg: Config, lim: Limits, ops: seq<Op>) {
    var s := Run(cfg, lim, Empty, ops);
    && NodesOrdered(s.msgs, s.nextNode) && (forall k :: 0 <= k < |s.msgs| ==> InPhase(cfg, lim, ops, s.msgs[k]))
    && forall x :: s.nextNode <= x ==> !Acked(cfg, lim, ops, x)
  }

  /**
   Over every run, an outbound QoS 2 entry is in the second phase of its hand-over exactly if it has
   had its PUBREC and no reconnect has found it in ResendPubrel since.
   */
  lemma {:induction false} PhaseKnown(cfg: Config, lim: Limits, ops: seq<Op>)
    requires SendsOnly(ops)
    ensures Phased(cfg, lim, ops)
    decreases |ops|
  {
    hide Phased, Step, NodesOrdered, Acked;
    if ops == [] {
      NothingPhased(cfg, lim);
    } else {
      var last := |ops| - 1;
      PhaseKnown(cfg, lim, ops[..last]);
      PhaseStep(cfg, lim, ops);
    }
  }

  lemma {:induction false} NothingPhased(cfg: Config, lim: Limits)
    ensures Phased(cfg, lim, [])
  {
  }

  lemma {:induction false} AckedStep(cfg: Config, lim: Limits, ops: seq<Op>, node: nat)
    requires ops != []
    ensures var s, op := Run(cfg, lim, Empty, ops[..|ops| - 1]), ops[|ops| - 1];
      Acked(cfg, lim, ops, node) <==>
      PubrecComes(s, op, node) || (Acked(cfg, lim, ops[..|ops| - 1], node) && !Forgets(s, op, node))
  {
    hide Run, PubrecComes, Forgets;
    var last := |ops| - 1;
    var before := ops[..last];
    forall i | 0 <= i < last
      ensures PubrecAt(cfg, lim, before, i, node) == PubrecAt(cfg, lim, ops, i, node)
      ensures ForgetsAt(cfg, lim, before, i, node) == ForgetsAt(cfg, lim, ops, i, node)
    {
      assert before[..i] == ops[..i];
    }
    assert PubrecAt(cfg, lim, ops, last, node) == PubrecComes(Run(cfg, lim, Empty, before), ops[last], node);
    assert ForgetsAt(cfg, lim, ops, last, node) == Forgets(Run(cfg, lim, Empty, before), ops[last], node);
    hide PubrecAt, ForgetsAt;
    if Acked(cfg, lim, before, node) && !ForgetsAt(cfg, lim, ops, last, node) {
      var i :| 0 <= i < last && PubrecAt(cfg, lim, before, i, node) &&
        forall k :: i < k < last ==> !ForgetsAt(cfg, lim, before, k, node);
      assert PubrecAt(cfg, lim, ops, i, node);
    }
    if Acked(cfg, lim, ops, node) && !PubrecAt(cfg, lim, ops, last, node) {
      var i :| 0 <= i < |ops| && PubrecAt(cfg, lim, ops, i, node) &&
        forall k :: i < k < |ops| ==> !ForgetsAt(cfg, lim, ops, k, node);
      assert PubrecAt(cfg, lim, before, i, node);
    }
  }

  lemma {:induction false} PhaseStep(cfg: Config, lim: Limits, ops: seq<Op>)
    requires ops != [] && Sends(ops[|ops| - 1]) && Phased(cfg, lim, ops[..|ops| - 1])
    ensures Phased(cfg, lim, ops)
  {
    hide Step, NodesOrdered, Acked, Moves, PubrecComes, Forgets, InPhase;
    var before, op := ops[..|ops| - 1], ops[|ops| - 1];
    var s, s' := Run(cfg, lim, Empty, before), Run(cfg, lim, Empty, ops);
    StepOrderly(cfg, lim, s, op);
    forall k | 0 <= k < |s'.msgs| ensures InPhase(cfg, lim, ops, s'.msgs[k]) {
      assert CameFrom(s, op, s', s'.msgs[k]);
      if New(s, op, s', s'.msgs[k]) {
        NewInPhase(cfg, lim, ops, s, s'.msgs[k]);
      } else {
        var i :| 0 <= i < |s.msgs| && Becomes(s, op, i, s'.msgs[k]);
        EntryStep(cfg, lim, ops, s, i, s'.msgs[k]);
      }
    }
    forall x | s'.nextNode <= x ensures !Acked(cfg, lim, ops, x) {
      AckedStep(cfg, lim, ops, x);
      KnownNode(s, op, x);
    }
  }

  lemma {:induction false} KnownNode(s: QueueState, op: Op, node: nat)
    requires NodesOrdered(s.msgs, s.nextNode) && s.nextNode <= node
    ensures !PubrecComes(s, op, node)
  {
  }

  lemma {:induction false} NewInPhase(cfg: Config, lim: Limits, ops: seq<Op>, s: QueueState, m: ClientMsg)
    requires ops != [] && s == Run(cfg, lim, Empty, ops[..|ops| - 1]) && m.node == s.nextNode && ops[|ops| - 1].Insert?
    requires !Acked(cfg, lim, ops[..|ops| - 1], m.node) && (Out2(m) ==> m.state in {Queued, PublishQos2})
    ensures InPhase(cfg, lim, ops, m)
  {
    hide Run, Step;
    hide Acked;
    AckedStep(cfg, lim, ops, m.node);
  }

  lemma {:induction false} EntryStep(cfg: Config, lim: Limits, ops: seq<Op>, s: QueueState, i: nat, m': ClientMsg)
    requires ops != [] && s == Run(cfg, lim, Empty, ops[..|ops| - 1]) && NodesOrdered(s.msgs, s.nextNode)
    requires i < |s.msgs| && InPhase(cfg, lim, ops[..|ops| - 1], s.msgs[i]) && Sends(ops[|ops| - 1])
    requires Moves(ops[|ops| - 1], IsPubrec(s, ops[|ops| - 1], s.msgs[i].node), s.msgs[i], m')
    ensures InPhase(cfg, lim, ops, m')
  {
    hide Run, Step, Acked;
    var m, op := s.msgs[i], ops[|ops| - 1];
    AckedStep(cfg, lim, ops, m.node);
    OnlyEntry(s, op, i);
    hide IsPubrec, PubrecComes, Forgets, NodesOrdered;
  }

  // With names in order, the conditions on a name are conditions on its entry.
  lemma {:induction false} OnlyEntry(s: QueueState, op: Op, i: nat)
    requires NodesOrdered(s.msgs, s.nextNode) && i < |s.msgs|
    ensures PubrecComes(s, op, s.msgs[i].node) <==> IsPubrec(s, op, s.msgs[i].node) && Out2(s.msgs[i])
    ensures Forgets(s, op, s.msgs[i].node) <==> op.Reconnect? && s.msgs[i].state == ResendPubrel
    ensures IsPubrec(s, op, s.msgs[i].node) ==> op.Update?
  {
  }

  // ----- Section 4.3.3 for the broker as sender -----

  predicate IsPublish(p: Sent, node: nat) { p.SentPublish? && p.node == node }

  function PassAfter(cfg: Config, lim: Limits, ops: seq<Op>, room: nat, now: int): Pass {
    WritePass(Run(cfg, lim, Empty, ops).msgs, lim.maxInflight, 0, room, now)
  }

  // The packets of a pass over a list in which entries have their phases.
  lemma {:induction false} PassInPhase(cfg: Config, lim: Limits, ops: seq<Op>, room: nat, now: int)
    returns (o: seq<nat>)
    requires SendsOnly(ops)
    ensures var msgs, p := Run(cfg, lim, Empty, ops).msgs, PassAfter(cfg, lim, ops, room, now);
      && |o| == |p.sent| && (forall j :: 0 <= j < |o| ==> o[j] < |msgs| && From(p.sent[j], msgs[o[j]]))
      && (forall i, j :: 0 <= i < j < |o| ==> o[i] < o[j])
      && (p.complete ==> Covers(o, msgs))
      && forall k :: 0 <= k < |msgs| ==> InPhase(cfg, lim, ops, msgs[k])
  {
    PhaseKnown(cfg, lim, ops);
    hide Run, WritePass, SendsOnly, InPhase, From, Sendable;
    o := PassExplained(Run(cfg, lim, Empty, ops).msgs, lim.maxInflight, 0, room, now);
  }

  /**
   Once an outbound QoS 2 entry has had its PUBREC, no later write pass publishes it again, through
   timeouts, write errors, disconnects and reconnects, as long as no reconnect finds it in
   ResendPubrel.
   */
  lemma {:induction false} NoPublishAfterPubrec(cfg: Config, lim: Limits, ops: seq<Op>, i: nat, node: nat, room: nat,
                                                now: int)
    requires SendsOnly(ops) && i < |ops| && PubrecAt(cfg, lim, ops, i, node)
    requires forall k :: i < k < |ops| ==> !ForgetsAt(cfg, lim, ops, k, node)
    ensures forall p :: p in PassAfter(cfg, lim, ops, room, now).sent ==> !IsPublish(p, node)
  {
    hide Run, SendsOnly, PassAfter, PubrecAt, ForgetsAt;
    var o := PassInPhase(cfg, lim, ops, room, now);
    var sent := PassAfter(cfg, lim, ops, room, now).sent;
    forall j | 0 <= j < |sent| ensures !IsPublish(sent[j], node) {
      assert InPhase(cfg, lim, ops, Run(cfg, lim, Empty, ops).msgs[o[j]]);
    }
  }

  /**
   The packets of a write pass come from different entries, in their order. What an outbound QoS 2
   entry sends before its PUBREC is its PUBLISH, and afterwards its PUBREL.
   */
  lemma {:induction false} PacketOfPhase(cfg: Config, lim: Limits, ops: seq<Op>, room: nat, now: int)
    returns (o: seq<nat>)
    requires SendsOnly(ops)
    ensures var msgs, p := Run(cfg, lim, Empty, ops).msgs, PassAfter(cfg, lim, ops, room, now);
      && |o| == |p.sent| && (forall j :: 0 <= j < |o| ==> o[j] < |msgs|)
      && (forall i, j :: 0 <= i < j < |o| ==> o[i] < o[j])
      && (forall j :: 0 <= j < |o| && Out2(msgs[o[j]]) ==>
           var m := msgs[o[j]];
           p.sent[j] == if Acked(cfg, lim, ops, m.node) then SentPubrel(m.mid, true)
                        else SentPublish(m.node, m.mid, 2, m.retain, m.dup, m.store))
      && (p.complete ==> forall k :: 0 <= k < |msgs| && Out2(msgs[k]) ==>
           (k in o <==> msgs[k].state in {PublishQos2, ResendPubrel}))
  {
    hide Run, SendsOnly, PassAfter, Acked;
    o := PassInPhase(cfg, lim, ops, room, now);
    var msgs, sent := Run(cfg, lim, Empty, ops).msgs, PassAfter(cfg, lim, ops, room, now).sent;
    forall j | 0 <= j < |o| ensures o[j] < |msgs| && From(sent[j], msgs[o[j]]) && InPhase(cfg, lim, ops, msgs[o[j]]) {
    }
  }

  // ----- After a reconnect -----

  // What the entry has to send after a reconnect.
  function ResumeState(m: ClientMsg): MsgState {
    if m.state == WaitForPubcomp then ResendPubrel else PublishQos2
  }

  predicate Resumed(s: QueueState, m: ClientMsg) {
    && NodesOrdered(s.msgs, s.nextNode) && m.node < s.nextNode
    && forall k :: 0 <= k < |s.msgs| && s.msgs[k].node == m.node ==>
         Same(m, s.msgs[k]) && s.msgs[k].state == ResumeState(m)
  }

  // Between the reconnect and the next write pass, and no PUBREC for the entry.
  predicate Quiet(s: QueueState, op: Op, node: nat) {
    Sends(op) && !op.Write? && !op.Reconnect? && !IsPubrec(s, op, node)
  }

  lemma {:induction false} ReconnectStarts(cfg: Config, lim: Limits, s: QueueState, m: ClientMsg)
    requires NodesOrdered(s.msgs, s.nextNode) && m in s.msgs && Out2(m) && m.state != Queued
    ensures Resumed(Step(cfg, lim, s, Reconnect), m)
  {
    hide Rewound, Dequeued, Same, ResumeState;
    var s' := Step(cfg, lim, s, Reconnect);
    var i :| 0 <= i < |s.msgs| && s.msgs[i] == m;
    forall k | 0 <= k < |s'.msgs|
      ensures s'.msgs[k].node == s.msgs[k].node
      ensures k == i ==> Same(m, s'.msgs[k]) && s'.msgs[k].state == ResumeState(m)
    {
      EntryResumes(s.msgs[k], lim.maxInflight == 0 || k < lim.maxInflight);
    }
  }

  lemma {:induction false} EntryResumes(m: ClientMsg, inside: bool)
    ensures var m' := if inside then Dequeued(Rewound(m)) else Rewound(m);
      m'.node == m.node && (Out2(m) && m.state != Queued ==> Same(m, m') && m'.state == ResumeState(m))
  {
  }

  lemma {:induction false} QuietKeeps(cfg: Config, lim: Limits, s: QueueState, op: Op, m: ClientMsg)
    requires Resumed(s, m) && Quiet(s, op, m.node) && Out2(m)
    ensures Resumed(Step(cfg, lim, s, op), m)
  {
    hide Step, Moves, IsPubrec;
    StepOrderly(cfg, lim, s, op);
    var s' := Step(cfg, lim, s, op);
    forall k | 0 <= k < |s'.msgs| && s'.msgs[k].node == m.node
      ensures Same(m, s'.msgs[k]) && s'.msgs[k].state == ResumeState(m)
    {
      assert CameFrom(s, op, s', s'.msgs[k]);
      var i :| 0 <= i < |s.msgs| && Becomes(s, op, i, s'.msgs[k]);
      QuietEntry(s, op, i, s'.msgs[k], m);
    }
  }

  lemma {:induction false} QuietEntry(s: QueueState, op: Op, i: nat, m': ClientMsg, m: ClientMsg)
    requires Resumed(s, m) && Quiet(s, op, m.node) && Out2(m)
    requires i < |s.msgs| && Becomes(s, op, i, m') && m'.node == m.node
    ensures Same(m, m') && m'.state == ResumeState(m)
  {
    hide IsPubrec;
  }

  lemma {:induction false} QuietRun(cfg: Config, lim: Limits, ops: seq<Op>, quiet: seq<Op>, m: ClientMsg)
    requires SendsOnly(ops) && m in Run(cfg, lim, Empty, ops).msgs && Out2(m) && m.state != Queued
    requires forall i :: 0 <= i < |quiet| ==>
               Quiet(Run(cfg, lim, Empty, ops + [Reconnect] + quiet[..i]), quiet[i], m.node)
    ensures Resumed(Run(cfg, lim, Empty, ops + [Reconnect] + quiet), m)
    decreases |quiet|
  {
    hide Run, Step, Quiet, Resumed, NodesOrdered, SendsOnly;
    if quiet == [] {
      PhaseKnown(cfg, lim, ops);
      RunMore(cfg, lim, ops, Reconnect);
      assert ops + [Reconnect] + [] == ops + [Reconnect];
      ReconnectStarts(cfg, lim, Run(cfg, lim, Empty, ops), m);
    } else {
      var last := |quiet| - 1;
      var before := ops + [Reconnect] + quiet[..last];
      forall i | 0 <= i < last
        ensures Quiet(Run(cfg, lim, Empty, ops + [Reconnect] + quiet[..last][..i]), quiet[..last][i], m.node)
      {
        assert quiet[..last][..i] == quiet[..i];
      }
      QuietRun(cfg, lim, ops, quiet[..last], m);
      RunMore(cfg, lim, before, quiet[last]);
      assert before + [quiet[last]] == ops + [Reconnect] + quiet;
      QuietKeeps(cfg, lim, Run(cfg, lim, Empty, before), quiet[last], m);
    }
  }

  lemma {:induction false} RunMore(cfg: Config, lim: Limits, ops: seq<Op>, op: Op)
    ensures Run(cfg, lim, Empty, ops + [op]) == Step(cfg, lim, Run(cfg, lim, Empty, ops), op)
  {
    assert (ops + [op])[..|ops|] == ops;
  }

  /**
   The next complete write pass after a reconnect takes every outbound QoS 2 entry that is still
   there up again: it sends the PUBREL if the reconnect found the entry waiting for its PUBCOMP, and
   then no PUBLISH; in every other phase it sends the PUBLISH. ResendPubrel is among those, so the
   condition of NoPublishAfterPubrec is exact.
   */
  lemma {:induction false} ReconnectResumes(cfg: Config, lim: Limits, ops: seq<Op>, quiet: seq<Op>, m: ClientMsg,
                                            room: nat, now: int)
    requires SendsOnly(ops) && m in Run(cfg, lim, Empty, ops).msgs && Out2(m) && m.state != Queued
    requires forall i :: 0 <= i < |quiet| ==>
               Quiet(Run(cfg, lim, Empty, ops + [Reconnect] + quiet[..i]), quiet[i], m.node)
    requires var all := ops + [Reconnect] + quiet;
      && PassAfter(cfg, lim, all, room, now).complete
      && exists k :: 0 <= k < |Run(cfg, lim, Empty, all).msgs| && Run(cfg, lim, Empty, all).msgs[k].node == m.node
    ensures var sent := PassAfter(cfg, lim, ops + [Reconnect] + quiet, room, now).sent;
      && (m.state == WaitForPubcomp ==>
           SentPubrel(m.mid, true) in sent && forall p :: p in sent ==> !IsPublish(p, m.node))
      && (m.state != WaitForPubcomp ==> exists dup :: SentPublish(m.node, m.mid, 2, m.retain, dup, m.store) in sent)
  {
    hide Run, WritePass, SendsOnly, Quiet;
    var all := ops + [Reconnect] + quiet;
    QuietRun(cfg, lim, ops, quiet, m);
    var msgs, p := Run(cfg, lim, Empty, all).msgs, PassAfter(cfg, lim, all, room, now);
    var o := PassExplained(msgs, lim.maxInflight, 0, room, now);
    PacketsOf(o, p.sent, msgs);
    var k :| 0 <= k < |msgs| && msgs[k].node == m.node;
    assert Sendable(msgs[k]);
    var j :| 0 <= j < |o| && o[j] == k;
    assert From(p.sent[j], msgs[k]);
    if m.state == WaitForPubcomp {
      forall j | 0 <= j < |p.sent| ensures !IsPublish(p.sent[j], m.node) { assert From(p.sent[j], msgs[o[j]]); }
    } else {
      assert p.sent[j] == SentPublish(m.node, m.mid, 2, m.retain, msgs[k].dup, m.store);
    }
  }

  lemma {:induction false} PacketsOf(o: seq<nat>, sent: seq<Sent>, msgs: seq<ClientMsg>)
    requires Explains(o, sent, msgs)
    ensures |o| == |sent| && forall j :: 0 <= j < |o| ==> o[j] < |msgs| && From(sent[j], msgs[o[j]])
  {
  }

  // ----- The case in which the code publishes again -----

  /**
   A run in which the broker publishes after the PUBREC: the PUBREC comes, the connection is lost,
   and the client stays away for longer than the retry interval before it comes back.
   */
  lemma {:induction false} PublishedAgain(cfg: Config, stored: Stored)
    ensures var lim := Limits(0, 0);
      var s1 := Step(cfg, lim, Empty, Reconnect);
      var s2 := Step(cfg, lim, s1, Insert(false, 5, Out, 2, false, stored, 0));
      var s3 := Step(cfg, lim, s2, Write(1, 0));
      var s4 := Step(cfg, lim, s3, Update(5, Out, WaitForPubcomp, 0));
      var s5 := Step(cfg, lim, s4, Disconnect);
      var s6 := Step(cfg, lim, s5, Timeout(20, 21));
      var s7 := Step(cfg, lim, s6, Reconnect);
      && WritePass(s2.msgs, 0, 0, 1, 0).sent == [SentPublish(0, 5, 2, false, false, stored)]
      && PubrecComes(s3, Update(5, Out, WaitForPubcomp, 0), 0)
      && WritePass(s7.msgs, 0, 0, 1, 30).sent == [SentPublish(0, 5, 2, false, true, stored)]
  {
    hide Step, WritePass, PubrecComes;
    var m := NewEntry(0, stored, 5, 2, false, 0, Out, PublishQos2);
    AgainStart(cfg, stored, m);
    var s2 := QueueState(true, [m], 1, [], 0);
    AgainWrite(m, 0);
    var m3 := m.(dup := true, state := WaitForPubrec);
    var s3 := Step(cfg, Limits(0, 0), s2, Write(1, 0));
    AgainWritten(cfg, s2);
    AgainPubrec(cfg, s3, m3);
    var m4 := m3.(state := WaitForPubcomp);
    var s4 := Step(cfg, Limits(0, 0), s3, Update(5, Out, WaitForPubcomp, 0));
    AgainAway(cfg, s4, m4);
    AgainWrite(m4.(timestamp := 21, state := PublishQos2), 30);
  }

  lemma {:induction false} AgainStart(cfg: Config, stored: Stored, m: ClientMsg)
    requires m == NewEntry(0, stored, 5, 2, false, 0, Out, PublishQos2)
    ensures var lim := Limits(0, 0);
      Step(cfg, lim, Step(cfg, lim, Empty, Reconnect), Insert(false, 5, Out, 2, false, stored, 0)) ==
        QueueState(true, [m], 1, [], 0)
  {
    assert ResetList([], 0) == [] && [] + [m] == [m];
  }

  lemma {:induction false} AgainWrite(m: ClientMsg, now: int)
    requires Out2(m) && m.state == PublishQos2
    ensures WritePass([m], 0, 0, 1, now) ==
      Pass([m.(timestamp := now, dup := true, state := WaitForPubrec)],
           [SentPublish(m.node, m.mid, 2, m.retain, m.dup, m.store)], true)
  {
    assert [m][1..] == [];
    assert WritePass([], 0, 0, 0, now) == Pass([], [], true);
  }

  lemma {:induction false} AgainWritten(cfg: Config, s: QueueState)
    ensures Step(cfg, Limits(0, 0), s, Write(1, 0)).msgs == WritePass(s.msgs, 0, 0, 1, 0).msgs
  {
  }

  lemma {:induction false} AgainPubrec(cfg: Config, s: QueueState, m: ClientMsg)
    requires s.msgs == [m] && m.mid == 5 && m.node == 0 && m.timestamp == 0 && Out2(m)
    ensures var u := Update(5, Out, WaitForPubcomp, 0);
      PubrecComes(s, u, 0) && Step(cfg, Limits(0, 0), s, u).msgs == [m.(state := WaitForPubcomp)]
  {
    assert IndexOf(s.msgs, 5, Out, 0) == 0 && s.msgs[0] == m;
  }

  lemma {:induction false} AgainAway(cfg: Config, s: QueueState, m: ClientMsg)
    requires s.msgs == [m] && m.timestamp == 0 && Out2(m) && m.state == WaitForPubcomp && m.dup
    ensures var lim := Limits(0, 0);
      Step(cfg, lim, Step(cfg, lim, Step(cfg, lim, s, Disconnect), Timeout(20, 21)), Reconnect).msgs ==
        [m.(timestamp := 21, state := PublishQos2)]
  {
  }

  // ----- Timeouts -----

  // The packet of an entry that waits for an answer.
  function Repeat(m: ClientMsg): (p: Option<Sent>) {
    if m.state == WaitForPuback || m.state == WaitForPubrec then
      Some(SentPublish(m.node, m.mid, m.qos, m.retain, true, m.store))
    else if m.state == WaitForPubrel then Some(SentPubrec(m.mid))
    else if m.state == WaitForPubcomp then Some(SentPubrel(m.mid, true))
    else None
  }

  /**
   After a timeout check the next complete write pass sends the packet of every entry that has been
   waiting for its answer since before the interval, in the entry's own phase and with DUP set, and
   no packet of an entry that has been waiting for a shorter time.
   */
  lemma {:induction false} OverdueResent(msgs: seq<ClientMsg>, timeout: nat, now: int, n: nat, room: nat, later: int)
    returns (o: seq<nat>)
    ensures var p := WritePass(TimeoutList(msgs, now - timeout, now), n, 0, room, later);
      && |o| == |p.sent| && (forall j :: 0 <= j < |o| ==> o[j] < |msgs|)
      && (forall i, j :: 0 <= i < j < |o| ==> o[i] < o[j])
      && (forall j :: 0 <= j < |o| && Repeat(msgs[o[j]]).Some? ==>
            msgs[o[j]].timestamp < now - timeout && p.sent[j] == Repeat(msgs[o[j]]).value)
      && (p.complete ==>
            forall k :: 0 <= k < |msgs| && Repeat(msgs[k]).Some? && msgs[k].timestamp < now - timeout ==> k in o)
  {
    hide WritePass;
    var t := TimeoutList(msgs, now - timeout, now);
    o := PassExplained(t, n, 0, room, later);
    var p := WritePass(t, n, 0, room, later);
    forall j | 0 <= j < |o| ensures o[j] < |msgs| && From(p.sent[j], TimedOut(msgs[o[j]], now - timeout, now)) {
      assert From(p.sent[j], t[o[j]]);
    }
    forall k | 0 <= k < |msgs| && Repeat(msgs[k]).Some? && msgs[k].timestamp < now - timeout ensures Sendable(t[k]) {
    }
  }

  // ----- Messages of the client -----

  // An inbound message that waits in the queue inside the window.
  predicate Waits(msgs: seq<ClientMsg>, k: nat, n: nat)
    requires k < |msgs|
  {
    msgs[k].direction == In && msgs[k].state == Queued && k < n
  }

  /**
   When a message is let go, each inbound message that waits inside the window gets its PUBREC and
   waits for its PUBREL from then on, each outbound one there is to be published, and nothing else
   changes. The packets are in list order.
   */
  lemma {:induction false} WindowAnswers(msgs: seq<ClientMsg>, n: nat, now: int) returns (o: seq<nat>)
    requires InboundWellFormed(msgs) && QosInRange(msgs)
    ensures Answered(msgs, n, |msgs|, Pubrecs(msgs, n), o)
    ensures forall k :: 0 <= k < |msgs| ==>
              var m, m' := msgs[k], PromoteFirst(msgs, n, now)[k];
              if m.state != Queued || n <= k then m' == m
              else
                m' == m.(timestamp := now, state := if m.direction == In then WaitForPubrel
                                                    else if m.qos == 0 then PublishQos0
                                                    else if m.qos == 1 then PublishQos1 else PublishQos2)
  {
    assert msgs[..|msgs|] == msgs;
    o := PubrecsFor(msgs, n, |msgs|);
  }

  // The packets are the PUBRECs of those that wait among the first `upto` entries, at the positions o.
  predicate Answered(msgs: seq<ClientMsg>, n: nat, upto: nat, sent: seq<Sent>, o: seq<nat>)
    requires upto <= |msgs|
  {
    && |o| == |sent| && (forall i, j :: 0 <= i < j < |o| ==> o[i] < o[j])
    && (forall j :: 0 <= j < |o| ==> o[j] < upto && Waits(msgs, o[j], n) && sent[j] == SentPubrec(msgs[o[j]].mid))
    && forall k :: 0 <= k < upto && Waits(msgs, k, n) ==> k in o
  }

  lemma {:induction false} PubrecsFor(msgs: seq<ClientMsg>, n: nat, upto: nat) returns (o: seq<nat>)
    requires InboundWellFormed(msgs) && upto <= |msgs|
    ensures Answered(msgs, n, upto, Pubrecs(msgs[..upto], n), o)
    decreases upto
  {
    hide Answered, InboundWellFormed, Pubrecs;
    if upto == 0 {
      o := [];
      NoneAnswered(msgs, n);
    } else {
      var o1 := PubrecsFor(msgs, n, upto - 1);
      o := OneAnswered(msgs, n, upto - 1, Pubrecs(msgs[..upto - 1], n), o1);
      PubrecsMore(msgs, n, upto - 1);
    }
  }

  lemma {:induction false} NoneAnswered(msgs: seq<ClientMsg>, n: nat)
    ensures Answered(msgs, n, 0, Pubrecs(msgs[..0], n), [])
  {
  }

  lemma {:induction false} PubrecsMore(msgs: seq<ClientMsg>, n: nat, k: nat)
    requires k < |msgs|
    ensures Pubrecs(msgs[..k + 1], n) == Pubrecs(msgs[..k], n) + if k < n then PubrecFor(msgs[k]) else []
  {
    assert msgs[..k + 1][..k] == msgs[..k];
  }

  lemma {:induction false} OneAnswered(msgs: seq<ClientMsg>, n: nat, k: nat, sent: seq<Sent>, o: seq<nat>)
    returns (o': seq<nat>)
    requires InboundWellFormed(msgs) && k < |msgs| && Answered(msgs, n, k, sent, o)
    ensures Answered(msgs, n, k + 1, sent + (if k < n then PubrecFor(msgs[k]) else []), o')
  {
    if Waits(msgs, k, n) {
      o' := o + [k];
      assert o'[|o|] == k && PubrecFor(msgs[k]) == [SentPubrec(msgs[k].mid)];
      assert forall i :: i in o ==> i in o';
    } else {
      o' := o;
      assert sent + [] == sent;
    }
  }

  // A queued inbound message inside the window.
  predicate Echoed(msgs: seq<ClientMsg>, k: nat, n: nat)
    requires k < |msgs|
  {
    msgs[k].direction == In && msgs[k].state == Queued && InWindow(k, n)
  }

  /**
   The reset also takes inbound messages out of the queue: one that waits inside the window is
   published to the client that sent it. No other inbound message is, unless it was on that way
   before.
   */
  lemma {:induction false} InboundEchoed(cfg: Config, lim: Limits, s: QueueState, room: nat, now: int)
    returns (o: seq<nat>)
    requires InboundWellFormed(s.msgs)
    ensures var p := WritePass(Step(cfg, lim, s, Reconnect).msgs, lim.maxInflight, 0, room, now);
      && |o| == |p.sent| && (forall j :: 0 <= j < |o| ==> o[j] < |s.msgs|)
      && (forall j :: 0 <= j < |o| && Echoed(s.msgs, o[j], lim.maxInflight) ==>
            var m := s.msgs[o[j]];
            p.sent[j] == SentPublish(m.node, m.mid, 2, m.retain, m.dup, m.store))
      && (forall j :: 0 <= j < |o| && s.msgs[o[j]].direction == In && p.sent[j].SentPublish? ==>
            Echoed(s.msgs, o[j], lim.maxInflight) || s.msgs[o[j]].state in {PublishQos0, PublishQos1, PublishQos2})
      && (p.complete ==> forall k :: 0 <= k < |s.msgs| && Echoed(s.msgs, k, lim.maxInflight) ==> k in o)
  {
    hide WritePass;
    var msgs := Step(cfg, lim, s, Reconnect).msgs;
    o := PassExplained(msgs, lim.maxInflight, 0, room, now);
    var p := WritePass(msgs, lim.maxInflight, 0, room, now);
    forall j | 0 <= j < |o| ensures o[j] < |msgs| && From(p.sent[j], msgs[o[j]]) {
    }
    forall k | 0 <= k < |msgs| && Echoed(s.msgs, k, lim.maxInflight) ensures Sendable(msgs[k]) {
    }
  }
}
