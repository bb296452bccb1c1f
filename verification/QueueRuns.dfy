/**
 Whole runs of one client's message list: any sequence of the operations of src/database.c, as
 their contracts in ClientContext describe them.
 */
module QueueRuns {
  import opened Topics
  import opened MessageQueue
  import opened ClientContext

  datatype QueueState = QueueState(
    connected: bool, msgs: seq<ClientMsg>, nextNode: nat,
    firstSent: seq<nat>,   // entries in the order of their first transmission
    dropped: int)          // how many entries of an outbound list DeleteAll has removed unsent

  datatype Op =
    | Insert(already: bool, mid: nat, dir: Direction, qos: nat, retain: bool, stored: Stored, now: int)
    | Delete(mid: nat, dir: Direction, now: int)
    | Release(mid: nat, now: int)   // of an inbound message, after what it routes back was inserted
    | DeleteAll
    | Update(mid: nat, dir: Direction, state: MsgState, now: int)
    | Timeout(timeout: nat, now: int)
    | Write(room: nat, now: int)
    | Disconnect
    | Reconnect

  const Empty := QueueState(false, [], 0, [], 0)

  function FirstTransmissions(sent: seq<Sent>): seq<nat> {
    if sent == [] then []
    else (if sent[0].SentPublish? && !sent[0].dup then [sent[0].node] else []) + FirstTransmissions(sent[1..])
  }

  function Step(cfg: Config, lim: Limits, s: QueueState, op: Op): QueueState {
    match op
    case Insert(already, mid, dir, qos, retain, stored, now) =>
      var v := if already then Refused(0) else Admit(lim, s.connected, cfg.queueQos0, Count12(s.msgs), dir, qos);
      s.(msgs := InsertedList(s.msgs, v, NewEntry(s.nextNode, stored, mid, qos, retain, now, dir, Invalid)),
         nextNode := s.nextNode + if v.Admitted? then 1 else 0)
    case Delete(mid, dir, now) => s.(msgs := PromoteFirst(Without(s.msgs, mid, dir), lim.maxInflight, now))
    case Release(mid, now) => s.(msgs := ReleasedList(s.msgs, mid, lim.maxInflight, now))
    case DeleteAll => s.(msgs := [], dropped := s.nextNode - |s.firstSent|)
    case Update(mid, dir, state, now) => s.(msgs := Updated(s.msgs, mid, dir, state, now))
    case Timeout(timeout, now) => s.(msgs := TimeoutList(s.msgs, now - timeout, now))
    case Write(room, now) =>
      var p := WritePass(s.msgs, lim.maxInflight, 0, room, now);
      s.(msgs := p.msgs, firstSent := s.firstSent + FirstTransmissions(p.sent))
    case Disconnect => s.(connected := false)
    case Reconnect => s.(connected := true, msgs := ResetList(s.msgs, lim.maxInflight))
  }

  function Run(cfg: Config, lim: Limits, s: QueueState, ops: seq<Op>): QueueState {
    if ops == [] then s else Step(cfg, lim, Run(cfg, lim, s, ops[..|ops| - 1]), ops[|ops| - 1])
  }

  // ----- Never more than N outbound QoS 1/2 messages in flight -----

  predicate Out12(m: ClientMsg) { m.direction == Out && m.qos > 0 }

  predicate InFlight(m: ClientMsg) { Out12(m) && m.state != Queued }

  function CountOut12(msgs: seq<ClientMsg>): nat {
    if msgs == [] then 0 else (if Out12(msgs[0]) then 1 else 0) + CountOut12(msgs[1..])
  }

  function CountInFlight(msgs: seq<ClientMsg>): nat {
    if msgs == [] then 0 else (if InFlight(msgs[0]) then 1 else 0) + CountInFlight(msgs[1..])
  }

  // What callers see to: QoS values, message ids used once, acknowledgements for messages sent.
  predicate Sound(s: QueueState, op: Op) {
    match op
    case Insert(_, _, dir, qos, _, _, _) => qos <= 2 && (dir == In ==> qos == 2)
    case Delete(mid, dir, _) => AtMostOne(s.msgs, mid, dir)
    case Release(mid, _) => AtMostOne(s.msgs, mid, In)
    case Update(mid, dir, state, _) =>
      var i := IndexOf(s.msgs, mid, dir, 0);
      dir == Out && i < |s.msgs| ==> s.msgs[i].state != Queued
    case Write(_, _) => s.connected
    case _ => true
  }

  predicate SoundRun(cfg: Config, lim: Limits, s: QueueState, ops: seq<Op>) {
    forall i :: 0 <= i < |ops| ==> Sound(Run(cfg, lim, s, ops[..i]), ops[i])
  }

  // Behind `before` outbound QoS 1/2 entries: an entry in flight is among the first n of its kind.
  predicate Windowed(msgs: seq<ClientMsg>, before: nat, n: nat) {
    msgs == [] ||
    ((InFlight(msgs[0]) ==> before < n) && Windowed(msgs[1..], before + (if Out12(msgs[0]) then 1 else 0), n))
  }

  lemma {:induction false} WindowedCount(msgs: seq<ClientMsg>, before: nat, n: nat)
    requires Windowed(msgs, before, n)
    ensures CountInFlight(msgs) <= if before < n then n - before else 0
    decreases |msgs|
  {
    if msgs != [] {
      WindowedCount(msgs[1..], before + (if Out12(msgs[0]) then 1 else 0), n);
    }
  }

  lemma {:induction false} WindowedLower(msgs: seq<ClientMsg>, before: nat, lower: nat, n: nat)
    requires Windowed(msgs, before, n) && lower <= before
    ensures Windowed(msgs, lower, n)
    decreases |msgs|
  {
    if msgs != [] {
      var k := if Out12(msgs[0]) then 1 else 0;
      WindowedLower(msgs[1..], before + k, lower + k, n);
    }
  }

  // Entries may change in place if only the first k leave the queue and the window has room for k.
  lemma {:induction false} WindowedPointwise(a: seq<ClientMsg>, b: seq<ClientMsg>, before: nat, k: nat, n: nat)
    requires Windowed(a, before, n) && (k == 0 || before + k <= n)
    requires |a| == |b|
    requires forall i :: 0 <= i < |a| ==> Out12(a[i]) == Out12(b[i]) && (InFlight(b[i]) ==> InFlight(a[i]) || i < k)
    ensures Windowed(b, before, n)
    decreases |a|
  {
    if a != [] {
      WindowedPointwise(a[1..], b[1..], before + (if Out12(a[0]) then 1 else 0), if k == 0 then 0 else k - 1, n);
    }
  }

  lemma {:induction false} WindowedRemove(msgs: seq<ClientMsg>, i: nat, before: nat, n: nat)
    requires i < |msgs| && Windowed(msgs, before, n)
    ensures Windowed(RemoveAt(msgs, i), before, n)
    decreases |msgs|
  {
    var k := if Out12(msgs[0]) then 1 else 0;
    if i == 0 {
      assert RemoveAt(msgs, 0) == msgs[1..];
      WindowedLower(msgs[1..], before + k, before, n);
    } else {
      WindowedRemove(msgs[1..], i - 1, before + k, n);
      assert RemoveAt(msgs, i)[1..] == RemoveAt(msgs[1..], i - 1);
    }
  }

  lemma {:induction false} WindowedAppend(msgs: seq<ClientMsg>, m: ClientMsg, before: nat, n: nat)
    requires Windowed(msgs, before, n)
    requires InFlight(m) ==> before + CountOut12(msgs) < n
    ensures Windowed(msgs + [m], before, n)
    decreases |msgs|
  {
    if msgs == [] {
      assert (msgs + [m])[1..] == [];
    } else {
      WindowedAppend(msgs[1..], m, before + (if Out12(msgs[0]) then 1 else 0), n);
      assert (msgs + [m])[1..] == msgs[1..] + [m];
    }
  }

  lemma {:induction false} OutIsSome12(msgs: seq<ClientMsg>)
    ensures CountOut12(msgs) <= Count12(msgs)
  {
    if msgs != [] {
      OutIsSome12(msgs[1..]);
      assert msgs == [msgs[0]] + msgs[1..];
      Count12Concat([msgs[0]], msgs[1..]);
      assert [msgs[0]][..0] == [];
    }
  }

  // A write pass may drop QoS 0 entries and touch the others, but queues and dequeues nothing outbound.
  lemma {:induction false} WindowedWrite(rest: seq<ClientMsg>, n: nat, seen: nat, room: nat, now: int, before: nat,
                                         w: nat)
    requires Windowed(rest, before, w)
    ensures Windowed(WritePass(rest, n, seen, room, now).msgs, before, w)
    decreases |rest|, if rest != [] && rest[0].state == Queued then 1 else 0
  {
    hide WritePass, Windowed, Admissible, Wants, AfterSend, Out12, InFlight;
    if rest == [] {
      WindowedEmptyPass(n, seen, room, now, before, w);
    } else {
      var m := rest[0];
      var k := if Out12(m) then 1 else 0;
      var seen' := seen + if m.direction == In then 1 else 0;
      WindowedSplit(rest, before, n, seen', w);
      PassCases(rest, n, seen, room, now);
      if Admissible(m, n, seen') {
        WindowedWrite([m.(state := SendPubrec)] + rest[1..], n, seen', room, now, before, w);
      } else if Wants(m).None? {
        WindowedWrite(rest[1..], n, seen', room, now, before + k, w);
        WindowedFront(m, WritePass(rest[1..], n, seen', room, now).msgs, before, w);
      } else if room > 0 {
        WindowedWrite(rest[1..], n, seen', room - 1, now, before + k, w);
        WindowedSent(m, WritePass(rest[1..], n, seen', room - 1, now).msgs, now, before, w);
      }
    }
  }

  lemma {:induction false} WindowedEmptyPass(n: nat, seen: nat, room: nat, now: int, before: nat, w: nat)
    ensures Windowed(WritePass([], n, seen, room, now).msgs, before, w)
  {
  }

  // An entry that has been sent, in front of the rest, or gone.
  lemma {:induction false} WindowedSent(m: ClientMsg, rest: seq<ClientMsg>, now: int, before: nat, w: nat)
    requires (InFlight(m) ==> before < w) && Wants(m).Some?
    requires Windowed(rest, before + (if Out12(m) then 1 else 0), w)
    ensures Windowed(ToSeq(AfterSend(m, now)) + rest, before, w)
  {
    if AfterSend(m, now).Some? {
      WindowedFront(AfterSend(m, now).value, rest, before, w);
    } else {
      assert [] + rest == rest;
      WindowedLower(rest, before + (if Out12(m) then 1 else 0), before, w);
    }
  }

  lemma {:induction false} WindowedFront(m: ClientMsg, rest: seq<ClientMsg>, before: nat, w: nat)
    requires (InFlight(m) ==> before < w) && Windowed(rest, before + (if Out12(m) then 1 else 0), w)
    ensures Windowed([m] + rest, before, w)
  {
    assert ([m] + rest)[1..] == rest;
  }

  lemma {:induction false} WindowedSplit(rest: seq<ClientMsg>, before: nat, n: nat, seen: nat, w: nat)
    requires rest != [] && Windowed(rest, before, w)
    ensures Admissible(rest[0], n, seen) ==> rest[0].state == Queued
    ensures InFlight(rest[0]) ==> before < w
    ensures Windowed(rest[1..], before + (if Out12(rest[0]) then 1 else 0), w)
    ensures Admissible(rest[0], n, seen) ==> Windowed([rest[0].(state := SendPubrec)] + rest[1..], before, w)
  {
    assert ([rest[0].(state := SendPubrec)] + rest[1..])[1..] == rest[1..];
  }

  lemma {:induction false} WithoutKeepsWindow(msgs: seq<ClientMsg>, mid: nat, dir: Direction, n: nat)
    requires AtMostOne(msgs, mid, dir) && Windowed(msgs, 0, n)
    ensures Windowed(Without(msgs, mid, dir), 0, n)
  {
    var i := IndexOf(msgs, mid, dir, 0);
    WithoutAt(msgs, i, mid, dir);
    if i < |msgs| {
      WindowedRemove(msgs, i, 0, n);
    }
  }

  // With unique ids, Without removes the first hit.
  lemma {:induction false} WithoutAt(msgs: seq<ClientMsg>, i: nat, mid: nat, dir: Direction)
    requires AtMostOne(msgs, mid, dir) && i == IndexOf(msgs, mid, dir, 0)
    ensures Without(msgs, mid, dir) == if i < |msgs| then RemoveAt(msgs, i) else msgs
  {
    if i == |msgs| {
      WithoutNone(msgs, mid, dir);
    } else {
      WithoutOne(msgs, i, mid, dir);
    }
  }

  lemma {:induction false} WithoutOne(msgs: seq<ClientMsg>, i: nat, mid: nat, dir: Direction)
    requires i < |msgs| && Is(msgs[i], mid, dir)
    requires forall j :: 0 <= j < |msgs| && j != i ==> !Is(msgs[j], mid, dir)
    ensures Without(msgs, mid, dir) == RemoveAt(msgs, i)
    decreases |msgs|
  {
    var last := |msgs| - 1;
    if i == last {
      WithoutNone(msgs[..last], mid, dir);
      assert RemoveAt(msgs, i) == msgs[..last];
    } else {
      WithoutOne(msgs[..last], i, mid, dir);
      assert RemoveAt(msgs, i) == RemoveAt(msgs[..last], i) + [msgs[last]];
    }
  }

  lemma {:induction false} StepKeepsWindow(cfg: Config, lim: Limits, s: QueueState, op: Op)
    requires lim.maxInflight > 0 && Sound(s, op) && Windowed(s.msgs, 0, lim.maxInflight)
    ensures Windowed(Step(cfg, lim, s, op).msgs, 0, lim.maxInflight)
  {
    hide Windowed, InsertedList, WritePass, ReleasedList;
    var n := lim.maxInflight;
    var s' := Step(cfg, lim, s, op);
    match op {
      case Insert(already, mid, dir, qos, retain, stored, now) => InsertKeepsWindow(cfg, lim, s, op);
      case Delete(mid, dir, now) =>
        WithoutKeepsWindow(s.msgs, mid, dir, n);
        WindowedPointwise(Without(s.msgs, mid, dir), s'.msgs, 0, n, n);
      case Release(mid, now) =>
        ReleaseKeepsWindow(s.msgs, mid, n, now);
      case Update(mid, dir, state, now) =>
        WindowedPointwise(s.msgs, s'.msgs, 0, 0, n);
      case Timeout(timeout, now) =>
        WindowedPointwise(s.msgs, s'.msgs, 0, 0, n);
      case Write(room, now) =>
        WindowedWrite(s.msgs, n, 0, room, now, 0, n);
      case Reconnect =>
        WindowedPointwise(s.msgs, s'.msgs, 0, n, n);
      case DeleteAll => NothingWindowed(n);
      case Disconnect =>
    }
  }

  lemma {:induction false} NothingWindowed(n: nat)
    ensures Windowed([], 0, n)
  {
  }

  lemma {:induction false} InsertKeepsWindow(cfg: Config, lim: Limits, s: QueueState, op: Op)
    requires lim.maxInflight > 0 && op.Insert? && Sound(s, op) && Windowed(s.msgs, 0, lim.maxInflight)
    ensures Windowed(Step(cfg, lim, s, op).msgs, 0, lim.maxInflight)
  {
    hide Windowed;
    var v := if op.already then Refused(0) else Admit(lim, s.connected, cfg.queueQos0, Count12(s.msgs), op.dir, op.qos);
    if v.Admitted? {
      OutIsSome12(s.msgs);
      WindowedAppend(s.msgs, NewEntry(s.nextNode, op.stored, op.mid, op.qos, op.retain, op.now, op.dir, v.state), 0,
                     lim.maxInflight);
    }
  }

  lemma {:induction false} ReleaseKeepsWindow(msgs: seq<ClientMsg>, mid: nat, n: nat, now: int)
    requires Windowed(msgs, 0, n) && AtMostOne(msgs, mid, In)
    ensures Windowed(ReleasedList(msgs, mid, n, now), 0, n)
  {
    WindowedPointwise(msgs, PromoteFirst(msgs, n, now), 0, n, n);
    WithoutKeepsWindow(PromoteFirst(msgs, n, now), mid, In, n);
  }

  /**
   In every state that a sound run reaches, at most max_inflight outbound QoS 1/2 messages of
   the client are out of the queue, whatever else is in its list.
   */
  lemma {:induction false} InFlightBounded(cfg: Config, lim: Limits, ops: seq<Op>)
    requires lim.maxInflight > 0 && SoundRun(cfg, lim, Empty, ops)
    ensures CountInFlight(Run(cfg, lim, Empty, ops).msgs) <= lim.maxInflight
  {
    RunKeepsWindow(cfg, lim, ops);
    WindowedCount(Run(cfg, lim, Empty, ops).msgs, 0, lim.maxInflight);
  }

  lemma {:induction false} RunKeepsWindow(cfg: Config, lim: Limits, ops: seq<Op>)
    requires lim.maxInflight > 0 && SoundRun(cfg, lim, Empty, ops)
    ensures Windowed(Run(cfg, lim, Empty, ops).msgs, 0, lim.maxInflight)
    decreases |ops|
  {
    if ops != [] {
      var last := |ops| - 1;
      ShorterRun(cfg, lim, Empty, ops);
      RunKeepsWindow(cfg, lim, ops[..last]);
      StepKeepsWindow(cfg, lim, Run(cfg, lim, Empty, ops[..last]), ops[last]);
    }
  }

  lemma {:induction false} ShorterRun(cfg: Config, lim: Limits, s: QueueState, ops: seq<Op>)
    requires ops != [] && SoundRun(cfg, lim, s, ops)
    ensures SoundRun(cfg, lim, s, ops[..|ops| - 1])
    ensures Sound(Run(cfg, lim, s, ops[..|ops| - 1]), ops[|ops| - 1])
  {
    var shorter := ops[..|ops| - 1];
    forall i | 0 <= i < |shorter|
      ensures Sound(Run(cfg, lim, s, shorter[..i]), shorter[i])
    {
      assert shorter[..i] == ops[..i];
    }
  }

  /**
   Why acknowledgements must be for messages already sent: a PUBREC takes its message out of the
   queue whatever the window says, so it raises the number in flight exactly when the message was
   still queued.
   */
  lemma {:induction false} PubrecCount(msgs: seq<ClientMsg>, mid: nat, now: int)
    ensures var i := IndexOf(msgs, mid, Out, 0);
      CountInFlight(Updated(msgs, mid, Out, WaitForPubcomp, now)) ==
        CountInFlight(msgs) + if i < |msgs| && Out12(msgs[i]) && msgs[i].state == Queued then 1 else 0
  {
    var i := IndexOf(msgs, mid, Out, 0);
    if i < |msgs| {
      ReplacedCount(msgs, i, msgs[i].(state := WaitForPubcomp, timestamp := now));
    }
  }

  // It takes the number past a window of n that it was within exactly if the window is full and
  // the message, a queued outbound QoS 1 or 2 one, is still waiting to be sent.
  lemma {:induction false} PubrecOverruns(msgs: seq<ClientMsg>, mid: nat, n: nat, now: int)
    requires CountInFlight(msgs) <= n
    ensures var i := IndexOf(msgs, mid, Out, 0);
      CountInFlight(Updated(msgs, mid, Out, WaitForPubcomp, now)) > n <==>
        CountInFlight(msgs) == n && i < |msgs| && Out12(msgs[i]) && msgs[i].state == Queued
  {
    PubrecCount(msgs, mid, now);
  }

  lemma {:induction false} ReplacedCount(msgs: seq<ClientMsg>, i: nat, m: ClientMsg)
    requires i < |msgs|
    ensures CountInFlight(msgs[i := m]) ==
      CountInFlight(msgs) - (if InFlight(msgs[i]) then 1 else 0) + (if InFlight(m) then 1 else 0)
    decreases |msgs|
  {
    if i == 0 {
      assert msgs[0 := m][1..] == msgs[1..];
    } else {
      ReplacedCount(msgs[1..], i - 1, m);
      assert msgs[i := m][1..] == msgs[1..][i - 1 := m];
    }
  }

  // With a window of one: two QoS 2 messages, and a PUBREC for the second, which was never sent.
  lemma {:induction false} EarlyPubrecOverruns(cfg: Config, stored: Stored)
    ensures var lim := Limits(1, 0);
      var s0 := Step(cfg, lim, Empty, Reconnect);
      var s1 := Step(cfg, lim, s0, Insert(false, 1, Out, 2, false, stored, 0));
      var s2 := Step(cfg, lim, s1, Insert(false, 2, Out, 2, false, stored, 0));
      var s3 := Step(cfg, lim, s2, Update(2, Out, WaitForPubcomp, 0));
      CountInFlight(s2.msgs) == 1 && CountInFlight(s3.msgs) == 2
  {
    var a, b := NewEntry(0, stored, 1, 2, false, 0, Out, PublishQos2), NewEntry(1, stored, 2, 2, false, 0, Out, Queued);
    var s2 := EarlyLists(cfg, stored, a, b);
    EarlyCount(a, b);
    hide Step, CountInFlight;
    PubrecCount([a, b], 2, 0);
    EarlyIndex(a, b);
    EarlyStep(cfg, s2, a, b);
  }

  lemma {:induction false} EarlyLists(cfg: Config, stored: Stored, a: ClientMsg, b: ClientMsg) returns (s2: QueueState)
    requires a == NewEntry(0, stored, 1, 2, false, 0, Out, PublishQos2)
    requires b == NewEntry(1, stored, 2, 2, false, 0, Out, Queued)
    ensures s2 == Step(cfg, Limits(1, 0), Step(cfg, Limits(1, 0), Step(cfg, Limits(1, 0), Empty, Reconnect),
                       Insert(false, 1, Out, 2, false, stored, 0)), Insert(false, 2, Out, 2, false, stored, 0))
    ensures s2.msgs == [a, b]
  {
    hide Step, Count12;
    var s0 := Step(cfg, Limits(1, 0), Empty, Reconnect);
    EarlyConnect(cfg);
    var s1 := Step(cfg, Limits(1, 0), s0, Insert(false, 1, Out, 2, false, stored, 0));
    EarlyInsert(cfg, s0, 1, stored);
    EarlyOne(a);
    assert [] + [a] == [a] && [a] + [b] == [a, b];
    s2 := Step(cfg, Limits(1, 0), s1, Insert(false, 2, Out, 2, false, stored, 0));
    EarlyInsert(cfg, s1, 2, stored);
  }

  lemma {:induction false} EarlyConnect(cfg: Config)
    ensures Step(cfg, Limits(1, 0), Empty, Reconnect) == Empty.(connected := true) && Count12([]) == 0
  {
    assert ResetList([], 1) == [];
  }

  lemma {:induction false} EarlyInsert(cfg: Config, s: QueueState, mid: nat, stored: Stored)
    requires s.connected
    ensures var state := if Count12(s.msgs) < 1 then PublishQos2 else Queued;
      Step(cfg, Limits(1, 0), s, Insert(false, mid, Out, 2, false, stored, 0)) ==
        s.(msgs := s.msgs + [NewEntry(s.nextNode, stored, mid, 2, false, 0, Out, state)], nextNode := s.nextNode + 1)
  {
  }

  lemma {:induction false} EarlyOne(a: ClientMsg)
    requires a.qos == 2
    ensures Count12([a]) == 1
  {
    assert [a][..0] == [];
  }

  lemma {:induction false} EarlyCount(a: ClientMsg, b: ClientMsg)
    requires InFlight(a) && !InFlight(b)
    ensures CountInFlight([a, b]) == 1
  {
    assert [a, b][1..] == [b] && [b][1..] == [];
    assert CountInFlight([b]) == CountInFlight([b][1..]) == 0;
  }

  lemma {:induction false} EarlyIndex(a: ClientMsg, b: ClientMsg)
    requires !Is(a, 2, Out) && Is(b, 2, Out)
    ensures IndexOf([a, b], 2, Out, 0) == 1
  {
  }

  lemma {:induction false} EarlyStep(cfg: Config, s: QueueState, a: ClientMsg, b: ClientMsg)
    requires s.msgs == [a, b]
    ensures Step(cfg, Limits(1, 0), s, Update(2, Out, WaitForPubcomp, 0)).msgs ==
      Updated([a, b], 2, Out, WaitForPubcomp, 0)
  {
  }

  // ----- Never more than max_inflight + max_queued QoS 1/2 messages -----

  /**
   With both limits set, no run makes the list hold more QoS 1 and 2 messages than the two limits
   together, connected or not.
   */
  lemma {:induction false} QueueBounded(cfg: Config, lim: Limits, ops: seq<Op>)
    requires lim.maxInflight > 0 && lim.maxQueued > 0
    ensures Count12(Run(cfg, lim, Empty, ops).msgs) <= lim.maxInflight + lim.maxQueued
    decreases |ops|
  {
    hide Step;
    if ops != [] {
      var last := |ops| - 1;
      QueueBounded(cfg, lim, ops[..last]);
      StepBounded(cfg, lim, Run(cfg, lim, Empty, ops[..last]), ops[last]);
    }
  }

  lemma {:induction false} StepBounded(cfg: Config, lim: Limits, s: QueueState, op: Op)
    requires lim.maxInflight > 0 && lim.maxQueued > 0 && Count12(s.msgs) <= lim.maxInflight + lim.maxQueued
    ensures Count12(Step(cfg, lim, s, op).msgs) <= lim.maxInflight + lim.maxQueued
  {
    hide Count12, WritePass, Without;
    var s' := Step(cfg, lim, s, op);
    match op {
      case Insert(_, _, _, _, _, _, _) => InsertBounded(cfg, lim, s, op);
      case Delete(mid, dir, now) =>
        FewerWithout(s.msgs, mid, dir);
        SameShape(Without(s.msgs, mid, dir), s'.msgs);
      case Release(mid, now) =>
        SameShape(s.msgs, PromoteFirst(s.msgs, lim.maxInflight, now));
        FewerWithout(PromoteFirst(s.msgs, lim.maxInflight, now), mid, In);
      case DeleteAll => NothingCounted();
      case Write(room, now) => FewerWritten(s.msgs, lim.maxInflight, 0, room, now);
      case Update(_, _, _, _) => SameShape(s.msgs, s'.msgs);
      case Timeout(_, _) => SameShape(s.msgs, s'.msgs);
      case Disconnect =>
      case Reconnect => SameShape(s.msgs, s'.msgs);
    }
  }

  lemma {:induction false} NothingCounted()
    ensures Count12([]) == 0
  {
  }

  lemma {:induction false} InsertBounded(cfg: Config, lim: Limits, s: QueueState, op: Op)
    requires op.Insert? && lim.maxInflight > 0 && lim.maxQueued > 0
    requires Count12(s.msgs) <= lim.maxInflight + lim.maxQueued
    ensures Count12(Step(cfg, lim, s, op).msgs) <= lim.maxInflight + lim.maxQueued
  {
    var s' := Step(cfg, lim, s, op);
    if |s'.msgs| > |s.msgs| { assert s'.msgs[..|s.msgs|] == s.msgs; }
  }

  lemma {:induction false} FewerWithout(msgs: seq<ClientMsg>, mid: nat, dir: Direction)
    ensures Count12(Without(msgs, mid, dir)) <= Count12(msgs)
  {
    if msgs != [] {
      var last := |msgs| - 1;
      FewerWithout(msgs[..last], mid, dir);
      var kept := if Is(msgs[last], mid, dir) then [] else [msgs[last]];
      Count12Concat(Without(msgs[..last], mid, dir), kept);
      OneCounted(msgs[last]);
    }
  }

  lemma {:induction false} OneCounted(m: ClientMsg)
    ensures Count12([]) == 0 && Count12([m]) == if m.qos > 0 then 1 else 0
  {
    assert [m][..0] == [];
  }

  lemma {:induction false} FewerWritten(msgs: seq<ClientMsg>, n: nat, seen: nat, room: nat, now: int)
    ensures Count12(WritePass(msgs, n, seen, room, now).msgs) <= Count12(msgs)
    decreases |msgs|, if msgs != [] && msgs[0].state == Queued then 1 else 0
  {
    hide WritePass, Admissible, Wants, AfterSend, Count12;
    if msgs == [] {
      NothingWritten(n, seen, room, now);
    } else {
      var m := msgs[0];
      var seen' := seen + if m.direction == In then 1 else 0;
      PassCases(msgs, n, seen, room, now);
      CountHead(m, msgs[1..]);
      assert [m] + msgs[1..] == msgs;
      if Admissible(m, n, seen') {
        assert m.state == Queued by { AdmissibleQueued(m, n, seen'); }
        CountHead(m.(state := SendPubrec), msgs[1..]);
        FewerWritten([m.(state := SendPubrec)] + msgs[1..], n, seen', room, now);
      } else if Wants(m).None? {
        FewerWritten(msgs[1..], n, seen', room, now);
        CountHead(m, WritePass(msgs[1..], n, seen', room, now).msgs);
      } else if room > 0 {
        FewerWritten(msgs[1..], n, seen', room - 1, now);
        CountSent(m, now, WritePass(msgs[1..], n, seen', room - 1, now).msgs);
      }
    }
  }

  lemma {:induction false} NothingWritten(n: nat, seen: nat, room: nat, now: int)
    ensures WritePass([], n, seen, room, now).msgs == []
  {
  }

  lemma {:induction false} AdmissibleQueued(m: ClientMsg, n: nat, seen: nat)
    requires Admissible(m, n, seen)
    ensures m.state == Queued
  {
  }

  lemma {:induction false} CountHead(m: ClientMsg, rest: seq<ClientMsg>)
    ensures Count12([m] + rest) == Count12(rest) + if m.qos > 0 then 1 else 0
  {
    Count12Concat([m], rest);
    OneCounted(m);
  }

  lemma {:induction false} CountSent(m: ClientMsg, now: int, rest: seq<ClientMsg>)
    ensures Count12(ToSeq(AfterSend(m, now)) + rest) <= Count12(rest) + if m.qos > 0 then 1 else 0
  {
    hide Count12;
    if AfterSend(m, now).Some? { CountHead(AfterSend(m, now).value, rest); } else { assert [] + rest == rest; }
  }

  // ----- Lists of outbound QoS 1/2 messages: exact window and delivery order -----

  predicate InWindow(i: nat, n: nat) { n == 0 || i < n }

  function Upto(k: nat): (r: seq<nat>)
    ensures |r| == k && forall i :: 0 <= i < k ==> r[i] == i
  {
    seq(k, i => i)
  }

  function Range(from: nat, n: nat): (r: seq<nat>)
    ensures |r| == n && forall i :: 0 <= i < n ==> r[i] == from + i
  {
    seq(n, i requires 0 <= i < n => from + i)
  }

  // The first entry of the list that was never sent, counted over the whole run; and their number.
  function NextToSend(s: QueueState): int { |s.firstSent| + s.dropped }

  function NeverSent(s: QueueState): int { s.nextNode - NextToSend(s) }

  // In insertion order, each once, and all before `bound`.
  predicate Increasing(nodes: seq<nat>, bound: int) {
    && (forall i, j :: 0 <= i < j < |nodes| ==> nodes[i] < nodes[j])
    && forall i :: 0 <= i < |nodes| ==> nodes[i] < bound
  }

  lemma {:induction false} IncreasingRange(nodes: seq<nat>, from: nat, n: nat)
    requires Increasing(nodes, from)
    ensures Increasing(nodes + Range(from, n), from + n)
  {
  }

  // With as many nodes as there are below the bound, none is missing.
  lemma {:induction false} IncreasingAll(nodes: seq<nat>)
    requires Increasing(nodes, |nodes|)
    ensures nodes == Upto(|nodes|)
    decreases |nodes|
  {
    if nodes != [] {
      var last := |nodes| - 1;
      LastIsLargest(nodes);
      IncreasingAll(nodes[..last]);
      assert nodes == nodes[..last] + [nodes[last]];
    }
  }

  lemma {:induction false} LastIsLargest(nodes: seq<nat>)
    requires nodes != [] && Increasing(nodes, |nodes|)
    ensures nodes[|nodes| - 1] == |nodes| - 1 && Increasing(nodes[..|nodes| - 1], |nodes| - 1)
  {
    AtLeastIndex(nodes, |nodes| - 1);
  }

  lemma {:induction false} AtLeastIndex(nodes: seq<nat>, i: nat)
    requires i < |nodes| && forall j, k :: 0 <= j < k < |nodes| ==> nodes[j] < nodes[k]
    ensures nodes[i] >= i
    decreases i
  {
    if i > 0 { AtLeastIndex(nodes, i - 1); }
  }

  predicate OutboundOnly(msgs: seq<ClientMsg>) {
    forall i :: 0 <= i < |msgs| ==> Out12(msgs[i]) && msgs[i].qos <= 2 && msgs[i].state != PublishQos0
  }

  predicate WindowExact(s: QueueState, n: nat) {
    && (s.connected ==> forall i :: 0 <= i < |s.msgs| ==> (s.msgs[i].state == Queued <==> !InWindow(i, n)))
    && (!s.connected ==> forall i :: 0 <= i < |s.msgs| && s.msgs[i].state != Queued ==> InWindow(i, n))
  }

  // First transmissions happened in insertion order; what was never sent is a suffix of the list,
  // without gaps.
  predicate InOrder(s: QueueState) {
    && 0 <= NeverSent(s) <= |s.msgs| && 0 <= NextToSend(s)
    && Increasing(s.firstSent, NextToSend(s))
    && forall i :: 0 <= i < |s.msgs| ==> OldOrNext(s, i)
  }

  predicate OldOrNext(s: QueueState, i: nat)
    requires i < |s.msgs|
  {
    var m, d := s.msgs[i], |s.msgs| - NeverSent(s);
    if i < d then m.dup && m.state != Queued
    else !m.dup && m.node == NextToSend(s) + (i - d) && (m.state == Queued || m.state == PublishState(m.qos))
  }

  // Acknowledgements arrive on a connection, for messages that have been sent.
  predicate SoundOutbound(s: QueueState, op: Op) {
    match op
    case Insert(_, _, dir, qos, _, _, _) => dir == Out && 0 < qos <= 2
    case Delete(mid, dir, _) =>
      s.connected && AtMostOne(s.msgs, mid, dir) && SentBefore(s.msgs, mid, dir)
    case Release(_, _) => s.connected
    case Update(mid, dir, state, _) => s.connected && state == WaitForPubcomp && SentBefore(s.msgs, mid, dir)
    case Write(_, _) => s.connected
    case _ => true
  }

  predicate SentBefore(msgs: seq<ClientMsg>, mid: nat, dir: Direction) {
    var i := IndexOf(msgs, mid, dir, 0);
    i < |msgs| ==> msgs[i].dup
  }

  predicate SoundOutboundRun(cfg: Config, lim: Limits, s: QueueState, ops: seq<Op>) {
    forall i :: 0 <= i < |ops| ==> SoundOutbound(Run(cfg, lim, s, ops[..i]), ops[i])
  }

  predicate Delivering(s: QueueState, n: nat) {
    OutboundOnly(s.msgs) && WindowExact(s, n) && InOrder(s)
  }

  // ----- One write pass over such a list -----

  predicate Fresh(m: ClientMsg) {
    !m.dup && (m.state == PublishQos0 || m.state == PublishQos1 || m.state == PublishQos2)
  }

  function Visited(m: ClientMsg, now: int): ClientMsg {
    if AfterSend(m, now).Some? then AfterSend(m, now).value else m
  }

  // How many entries the pass gets to.
  function Reach(rest: seq<ClientMsg>, room: nat): (j: nat)
    ensures j <= |rest|
  {
    if rest == [] then 0
    else if Wants(rest[0]).None? then 1 + Reach(rest[1..], room)
    else if room == 0 then 0
    else 1 + Reach(rest[1..], room - 1)
  }

  function VisitedFirst(msgs: seq<ClientMsg>, j: nat, now: int): (r: seq<ClientMsg>)
    ensures |r| == |msgs|
    ensures forall i :: 0 <= i < |r| ==> r[i] == if i < j then Visited(msgs[i], now) else msgs[i]
  {
    seq(|msgs|, i requires 0 <= i < |msgs| => if i < j then Visited(msgs[i], now) else msgs[i])
  }

  function FreshNodes(msgs: seq<ClientMsg>, j: nat): seq<nat>
    requires j <= |msgs|
  {
    if j == 0 then [] else FreshNodes(msgs, j - 1) + if Fresh(msgs[j - 1]) then [msgs[j - 1].node] else []
  }

  lemma {:induction false} FreshNodesCons(msgs: seq<ClientMsg>, j: nat)
    requires 0 < j <= |msgs|
    ensures FreshNodes(msgs, j) == (if Fresh(msgs[0]) then [msgs[0].node] else []) + FreshNodes(msgs[1..], j - 1)
    decreases j
  {
    if j > 1 {
      FreshNodesCons(msgs, j - 1);
    }
  }

  lemma {:induction false} VisitedCons(rest: seq<ClientMsg>, j: nat, now: int)
    requires rest != [] && j > 0
    ensures VisitedFirst(rest, j, now) == [Visited(rest[0], now)] + VisitedFirst(rest[1..], j - 1, now)
  {
  }

  // First step of a pass that starts on an outbound entry.
  lemma {:induction false} OutboundPassStep(rest: seq<ClientMsg>, n: nat, seen: nat, room: nat, now: int)
    requires rest != [] && rest[0].direction == Out && rest[0].state != PublishQos0
    ensures var m, p := rest[0], WritePass(rest, n, seen, room, now);
      if Wants(m).None? then
        var q := WritePass(rest[1..], n, seen, room, now);
        p.msgs == [Visited(m, now)] + q.msgs && p.sent == q.sent && !Fresh(m)
      else if room == 0 then p.msgs == rest && p.sent == []
      else
        var q := WritePass(rest[1..], n, seen, room - 1, now);
        && p.msgs == [Visited(m, now)] + q.msgs
        && FirstTransmissions(p.sent) == (if Fresh(m) then [m.node] else []) + FirstTransmissions(q.sent)
  {
    var m, p := rest[0], WritePass(rest, n, seen, room, now);
    if Wants(m).None? {
      assert p == Behind([m], [], WritePass(rest[1..], n, seen, room, now));
    } else if room > 0 {
      var q := WritePass(rest[1..], n, seen, room - 1, now);
      assert p == Behind([AfterSend(m, now).value], [Wants(m).value], q);
      assert p.sent[1..] == q.sent;
    }
  }

  // What a pass leaves of the list.
  function PassedList(rest: seq<ClientMsg>, room: nat, now: int): seq<ClientMsg> {
    VisitedFirst(rest, Reach(rest, room), now)
  }

  lemma {:induction false} PassedListStep(rest: seq<ClientMsg>, room: nat, now: int)
    requires rest != []
    ensures PassedList(rest, room, now) ==
      if Wants(rest[0]).None? then [Visited(rest[0], now)] + PassedList(rest[1..], room, now)
      else if room > 0 then [Visited(rest[0], now)] + PassedList(rest[1..], room - 1, now)
      else rest
  {
    hide Wants, Visited;
    if Wants(rest[0]).None? || room > 0 { VisitedCons(rest, Reach(rest, room), now); }
  }

  lemma {:induction false} WriteOutboundList(rest: seq<ClientMsg>, n: nat, seen: nat, room: nat, now: int)
    requires OutboundOnly(rest)
    ensures WritePass(rest, n, seen, room, now).msgs == PassedList(rest, room, now)
    decreases |rest|
  {
    if rest != [] {
      OutboundPassStep(rest, n, seen, room, now);
      PassedListStep(rest, room, now);
      hide WritePass, PassedList, Wants, AfterSend, FirstTransmissions, Visited;
      if Wants(rest[0]).None? {
        WriteOutboundList(rest[1..], n, seen, room, now);
      } else if room > 0 {
        WriteOutboundList(rest[1..], n, seen, room - 1, now);
      }
    }
  }

  lemma {:induction false} WriteOutboundSent(rest: seq<ClientMsg>, n: nat, seen: nat, room: nat, now: int)
    requires OutboundOnly(rest)
    ensures FirstTransmissions(WritePass(rest, n, seen, room, now).sent) == FreshNodes(rest, Reach(rest, room))
    decreases |rest|
  {
    if rest == [] {
    } else {
      hide WritePass, Wants, AfterSend, FreshNodes, Visited;
      OutboundPassStep(rest, n, seen, room, now);
      if Wants(rest[0]).None? {
        hide FirstTransmissions;
        var f := FreshNodes(rest[1..], Reach(rest[1..], room));
        WriteOutboundSent(rest[1..], n, seen, room, now);
        FreshNodesCons(rest, Reach(rest, room));
        assert [] + f == f;
      } else if room > 0 {
        hide FirstTransmissions;
        WriteOutboundSent(rest[1..], n, seen, room - 1, now);
        FreshNodesCons(rest, Reach(rest, room));
      } else {
        NoFresh(rest);
      }
    }
  }

  lemma {:induction false} NoFresh(rest: seq<ClientMsg>)
    ensures FreshNodes(rest, 0) == [] && FirstTransmissions([]) == []
  {
  }

  // Old entries, then fresh ones in the window, then queued ones: the fresh ones go out in order.
  lemma {:induction false} FreshNodesRange(msgs: seq<ClientMsg>, d: nat, e: nat, j: nat, k: nat)
    requires d <= e && j <= |msgs|
    requires forall i :: 0 <= i < j && i < d ==> !Fresh(msgs[i])
    requires forall i :: d <= i < j && i < e ==> Fresh(msgs[i]) && msgs[i].node == k + (i - d)
    requires forall i :: e <= i < j ==> !Fresh(msgs[i])
    ensures FreshNodes(msgs, j) == Range(k, Between(d, e, j))
    decreases j
  {
    if j > 0 {
      FreshNodesRange(msgs, d, e, j - 1, k);
      var f := FreshNodes(msgs, j - 1);
      if Fresh(msgs[j - 1]) {
        assert f + [msgs[j - 1].node] == Range(k, Between(d, e, j));
      } else {
        assert f + [] == f;
      }
    }
  }

  function Between(d: nat, e: nat, j: nat): nat
    requires d <= e
  {
    if j <= d then 0 else if j <= e then j - d else e - d
  }

  lemma {:induction false} WriteStep(cfg: Config, lim: Limits, s: QueueState, d: nat, e: nat, room: nat, now: int)
    requires OutboundOnly(s.msgs) && d <= e && 0 <= NextToSend(s)
    requires forall i :: 0 <= i < |s.msgs| ==> (Fresh(s.msgs[i]) <==> d <= i < e)
    requires forall i :: 0 <= i < |s.msgs| && d <= i ==> s.msgs[i].node == NextToSend(s) + (i - d)
    ensures var j := Reach(s.msgs, room);
      Step(cfg, lim, s, Write(room, now)) ==
        s.(msgs := VisitedFirst(s.msgs, j, now), firstSent := s.firstSent + Range(NextToSend(s), Between(d, e, j)))
  {
    hide WritePass, Reach, VisitedFirst, OutboundOnly, Fresh, FirstTransmissions;
    WriteOutboundList(s.msgs, lim.maxInflight, 0, room, now);
    WriteOutboundSent(s.msgs, lim.maxInflight, 0, room, now);
    FreshNodesRange(s.msgs, d, e, Reach(s.msgs, room), NextToSend(s));
  }

  lemma {:induction false} WriteKeepsDelivering(cfg: Config, lim: Limits, s: QueueState, room: nat, now: int)
    requires Delivering(s, lim.maxInflight) && s.connected
    ensures Delivering(Step(cfg, lim, s, Write(room, now)), lim.maxInflight)
  {
    var n := lim.maxInflight;
    assert OutboundOnly(s.msgs) && 0 <= NeverSent(s) <= |s.msgs| && 0 <= NextToSend(s);
    var d := |s.msgs| - NeverSent(s);
    var e := if n == 0 || |s.msgs| < n then |s.msgs| else n;
    hide Delivering, OutboundOnly, Fresh, VisitedFirst, Step;
    WindowStart(s, d, e, n);
    WriteStep(cfg, lim, s, d, e, room, now);
    VisitKeepsDelivering(s, Step(cfg, lim, s, Write(room, now)), d, e, Reach(s.msgs, room), n, now);
  }

  // Where the never-sent entries of a connected client start, and where the window ends.
  lemma {:induction false} WindowStart(s: QueueState, d: nat, e: nat, n: nat)
    requires Delivering(s, n) && s.connected
    requires d == |s.msgs| - NeverSent(s) && e == if n == 0 || |s.msgs| < n then |s.msgs| else n
    ensures d <= e
    ensures forall i :: 0 <= i < |s.msgs| ==> (Fresh(s.msgs[i]) <==> d <= i < e)
    ensures forall i :: 0 <= i < |s.msgs| && d <= i ==> s.msgs[i].node == NextToSend(s) + (i - d)
  {
    if e < |s.msgs| { assert OldOrNext(s, e); }
    forall i | 0 <= i < |s.msgs|
      ensures Fresh(s.msgs[i]) <==> d <= i < e
      ensures d <= i ==> s.msgs[i].node == NextToSend(s) + (i - d)
    {
      assert OldOrNext(s, i);
    }
  }

  lemma {:induction false} VisitKeepsDelivering(s: QueueState, s': QueueState, d: nat, e: nat, j: nat, n: nat, now: int)
    requires Delivering(s, n) && s.connected && j <= |s.msgs|
    requires d == |s.msgs| - NeverSent(s) && d <= e <= |s.msgs|
    requires forall i :: 0 <= i < |s.msgs| ==> (Fresh(s.msgs[i]) <==> d <= i < e)
    requires s' == s.(msgs := VisitedFirst(s.msgs, j, now),
                      firstSent := s.firstSent + Range(NextToSend(s), Between(d, e, j)))
    ensures Delivering(s', n)
  {
    IncreasingRange(s.firstSent, NextToSend(s), Between(d, e, j));
    forall i | 0 <= i < |s'.msgs|
      ensures OldOrNext(s', i)
    {
      assert OldOrNext(s, i);
    }
  }

  lemma {:induction false} DeleteKeepsDelivering(cfg: Config, lim: Limits, s: QueueState, mid: nat, dir: Direction,
                                                 now: int)
    requires Delivering(s, lim.maxInflight) && SoundOutbound(s, Delete(mid, dir, now))
    ensures Delivering(Step(cfg, lim, s, Delete(mid, dir, now)), lim.maxInflight)
  {
    var g := IndexOf(s.msgs, mid, dir, 0);
    WithoutAt(s.msgs, g, mid, dir);
    if g < |s.msgs| {
      RemoveKeepsDelivering(s, g, lim.maxInflight);
      PromoteKeepsDelivering(s.(msgs := RemoveAt(s.msgs, g)), lim.maxInflight, now);
    } else {
      PromoteKeepsDelivering(s, lim.maxInflight, now);
    }
  }

  // There is nothing inbound to release.
  lemma {:induction false} ReleaseKeepsDelivering(cfg: Config, lim: Limits, s: QueueState, mid: nat, now: int)
    requires Delivering(s, lim.maxInflight) && s.connected
    ensures Delivering(Step(cfg, lim, s, Release(mid, now)), lim.maxInflight)
  {
    hide Delivering, OutboundOnly, WindowRoom, InOrder, Without;
    DeliveringParts(s, lim.maxInflight);
    PromotedOut(s.msgs, lim.maxInflight, now);
    WithoutNone(PromoteFirst(s.msgs, lim.maxInflight, now), mid, In);
    PromoteKeepsDelivering(s, lim.maxInflight, now);
  }

  lemma {:induction false} DeliveringParts(s: QueueState, n: nat)
    requires Delivering(s, n) && s.connected
    ensures OutboundOnly(s.msgs) && WindowRoom(s, n) && InOrder(s)
  {
    hide InOrder;
  }

  lemma {:induction false} PromotedOut(msgs: seq<ClientMsg>, n: nat, now: int)
    requires OutboundOnly(msgs)
    ensures forall i :: 0 <= i < |msgs| ==> PromoteFirst(msgs, n, now)[i].direction == Out
  {
  }

  // Window as it is just after a removal: nothing beyond it is out of the queue.
  predicate WindowRoom(s: QueueState, n: nat) {
    && (forall i :: 0 <= i < |s.msgs| && s.msgs[i].state != Queued ==> InWindow(i, n))
    && (n == 0 ==> forall i :: 0 <= i < |s.msgs| ==> s.msgs[i].state != Queued)
  }

  lemma {:induction false} RemoveKeepsDelivering(s: QueueState, g: nat, n: nat)
    requires Delivering(s, n) && s.connected && g < |s.msgs| && s.msgs[g].dup
    ensures var s' := s.(msgs := RemoveAt(s.msgs, g)); OutboundOnly(s'.msgs) && WindowRoom(s', n) && InOrder(s')
  {
    var s' := s.(msgs := RemoveAt(s.msgs, g));
    assert OldOrNext(s, g);
    forall i | 0 <= i < |s'.msgs|
      ensures OldOrNext(s', i)
    {
      assert OldOrNext(s, if g <= i then i + 1 else i);
    }
  }

  lemma {:induction false} PromoteKeepsDelivering(s: QueueState, n: nat, now: int)
    requires OutboundOnly(s.msgs) && WindowRoom(s, n) && InOrder(s) && s.connected
    ensures Delivering(s.(msgs := PromoteFirst(s.msgs, n, now)), n)
  {
    PointwiseKeepsOrder(s, s.(msgs := PromoteFirst(s.msgs, n, now)));
  }

  lemma {:induction false} InsertKeepsDelivering(s: QueueState, s': QueueState, m: ClientMsg, n: nat)
    requires Delivering(s, n) && Out12(m) && m.qos <= 2 && !m.dup && m.node == s.nextNode
    requires m.state in {Queued, PublishState(m.qos)}
    requires if s.connected then m.state == Queued <==> !InWindow(|s.msgs|, n) else m.state == Queued
    requires s' == s.(msgs := s.msgs + [m], nextNode := s.nextNode + 1)
    ensures Delivering(s', n)
  {
    forall i | 0 <= i < |s'.msgs|
      ensures OldOrNext(s', i)
    {
      if i < |s.msgs| { assert OldOrNext(s, i); }
    }
  }

  // An entry that has not been sent yet.
  predicate Untried(m: ClientMsg) { !m.dup && m.state in {Queued, PublishState(m.qos)} }

  lemma {:induction false} PointwiseKeepsOrder(s: QueueState, s': QueueState)
    requires InOrder(s) && |s'.msgs| == |s.msgs| && s'.firstSent == s.firstSent && s'.nextNode == s.nextNode
    requires s'.dropped == s.dropped
    requires forall i :: 0 <= i < |s.msgs| && s.msgs[i].dup && s.msgs[i].state != Queued ==>
               s'.msgs[i].dup && s'.msgs[i].state != Queued
    requires forall i :: 0 <= i < |s.msgs| && Untried(s.msgs[i]) ==>
               Untried(s'.msgs[i]) && s'.msgs[i].node == s.msgs[i].node
    ensures InOrder(s')
  {
    forall i | 0 <= i < |s'.msgs|
      ensures OldOrNext(s', i)
    {
      assert OldOrNext(s, i);
    }
  }

  // Steps that change entries in place, without queueing any.
  lemma {:induction false} PointwiseKeepsDelivering(s: QueueState, s': QueueState, n: nat)
    requires Delivering(s, n) && OutboundOnly(s'.msgs) && WindowExact(s', n)
    requires |s'.msgs| == |s.msgs| && s'.firstSent == s.firstSent && s'.nextNode == s.nextNode
    requires s'.dropped == s.dropped
    requires forall i :: 0 <= i < |s.msgs| && s.msgs[i].dup && s.msgs[i].state != Queued ==>
               s'.msgs[i].dup && s'.msgs[i].state != Queued
    requires forall i :: 0 <= i < |s.msgs| && Untried(s.msgs[i]) ==>
               Untried(s'.msgs[i]) && s'.msgs[i].node == s.msgs[i].node
    ensures Delivering(s', n)
  {
    PointwiseKeepsOrder(s, s');
  }

  lemma {:induction false} UpdateKeepsDelivering(cfg: Config, lim: Limits, s: QueueState, mid: nat, dir: Direction,
                                                 state: MsgState, now: int)
    requires SoundOutbound(s, Update(mid, dir, state, now)) && Delivering(s, lim.maxInflight)
    ensures Delivering(Step(cfg, lim, s, Update(mid, dir, state, now)), lim.maxInflight)
  {
    var g := IndexOf(s.msgs, mid, dir, 0);
    if g < |s.msgs| { assert OldOrNext(s, g); }
    PointwiseKeepsDelivering(s, Step(cfg, lim, s, Update(mid, dir, state, now)), lim.maxInflight);
  }

  lemma {:induction false} TimeoutKeepsDelivering(cfg: Config, lim: Limits, s: QueueState, timeout: nat, now: int)
    requires Delivering(s, lim.maxInflight)
    ensures Delivering(Step(cfg, lim, s, Timeout(timeout, now)), lim.maxInflight)
  {
    PointwiseKeepsDelivering(s, Step(cfg, lim, s, Timeout(timeout, now)), lim.maxInflight);
  }

  lemma {:induction false} DeleteAllKeepsDelivering(cfg: Config, lim: Limits, s: QueueState)
    requires Delivering(s, lim.maxInflight)
    ensures Delivering(Step(cfg, lim, s, DeleteAll), lim.maxInflight)
  {
    assert NextToSend(s) <= s.nextNode;
  }

  lemma {:induction false} LinkKeepsDelivering(cfg: Config, lim: Limits, s: QueueState, op: Op)
    requires Delivering(s, lim.maxInflight) && (op == Disconnect || op == Reconnect)
    ensures Delivering(Step(cfg, lim, s, op), lim.maxInflight)
  {
    PointwiseKeepsDelivering(s, Step(cfg, lim, s, op), lim.maxInflight);
  }

  lemma {:induction false} AdmitKeepsDelivering(cfg: Config, lim: Limits, s: QueueState, op: Op)
    requires op.Insert? && SoundOutbound(s, op) && Delivering(s, lim.maxInflight)
    ensures Delivering(Step(cfg, lim, s, op), lim.maxInflight)
  {
    AllCount12(s.msgs);
    var v := if op.already then Refused(0) else Admit(lim, s.connected, cfg.queueQos0, Count12(s.msgs), op.dir, op.qos);
    if v.Admitted? {
      InsertKeepsDelivering(s, Step(cfg, lim, s, op),
        NewEntry(s.nextNode, op.stored, op.mid, op.qos, op.retain, op.now, op.dir, v.state), lim.maxInflight);
    }
  }

  lemma {:induction false} StepKeepsDelivering(cfg: Config, lim: Limits, s: QueueState, op: Op)
    requires SoundOutbound(s, op) && Delivering(s, lim.maxInflight)
    ensures Delivering(Step(cfg, lim, s, op), lim.maxInflight)
  {
    hide Delivering, Step;
    match op {
      case Insert(_, _, _, _, _, _, _) => AdmitKeepsDelivering(cfg, lim, s, op);
      case Delete(mid, dir, now) => DeleteKeepsDelivering(cfg, lim, s, mid, dir, now);
      case Release(mid, now) => ReleaseKeepsDelivering(cfg, lim, s, mid, now);
      case Update(mid, dir, state, now) => UpdateKeepsDelivering(cfg, lim, s, mid, dir, state, now);
      case Timeout(timeout, now) => TimeoutKeepsDelivering(cfg, lim, s, timeout, now);
      case Write(room, now) => WriteKeepsDelivering(cfg, lim, s, room, now);
      case DeleteAll => DeleteAllKeepsDelivering(cfg, lim, s);
      case Disconnect => LinkKeepsDelivering(cfg, lim, s, op);
      case Reconnect => LinkKeepsDelivering(cfg, lim, s, op);
    }
  }

  lemma {:induction false} AllCount12(msgs: seq<ClientMsg>)
    requires OutboundOnly(msgs)
    ensures Count12(msgs) == |msgs|
  {
    if msgs != [] {
      AllCount12(msgs[..|msgs| - 1]);
    }
  }

  /**
   Over every run on outbound QoS 1/2 messages: while the client is connected, a message waits
   in the queue exactly when its position is beyond the window; and first transmissions happen
   in insertion order across write errors, timeouts and reconnects, without gaps unless the list
   was deleted as a whole.
   */
  lemma {:induction false} DeliveryInOrder(cfg: Config, lim: Limits, ops: seq<Op>)
    requires SoundOutboundRun(cfg, lim, Empty, ops)
    ensures var s := Run(cfg, lim, Empty, ops);
      && (s.connected ==> forall i :: 0 <= i < |s.msgs| ==>
          (s.msgs[i].state == Queued <==> !InWindow(i, lim.maxInflight)))
      && Increasing(s.firstSent, s.nextNode)
      && (DeleteAll !in ops ==> s.firstSent == Upto(|s.firstSent|))
      && InOrder(s)
  {
    RunKeepsDelivering(cfg, lim, ops);
    var s := Run(cfg, lim, Empty, ops);
    if DeleteAll !in ops {
      NothingDropped(cfg, lim, ops);
      IncreasingAll(s.firstSent);
    }
  }

  lemma {:induction false} NothingDropped(cfg: Config, lim: Limits, ops: seq<Op>)
    requires DeleteAll !in ops
    ensures Run(cfg, lim, Empty, ops).dropped == 0
    decreases |ops|
  {
    if ops != [] { NothingDropped(cfg, lim, ops[..|ops| - 1]); }
  }

  lemma {:induction false} RunKeepsDelivering(cfg: Config, lim: Limits, ops: seq<Op>)
    requires SoundOutboundRun(cfg, lim, Empty, ops)
    ensures Delivering(Run(cfg, lim, Empty, ops), lim.maxInflight)
    decreases |ops|
  {
    hide SoundOutboundRun, SoundOutbound, Delivering, Step;
    if ops == [] {
      EmptyDelivers(lim.maxInflight);
    } else {
      var last := |ops| - 1;
      ShorterOutboundRun(cfg, lim, ops);
      RunKeepsDelivering(cfg, lim, ops[..last]);
      StepKeepsDelivering(cfg, lim, Run(cfg, lim, Empty, ops[..last]), ops[last]);
    }
  }

  lemma {:induction false} EmptyDelivers(n: nat)
    ensures Delivering(Empty, n)
  {
  }

  lemma {:induction false} ShorterOutboundRun(cfg: Config, lim: Limits, ops: seq<Op>)
    requires ops != [] && SoundOutboundRun(cfg, lim, Empty, ops)
    ensures SoundOutboundRun(cfg, lim, Empty, ops[..|ops| - 1])
    ensures SoundOutbound(Run(cfg, lim, Empty, ops[..|ops| - 1]), ops[|ops| - 1])
  {
    hide Run, SoundOutbound;
    var shorter := ops[..|ops| - 1];
    forall i | 0 <= i < |shorter| ensures SoundOutbound(Run(cfg, lim, Empty, shorter[..i]), shorter[i]) {
      assert shorter[..i] == ops[..i];
    }
  }
}
