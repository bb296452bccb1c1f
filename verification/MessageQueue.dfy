/**
 The per-client message list of src/database.c: one FIFO list per client whose entries run a
 QoS 0/1/2 state machine behind an in-flight window.

 A list entry is a value; its C address is the field `node`, handed out in allocation order.
 Clock readings and the number of packets the link still accepts are parameters.
 */
module MessageQueue {
  import opened Topics

  datatype Direction = In | Out

  datatype MsgState =
    | Invalid
    | PublishQos0
    | PublishQos1
    | WaitForPuback
    | PublishQos2
    | WaitForPubrec
    | ResendPubrel
    | WaitForPubrel
    | ResendPubcomp
    | WaitForPubcomp
    | SendPubrec
    | Queued

  // The unchanging part of a stored message; reference counts live in MessageStore. The tag says
  // which publication it carries; the C struct has no such field.
  datatype Stored = Stored(
    id: nat, tag: nat, sourceId: string, sourceMid: nat,
    topic: Option<string>, qos: nat, retain: bool, payload: seq<bv8>)

  datatype ClientMsg = ClientMsg(
    node: nat, store: Stored, mid: nat, qos: nat, retain: bool, timestamp: int,
    direction: Direction, state: MsgState, dup: bool)

  // max_inflight and max_queued; 0 means no limit.
  datatype Limits = Limits(maxInflight: nat, maxQueued: nat)

  datatype Sent =
    | SentPublish(node: nat, mid: nat, qos: nat, retain: bool, dup: bool, stored: Stored)
    | SentPuback(mid: nat)
    | SentPubrec(mid: nat)
    | SentPubrel(mid: nat, dup: bool)
    | SentPubcomp(mid: nat)

  const MAX_MID := 65535

  // _mosquitto_mid_generate: a 16-bit counter that skips 0.
  function NextMid(last: nat): (r: nat)
    requires last <= MAX_MID
    ensures 1 <= r <= MAX_MID && r != last
  {
    if last == MAX_MID then 1 else last + 1
  }

  // ----- Views of a list -----

  predicate Is(m: ClientMsg, mid: nat, dir: Direction) {
    m.mid == mid && m.direction == dir
  }

  function Without(msgs: seq<ClientMsg>, mid: nat, dir: Direction): seq<ClientMsg> {
    if msgs == [] then []
    else
      var last := |msgs| - 1;
      Without(msgs[..last], mid, dir) + if Is(msgs[last], mid, dir) then [] else [msgs[last]]
  }

  // Message ids name at most one entry per direction.
  predicate AtMostOne(msgs: seq<ClientMsg>, mid: nat, dir: Direction) {
    forall i, j :: 0 <= i < j < |msgs| && Is(msgs[i], mid, dir) ==> !Is(msgs[j], mid, dir)
  }

  function Count12(msgs: seq<ClientMsg>): nat {
    if msgs == [] then 0
    else Count12(msgs[..|msgs| - 1]) + if msgs[|msgs| - 1].qos > 0 then 1 else 0
  }

  // Entries that point to the stored message.
  function Refs(msgs: seq<ClientMsg>, id: nat): nat {
    if msgs == [] then 0
    else Refs(msgs[..|msgs| - 1], id) + if msgs[|msgs| - 1].store.id == id then 1 else 0
  }

  function PublishState(qos: nat): MsgState {
    match qos
    case 0 => PublishQos0
    case 1 => PublishQos1
    case 2 => PublishQos2
    case _ => Invalid
  }

  // A queued entry that has come inside the window.
  function Promote(m: ClientMsg, now: int): ClientMsg {
    if m.state != Queued then m
    else if m.direction == Out then
      m.(timestamp := now, state := if m.qos <= 2 then PublishState(m.qos) else m.state)
    else
      m.(timestamp := now, state := if m.qos == 2 then WaitForPubrel else m.state)
  }

  function PromoteFirst(msgs: seq<ClientMsg>, n: nat, now: int): (r: seq<ClientMsg>)
    ensures |r| == |msgs|
    ensures forall i :: 0 <= i < |r| ==> r[i] == if i < n then Promote(msgs[i], now) else msgs[i]
  {
    seq(|msgs|, i requires 0 <= i < |msgs| => if i < n then Promote(msgs[i], now) else msgs[i])
  }

  // mqtt3_db_message_release of an inbound message: unlike a delete it counts the window by the old
  // positions, so the entry that moves up into the window stays queued.
  function ReleasedList(msgs: seq<ClientMsg>, mid: nat, n: nat, now: int): seq<ClientMsg> {
    Without(PromoteFirst(msgs, n, now), mid, In)
  }

  // The PUBREC packets it sends: for inbound entries that come out of the queue.
  function Pubrecs(msgs: seq<ClientMsg>, n: nat): seq<Sent> {
    if msgs == [] then []
    else
      var last := |msgs| - 1;
      Pubrecs(msgs[..last], n) + if last < n then PubrecFor(msgs[last]) else []
  }

  function PubrecFor(m: ClientMsg): seq<Sent> {
    if m.state == Queued && m.direction == In && m.qos == 2 then [SentPubrec(m.mid)] else []
  }

  // ----- Reconnect and timeout, entry by entry -----

  function Rewound(m: ClientMsg): ClientMsg {
    if m.direction == Out && m.state != Queued && m.qos <= 2 then
      if m.qos == 2 && m.state == WaitForPubcomp then m.(state := ResendPubrel)
      else m.(state := PublishState(m.qos))
    else m
  }

  function Dequeued(m: ClientMsg): ClientMsg {
    if m.state == Queued && m.qos <= 2 then m.(state := PublishState(m.qos)) else m
  }

  function ResetList(msgs: seq<ClientMsg>, maxInflight: nat): (r: seq<ClientMsg>)
    ensures |r| == |msgs|
    ensures forall i :: 0 <= i < |r| ==>
              r[i] == if maxInflight == 0 || i < maxInflight then Dequeued(Rewound(msgs[i])) else Rewound(msgs[i])
  {
    seq(|msgs|, i requires 0 <= i < |msgs| =>
      if maxInflight == 0 || i < maxInflight then Dequeued(Rewound(msgs[i])) else Rewound(msgs[i]))
  }

  function RetryState(s: MsgState): MsgState {
    match s
    case WaitForPuback => PublishQos1
    case WaitForPubrec => PublishQos2
    case WaitForPubrel => SendPubrec
    case WaitForPubcomp => ResendPubrel
    case _ => Invalid
  }

  function TimedOut(m: ClientMsg, threshold: int, now: int): ClientMsg {
    if m.timestamp < threshold && RetryState(m.state) != Invalid then
      m.(timestamp := now, state := RetryState(m.state), dup := true)
    else m
  }

  function TimeoutList(msgs: seq<ClientMsg>, threshold: int, now: int): (r: seq<ClientMsg>)
    ensures |r| == |msgs|
    ensures forall i :: 0 <= i < |r| ==> r[i] == TimedOut(msgs[i], threshold, now)
  {
    seq(|msgs|, i requires 0 <= i < |msgs| => TimedOut(msgs[i], threshold, now))
  }

  // The entry from position k on that an update by message id reaches; |msgs| if there is none.
  function IndexOf(msgs: seq<ClientMsg>, mid: nat, dir: Direction, k: nat): (i: nat)
    requires k <= |msgs|
    ensures k <= i <= |msgs|
    ensures i < |msgs| ==> Is(msgs[i], mid, dir)
    ensures forall j :: k <= j < i ==> !Is(msgs[j], mid, dir)
    decreases |msgs| - k
  {
    if k == |msgs| || Is(msgs[k], mid, dir) then k else IndexOf(msgs, mid, dir, k + 1)
  }

  function Updated(msgs: seq<ClientMsg>, mid: nat, dir: Direction, state: MsgState, now: int): (r: seq<ClientMsg>)
    ensures |r| == |msgs|
  {
    var i := IndexOf(msgs, mid, dir, 0);
    if i < |msgs| then msgs[i := msgs[i].(state := state, timestamp := now)] else msgs
  }

  // mqtt3_db_message_store_find: an inbound entry whose stored message has this source id.
  function FindInbound(msgs: seq<ClientMsg>, mid: nat, k: nat): (i: nat)
    requires k <= |msgs|
    ensures k <= i <= |msgs|
    ensures i < |msgs| ==> msgs[i].store.sourceMid == mid && msgs[i].direction == In
    ensures forall j :: k <= j < i ==> !(msgs[j].store.sourceMid == mid && msgs[j].direction == In)
    decreases |msgs| - k
  {
    if k == |msgs| || (msgs[k].store.sourceMid == mid && msgs[k].direction == In) then k
    else FindInbound(msgs, mid, k + 1)
  }

  // ----- Insertion -----

  datatype Verdict =
    | Refused(rc: nat)                     // not added
    | Admitted(state: MsgState, rc: nat)   // added in this state

  // What the limits say to a new entry (src/database.c:272-337).
  function Admit(lim: Limits, connected: bool, queueQos0: bool, count12: int, dir: Direction, qos: nat): Verdict {
    if !connected && qos == 0 && !queueQos0 then Refused(2)
    else if connected then
      if qos == 0 || lim.maxInflight == 0 || count12 < lim.maxInflight then
        if dir == Out then Admitted(PublishState(qos), 0)
        else if qos == 2 then Admitted(WaitForPubrel, 0)
        else Refused(1)
      else if lim.maxQueued == 0 || count12 - lim.maxInflight < lim.maxQueued then Admitted(Queued, 2)
      else Refused(2)
    else if lim.maxQueued > 0 && count12 >= lim.maxQueued then Refused(2)
    else Admitted(Queued, 0)
  }

  // ----- One write pass -----

  datatype Pass = Pass(msgs: seq<ClientMsg>, sent: seq<Sent>, complete: bool)

  function Publication(m: ClientMsg): Sent {
    SentPublish(m.node, m.mid, m.qos, m.retain, m.dup, m.store)
  }

  // An inbound entry that the write pass takes out of the queue before it looks at its state.
  predicate Admissible(m: ClientMsg, maxInflight: nat, seen: nat) {
    m.state == Queued && m.direction == In && (maxInflight == 0 || seen < maxInflight) && m.qos == 2
  }

  // The packet an entry wants to send, if any, and the entry afterwards (None: it leaves the list).
  function Wants(m: ClientMsg): Option<Sent> {
    match m.state
    case PublishQos0 => Some(Publication(m))
    case PublishQos1 => Some(Publication(m))
    case PublishQos2 => Some(Publication(m))
    case SendPubrec => Some(SentPubrec(m.mid))
    case ResendPubrel => Some(SentPubrel(m.mid, true))
    case ResendPubcomp => Some(SentPubcomp(m.mid))
    case _ => None
  }

  function AfterSend(m: ClientMsg, now: int): Option<ClientMsg> {
    match m.state
    case PublishQos0 => None
    case PublishQos1 => Some(m.(timestamp := now, dup := true, state := WaitForPuback))
    case PublishQos2 => Some(m.(timestamp := now, dup := true, state := WaitForPubrec))
    case SendPubrec => Some(m.(state := WaitForPubrel))
    case ResendPubrel => Some(m.(state := WaitForPubcomp))
    case ResendPubcomp => Some(m.(state := WaitForPubrel))
    case _ => Some(m)
  }

  function ToSeq<T>(o: Option<T>): seq<T> {
    match o case None => [] case Some(v) => [v]
  }

  // A pass over the entries still to be visited while the link accepts `budget` packets. An
  // admissible inbound entry is visited again, and counted again, in its new state.
  function WritePass(rest: seq<ClientMsg>, maxInflight: nat, seen: nat, budget: nat, now: int): (p: Pass)
    decreases |rest|, if rest != [] && rest[0].state == Queued then 1 else 0
  {
    if rest == [] then Pass([], [], true)
    else
      var m := rest[0];
      var seen' := seen + if m.direction == In then 1 else 0;
      if Admissible(m, maxInflight, seen') then
        WritePass([m.(state := SendPubrec)] + rest[1..], maxInflight, seen', budget, now)
      else if Wants(m).None? then
        Behind([m], [], WritePass(rest[1..], maxInflight, seen', budget, now))
      else if budget == 0 then Pass(rest, [], false)
      else
        Behind(ToSeq(AfterSend(m, now)), [Wants(m).value], WritePass(rest[1..], maxInflight, seen', budget - 1, now))
  }

  // The rest of a pass, behind what has been done already.
  function Behind(msgs: seq<ClientMsg>, sent: seq<Sent>, p: Pass): Pass {
    Pass(msgs + p.msgs, sent + p.sent, p.complete)
  }

  // ----- The message store's counters -----

  class MessageStore {
    var refs: map<nat, int>            // ref_count of every stored message, by db_id
    var dests: map<nat, seq<string>>   // dest_ids

    constructor ()
      ensures refs == map[] && dests == map[]
    {
      refs, dests := map[], map[];
    }

    predicate Knows(msgs: seq<ClientMsg>)
      reads this
    {
      refs.Keys == dests.Keys && forall i :: 0 <= i < |msgs| ==> msgs[i].store.id in refs
    }
  }

  // The counters moved exactly as the number of pointers held by the list.
  ghost predicate RefsFollow(before: map<nat, int>, oldMsgs: seq<ClientMsg>, after: map<nat, int>,
                             newMsgs: seq<ClientMsg>) {
    && before.Keys == after.Keys
    && forall id :: id in before ==> after[id] - Refs(newMsgs, id) == before[id] - Refs(oldMsgs, id)
  }

  // ----- List lemmas -----

  function RemoveAt(msgs: seq<ClientMsg>, i: nat): (r: seq<ClientMsg>)
    requires i < |msgs|
    ensures |r| == |msgs| - 1
    ensures forall k :: 0 <= k < |r| ==> r[k] == msgs[if k < i then k else k + 1]
  {
    seq(|msgs| - 1, k requires 0 <= k < |msgs| - 1 => msgs[if k < i then k else k + 1])
  }

  lemma {:induction false} WithoutConcat(a: seq<ClientMsg>, b: seq<ClientMsg>, mid: nat, dir: Direction)
    ensures Without(a + b, mid, dir) == Without(a, mid, dir) + Without(b, mid, dir)
  {
    if b == [] {
      assert a + b == a;
    } else {
      WithoutConcat(a, b[..|b| - 1], mid, dir);
      assert (a + b)[..|a + b| - 1] == a + b[..|b| - 1];
    }
  }

  lemma {:induction false} WithoutNone(a: seq<ClientMsg>, mid: nat, dir: Direction)
    requires forall i :: 0 <= i < |a| ==> !Is(a[i], mid, dir)
    ensures Without(a, mid, dir) == a
  {
    if a != [] {
      WithoutNone(a[..|a| - 1], mid, dir);
    }
  }

  lemma {:induction false} Count12Concat(a: seq<ClientMsg>, b: seq<ClientMsg>)
    ensures Count12(a + b) == Count12(a) + Count12(b)
  {
    if b == [] {
      assert a + b == a;
    } else {
      Count12Concat(a, b[..|b| - 1]);
      assert (a + b)[..|a + b| - 1] == a + b[..|b| - 1];
    }
  }

  // Lists that agree on QoS and stored messages have the same counts.
  lemma {:induction false} SameShape(a: seq<ClientMsg>, b: seq<ClientMsg>)
    requires |a| == |b|
    requires forall i :: 0 <= i < |a| ==> a[i].qos == b[i].qos && a[i].store == b[i].store
    ensures Count12(a) == Count12(b)
    ensures forall id :: Refs(a, id) == Refs(b, id)
  {
    if a != [] {
      SameShape(a[..|a| - 1], b[..|b| - 1]);
    }
  }

  lemma {:induction false} SplitCount(msgs: seq<ClientMsg>, i: nat)
    requires i < |msgs|
    ensures Count12(msgs) == Count12(RemoveAt(msgs, i)) + if msgs[i].qos > 0 then 1 else 0
  {
    var last := |msgs| - 1;
    if i == last {
      assert RemoveAt(msgs, i) == msgs[..last];
    } else {
      SplitCount(msgs[..last], i);
      assert RemoveAt(msgs, i)[..last - 1] == RemoveAt(msgs[..last], i);
    }
  }

  lemma {:induction false} SplitRefs(msgs: seq<ClientMsg>, i: nat, id: nat)
    requires i < |msgs|
    ensures Refs(msgs, id) == Refs(RemoveAt(msgs, i), id) + if msgs[i].store.id == id then 1 else 0
  {
    var last := |msgs| - 1;
    if i == last {
      assert RemoveAt(msgs, i) == msgs[..last];
    } else {
      SplitRefs(msgs[..last], i, id);
      assert RemoveAt(msgs, i)[..last - 1] == RemoveAt(msgs[..last], i);
    }
  }
}
