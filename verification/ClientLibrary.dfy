/**
 The publishing side of the client library: the out list of lib/messages_mosq.c,
 mosquitto_publish and the acknowledgement handlers of lib/read_handle_shared.c.
 */
module ClientLibrary {
  import opened Topics
  import opened MessageQueue

  // A list entry; `tag` names the call of mosquitto_publish, standing for topic, payload and retain.
  datatype LibMsg = LibMsg(mid: nat, tag: nat, qos: nat, state: MsgState, dup: bool, timestamp: int)

  // QoS 2 hand-over packets. Other is any packet that belongs to something else.
  datatype Packet =
    | Publish(mid: nat, tag: nat, dup: bool)
    | Pubrec(mid: nat)
    | Pubrel(mid: nat, dup: bool)
    | Pubcomp(mid: nat)
    | Other

  function WaitState(qos: nat): MsgState {
    if qos == 1 then WaitForPuback else if qos == 2 then WaitForPubrec else Invalid
  }

  function FindMid(out: seq<LibMsg>, mid: nat, k: nat): (i: nat)
    requires k <= |out|
    ensures k <= i <= |out|
    ensures i < |out| ==> out[i].mid == mid
    ensures forall j :: k <= j < i ==> out[j].mid != mid
    decreases |out| - k
  {
    if k == |out| || out[k].mid == mid then k else FindMid(out, mid, k + 1)
  }

  function Cut(out: seq<LibMsg>, i: nat): (r: seq<LibMsg>)
    requires i < |out|
    ensures |r| == |out| - 1
    ensures forall k :: 0 <= k < |r| ==> r[k] == out[if k < i then k else k + 1]
  {
    seq(|out| - 1, k requires 0 <= k < |out| - 1 => out[if k < i then k else k + 1])
  }

  // Window test shared by publishing and promotion; 0 means no limit.
  predicate HasRoom(maxInflight: nat, inflight: int) {
    maxInflight == 0 || inflight < maxInflight
  }

  // Held-back entries from k on that become sendable, and what is sent for them.
  datatype Promotion = Promotion(out: seq<LibMsg>, inflight: int, sent: seq<Packet>)

  predicate HeldBack(m: LibMsg) { m.qos > 0 && m.state == Invalid }

  function Released(out: seq<LibMsg>, k: nat, maxInflight: nat, inflight: int): (p: Promotion)
    requires k <= |out|
    ensures |p.out| == |out|
    decreases |out| - k
  {
    if k == |out| || !HasRoom(maxInflight, inflight) then Promotion(out, inflight, [])
    else if HeldBack(out[k]) then
      var m := out[k].(state := WaitState(out[k].qos));
      var p := Released(out[k := m], k + 1, maxInflight, inflight + 1);
      p.(sent := [Publish(m.mid, m.tag, m.dup)] + p.sent)
    else Released(out, k + 1, maxInflight, inflight)
  }

  // ----- What a promotion has to do -----

  // The PUBLISH of each entry from k on that has left the waiting state, in list order.
  function Departed(was: seq<LibMsg>, now: seq<LibMsg>, k: nat): seq<Packet>
    requires k <= |was| == |now|
    decreases |was| - k
  {
    if k == |was| then []
    else
      (if Left(was[k], now[k]) then [Publish(was[k].mid, was[k].tag, was[k].dup)] else [])
      + Departed(was, now, k + 1)
  }

  // A QoS 1 or 2 entry that was in state Invalid waits for its acknowledgement now.
  predicate Left(was: LibMsg, now: LibMsg) {
    && was.qos > 0 && was.state == Invalid && now == was.(state := now.state)
    && now.state == if was.qos == 1 then WaitForPuback else WaitForPubrec
  }

  /**
   Entries in state Invalid leave it in list order while there is room, with one PUBLISH for each,
   and no other entry changes. The window is not overrun, and while it has room nothing of QoS 1
   or 2 is in state Invalid.
   */
  predicate MovesUp(was: seq<LibMsg>, inflight: int, n: nat, p: Promotion) {
    && |p.out| == |was| && (forall k :: 0 <= k < |was| ==> p.out[k] == was[k] || Left(was[k], p.out[k]))
    && p.sent == Departed(was, p.out, 0) && p.inflight == inflight + |p.sent|
    && (n > 0 && inflight <= n ==> p.inflight <= n)
    && (n == 0 || p.inflight < n ==> forall k :: 0 <= k < |was| ==> !(p.out[k].qos > 0 && p.out[k].state == Invalid))
    && forall j, k :: 0 <= j < k < |was| && p.out[j].qos > 0 && p.out[j].state == Invalid ==> p.out[k] == was[k]
  }

  lemma {:induction false} DepartedSame(a: seq<LibMsg>, b: seq<LibMsg>, now: seq<LibMsg>, k: nat)
    requires k <= |a| == |b| == |now| && forall i :: k <= i < |a| ==> a[i] == b[i]
    ensures Departed(a, now, k) == Departed(b, now, k)
    decreases |a| - k
  {
    if k < |a| { DepartedSame(a, b, now, k + 1); }
  }

  lemma {:induction false} NoneDeparted(was: seq<LibMsg>, k: nat)
    requires k <= |was|
    ensures Departed(was, was, k) == []
    decreases |was| - k
  {
    if k < |was| { NoneDeparted(was, k + 1); }
  }

  predicate QosOk(out: seq<LibMsg>) { forall i :: 0 <= i < |out| ==> out[i].qos <= 2 }

  // The promotion from entry k on.
  predicate MovesFrom(was: seq<LibMsg>, k: nat, inflight: int, n: nat, p: Promotion)
    requires k <= |was|
  {
    && |p.out| == |was| && (forall i :: 0 <= i < k ==> p.out[i] == was[i])
    && (forall i :: k <= i < |was| ==> p.out[i] == was[i] || Left(was[i], p.out[i]))
    && p.sent == Departed(was, p.out, k) && p.inflight == inflight + |p.sent|
    && (n > 0 && inflight <= n ==> p.inflight <= n)
    && (n == 0 || p.inflight < n ==> forall i :: k <= i < |was| ==> !(p.out[i].qos > 0 && p.out[i].state == Invalid))
    && forall i, j :: k <= i < j < |was| && p.out[i].qos > 0 && p.out[i].state == Invalid ==> p.out[j] == was[j]
  }

  lemma {:induction false} ReleasedMoves(out: seq<LibMsg>, k: nat, n: nat, inflight: int)
    requires k <= |out| && QosOk(out)
    ensures MovesFrom(out, k, inflight, n, Released(out, k, n, inflight))
    decreases |out| - k
  {
    hide MovesFrom;
    if k == |out| || !HasRoom(n, inflight) {
      NothingMoves(out, k, n, inflight);
    } else if HeldBack(out[k]) {
      var m := out[k].(state := WaitState(out[k].qos));
      ReleasedMoves(out[k := m], k + 1, n, inflight + 1);
      OneMoves(out, k, n, inflight, Released(out[k := m], k + 1, n, inflight + 1));
    } else {
      ReleasedMoves(out, k + 1, n, inflight);
      OneStays(out, k, n, inflight, Released(out, k + 1, n, inflight));
    }
  }

  lemma {:induction false} NothingMoves(out: seq<LibMsg>, k: nat, n: nat, inflight: int)
    requires k <= |out| && (k == |out| || !HasRoom(n, inflight))
    ensures MovesFrom(out, k, inflight, n, Promotion(out, inflight, []))
  {
    NoneDeparted(out, k);
  }

  lemma {:induction false} OneMoves(out: seq<LibMsg>, k: nat, n: nat, inflight: int, p: Promotion)
    requires k < |out| && QosOk(out) && HasRoom(n, inflight) && HeldBack(out[k])
    requires var m := out[k].(state := WaitState(out[k].qos)); MovesFrom(out[k := m], k + 1, inflight + 1, n, p)
    ensures MovesFrom(out, k, inflight, n, p.(sent := [Publish(out[k].mid, out[k].tag, out[k].dup)] + p.sent))
  {
    var m := out[k].(state := WaitState(out[k].qos));
    DepartedSame(out, out[k := m], p.out, k + 1);
    assert p.out[k] == m;
  }

  lemma {:induction false} OneStays(out: seq<LibMsg>, k: nat, n: nat, inflight: int, p: Promotion)
    requires k < |out| && HasRoom(n, inflight) && !HeldBack(out[k]) && MovesFrom(out, k + 1, inflight, n, p)
    ensures MovesFrom(out, k, inflight, n, p)
  {
    assert p.out[k] == out[k] && [] + Departed(out, p.out, k + 1) == Departed(out, p.out, k + 1);
  }

  lemma {:induction false} AllMoves(out: seq<LibMsg>, n: nat, inflight: int)
    requires QosOk(out)
    ensures MovesUp(out, inflight, n, Released(out, 0, n, inflight)) && QosOk(Released(out, 0, n, inflight).out)
  {
    ReleasedMoves(out, 0, n, inflight);
    hide Released;
  }

  // ----- The loop that does it -----

  // The promotion has come to entry k and has sent `log`.
  predicate PromotionAt(total: Promotion, log: seq<Packet>, out: seq<LibMsg>, k: nat, maxInflight: nat, inflight: int)
    requires k <= |out|
  {
    var p := Released(out, k, maxInflight, inflight);
    total == p.(sent := log + p.sent)
  }

  lemma {:induction false} PromotionStep(total: Promotion, log: seq<Packet>, out: seq<LibMsg>, k: nat,
                                         maxInflight: nat, inflight: int)
    requires k <= |out| && PromotionAt(total, log, out, k, maxInflight, inflight)
    ensures k == |out| || !HasRoom(maxInflight, inflight) ==> total == Promotion(out, inflight, log)
    ensures k < |out| && HasRoom(maxInflight, inflight) ==>
      if HeldBack(out[k]) then
        var m := out[k].(state := WaitState(out[k].qos));
        PromotionAt(total, log + [Publish(m.mid, m.tag, m.dup)], out[k := m], k + 1, maxInflight, inflight + 1)
      else PromotionAt(total, log, out, k + 1, maxInflight, inflight)
  {
    assert log + [] == log;
    if k < |out| && HasRoom(maxInflight, inflight) && HeldBack(out[k]) {
      var m := out[k].(state := WaitState(out[k].qos));
      var p := Released(out[k := m], k + 1, maxInflight, inflight + 1);
      assert log + ([Publish(m.mid, m.tag, m.dup)] + p.sent) == (log + [Publish(m.mid, m.tag, m.dup)]) + p.sent;
    }
  }

  // Without held-back entries nothing is promoted.
  lemma {:induction false} NothingReleased(out: seq<LibMsg>, k: nat, maxInflight: nat, inflight: int)
    requires k <= |out| && forall i :: 0 <= i < |out| ==> !HeldBack(out[i])
    ensures Released(out, k, maxInflight, inflight) == Promotion(out, inflight, [])
    decreases |out| - k
  {
    if k < |out| && HasRoom(maxInflight, inflight) {
      NothingReleased(out, k + 1, maxInflight, inflight);
    }
  }

  // Publications and releases that a retry check repeats, by entry.
  function RetryPacket(m: LibMsg): Option<Packet> {
    match m.state
    case WaitForPuback => Some(Publish(m.mid, m.tag, true))
    case WaitForPubrec => Some(Publish(m.mid, m.tag, true))
    case WaitForPubcomp => Some(Pubrel(m.mid, true))
    case _ => None
  }

  predicate Overdue(m: LibMsg, retry: nat, now: int) {
    m.timestamp + retry < now && RetryPacket(m).Some?
  }

  function Retried(out: seq<LibMsg>, k: nat, retry: nat, now: int): seq<Packet>
    requires k <= |out|
  {
    if k == 0 then []
    else
      Retried(out, k - 1, retry, now) +
      if Overdue(out[k - 1], retry, now) then [RetryPacket(out[k - 1]).value] else []
  }

  // An answer to the message has been due since before the interval.
  predicate Unanswered(m: LibMsg, retry: nat, now: int) {
    m.timestamp + retry < now && m.state in {WaitForPuback, WaitForPubrec, WaitForPubcomp}
  }

  lemma {:induction false} OverdueUnanswered(out: seq<LibMsg>, retry: nat, now: int)
    ensures forall i :: 0 <= i < |out| ==> Unanswered(out[i], retry, now) == Overdue(out[i], retry, now)
  {
  }

  /**
   A retry check sends one packet for each message that is unanswered for longer than the interval, in
   list order and in its own phase: its PUBREL after a PUBREC, its PUBLISH before, both with DUP set.
   For a younger message it sends nothing.
   */
  lemma {:induction false} RetriedInPhase(out: seq<LibMsg>, k: nat, retry: nat, now: int) returns (o: seq<nat>)
    requires k <= |out|
    ensures var sent := Retried(out, k, retry, now);
      && |o| == |sent| && (forall i, j :: 0 <= i < j < |o| ==> o[i] < o[j])
      && (forall j :: 0 <= j < |o| ==> o[j] < k && Unanswered(out[o[j]], retry, now))
      && (forall j :: 0 <= j < |o| ==>
            var m := out[o[j]];
            sent[j] == if m.state == WaitForPubcomp then Pubrel(m.mid, true) else Publish(m.mid, m.tag, true))
      && forall i :: 0 <= i < k && Unanswered(out[i], retry, now) ==> i in o
    decreases k
  {
    o := [];
    if k > 0 {
      var o1 := RetriedInPhase(out, k - 1, retry, now);
      if Unanswered(out[k - 1], retry, now) {
        o := o1 + [k - 1];
        RetriedOne(out, k, retry, now);
        hide Retried;
        assert o[|o1|] == k - 1 && forall j :: 0 <= j < |o1| ==> o[j] == o1[j];
      } else {
        o := o1;
        var before := Retried(out, k - 1, retry, now);
        assert before + [] == before;
      }
    }
  }

  lemma {:induction false} RetriedOne(out: seq<LibMsg>, k: nat, retry: nat, now: int)
    requires 0 < k <= |out| && Unanswered(out[k - 1], retry, now)
    ensures var m := out[k - 1];
      Retried(out, k, retry, now) == Retried(out, k - 1, retry, now) +
        [if m.state == WaitForPubcomp then Pubrel(m.mid, true) else Publish(m.mid, m.tag, true)]
  {
  }

  class LibClient {
    var lastMid: nat
    var connected: bool
    var out: seq<LibMsg>
    var outQueueLen: int
    var inflight: int
    var maxInflight: nat
    var sent: seq<Packet>           // packets handed to the link
    var onPublish: seq<nat>         // message ids passed to the on_publish callback

    predicate Valid()
      reads this
    {
      lastMid <= MAX_MID && outQueueLen == |out| && QosOk(out)
    }

    constructor (maxInflight: nat)
      ensures Valid() && out == [] && !connected && this.maxInflight == maxInflight
    {
      lastMid, connected := 0, false;
      out, outQueueLen, inflight := [], 0, 0;
      this.maxInflight := maxInflight;
      sent, onPublish := [], [];
    }

    method Send(p: Packet)
      modifies this`sent
      ensures sent == old(sent) + if connected then [p] else []
    {
      if connected {
        sent := sent + [p];
      }
    }

    // mosquitto_publish (lib/mosquitto.c:533-597) with QoS 1 or 2.
    method PublishMessage(tag: nat, qos: nat, now: int) returns (mid: nat)
      requires Valid() && 1 <= qos <= 2
      modifies this`lastMid, this`out, this`outQueueLen, this`inflight, this`sent
      ensures Valid() && mid == lastMid == NextMid(old(lastMid))
      ensures var room := HasRoom(maxInflight, old(inflight));
        var m := LibMsg(mid, tag, qos, if room then WaitState(qos) else Invalid, false, now);
        && out == old(out) + [m]
        && inflight == old(inflight) + (if room then 1 else 0)
        && sent == old(sent) + if room && connected then [Publish(mid, tag, false)] else []
    {
      lastMid := NextMid(lastMid);
      mid := lastMid;
      outQueueLen := outQueueLen + 1;
      if maxInflight == 0 || inflight < maxInflight {
        inflight := inflight + 1;
        out := out + [LibMsg(mid, tag, qos, WaitState(qos), false, now)];
        Send(Publish(mid, tag, false));
      } else {
        out := out + [LibMsg(mid, tag, qos, Invalid, false, now)];
      }
    }

    // _mosquitto_message_out_update (lib/messages_mosq.c:372-390).
    method OutUpdate(mid: nat, state: MsgState, now: int) returns (found: bool)
      requires Valid()
      modifies this`out
      ensures Valid()
      ensures var i := FindMid(old(out), mid, 0);
        && found == (i < |old(out)|)
        && out == if found then old(out)[i := old(out)[i].(state := state, timestamp := now)] else old(out)
    {
      var i := 0;
      while i < |out|
        invariant i <= |out|
        invariant FindMid(out, mid, 0) == FindMid(out, mid, i)
      {
        if out[i].mid == mid {
          out := out[i := out[i].(state := state, timestamp := now)];
          return true;
        }
        i := i + 1;
      }
      return false;
    }

    // _mosquitto_message_remove for outbound messages (lib/messages_mosq.c:220-275), on a link
    // that accepts what is sent.
    method RemoveOut(mid: nat) returns (removed: Option<LibMsg>)
      requires Valid()
      modifies this`out, this`outQueueLen, this`inflight, this`sent
      ensures Valid()
      ensures var i := FindMid(old(out), mid, 0);
        if i == |old(out)| then
          removed == None && out == old(out) && inflight == old(inflight) && sent == old(sent)
        else
          var m := old(out)[i];
          var p := Released(Cut(old(out), i), 0, maxInflight, old(inflight) - if m.qos > 0 then 1 else 0);
          && removed == Some(m) && out == p.out && inflight == p.inflight
          && sent == old(sent) + (if connected then p.sent else [])
          && MovesUp(Cut(old(out), i), old(inflight) - (if m.qos > 0 then 1 else 0), maxInflight, p)
    {
      var i := 0;
      while i < |out| && out[i].mid != mid
        invariant i <= |out|
        invariant FindMid(out, mid, 0) == FindMid(out, mid, i)
      {
        i := i + 1;
      }
      if i == |out| {
        return None;
      }
      removed := Some(out[i]);
      out := Cut(out, i);
      outQueueLen := outQueueLen - 1;
      if removed.value.qos > 0 {
        inflight := inflight - 1;
      }
      Promote();
    }

    // Its second half: entries that were held back move into the window that has become free.
    method Promote()
      requires Valid()
      modifies this`out, this`inflight, this`sent
      ensures Valid()
      ensures var p := Released(old(out), 0, maxInflight, old(inflight));
        && out == p.out && inflight == p.inflight && sent == old(sent) + (if connected then p.sent else [])
        && MovesUp(old(out), old(inflight), maxInflight, p)
    {
      hide Released, MovesUp, QosOk, Departed;
      AllMoves(out, maxInflight, inflight);
      ghost var total := Released(out, 0, maxInflight, inflight);
      ghost var log: seq<Packet> := [];
      var cur := 0;
      assert [] + total.sent == total.sent && sent + [] == sent;
      while cur < |out|
        invariant cur <= |out| && |out| == outQueueLen
        invariant sent == old(sent) + if connected then log else []
        invariant PromotionAt(total, log, out, cur, maxInflight, inflight)
      {
        PromotionStep(total, log, out, cur, maxInflight, inflight);
        if maxInflight == 0 || inflight < maxInflight {
          if out[cur].qos > 0 && out[cur].state == Invalid {
            inflight := inflight + 1;
            var m := out[cur].(state := WaitState(out[cur].qos));
            out := out[cur := m];
            Send(Publish(m.mid, m.tag, m.dup));
            assert (old(sent) + log) + [Publish(m.mid, m.tag, m.dup)] ==
                   old(sent) + (log + [Publish(m.mid, m.tag, m.dup)]);
            log := log + [Publish(m.mid, m.tag, m.dup)];
          }
        } else {
          return;
        }
        cur := cur + 1;
      }
      PromotionStep(total, log, out, cur, maxInflight, inflight);
    }

    // _mosquitto_handle_pubrec in the client (lib/read_handle_shared.c:118-145).
    method HandlePubrec(mid: nat, now: int) returns (ok: bool)
      requires Valid()
      modifies this`out, this`sent
      ensures Valid()
      ensures var i := FindMid(old(out), mid, 0);
        && ok == (i < |old(out)|)
        && out == (if ok then old(out)[i := old(out)[i].(state := WaitForPubcomp, timestamp := now)] else old(out))
        && sent == old(sent) + if ok && connected then [Pubrel(mid, false)] else []
    {
      ok := OutUpdate(mid, WaitForPubcomp, now);
      if ok {
        Send(Pubrel(mid, false));
      }
    }

    // _mosquitto_handle_pubackcomp in the client (lib/read_handle_shared.c:80-116).
    method HandlePubackcomp(mid: nat)
      requires Valid()
      modifies this`out, this`outQueueLen, this`inflight, this`sent, this`onPublish
      ensures Valid()
      ensures var i := FindMid(old(out), mid, 0);
        if i == |old(out)| then
          out == old(out) && onPublish == old(onPublish) && sent == old(sent) && inflight == old(inflight)
        else
          var p := Released(Cut(old(out), i), 0, maxInflight, old(inflight) - if old(out)[i].qos > 0 then 1 else 0);
          && onPublish == old(onPublish) + [mid] && out == p.out && inflight == p.inflight
          && sent == old(sent) + (if connected then p.sent else [])
          && MovesUp(Cut(old(out), i), old(inflight) - (if old(out)[i].qos > 0 then 1 else 0), maxInflight, p)
    {
      var removed := RemoveOut(mid);
      if removed.Some? {
        onPublish := onPublish + [mid];
      }
    }

    // _mosquitto_message_retry_check over the out list (lib/messages_mosq.c:313-353).
    method RetryCheck(retry: nat, now: int)
      requires Valid()
      modifies this`out, this`sent
      ensures Valid()
      ensures |out| == |old(out)|
      ensures forall i :: 0 <= i < |out| ==>
                out[i] ==
                  if Overdue(old(out)[i], retry, now) then old(out)[i].(timestamp := now, dup := true) else old(out)[i]
      ensures forall i :: 0 <= i < |out| ==>
                && (Unanswered(old(out)[i], retry, now) ==> out[i] == old(out)[i].(timestamp := now, dup := true))
                && (!Unanswered(old(out)[i], retry, now) ==> out[i] == old(out)[i])
      ensures sent == old(sent) + if connected then Retried(old(out), |old(out)|, retry, now) else []
    {
      hide Unanswered;
      OverdueUnanswered(out, retry, now);
      ghost var was := out;
      var i := 0;
      while i < |out|
        invariant i <= |out| == |was| && outQueueLen == |out|
        invariant forall k :: 0 <= k < i ==>
                    out[k] == if Overdue(was[k], retry, now) then was[k].(timestamp := now, dup := true) else was[k]
        invariant forall k :: i <= k < |out| ==> out[k] == was[k]
        invariant sent == old(sent) + if connected then Retried(was, i, retry, now) else []
      {
        var m := out[i];
        if m.timestamp + retry < now {
          match m.state {
            case WaitForPuback =>
              out := out[i := m.(timestamp := now, dup := true)];
              Send(Publish(m.mid, m.tag, true));
            case WaitForPubrec =>
              out := out[i := m.(timestamp := now, dup := true)];
              Send(Publish(m.mid, m.tag, true));
            case WaitForPubcomp =>
              out := out[i := m.(timestamp := now, dup := true)];
              Send(Pubrel(m.mid, true));
            case _ =>
          }
        }
        i := i + 1;
      }
    }

    // _mosquitto_messages_reconnect_reset, the out list (lib/messages_mosq.c:185-209).
    method ReconnectReset()
      requires Valid()
      modifies this`out, this`outQueueLen, this`inflight
      ensures Valid()
      ensures |out| == |old(out)|
      ensures inflight == CountSendable(old(out), |old(out)|)
      ensures out == ResetOut(old(out), maxInflight)
      ensures forall i :: 0 <= i < |out| ==>
                var m := old(out)[i];
                out[i] == m.(timestamp := 0,
                             state := if maxInflight > 0 && CountSendable(old(out), i + 1) >= maxInflight then Invalid
                                      else if m.qos == 1 then WaitForPuback else m.state)
    {
      ghost var was := out;
      inflight, outQueueLen := 0, 0;
      var i := 0;
      assert CountSendable(was, 0) == 0;
      hide CountSendable, ResetOut;
      while i < |out|
        invariant i <= |out| == |was| && outQueueLen == i && inflight == CountSendable(was, i)
        invariant forall k :: 0 <= k < i ==> out[k] == ResetOut(was, maxInflight)[k]
        invariant forall k :: i <= k < |out| ==> out[k] == was[k]
      {
        ResetOneMore(was, maxInflight, i);
        var m := out[i].(timestamp := 0);
        outQueueLen := outQueueLen + 1;
        if m.qos > 0 {
          inflight := inflight + 1;
        }
        if maxInflight == 0 || inflight < maxInflight {
          if m.qos == 1 {
            m := m.(state := WaitForPuback);
          }
        } else {
          m := m.(state := Invalid);
        }
        out := out[i := m];
        i := i + 1;
      }
    }
  }

  function CountSendable(out: seq<LibMsg>, k: nat): nat
    requires k <= |out|
  {
    if k == 0 then 0 else CountSendable(out, k - 1) + if out[k - 1].qos > 0 then 1 else 0
  }

  // The list after a reset. The window counts every QoS 1 or 2 entry up to and including the entry.
  function ResetOut(out: seq<LibMsg>, maxInflight: nat): (r: seq<LibMsg>)
    ensures |r| == |out|
  {
    seq(|out|, i requires 0 <= i < |out| => ResetEntry(out[i], maxInflight, CountSendable(out, i + 1)))
  }

  lemma {:induction false} ResetOneMore(out: seq<LibMsg>, maxInflight: nat, k: nat)
    requires k < |out|
    ensures CountSendable(out, k + 1) == CountSendable(out, k) + if out[k].qos > 0 then 1 else 0
    ensures ResetOut(out, maxInflight)[k] == ResetEntry(out[k], maxInflight, CountSendable(out, k + 1))
  {
  }

  function ResetEntry(m: LibMsg, maxInflight: nat, inflight: int): LibMsg {
    if HasRoom(maxInflight, inflight) then m.(timestamp := 0, state := if m.qos == 1 then WaitForPuback else m.state)
    else m.(timestamp := 0, state := Invalid)
  }
}
