/**
 The broker's side of one client: struct mosquitto with its message list, and the functions of
 src/database.c that edit the list in place.
 */
module ClientContext {
  import opened Topics
  import opened MessageQueue

  // Inbound entries are QoS 2, carry the id the client gave them, and that id only once.
  predicate InboundWellFormed(msgs: seq<ClientMsg>) {
    && (forall i :: 0 <= i < |msgs| && msgs[i].direction == In ==>
          msgs[i].qos == 2 && msgs[i].mid == msgs[i].store.sourceMid)
    && (forall i, j :: 0 <= i < j < |msgs| && msgs[i].direction == In && msgs[j].direction == In ==>
          msgs[i].mid != msgs[j].mid)
  }

  predicate NodesOrdered(msgs: seq<ClientMsg>, bound: nat) {
    && (forall i :: 0 <= i < |msgs| ==> msgs[i].node < bound)
    && (forall i, j :: 0 <= i < j < |msgs| ==> msgs[i].node < msgs[j].node)
  }

  predicate QosInRange(msgs: seq<ClientMsg>) {
    forall i :: 0 <= i < |msgs| ==> msgs[i].qos <= 2
  }

  predicate ListWellFormed(msgs: seq<ClientMsg>, bound: nat) {
    InboundWellFormed(msgs) && NodesOrdered(msgs, bound) && QosInRange(msgs)
  }

  function LastNode(msgs: seq<ClientMsg>): Option<nat> {
    if msgs == [] then None else Some(msgs[|msgs| - 1].node)
  }

  datatype Config = Config(allowDuplicates: bool, queueQos0: bool)

  // The new message may be inserted inbound: QoS 2, under its own id, not there yet.
  predicate Acceptable(msgs: seq<ClientMsg>, mid: nat, stored: Stored) {
    stored.sourceMid == mid && forall i :: 0 <= i < |msgs| ==> !Is(msgs[i], mid, In)
  }

  predicate Remembers(cfg: Config, dir: Direction, retain: bool) {
    !cfg.allowDuplicates && dir == Out && !retain
  }

  function InsertVerdict(cfg: Config, lim: Limits, connected: bool, dests: seq<string>, id: string, count12: int,
                         dir: Direction, qos: nat, retain: bool): Verdict {
    if Remembers(cfg, dir, retain) && id in dests then Refused(0)
    else Admit(lim, connected, cfg.queueQos0, count12, dir, qos)
  }

  function NewEntry(node: nat, stored: Stored, mid: nat, qos: nat, retain: bool, now: int, dir: Direction,
                    state: MsgState): ClientMsg {
    ClientMsg(node, stored, mid, qos, retain, now, dir, state, false)
  }

  function InsertedList(msgs: seq<ClientMsg>, v: Verdict, m: ClientMsg): seq<ClientMsg> {
    if v.Admitted? then msgs + [m.(state := v.state)] else msgs
  }

  function InsertedDests(dests: map<nat, seq<string>>, stored: nat, id: string, remember: bool): map<nat, seq<string>>
    requires stored in dests
  {
    if remember then dests[stored := dests[stored] + [id]] else dests
  }

  // What a reconnect does to an entry, inside or behind the window: the queue is left, outbound entries
  // are sent again in their phase, inbound ones stay where they are, and nothing else changes.
  predicate TakenUp(m: ClientMsg, m': ClientMsg, inside: bool) {
    && m' == m.(state := m'.state)
    && (m.state == Queued && !inside ==> m'.state == Queued)
    && (m.direction == In && m.state != Queued ==> m'.state == m.state)
    && (m.direction == Out && m.qos == 2 && m.state == WaitForPubcomp ==> m'.state == ResendPubrel)
    && (NewlySent(m, inside) ==>
          (m.qos == 0 ==> m'.state == PublishQos0) && (m.qos == 1 ==> m'.state == PublishQos1) &&
          (m.qos == 2 ==> m'.state == PublishQos2))
  }

  predicate NewlySent(m: ClientMsg, inside: bool) {
    if m.state == Queued then inside else m.direction == Out && !(m.qos == 2 && m.state == WaitForPubcomp)
  }

  predicate ListTakenUp(was: seq<ClientMsg>, msgs: seq<ClientMsg>, n: nat) {
    |msgs| == |was| && forall i :: 0 <= i < |was| ==> TakenUp(was[i], msgs[i], n == 0 || i < n)
  }

  lemma {:induction false} ResetTakesUp(was: seq<ClientMsg>, n: nat)
    ensures ListTakenUp(was, ResetList(was, n), n)
  {
  }

  class Context {
    const id: string
    var connected: bool            // sock != INVALID_SOCKET
    var msgs: seq<ClientMsg>
    var lastMsg: Option<nat>       // last_msg, by the name of the entry
    var msgCount: int
    var msgCount12: int
    var isDropping: bool
    var nextNode: nat              // the next fresh entry name
    var lastMid: nat               // last message id given out, 16 bits
    var sent: seq<Sent>            // packets the link has accepted

    predicate Valid()
      reads this
    {
      && ListWellFormed(msgs, nextNode)
      && msgCount == |msgs|
      && msgCount12 == Count12(msgs)
      && lastMsg == LastNode(msgs)
      && lastMid <= MAX_MID
    }

    constructor (id: string)
      ensures Valid() && this.id == id && !connected && msgs == [] && sent == []
    {
      lastMid := 0;
      this.id := id;
      connected, isDropping := false, false;
      msgs, sent := [], [];
      lastMsg, msgCount, msgCount12, nextNode := None, 0, 0, 0;
    }

    // _mosquitto_mid_generate (lib/util_mosq.c:149-157).
    method MidGenerate() returns (mid: nat)
      requires Valid()
      modifies this`lastMid
      ensures Valid() && mid == lastMid == NextMid(old(lastMid))
    {
      lastMid := if lastMid == MAX_MID then 0 else lastMid + 1;
      if lastMid == 0 {
        lastMid := lastMid + 1;
      }
      mid := lastMid;
    }

    // _message_remove: unlink entry i.
    method MessageRemove(store: MessageStore, i: nat)
      requires Valid() && store.Knows(msgs) && i < |msgs|
      modifies this`msgs, this`lastMsg, this`msgCount, this`msgCount12, store`refs
      ensures Valid() && store.Knows(msgs)
      ensures msgs == RemoveAt(old(msgs), i)
      ensures RefsFollow(old(store.refs), old(msgs), store.refs, msgs)
    {
      hide ListWellFormed, Count12, RefsFollow;
      RemoveWellFormed(msgs, i, nextNode);
      SplitCount(msgs, i);
      RemoveRef(store.refs, msgs, i);
      var m := msgs[i];
      store.refs := store.refs[m.store.id := store.refs[m.store.id] - 1];
      if i > 0 {
        if i + 1 == |msgs| {
          lastMsg := Some(msgs[i - 1].node);
        }
      } else if |msgs| == 1 {
        lastMsg := None;
      }
      msgCount := msgCount - 1;
      if m.qos > 0 {
        msgCount12 := msgCount12 - 1;
      }
      msgs := RemoveAt(msgs, i);
    }

    // mqtt3_db_message_delete (src/database.c:197-242).
    method Delete(store: MessageStore, lim: Limits, mid: nat, dir: Direction, now: int)
      requires Valid() && store.Knows(msgs)
      modifies this`msgs, this`lastMsg, this`msgCount, this`msgCount12, store`refs
      ensures Valid() && store.Knows(msgs)
      ensures AtMostOne(old(msgs), mid, dir) ==>
                msgs == PromoteFirst(Without(old(msgs), mid, dir), lim.maxInflight, now)
      ensures exists k: nat :: k <= |old(msgs)| && msgs == Swept(Without(old(msgs)[..k], mid, dir), old(msgs), k,
                                                                 lim.maxInflight, now)
      ensures RefsFollow(old(store.refs), old(msgs), store.refs, msgs)
    {
      hide ListWellFormed, Count12, RefsFollow, AtMostOne, PromoteFirst, Swept, HasOne, Without;
      var tail, msgIndex, deleted := 0, 0, false;
      ghost var was, k, kept := msgs, 0, [];    // k old entries are done, these were kept
      RefsFollowRefl(store.refs, msgs);
      SweepStart(was, mid, dir, lim.maxInflight, now);
      while tail < |msgs|
        invariant Valid() && store.Knows(msgs)
        invariant RefsFollow(old(store.refs), was, store.refs, msgs)
        invariant k <= |was| && tail == msgIndex == |kept|
        invariant kept == Without(was[..k], mid, dir)
        invariant msgs == Swept(kept, was, k, lim.maxInflight, now)
        invariant deleted <==> HasOne(was, k, mid, dir)
        decreases |was| - k
      {
        msgIndex := msgIndex + 1;
        SweepEntry(kept, was, k, mid, dir, lim.maxInflight, now);
        if msgs[tail].state == Queued && msgIndex <= lim.maxInflight {
          ghost var before := msgs;
          SetEntry(store, tail, Promote(msgs[tail], now));
          RefsFollowTrans(old(store.refs), was, store.refs, before, store.refs, msgs);
        }
        if msgs[tail].mid == mid && msgs[tail].direction == dir {
          msgIndex := msgIndex - 1;
          ghost var refs, before := store.refs, msgs;
          MessageRemove(store, tail);
          RefsFollowTrans(old(store.refs), was, refs, before, store.refs, msgs);
          deleted := true;
        } else {
          kept := kept + [was[k]];
          tail := tail + 1;
        }
        k := k + 1;
        assert kept == Without(was[..k], mid, dir) && msgs == Swept(kept, was, k, lim.maxInflight, now);
        if msgIndex > lim.maxInflight && deleted {
          if AtMostOne(was, mid, dir) {
            DoneEarly(was, k, mid, dir, lim.maxInflight, now);
          }
          return;
        }
      }
      SweepEnd(kept, was, lim.maxInflight, now);
    }

    // Put a new entry at the end of the list.
    method Link(store: MessageStore, m: ClientMsg)
      requires Valid() && store.Knows(msgs) && m.store.id in store.refs
      requires m.node == nextNode && m.qos <= 2
      requires (m.direction == In ==> m.qos == 2 && Acceptable(msgs, m.mid, m.store))
      modifies this`msgs, this`lastMsg, this`msgCount, this`msgCount12, this`nextNode, store`refs
      ensures Valid() && store.Knows(msgs)
      ensures msgs == old(msgs) + [m] && nextNode == old(nextNode) + 1
      ensures RefsFollow(old(store.refs), old(msgs), store.refs, msgs)
    {
      hide ListWellFormed, Count12, RefsFollow;
      AppendEntry(msgs, m, nextNode);
      AppendRef(store.refs, msgs, m);
      store.refs := store.refs[m.store.id := store.refs[m.store.id] + 1];
      msgs := msgs + [m];
      lastMsg := Some(m.node);
      nextNode := nextNode + 1;
      msgCount := msgCount + 1;
      if m.qos > 0 {
        msgCount12 := msgCount12 + 1;
      }
    }

    // mqtt3_db_message_insert (src/database.c:244-400), for a client that is no bridge.
    method Insert(store: MessageStore, cfg: Config, lim: Limits, mid: nat, dir: Direction, qos: nat, retain: bool,
                  stored: Stored, now: int)
      returns (rc: nat)
      requires Valid() && store.Knows(msgs) && stored.id in store.refs
      requires qos <= 2 && (dir == In ==> qos == 2 && Acceptable(msgs, mid, stored))
      modifies this`msgs, this`lastMsg, this`msgCount, this`msgCount12, this`isDropping, this`nextNode, store
      ensures Valid() && store.Knows(msgs)
      ensures var v := InsertVerdict(cfg, lim, connected, old(store.dests[stored.id]), id, old(msgCount12), dir, qos,
                                     retain);
        && rc == v.rc
        && msgs == InsertedList(old(msgs), v, NewEntry(old(nextNode), stored, mid, qos, retain, now, dir, Invalid))
        && nextNode == old(nextNode) + (if v.Admitted? then 1 else 0)
        && store.dests == InsertedDests(old(store.dests), stored.id, id, v.Admitted? && Remembers(cfg, dir, retain))
      ensures RefsFollow(old(store.refs), old(msgs), store.refs, msgs)
    {
      hide ListWellFormed, Count12, RefsFollow, Admit, Acceptable, Refs;
      RefsFollowRefl(store.refs, msgs);
      if !cfg.allowDuplicates && dir == Out && !retain && id in store.dests[stored.id] {
        return 0;
      }
      var v := Admit(lim, connected, cfg.queueQos0, msgCount12, dir, qos);
      if v.Refused? {
        if v.rc == 2 && (connected || qos > 0 || cfg.queueQos0) {
          isDropping := true;
        }
        return v.rc;
      }
      Link(store, NewEntry(nextNode, stored, mid, qos, retain, now, dir, v.state));
      if !cfg.allowDuplicates && dir == Out && !retain {
        store.dests := store.dests[stored.id := store.dests[stored.id] + [id]];
      }
      return v.rc;
    }

    // mqtt3_db_message_update (src/database.c:402-416).
    method Update(store: MessageStore, mid: nat, dir: Direction, state: MsgState, now: int) returns (rc: nat)
      requires Valid() && store.Knows(msgs)
      modifies this`msgs
      ensures Valid() && store.Knows(msgs)
      ensures msgs == Updated(old(msgs), mid, dir, state, now)
      ensures rc == 0 <==> exists i :: 0 <= i < |old(msgs)| && Is(old(msgs)[i], mid, dir)
      ensures RefsFollow(store.refs, old(msgs), store.refs, msgs)
    {
      hide ListWellFormed, Count12, RefsFollow;
      RefsFollowRefl(store.refs, msgs);
      var tail := 0;
      while tail < |msgs|
        invariant tail <= |msgs|
        invariant IndexOf(msgs, mid, dir, 0) == IndexOf(msgs, mid, dir, tail)
      {
        if msgs[tail].mid == mid && msgs[tail].direction == dir {
          assert Is(msgs[tail], mid, dir);
          SetEntry(store, tail, msgs[tail].(state := state, timestamp := now));
          return 0;
        }
        tail := tail + 1;
      }
      return 1;
    }

    // mqtt3_db_messages_delete (src/database.c:418-438).
    method DeleteAll(store: MessageStore)
      requires Valid() && store.Knows(msgs)
      modifies this`msgs, this`lastMsg, this`msgCount, this`msgCount12, store`refs
      ensures Valid() && msgs == [] && store.Knows(msgs)
      ensures RefsFollow(old(store.refs), old(msgs), store.refs, msgs)
    {
      hide ListWellFormed, RefsFollow, Refs;
      RefsFollowRefl(store.refs, msgs);
      var tail := 0;
      assert msgs[0..] == msgs;
      while tail < |msgs|
        invariant tail <= |msgs| && msgs == old(msgs)
        invariant store.Knows(msgs)
        invariant RefsFollow(old(store.refs), msgs, store.refs, msgs[tail..])
      {
        var sid := msgs[tail].store.id;
        DropFirstRef(store.refs, msgs[tail..]);
        assert msgs[tail..][1..] == msgs[tail + 1..];
        RefsFollowTrans(old(store.refs), msgs, store.refs, msgs[tail..],
                        store.refs[sid := store.refs[sid] - 1], msgs[tail + 1..]);
        store.refs := store.refs[sid := store.refs[sid] - 1];
        tail := tail + 1;
      }
      assert msgs[tail..] == [];
      msgs := [];
      lastMsg, msgCount, msgCount12 := None, 0, 0;
      EmptyWellFormed(nextNode);
    }

    // mqtt3_db_message_store_find (src/database.c:533-550).
    method StoreFind(mid: nat) returns (stored: Option<Stored>)
      requires Valid()
      ensures stored.Some? <==> exists i :: 0 <= i < |msgs| && Is(msgs[i], mid, In)
      ensures stored.Some? ==> exists i :: 0 <= i < |msgs| && Is(msgs[i], mid, In) && msgs[i].store == stored.value
    {
      var tail := 0;
      while tail < |msgs|
        invariant tail <= |msgs|
        invariant forall i :: 0 <= i < tail ==> !Is(msgs[i], mid, In)
      {
        if msgs[tail].store.sourceMid == mid && msgs[tail].direction == In {
          assert Is(msgs[tail], mid, In);
          return Some(msgs[tail].store);
        }
        tail := tail + 1;
      }
      return None;
    }

    // mqtt3_db_message_reconnect_reset (src/database.c:554-631), its two loops after one another.
    method ReconnectReset(store: MessageStore, lim: Limits)
      requires Valid() && store.Knows(msgs)
      modifies this`msgs, this`lastMsg, this`msgCount, this`msgCount12
      ensures Valid() && store.Knows(msgs)
      ensures msgs == ResetList(old(msgs), lim.maxInflight) && ListTakenUp(old(msgs), msgs, lim.maxInflight)
      ensures RefsFollow(store.refs, old(msgs), store.refs, msgs)
    {
      hide ListWellFormed, RefsFollow, Count12;
      ghost var was := msgs;
      RewindAndCount();
      PublishQueued(lim.maxInflight);
      assert msgs == ResetList(was, lim.maxInflight);
      ReshapeList(was, msgs, nextNode);
      RefsFollowRefl(store.refs, was);
      RefsFollowShape(store.refs, was, store.refs, was, msgs);
      ResetTakesUp(was, lim.maxInflight);
    }

    // The connection is there again.
    method Connected(store: MessageStore, lim: Limits)
      requires Valid() && store.Knows(msgs)
      modifies this`connected, this`isDropping, this`msgs, this`lastMsg, this`msgCount, this`msgCount12
      ensures Valid() && store.Knows(msgs) && connected && !isDropping
      ensures msgs == ResetList(old(msgs), lim.maxInflight) && ListTakenUp(old(msgs), msgs, lim.maxInflight)
      ensures RefsFollow(store.refs, old(msgs), store.refs, msgs)
    {
      hide ListWellFormed, RefsFollow, Count12;
      connected := true;
      RefsFollowRefl(store.refs, msgs);
      if msgs != [] {
        ReconnectReset(store, lim);
      }
      isDropping := false;
    }

    // First loop: rewind outbound entries and count again. The branch that removes an inbound
    // entry of lower QoS is never taken, because inbound entries are QoS 2.
    method RewindAndCount()
      requires ListWellFormed(msgs, nextNode)
      modifies this`msgs, this`lastMsg, this`msgCount, this`msgCount12
      ensures |msgs| == |old(msgs)| && forall k :: 0 <= k < |msgs| ==> msgs[k] == Rewound(old(msgs)[k])
      ensures msgCount == |msgs| && msgCount12 == Count12(old(msgs))
      ensures old(msgs) != [] ==> lastMsg == LastNode(old(msgs))
      ensures old(msgs) == [] ==> lastMsg == old(lastMsg)
    {
      hide ListWellFormed;
      ghost var was := msgs;
      var i := 0;
      msgCount, msgCount12 := 0, 0;
      while i < |msgs|
        invariant i <= |msgs| == |was|
        invariant forall k :: 0 <= k < i ==> msgs[k] == Rewound(was[k])
        invariant forall k :: i <= k < |was| ==> msgs[k] == was[k]
        invariant msgCount == i && msgCount12 == Count12(was[..i])
        invariant lastMsg == if i == 0 then old(lastMsg) else Some(was[i - 1].node)
      {
        var m := msgs[i];
        assert was[..i + 1][..i] == was[..i];
        lastMsg := Some(m.node);
        msgCount := msgCount + 1;
        if m.qos > 0 {
          msgCount12 := msgCount12 + 1;
        }
        if m.direction == Out {
          if m.state != Queued {
            match m.qos
            case 0 => m := m.(state := PublishQos0);
            case 1 => m := m.(state := PublishQos1);
            case 2 =>
              if m.state == WaitForPubcomp {
                m := m.(state := ResendPubrel);
              } else {
                m := m.(state := PublishQos2);
              }
            case _ =>
          }
        } else {
          InboundQos(was, i, nextNode);
          assert m.qos == 2;
        }
        msgs := msgs[i := m];
        i := i + 1;
      }
      assert was[..i] == was;
    }

    // Second loop: queued entries inside the window are to be published.
    method PublishQueued(maxInflight: nat)
      modifies this`msgs
      ensures |msgs| == |old(msgs)|
      ensures forall k :: 0 <= k < |msgs| ==>
                msgs[k] == if maxInflight == 0 || k < maxInflight then Dequeued(old(msgs)[k]) else old(msgs)[k]
    {
      ghost var was := msgs;
      var count := 0;
      while count < |msgs| && (maxInflight == 0 || count < maxInflight)
        invariant count <= |msgs| == |was| && (maxInflight == 0 || count <= maxInflight)
        invariant forall k :: 0 <= k < count ==> msgs[k] == Dequeued(was[k])
        invariant forall k :: count <= k < |was| ==> msgs[k] == was[k]
      {
        var m := msgs[count];
        if m.state == Queued {
          match m.qos
          case 0 => m := m.(state := PublishQos0);
          case 1 => m := m.(state := PublishQos1);
          case 2 => m := m.(state := PublishQos2);
          case _ =>
        }
        msgs := msgs[count := m];
        count := count + 1;
      }
    }

    // Change state, time or dup of entry i in place.
    method SetEntry(store: MessageStore, i: nat, m: ClientMsg)
      requires Valid() && store.Knows(msgs) && i < |msgs| && SameBut(msgs[i], m)
      modifies this`msgs
      ensures Valid() && store.Knows(msgs)
      ensures msgs == old(msgs)[i := m]
      ensures RefsFollow(store.refs, old(msgs), store.refs, msgs)
    {
      hide ListWellFormed, RefsFollow, Count12;
      ReplaceEntry(msgs, i, m, nextNode);
      RefsFollowRefl(store.refs, msgs);
      RefsFollowShape(store.refs, msgs, store.refs, msgs, msgs[i := m]);
      msgs := msgs[i := m];
    }

    // What mqtt3_context_disconnect does to the connection (src/context.c:196-215).
    method Disconnect()
      requires Valid()
      modifies this`connected
      ensures Valid() && !connected
    {
      connected := false;
    }

    // Hand an acknowledgement to the link.
    method SendAck(p: Sent)
      requires Valid()
      modifies this`sent
      ensures Valid() && sent == old(sent) + [p]
    {
      sent := sent + [p];
    }

    // A queued entry has come inside the window; an inbound one is acknowledged.
    method PromoteEntry(store: MessageStore, i: nat, now: int)
      requires Valid() && store.Knows(msgs) && i < |msgs| && msgs[i].state == Queued
      modifies this`msgs, this`sent
      ensures Valid() && store.Knows(msgs)
      ensures msgs == old(msgs)[i := Promote(old(msgs)[i], now)] && sent == old(sent) + PubrecFor(old(msgs)[i])
      ensures RefsFollow(store.refs, old(msgs), store.refs, msgs)
    {
      hide ListWellFormed, RefsFollow, Count12;
      var m := msgs[i].(timestamp := now);
      if m.direction == Out {
        match m.qos
        case 0 => m := m.(state := PublishQos0);
        case 1 => m := m.(state := PublishQos1);
        case 2 => m := m.(state := PublishQos2);
        case _ =>
      } else if m.qos == 2 {
        sent := sent + [SentPubrec(m.mid)];
        m := m.(state := WaitForPubrel);
      }
      SetEntry(store, i, m);
    }

    // Hand the packet of entry i to the link and move the entry on.
    method SendEntry(store: MessageStore, i: nat, now: int) returns (removed: bool)
      requires Valid() && store.Knows(msgs) && i < |msgs| && Wants(msgs[i]).Some?
      modifies this`msgs, this`lastMsg, this`msgCount, this`msgCount12, this`sent, store`refs
      ensures Valid() && store.Knows(msgs)
      ensures sent == old(sent) + [Wants(old(msgs)[i]).value]
      ensures removed <==> AfterSend(old(msgs)[i], now).None?
      ensures msgs == old(msgs)[..i] + ToSeq(AfterSend(old(msgs)[i], now)) + old(msgs)[i + 1..]
      ensures RefsFollow(old(store.refs), old(msgs), store.refs, msgs)
    {
      hide ListWellFormed, RefsFollow, Count12;
      ghost var was := msgs;
      var m := msgs[i];
      sent := sent + [Wants(m).value];
      removed := m.state == PublishQos0;
      match m.state {
        case PublishQos0 => MessageRemove(store, i);
        case PublishQos1 => SetEntry(store, i, m.(timestamp := now, dup := true, state := WaitForPuback));
        case PublishQos2 => SetEntry(store, i, m.(timestamp := now, dup := true, state := WaitForPubrec));
        case SendPubrec => SetEntry(store, i, m.(state := WaitForPubrel));
        case ResendPubrel => SetEntry(store, i, m.(state := WaitForPubcomp));
        case ResendPubcomp => SetEntry(store, i, m.(state := WaitForPubrel));
        case _ =>
      }
      assert msgs == was[..i] + ToSeq(AfterSend(m, now)) + was[i + 1..];
    }

    // The turn of the loop that sends something for the entry at `tail`.
    method SendTurn(store: MessageStore, n: nat, tail: nat, left: nat, now: int, ghost total: Pass,
                    ghost front: seq<ClientMsg>,
                    ghost rest: seq<ClientMsg>, ghost log: seq<Sent>, ghost seen: nat, ghost sent0: seq<Sent>,
                    ghost refs0: map<nat, int>, ghost msgs0: seq<ClientMsg>) returns (removed: bool)
      requires Valid() && store.Knows(msgs) && tail == |front| && rest != [] && tail < |msgs| && msgs[tail] == rest[0]
      requires rest[0].state != Queued && Wants(rest[0]).Some?
      requires PassAt(total, front, rest, log, n, seen, left + 1, now, msgs, sent0, sent)
      requires RefsFollow(refs0, msgs0, store.refs, msgs)
      modifies this`msgs, this`lastMsg, this`msgCount, this`msgCount12, this`sent, store`refs
      ensures Valid() && store.Knows(msgs) && (removed <==> AfterSend(rest[0], now).None?)
      ensures PassAt(total, front + ToSeq(AfterSend(rest[0], now)), rest[1..], log + [Wants(rest[0]).value], n,
                     seen + (if rest[0].direction == In then 1 else 0), left, now, msgs, sent0, sent)
      ensures RefsFollow(refs0, msgs0, store.refs, msgs)
    {
      hide ListWellFormed, RefsFollow, Count12, WritePass, Behind, AfterSend, PassAt, Wants;
      ghost var before, was, refs := msgs, sent, store.refs;
      removed := SendEntry(store, tail, now);
      PassSend(total, front, rest, log, n, seen, left, now, before, sent0, was, msgs, sent);
      RefsFollowTrans(refs0, msgs0, refs, before, store.refs, msgs);
    }

    // mqtt3_db_message_write (src/database.c:747-867) on a connected client whose link accepts
    // `room` more packets. That it terminates rests on inbound entries being QoS 2: the branch
    // for an admissible inbound entry does not advance.
    method Write(store: MessageStore, lim: Limits, room: nat, now: int) returns (ok: bool)
      requires Valid() && store.Knows(msgs) && connected
      modifies this`msgs, this`lastMsg, this`msgCount, this`msgCount12, this`sent, store`refs
      ensures Valid() && store.Knows(msgs)
      ensures var pass := WritePass(old(msgs), lim.maxInflight, 0, room, now);
        msgs == pass.msgs && sent == old(sent) + pass.sent && ok == pass.complete
      ensures RefsFollow(old(store.refs), old(msgs), store.refs, msgs)
    {
      hide ListWellFormed, RefsFollow, Count12, WritePass, Behind, AfterSend, PassAt;
      RefsFollowRefl(store.refs, msgs);
      ghost var total := WritePass(msgs, lim.maxInflight, 0, room, now);
      ghost var front, rest, log := [], msgs, [];
      var tail, seen, left := 0, 0, room;
      PassStart(msgs, sent, lim.maxInflight, room, now);
      while tail < |msgs|
        invariant Valid() && store.Knows(msgs) && RefsFollow(old(store.refs), old(msgs), store.refs, msgs)
        invariant PassAt(total, front, rest, log, lim.maxInflight, seen, left, now, msgs, old(sent), sent)
        invariant tail == |front|
        decreases |rest|, if rest != [] && rest[0].state == Queued then 1 else 0
      {
        PassHead(total, front, rest, log, lim.maxInflight, seen, left, now, msgs, old(sent), sent);
        InboundQos(msgs, tail, nextNode);
        var m := msgs[tail];
        ghost var before, refs, passed := msgs, store.refs, seen;
        seen := seen + if m.direction == In then 1 else 0;
        if m.state != Queued && Wants(m).Some? {
          if left == 0 {
            PassStop(total, front, rest, log, lim.maxInflight, passed, now, msgs, old(sent), sent);
            return false;
          }
          left := left - 1;
          var removed := SendTurn(store, lim.maxInflight, tail, left, now, total, front, rest, log, passed, old(sent),
                                  old(store.refs), old(msgs));
          front, rest, log := front + ToSeq(AfterSend(m, now)), rest[1..], log + [Wants(m).value];
          tail := tail + if removed then 0 else 1;
        } else if m.state == Queued && m.direction == In && (lim.maxInflight == 0 || seen < lim.maxInflight) {
          if m.qos == 2 {
            SetEntry(store, tail, m.(state := SendPubrec));
            PassAdmit(total, front, rest, log, lim.maxInflight, passed, left, now, before, old(sent), sent);
            rest := [m.(state := SendPubrec)] + rest[1..];
            RefsFollowTrans(old(store.refs), old(msgs), refs, before, store.refs, msgs);
          }
        } else {
          PassSkip(total, front, rest, log, lim.maxInflight, passed, left, now, msgs, old(sent), sent);
          tail := tail + 1;
          front, rest := front + [m], rest[1..];
        }
      }
      PassHead(total, front, rest, log, lim.maxInflight, seen, left, now, msgs, old(sent), sent);
      return true;
    }

    // mqtt3_db_message_timeout_check (src/database.c:633-678), the part about one client.
    method TimeoutCheck(store: MessageStore, timeout: nat, now: int)
      requires Valid() && store.Knows(msgs)
      modifies this`msgs
      ensures Valid() && store.Knows(msgs)
      ensures msgs == TimeoutList(old(msgs), now - timeout, now)
      ensures RefsFollow(store.refs, old(msgs), store.refs, msgs)
    {
      hide ListWellFormed, RefsFollow, Count12;
      ghost var was := msgs;
      var threshold := now - timeout;
      var i := 0;
      while i < |msgs|
        invariant i <= |msgs| == |was|
        invariant forall k :: 0 <= k < i ==> msgs[k] == TimedOut(was[k], threshold, now)
        invariant forall k :: i <= k < |was| ==> msgs[k] == was[k]
      {
        var newState := Invalid;
        if msgs[i].timestamp < threshold && msgs[i].state != Queued {
          match msgs[i].state {
            case WaitForPuback => newState := PublishQos1;
            case WaitForPubrec => newState := PublishQos2;
            case WaitForPubrel => newState := SendPubrec;
            case WaitForPubcomp => newState := ResendPubrel;
            case _ =>
          }
          if newState != Invalid {
            msgs := msgs[i := msgs[i].(timestamp := now, state := newState, dup := true)];
          }
        }
        i := i + 1;
      }
      assert msgs == TimeoutList(was, threshold, now);
      ReshapeList(was, msgs, nextNode);
      RefsFollowRefl(store.refs, was);
      RefsFollowShape(store.refs, was, store.refs, was, msgs);
    }
  }

  predicate HasOne(msgs: seq<ClientMsg>, k: nat, mid: nat, dir: Direction)
    requires k <= |msgs|
  {
    exists i :: 0 <= i < k && Is(msgs[i], mid, dir)
  }

  // The list when the entries before k have been swept: those kept, inside the window promoted.
  function Swept(kept: seq<ClientMsg>, was: seq<ClientMsg>, k: nat, n: nat, now: int): (r: seq<ClientMsg>)
    requires k <= |was|
    ensures |r| == |kept| + |was| - k
  {
    PromoteFirst(kept, n, now) + was[k..]
  }

  lemma {:induction false} SweepStart(was: seq<ClientMsg>, mid: nat, dir: Direction, n: nat, now: int)
    ensures was[..0] == [] && Without(was[..0], mid, dir) == []
    ensures Swept([], was, 0, n, now) == was
    ensures !HasOne(was, 0, mid, dir)
  {
  }

  lemma {:induction false} SweepEnd(kept: seq<ClientMsg>, was: seq<ClientMsg>, n: nat, now: int)
    ensures was[..|was|] == was && Swept(kept, was, |was|, n, now) == PromoteFirst(kept, n, now)
  {
  }

  // Entry k, before and after it is swept.
  lemma {:induction false} SweepEntry(kept: seq<ClientMsg>, was: seq<ClientMsg>, k: nat, mid: nat, dir: Direction,
                                      n: nat, now: int)
    requires k < |was|
    ensures var l, i := Swept(kept, was, k, n, now), |kept|;
      var m := if i < n then Promote(was[k], now) else was[k];
      && l[i] == was[k]
      && l[i := m] == Swept(kept + [was[k]], was, k + 1, n, now)
      && (i >= n ==> l == Swept(kept + [was[k]], was, k + 1, n, now))
      && RemoveAt(l, i) == Swept(kept, was, k + 1, n, now)
      && RemoveAt(l[i := m], i) == Swept(kept, was, k + 1, n, now)
    ensures Without(was[..k + 1], mid, dir) ==
      Without(was[..k], mid, dir) + if Is(was[k], mid, dir) then [] else [was[k]]
    ensures HasOne(was, k + 1, mid, dir) <==> HasOne(was, k, mid, dir) || Is(was[k], mid, dir)
  {
    assert was[..k + 1][..k] == was[..k];
  }

  lemma {:induction false} RemoveWellFormed(msgs: seq<ClientMsg>, i: nat, bound: nat)
    requires i < |msgs| && ListWellFormed(msgs, bound)
    ensures ListWellFormed(RemoveAt(msgs, i), bound)
  {
  }

  lemma {:induction false} RemoveRef(refs: map<nat, int>, msgs: seq<ClientMsg>, i: nat)
    requires i < |msgs| && msgs[i].store.id in refs
    ensures var id := msgs[i].store.id;
      RefsFollow(refs, msgs, refs[id := refs[id] - 1], RemoveAt(msgs, i))
  {
    forall id: nat | id in refs
      ensures Refs(msgs, id) == Refs(RemoveAt(msgs, i), id) + if msgs[i].store.id == id then 1 else 0
    {
      SplitRefs(msgs, i, id);
    }
  }

  // Replacing an entry by one of the same shape keeps the list well formed and its counts.
  lemma {:induction false} ReplaceEntry(msgs: seq<ClientMsg>, i: nat, m: ClientMsg, bound: nat)
    requires i < |msgs| && ListWellFormed(msgs, bound)
    requires m.node == msgs[i].node && m.store == msgs[i].store && m.mid == msgs[i].mid
    requires m.qos == msgs[i].qos && m.direction == msgs[i].direction
    ensures ListWellFormed(msgs[i := m], bound)
    ensures Count12(msgs[i := m]) == Count12(msgs)
    ensures forall id :: Refs(msgs[i := m], id) == Refs(msgs, id)
    ensures LastNode(msgs[i := m]) == LastNode(msgs)
  {
    SameShape(msgs, msgs[i := m]);
  }

  // Once the named entry is gone and the window is passed, nothing else would change.
  lemma {:induction false} DoneEarly(was: seq<ClientMsg>, k: nat, mid: nat, dir: Direction, n: nat, now: int)
    requires k <= |was| && AtMostOne(was, mid, dir) && HasOne(was, k, mid, dir)
    requires |Without(was[..k], mid, dir)| >= n
    ensures PromoteFirst(Without(was, mid, dir), n, now) == Swept(Without(was[..k], mid, dir), was, k, n, now)
  {
    var a, b := was[..k], was[k..];
    assert a + b == was;
    WithoutConcat(a, b, mid, dir);
    forall i | 0 <= i < |b|
      ensures !Is(b[i], mid, dir)
    {
      assert b[i] == was[k + i];
    }
    WithoutNone(b, mid, dir);
  }

  lemma {:induction false} RefsFollowRefl(refs: map<nat, int>, msgs: seq<ClientMsg>)
    ensures RefsFollow(refs, msgs, refs, msgs)
  {
  }

  lemma {:induction false} RefsFollowTrans(r0: map<nat, int>, m0: seq<ClientMsg>, r1: map<nat, int>,
                                           m1: seq<ClientMsg>, r2: map<nat, int>, m2: seq<ClientMsg>)
    requires RefsFollow(r0, m0, r1, m1) && RefsFollow(r1, m1, r2, m2)
    ensures RefsFollow(r0, m0, r2, m2)
  {
  }

  lemma {:induction false} RefsFollowShape(r0: map<nat, int>, m0: seq<ClientMsg>, r1: map<nat, int>,
                                           m1: seq<ClientMsg>, m2: seq<ClientMsg>)
    requires RefsFollow(r0, m0, r1, m1)
    requires forall id :: Refs(m1, id) == Refs(m2, id)
    ensures RefsFollow(r0, m0, r1, m2)
  {
  }

  lemma {:induction false} AppendEntry(msgs: seq<ClientMsg>, m: ClientMsg, bound: nat)
    requires ListWellFormed(msgs, bound) && m.node == bound && m.qos <= 2
    requires m.direction == In ==> m.qos == 2 && Acceptable(msgs, m.mid, m.store)
    ensures ListWellFormed(msgs + [m], bound + 1)
    ensures Count12(msgs + [m]) == Count12(msgs) + if m.qos > 0 then 1 else 0
  {
    assert (msgs + [m])[..|msgs|] == msgs;
    forall i | 0 <= i < |msgs| && msgs[i].direction == In && m.direction == In
      ensures msgs[i].mid != m.mid
    {
      assert !Is(msgs[i], m.mid, In);
    }
  }

  lemma {:induction false} AppendRef(refs: map<nat, int>, msgs: seq<ClientMsg>, m: ClientMsg)
    requires m.store.id in refs
    ensures RefsFollow(refs, msgs, refs[m.store.id := refs[m.store.id] + 1], msgs + [m])
  {
    assert (msgs + [m])[..|msgs|] == msgs;
  }

  lemma {:induction false} DropFirstRef(refs: map<nat, int>, msgs: seq<ClientMsg>)
    requires msgs != [] && msgs[0].store.id in refs
    ensures var sid := msgs[0].store.id; RefsFollow(refs, msgs, refs[sid := refs[sid] - 1], msgs[1..])
  {
    RemoveRef(refs, msgs, 0);
    assert RemoveAt(msgs, 0) == msgs[1..];
  }

  lemma {:induction false} EmptyWellFormed(bound: nat)
    ensures ListWellFormed([], bound)
  {
  }

  lemma {:induction false} InboundQos(msgs: seq<ClientMsg>, i: nat, bound: nat)
    requires ListWellFormed(msgs, bound) && i < |msgs|
    ensures msgs[i].direction == In ==> msgs[i].qos == 2
  {
  }

  // Entries may change state, time and dup without harm.
  lemma {:induction false} ReshapeList(was: seq<ClientMsg>, msgs: seq<ClientMsg>, bound: nat)
    requires |was| == |msgs| && ListWellFormed(was, bound)
    requires forall i :: 0 <= i < |was| ==> SameBut(was[i], msgs[i])
    ensures ListWellFormed(msgs, bound)
    ensures Count12(msgs) == Count12(was) && LastNode(msgs) == LastNode(was)
    ensures forall id :: Refs(was, id) == Refs(msgs, id)
  {
    SameShape(was, msgs);
  }

  predicate SameBut(a: ClientMsg, b: ClientMsg) {
    b == a.(state := b.state, timestamp := b.timestamp, dup := b.dup)
  }

  lemma {:induction false} StartPass(msgs: seq<ClientMsg>, p: Pass)
    ensures [] + msgs == msgs && Behind([], [], p) == p
  {
  }

  // The first entry still to be visited, seen from the whole list.
  lemma {:induction false} HeadAt(front: seq<ClientMsg>, rest: seq<ClientMsg>)
    requires rest != []
    ensures (front + rest)[|front|] == rest[0]
    ensures (front + rest)[..|front|] == front && (front + rest)[|front| + 1..] == rest[1..]
    ensures front + rest == (front + [rest[0]]) + rest[1..]
    ensures forall m :: (front + rest)[|front| := m] == front + ([m] + rest[1..])
  {
  }

  // A write pass that stands before `rest`; what it will do in all is `total`.
  ghost predicate PassAt(total: Pass, front: seq<ClientMsg>, rest: seq<ClientMsg>, log: seq<Sent>, n: nat, seen: nat,
                         room: nat, now: int,
                         msgs: seq<ClientMsg>, sent0: seq<Sent>, sent: seq<Sent>) {
    msgs == front + rest && sent == sent0 + log && Behind(front, log, WritePass(rest, n, seen, room, now)) == total
  }

  lemma {:induction false} PassStart(msgs: seq<ClientMsg>, sent: seq<Sent>, n: nat, room: nat, now: int)
    ensures PassAt(WritePass(msgs, n, 0, room, now), [], msgs, [], n, 0, room, now, msgs, sent, sent)
  {
    StartPass(msgs, WritePass(msgs, n, 0, room, now));
    assert sent + [] == sent;
  }

  // Where the pass stands; at the end it has done everything.
  lemma {:induction false} PassHead(total: Pass, front: seq<ClientMsg>, rest: seq<ClientMsg>, log: seq<Sent>, n: nat,
                                    seen: nat, room: nat, now: int,
                                    msgs: seq<ClientMsg>, sent0: seq<Sent>, sent: seq<Sent>)
    requires PassAt(total, front, rest, log, n, seen, room, now, msgs, sent0, sent)
    ensures |front| <= |msgs| && (|front| < |msgs| <==> rest != [])
    ensures rest != [] ==> msgs[|front|] == rest[0]
    ensures rest == [] ==> msgs == total.msgs && sent == sent0 + total.sent && total.complete
  {
    assert front + [] == front && log + [] == log;
  }

  lemma {:induction false} PassStop(total: Pass, front: seq<ClientMsg>, rest: seq<ClientMsg>, log: seq<Sent>, n: nat,
                                    seen: nat, now: int,
                                    msgs: seq<ClientMsg>, sent0: seq<Sent>, sent: seq<Sent>)
    requires PassAt(total, front, rest, log, n, seen, 0, now, msgs, sent0, sent)
    requires rest != [] && rest[0].state != Queued && Wants(rest[0]).Some?
    ensures msgs == total.msgs && sent == sent0 + total.sent && !total.complete
  {
    UnfoldPass(front, log, rest, n, seen, 0, now);
  }

  lemma {:induction false} PassSend(total: Pass, front: seq<ClientMsg>, rest: seq<ClientMsg>, log: seq<Sent>, n: nat,
                                    seen: nat, room: nat, now: int,
                                    msgs: seq<ClientMsg>, sent0: seq<Sent>, sent: seq<Sent>, msgs': seq<ClientMsg>,
                                    sent': seq<Sent>)
    requires PassAt(total, front, rest, log, n, seen, room + 1, now, msgs, sent0, sent)
    requires rest != [] && rest[0].state != Queued && Wants(rest[0]).Some? && |front| < |msgs|
    requires msgs' == msgs[..|front|] + ToSeq(AfterSend(rest[0], now)) + msgs[|front| + 1..]
    requires sent' == sent + [Wants(rest[0]).value]
    ensures PassAt(total, front + ToSeq(AfterSend(rest[0], now)), rest[1..], log + [Wants(rest[0]).value], n,
                   seen + (if rest[0].direction == In then 1 else 0), room, now, msgs', sent0, sent')
  {
    UnfoldPass(front, log, rest, n, seen, room + 1, now);
    HeadAt(front, rest);
    hide WritePass, Behind, AfterSend;
    assert (sent0 + log) + [Wants(rest[0]).value] == sent0 + (log + [Wants(rest[0]).value]);
  }

  lemma {:induction false} PassAdmit(total: Pass, front: seq<ClientMsg>, rest: seq<ClientMsg>, log: seq<Sent>, n: nat,
                                     seen: nat, room: nat, now: int,
                                     msgs: seq<ClientMsg>, sent0: seq<Sent>, sent: seq<Sent>)
    requires PassAt(total, front, rest, log, n, seen, room, now, msgs, sent0, sent)
    requires rest != [] && |front| < |msgs| && Admissible(rest[0], n, seen + (if rest[0].direction == In then 1 else 0))
    ensures var m := rest[0].(state := SendPubrec);
      PassAt(total, front, [m] + rest[1..], log, n, seen + (if m.direction == In then 1 else 0), room, now,
             msgs[|front| := m], sent0, sent)
  {
    UnfoldPass(front, log, rest, n, seen, room, now);
    HeadAt(front, rest);
  }

  lemma {:induction false} PassSkip(total: Pass, front: seq<ClientMsg>, rest: seq<ClientMsg>, log: seq<Sent>, n: nat,
                                    seen: nat, room: nat, now: int,
                                    msgs: seq<ClientMsg>, sent0: seq<Sent>, sent: seq<Sent>)
    requires PassAt(total, front, rest, log, n, seen, room, now, msgs, sent0, sent)
    requires rest != [] && Wants(rest[0]) == None
    requires !Admissible(rest[0], n, seen + (if rest[0].direction == In then 1 else 0))
    ensures PassAt(total, front + [rest[0]], rest[1..], log, n, seen + (if rest[0].direction == In then 1 else 0),
                   room, now, msgs, sent0, sent)
  {
    UnfoldPass(front, log, rest, n, seen, room, now);
    HeadAt(front, rest);
  }

  // What one step of a write pass does to the list.
  lemma {:induction false} PassCases(rest: seq<ClientMsg>, n: nat, seen: nat, room: nat, now: int)
    requires rest != []
    ensures var m := rest[0];
      var seen' := seen + if m.direction == In then 1 else 0;
      var msgs := WritePass(rest, n, seen, room, now).msgs;
      if Admissible(m, n, seen') then msgs == WritePass([m.(state := SendPubrec)] + rest[1..], n, seen', room, now).msgs
      else if Wants(m).None? then msgs == [m] + WritePass(rest[1..], n, seen', room, now).msgs
      else if room == 0 then msgs == rest
      else msgs == ToSeq(AfterSend(m, now)) + WritePass(rest[1..], n, seen', room - 1, now).msgs
  {
  }

  // One step of a write pass, seen from the whole pass.
  lemma {:induction false} UnfoldPass(done: seq<ClientMsg>, log: seq<Sent>, rest: seq<ClientMsg>, n: nat, seen: nat,
                                      room: nat, now: int)
    requires rest != []
    ensures var m := rest[0];
      var seen' := seen + if m.direction == In then 1 else 0;
      var whole := Behind(done, log, WritePass(rest, n, seen, room, now));
      whole ==
        if Admissible(m, n, seen') then
          Behind(done, log, WritePass([m.(state := SendPubrec)] + rest[1..], n, seen', room, now))
        else if Wants(m).None? then
          Behind(done + [m], log, WritePass(rest[1..], n, seen', room, now))
        else if room == 0 then Pass(done + rest, log, false)
        else
          Behind(done + ToSeq(AfterSend(m, now)), log + [Wants(m).value], WritePass(rest[1..], n, seen', room - 1, now))
  {
    var m := rest[0];
    var seen' := seen + if m.direction == In then 1 else 0;
    if Admissible(m, n, seen') {
    } else if Wants(m) == None {
      var p := WritePass(rest[1..], n, seen', room, now);
      assert done + ([m] + p.msgs) == (done + [m]) + p.msgs;
      assert log + ([] + p.sent) == log + p.sent;
    } else if room > 0 {
      var p := WritePass(rest[1..], n, seen', room - 1, now);
      assert done + (ToSeq(AfterSend(m, now)) + p.msgs) == (done + ToSeq(AfterSend(m, now))) + p.msgs;
      assert log + ([Wants(m).value] + p.sent) == (log + [Wants(m).value]) + p.sent;
    }
  }
}
