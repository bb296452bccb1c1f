/**
 The queue of outgoing packets (_mosquitto_packet_queue and _mosquitto_packet_write,
 lib/net_mosq.c:150-172 and 694-818, broker build): a linked list of packets with a pointer to
 its last node, and the packet that is being written.
 */
module OutQueue {
  import opened Topics
  import opened Framing

  // What a write(2) meets: room for some bytes (none: an error), no room for now, or a failure.
  datatype Room = Takes(most: nat) | Full | Reset | Failure

  datatype WriteResult = Wrote(count: nat) | WouldWait | WasReset | WentWrong

  class WriteEnd {
    var script: seq<Room>
    var accepted: seq<Byte>   // everything the link has taken
    var waits: bool           // the last attempt met a full buffer

    constructor (script: seq<Room>)
      ensures this.script == script && accepted == []
    {
      this.script, accepted, waits := script, [], false;
    }

    method Write(bytes: seq<Byte>) returns (r: WriteResult)
      requires bytes != []
      modifies this
      ensures r.Wrote? ==> 0 < r.count <= |bytes| && accepted == old(accepted) + bytes[..r.count]
      ensures !r.Wrote? ==> accepted == old(accepted)
      ensures r.WouldWait? <==> waits
    {
      waits := script == [] || script[0] == Full;
      if script == [] {
        return WouldWait;
      }
      match script[0] {
        case Full => r := WouldWait;
        case Reset => r := WasReset;
        case Failure => r := WentWrong;
        case Takes(most) =>
          if most == 0 {
            r := WentWrong;
          } else {
            r := Wrote(if most < |bytes| then most else |bytes|);
            accepted := accepted + bytes[..r.count];
          }
      }
      script := script[1..];
    }
  }

  datatype WriteRc = Ok | NoConn | ConnLost | Errno

  // A packet whose bytes have been laid out. They do not change any more.
  class QueuedPacket {
    const payload: seq<Byte>
    var pos: nat
    var toProcess: nat
    var next: QueuedPacket?

    constructor (payload: seq<Byte>)
      ensures this.payload == payload && pos == 0 && toProcess == 0 && next == null
    {
      this.payload := payload;
      pos, toProcess, next := 0, 0, null;
    }
  }

  // What is left to write of these packets.
  ghost function Pending(ps: seq<QueuedPacket>): seq<Byte>
    reads ps`pos
  {
    if ps == [] then [] else Left(ps[0]) + Pending(ps[1..])
  }

  ghost function Left(p: QueuedPacket): seq<Byte>
    reads p`pos
  {
    if p.pos <= |p.payload| then p.payload[p.pos..] else []
  }

  lemma {:induction false} PendingAppend(ps: seq<QueuedPacket>, p: QueuedPacket)
    ensures Pending(ps + [p]) == Pending(ps) + Left(p)
    decreases |ps|
  {
    if ps == [] {
      assert [] + [p] == [p] && [p][1..] == [];
    } else {
      PendingAppend(ps[1..], p);
      assert (ps + [p])[1..] == ps[1..] + [p];
    }
  }

  lemma {:induction false} RegroupFront(a: seq<Byte>, b: seq<Byte>, c: seq<Byte>, d: seq<Byte>)
    ensures (a + b) + (c + d) == a + ((b + c) + d)
  {
  }

  lemma {:induction false} RegroupBack(a: seq<Byte>, b: seq<Byte>, c: seq<Byte>, d: seq<Byte>)
    ensures (a + (b + c)) + d == a + (b + (c + d))
  {
  }

  class OutPackets {
    var outPacket: QueuedPacket?          // first packet waiting
    var outPacketLast: QueuedPacket?      // last packet waiting
    var currentOutPacket: QueuedPacket?   // packet being written
    ghost var waiting: seq<QueuedPacket>
    ghost var queued: seq<Byte>     // the bytes of all packets queued so far

    constructor ()
      ensures Valid([]) && queued == []
    {
      outPacket, outPacketLast, currentOutPacket := null, null, null;
      waiting, queued := [], [];
    }

    ghost predicate Linked()
      reads this`outPacket, this`outPacketLast, this`waiting, waiting`next
    {
      && outPacket == (if waiting == [] then null else waiting[0])
      && outPacketLast == (if waiting == [] then null else waiting[|waiting| - 1])
      && (forall i, j :: 0 <= i < |waiting| && 0 <= j < |waiting| && j == i + 1 ==> waiting[i].next == waiting[j])
      && (waiting != [] ==> waiting[|waiting| - 1].next == null)
      && (forall i, j :: 0 <= i < j < |waiting| ==> waiting[i] != waiting[j])
    }

    ghost function CurrentLeft(): seq<Byte>
      reads this, currentOutPacket
    {
      if currentOutPacket == null then [] else Left(currentOutPacket)
    }

    // The list is in order, out_packet_last is its last node, and no byte is lost, doubled or out
    // of place: what the link has taken and what is still to be written make up what was queued.
    ghost predicate Valid(accepted: seq<Byte>)
      reads this, waiting, currentOutPacket
    {
      && Linked() && currentOutPacket !in waiting
      && (currentOutPacket != null ==> currentOutPacket.pos + currentOutPacket.toProcess == |currentOutPacket.payload|)
      && (forall i :: 0 <= i < |waiting| ==> waiting[i].pos == 0 && waiting[i].toProcess == |waiting[i].payload|)
      && accepted + (CurrentLeft() + Pending(waiting)) == queued
    }

    // _mosquitto_packet_queue.
    method PacketQueue(packet: QueuedPacket, connected: bool, link: WriteEnd) returns (rc: WriteRc)
      requires Valid(link.accepted) && packet !in waiting && packet != currentOutPacket
      modifies this, packet, waiting, currentOutPacket, link
      ensures Valid(link.accepted) && queued == old(queued) + packet.payload
      ensures rc == Ok ==> (currentOutPacket == null && waiting == []) || link.waits
      ensures rc == NoConn <==> !connected
      ensures !connected ==> waiting == old(waiting) + [packet] && link.accepted == old(link.accepted)
    {
      hide OutPackets.Valid;
      Append(packet, link.accepted);
      rc := PacketWrite(connected, link);
    }

    // Its first half: put the packet behind the last one.
    method Append(packet: QueuedPacket, ghost accepted: seq<Byte>)
      requires Valid(accepted) && packet !in waiting && packet != currentOutPacket
      modifies this`outPacket, this`outPacketLast, this`waiting, this`queued, packet, waiting
      ensures Valid(accepted) && queued == old(queued) + packet.payload
      ensures waiting == old(waiting) + [packet]
    {
      hide Pending, OutPackets.Linked;
      ghost var was := waiting;
      packet.pos := 0;
      packet.toProcess := |packet.payload|;
      LinkLast(packet);
      PendingAppend(was, packet);
      queued := queued + packet.payload;
      RegroupBack(accepted, CurrentLeft(), Pending(was), packet.payload);
      assert packet.payload[0..] == packet.payload;
    }

    method LinkLast(packet: QueuedPacket)
      requires Linked() && packet !in waiting
      modifies this`outPacket, this`outPacketLast, this`waiting, packet`next, waiting`next
      ensures Linked() && waiting == old(waiting) + [packet]
    {
      packet.next := null;
      if outPacket != null {
        outPacketLast.next := packet;
      } else {
        outPacket := packet;
      }
      outPacketLast := packet;
      waiting := waiting + [packet];
      assert forall i :: 0 <= i < |waiting| - 1 ==> waiting[i] == old(waiting)[i];
    }

    // Take the next waiting packet as the current one.
    method Advance(ghost accepted: seq<Byte>)
      requires Valid(accepted) && (currentOutPacket == null || currentOutPacket.toProcess == 0)
      modifies this`outPacket, this`outPacketLast, this`currentOutPacket, this`waiting
      ensures Valid(accepted)
      ensures if old(waiting) == [] then currentOutPacket == null && waiting == []
        else currentOutPacket == old(waiting)[0] && waiting == old(waiting)[1..]
    {
      assert outPacket == null <==> waiting == [];
      hide OutPackets.Linked;
      assert CurrentLeft() + Pending(waiting) == Pending(waiting);
      currentOutPacket := outPacket;
      if outPacket != null {
        UnlinkFirst();
      }
    }

    method UnlinkFirst()
      requires Linked() && waiting != []
      modifies this`outPacket, this`outPacketLast, this`waiting
      ensures Linked() && waiting == old(waiting)[1..] && old(waiting)[0] == old(outPacket)
      ensures old(waiting)[0] !in waiting
    {
      ghost var was := waiting;
      assert |was| > 1 ==> was[0].next == was[1];
      outPacket := outPacket.next;
      if outPacket == null {
        outPacketLast := null;
      }
      waiting := waiting[1..];
      assert forall i :: 0 <= i < |waiting| ==> waiting[i] == was[i + 1];
    }

    // _mosquitto_packet_write.
    method PacketWrite(connected: bool, link: WriteEnd) returns (rc: WriteRc)
      requires Valid(link.accepted)
      modifies this, waiting, currentOutPacket, link
      ensures Valid(link.accepted) && queued == old(queued)
      ensures rc == Ok ==> (currentOutPacket == null && waiting == []) || link.waits
      ensures rc == NoConn <==> !connected
      ensures !connected ==> link.accepted == old(link.accepted) && waiting == old(waiting)
    {
      if !connected {
        return NoConn;
      }
      assert outPacket == null ==> waiting == [];
      hide OutPackets.Valid;
      if outPacket != null && currentOutPacket == null {
        Advance(link.accepted);
      }
      while currentOutPacket != null
        invariant Valid(link.accepted) && queued == old(queued)
        invariant forall p :: p in waiting ==> p in old(waiting)
        invariant || currentOutPacket == old(currentOutPacket)
                  || currentOutPacket == null || currentOutPacket in old(waiting)
        invariant currentOutPacket == null ==> waiting == []
        decreases |waiting| + if currentOutPacket == null then 0 else 1
      {
        rc := WriteCurrent(link);
        if currentOutPacket.toProcess > 0 {
          return;
        }
        Advance(link.accepted);
      }
      return Ok;
    }

    // The link has taken some bytes of the current packet.
    method Written(count: nat, ghost accepted: seq<Byte>)
      requires Valid(accepted) && currentOutPacket != null && count <= currentOutPacket.toProcess
      modifies currentOutPacket`pos, currentOutPacket`toProcess
      ensures Valid(accepted + old(CurrentLeft())[..count])
      ensures currentOutPacket.toProcess == old(currentOutPacket.toProcess) - count
      ensures currentOutPacket.pos + currentOutPacket.toProcess == |currentOutPacket.payload|
    {
      ghost var left := CurrentLeft();
      currentOutPacket.toProcess := currentOutPacket.toProcess - count;
      currentOutPacket.pos := currentOutPacket.pos + count;
      assert left == left[..count] + CurrentLeft();
      RegroupFront(accepted, left[..count], CurrentLeft(), Pending(waiting));
      hide Pending, Left, OutPackets.Linked, OutPackets.CurrentLeft;
    }

    // The inner loop: write the current packet until it is through or the link takes no more.
    method WriteCurrent(link: WriteEnd) returns (rc: WriteRc)
      requires Valid(link.accepted) && currentOutPacket != null
      modifies currentOutPacket, link
      ensures Valid(link.accepted)
      ensures currentOutPacket.toProcess > 0 ==> rc != NoConn && (rc == Ok ==> link.waits)
    {
      var packet := currentOutPacket;
      assert packet.pos + packet.toProcess == |packet.payload|;
      hide OutPackets.Valid;
      rc := Ok;
      var more := true;
      while more && packet.toProcess > 0
        modifies packet, link
        invariant Valid(link.accepted) && packet.pos + packet.toProcess == |packet.payload|
        invariant if more then rc == Ok else rc != NoConn && (rc == Ok ==> link.waits)
        decreases more, packet.toProcess
      {
        ghost var accepted := link.accepted;
        var r := link.Write(packet.payload[packet.pos..]);
        match r {
          case Wrote(count) => Written(count, accepted);
          case WouldWait => more := false;
          case WasReset => rc, more := WriteRc.ConnLost, false;
          case WentWrong => rc, more := Errno, false;
        }
      }
    }
  }
}
