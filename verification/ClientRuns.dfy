/**
 Whole runs of a client of lib/messages_mosq.c with a limit on the messages in flight: any sequence
 of publications, acknowledgements, retry checks, lost connections and reconnects.
 */
module ClientRuns {
  import opened Topics
  import opened MessageQueue
  import opened ClientLibrary
  import QueueRuns

  // `missed` counts messages put into the window while there was no connection to send them on.
  datatype LibState = LibState(
    connected: bool, out: seq<LibMsg>, inflight: int, lastMid: nat, published: nat, missed: nat, sent: seq<Packet>)

  datatype Call =
    | Publishes(qos: nat, now: int)
    | Acknowledged(mid: nat)             // PUBACK or PUBCOMP
    | Received(mid: nat, now: int)       // PUBREC
    | RetryPass(retry: nat, now: int)
    | ConnectionLost
    | Reconnects

  const Start := LibState(false, [], 0, 0, 0, 0, [])

  function OnLink(s: LibState, packets: seq<Packet>): seq<Packet> {
    if s.connected then packets else []
  }

  function Step(n: nat, s: LibState, call: Call): (r: LibState)
    requires s.lastMid <= MAX_MID
    ensures r.lastMid <= MAX_MID
  {
    match call
    case Publishes(qos, now) =>
      var mid, room := NextMid(s.lastMid), HasRoom(n, s.inflight);
      s.(out := s.out + [LibMsg(mid, s.published, qos, if room then WaitState(qos) else Invalid, false, now)],
         inflight := s.inflight + (if room then 1 else 0), lastMid := mid, published := s.published + 1,
         missed := s.missed + (if room && !s.connected then 1 else 0),
         sent := s.sent + if room then OnLink(s, [Publish(mid, s.published, false)]) else [])
    case Acknowledged(mid) =>
      var i := FindMid(s.out, mid, 0);
      if i == |s.out| then s
      else
        var p := Released(Cut(s.out, i), 0, n, s.inflight - if s.out[i].qos > 0 then 1 else 0);
        s.(out := p.out, inflight := p.inflight, sent := s.sent + OnLink(s, p.sent))
    case Received(mid, now) =>
      var i := FindMid(s.out, mid, 0);
      if i == |s.out| then s
      else
        s.(out := s.out[i := s.out[i].(state := WaitForPubcomp, timestamp := now)],
           sent := s.sent + OnLink(s, [Pubrel(mid, false)]))
    case RetryPass(retry, now) =>
      s.(out := RetriedList(s.out, retry, now), sent := s.sent + OnLink(s, Retried(s.out, |s.out|, retry, now)))
    case ConnectionLost => s.(connected := false)
    case Reconnects =>
      s.(connected := true, out := ResetOut(s.out, n), inflight := CountSendable(s.out, |s.out|))
  }

  function RetriedList(out: seq<LibMsg>, retry: nat, now: int): (r: seq<LibMsg>)
    ensures |r| == |out|
    ensures forall i :: 0 <= i < |r| ==>
              r[i] == if Overdue(out[i], retry, now) then out[i].(timestamp := now, dup := true) else out[i]
  {
    seq(|out|, i requires 0 <= i < |out| =>
      if Overdue(out[i], retry, now) then out[i].(timestamp := now, dup := true) else out[i])
  }

  function Run(n: nat, s: LibState, calls: seq<Call>): (r: LibState)
    requires s.lastMid <= MAX_MID
    ensures r.lastMid <= MAX_MID
  {
    if calls == [] then s else Step(n, Run(n, s, calls[..|calls| - 1]), calls[|calls| - 1])
  }

  // A message of QoS 1 or 2 that waits for room in the window.
  predicate Waiting(m: LibMsg) { m.qos > 0 && m.state == Invalid }

  function CountOut(out: seq<LibMsg>, waiting: bool): nat {
    if out == [] then 0
    else CountOut(out[..|out| - 1], waiting) + if Waiting(out[|out| - 1]) == waiting then 1 else 0
  }

  // A PUBLISH without DUP.
  predicate First(p: Packet) { p.Publish? && !p.dup }

  // First transmissions, by publication.
  function FirstTags(sent: seq<Packet>): seq<nat> {
    if sent == [] then []
    else
      var p := sent[|sent| - 1];
      FirstTags(sent[..|sent| - 1]) + if First(p) then [p.tag] else []
  }

  // What the other side sees to: it answers messages it was sent, over a connection.
  predicate Answers(s: LibState, mid: nat) {
    var i := FindMid(s.out, mid, 0);
    s.connected && (i < |s.out| ==> !Waiting(s.out[i]))
  }

  // A reconnect keeps the window in order while fewer than n messages are unfinished.
  predicate Sound(n: nat, s: LibState, call: Call) {
    match call
    case Publishes(qos, _) => 1 <= qos <= 2
    case Acknowledged(mid) => Answers(s, mid)
    case Received(mid, _) => Answers(s, mid)
    case RetryPass(_, _) => true
    case ConnectionLost => true
    case Reconnects => n == 0 || |s.out| < n
  }

  predicate SoundRun(n: nat, calls: seq<Call>) {
    forall i :: 0 <= i < |calls| ==> Sound(n, Run(n, Start, calls[..i]), calls[i])
  }

  /**
   Over every sound run the number in flight is the number of QoS 1 and 2 messages that do not wait
   for room, it stays within the limit, nothing waits while there is room, what waits is the end of
   the list, and first transmissions are in publication order. They are all publications made so far
   but those that wait and those that found no connection.
   */
  lemma {:induction false} WindowOverRuns(n: nat, calls: seq<Call>)
    requires SoundRun(n, calls)
    ensures var s := Run(n, Start, calls);
      && s.inflight == CountOut(s.out, false) && (n > 0 ==> s.inflight <= n)
      && (n == 0 || s.inflight < n ==> forall i :: 0 <= i < |s.out| ==> !Waiting(s.out[i]))
      && (forall i, j :: 0 <= i < j < |s.out| && Waiting(s.out[i]) ==> Waiting(s.out[j]))
      && QueueRuns.Increasing(FirstTags(s.sent), s.published - CountOut(s.out, true))
      && |FirstTags(s.sent)| == s.published - CountOut(s.out, true) - s.missed
      && (s.missed == 0 ==> FirstTags(s.sent) == QueueRuns.Upto(s.published - CountOut(s.out, true)))
  {
    hide Run, SoundRun, Waiting, FirstTags;
    RunKeepsWindow(n, calls);
    var s := Run(n, Start, calls);
    WindowParts(n, s);
    CountPrefix(s.out, s.inflight);
    if s.missed == 0 { QueueRuns.IncreasingAll(FirstTags(s.sent)); }
  }

  // The window: the first `inflight` messages of the list.
  predicate Windowed(n: nat, s: LibState) {
    && 0 <= s.inflight <= |s.out| && s.lastMid <= MAX_MID && |s.out| - s.inflight <= s.published
    && (n > 0 ==> s.inflight <= n) && (n == 0 || s.inflight < n ==> s.inflight == |s.out|)
    && (forall i :: 0 <= i < |s.out| ==> 1 <= s.out[i].qos <= 2 && (Waiting(s.out[i]) <==> s.inflight <= i))
    && forall i :: s.inflight <= i < |s.out| ==> s.out[i].tag == s.published - |s.out| + i && !s.out[i].dup
  }

  predicate InOrder(s: LibState) {
    var first := s.published - (|s.out| - s.inflight);
    QueueRuns.Increasing(FirstTags(s.sent), first) && |FirstTags(s.sent)| == first - s.missed
  }

  lemma {:induction false} WindowParts(n: nat, s: LibState)
    requires Windowed(n, s) && InOrder(s)
    ensures 0 <= s.inflight <= |s.out| && (n > 0 ==> s.inflight <= n)
    ensures n == 0 || s.inflight < n ==> s.inflight == |s.out|
    ensures forall i :: 0 <= i < |s.out| ==> (Waiting(s.out[i]) <==> s.inflight <= i)
  {
  }

  lemma {:induction false} CountPrefix(out: seq<LibMsg>, d: nat)
    requires d <= |out| && forall i :: 0 <= i < |out| ==> (Waiting(out[i]) <==> d <= i)
    ensures CountOut(out, false) == d && CountOut(out, true) == |out| - d
  {
    if out != [] {
      CountPrefix(out[..|out| - 1], if d == |out| then d - 1 else d);
    }
  }

  lemma {:induction false} RunKeepsWindow(n: nat, calls: seq<Call>)
    requires SoundRun(n, calls)
    ensures Windowed(n, Run(n, Start, calls)) && InOrder(Run(n, Start, calls))
    decreases |calls|
  {
    hide SoundRun, Sound, Windowed, InOrder, Step;
    if calls == [] {
      StartWindowed(n);
    } else {
      var last := |calls| - 1;
      ShorterRun(n, calls);
      RunKeepsWindow(n, calls[..last]);
      StepKeepsWindow(n, Run(n, Start, calls[..last]), calls[last]);
    }
  }

  lemma {:induction false} StartWindowed(n: nat)
    ensures Windowed(n, Start) && InOrder(Start)
  {
  }

  lemma {:induction false} ShorterRun(n: nat, calls: seq<Call>)
    requires calls != [] && SoundRun(n, calls)
    ensures SoundRun(n, calls[..|calls| - 1])
    ensures Sound(n, Run(n, Start, calls[..|calls| - 1]), calls[|calls| - 1])
  {
    hide Run, Sound;
    var shorter := calls[..|calls| - 1];
    forall i | 0 <= i < |shorter| ensures Sound(n, Run(n, Start, shorter[..i]), shorter[i]) {
      assert shorter[..i] == calls[..i];
    }
  }

  lemma {:induction false} StepKeepsWindow(n: nat, s: LibState, call: Call)
    requires Sound(n, s, call) && Windowed(n, s) && InOrder(s) && s.lastMid <= MAX_MID
    ensures Windowed(n, Step(n, s, call)) && InOrder(Step(n, s, call))
  {
    hide Windowed, InOrder, Step;
    match call {
      case Publishes(qos, now) => PublishKeepsWindow(n, s, qos, now);
      case Acknowledged(mid) => AckKeepsWindow(n, s, mid);
      case Received(mid, now) => PubrecKeepsWindow(n, s, mid, now);
      case RetryPass(retry, now) => RetryKeepsWindow(n, s, retry, now);
      case ConnectionLost => LossKeepsWindow(n, s);
      case Reconnects => ResetKeepsWindow(n, s);
    }
  }

  lemma {:induction false} FirstTagsMore(sent: seq<Packet>, p: Packet)
    ensures FirstTags(sent + [p]) == FirstTags(sent) + if First(p) then [p.tag] else []
  {
    assert (sent + [p])[..|sent|] == sent;
  }

  // Packets that publish nothing for the first time.
  lemma {:induction false} FirstTagsSame(sent: seq<Packet>, more: seq<Packet>)
    requires forall i :: 0 <= i < |more| ==> !First(more[i])
    ensures FirstTags(sent + more) == FirstTags(sent)
    decreases |more|
  {
    if more == [] {
      assert sent + [] == sent;
    } else {
      var last := |more| - 1;
      FirstTagsSame(sent, more[..last]);
      FirstTagsMore(sent + more[..last], more[last]);
      assert (sent + more[..last]) + [more[last]] == sent + more;
    }
  }

  lemma {:induction false} PublishKeepsWindow(n: nat, s: LibState, qos: nat, now: int)
    requires 1 <= qos <= 2 && Windowed(n, s) && InOrder(s) && s.lastMid <= MAX_MID
    ensures Windowed(n, Step(n, s, Publishes(qos, now))) && InOrder(Step(n, s, Publishes(qos, now)))
  {
    hide FirstTags;
    assert s.sent + [] == s.sent;
    FirstTagsMore(s.sent, Publish(NextMid(s.lastMid), s.published, false));
  }

  // While entries from k on do not wait, the promotion passes over them.
  lemma {:induction false} PassOver(out: seq<LibMsg>, k: nat, d: nat, n: nat, inflight: int)
    requires k <= d <= |out| && forall i :: k <= i < d ==> !Waiting(out[i])
    requires HasRoom(n, inflight)
    ensures Released(out, k, n, inflight) == Released(out, d, n, inflight)
    decreases d - k
  {
    if k < d { PassOver(out, k + 1, d, n, inflight); }
  }

  // With room for one, the first entry that waits is sent.
  lemma {:induction false} OneMovesUp(out: seq<LibMsg>, d: nat, n: nat)
    requires d < |out| && n > 0 && forall i :: 0 <= i < |out| ==> (Waiting(out[i]) <==> d <= i)
    ensures var m := out[d];
      Released(out, 0, n, n - 1) ==
        Promotion(out[d := m.(state := WaitState(m.qos))], n, [Publish(m.mid, m.tag, m.dup)])
  {
    PassOver(out, 0, d, n, n - 1);
    var m := out[d].(state := WaitState(out[d].qos));
    assert Released(out[d := m], d + 1, n, n) == Promotion(out[d := m], n, []);
    assert [Publish(m.mid, m.tag, m.dup)] + [] == [Publish(m.mid, m.tag, m.dup)];
  }

  lemma {:induction false} AckKeepsWindow(n: nat, s: LibState, mid: nat)
    requires Answers(s, mid) && Windowed(n, s) && InOrder(s) && s.lastMid <= MAX_MID
    ensures Windowed(n, Step(n, s, Acknowledged(mid))) && InOrder(Step(n, s, Acknowledged(mid)))
  {
    hide FirstTags, Released;
    var i := FindMid(s.out, mid, 0);
    if i < |s.out| {
      var out, d := Cut(s.out, i), s.inflight - 1;
      assert forall k :: 0 <= k < |out| ==> (Waiting(out[k]) <==> d <= k);
      if d < |out| {
        assert n > 0 && s.inflight == n;
        OneMovesUp(out, d, n);
        FirstTagsMore(s.sent, Publish(out[d].mid, out[d].tag, out[d].dup));
      } else {
        NothingReleased(out, 0, n, d);
        assert s.sent + [] == s.sent;
      }
    }
  }

  /**
   Why answers must be for messages that were sent: an acknowledgement leaves the number in flight
   right if and only if its message did not wait; otherwise the count is one too low.
   */
  lemma {:induction false} EarlyAnswer(n: nat, calls: seq<Call>, mid: nat)
    requires SoundRun(n, calls) && FindMid(Run(n, Start, calls).out, mid, 0) < |Run(n, Start, calls).out|
    ensures var s := Run(n, Start, calls);
      var s' := Step(n, s, Acknowledged(mid));
      CountOut(s'.out, false) == s'.inflight + if Waiting(s.out[FindMid(s.out, mid, 0)]) then 1 else 0
  {
    hide Run, SoundRun, FirstTags, CountOut, Released;
    RunKeepsWindow(n, calls);
    var s := Run(n, Start, calls);
    var i := FindMid(s.out, mid, 0);
    var out, d := Cut(s.out, i), s.inflight - if Waiting(s.out[i]) then 0 else 1;
    assert forall k :: 0 <= k < |out| ==> (Waiting(out[k]) <==> d <= k);
    if d < |out| {
      OneMovesUp(out, d, n);
      CountPrefix(Step(n, s, Acknowledged(mid)).out, d + 1);
    } else {
      NothingReleased(out, 0, n, s.inflight - 1);
      CountPrefix(out, d);
    }
  }

  lemma {:induction false} PubrecKeepsWindow(n: nat, s: LibState, mid: nat, now: int)
    requires Answers(s, mid) && Windowed(n, s) && InOrder(s) && s.lastMid <= MAX_MID
    ensures Windowed(n, Step(n, s, Received(mid, now))) && InOrder(Step(n, s, Received(mid, now)))
  {
    hide FirstTags;
    FirstTagsSame(s.sent, [Pubrel(mid, false)]);
  }

  lemma {:induction false} RetriedAgain(out: seq<LibMsg>, k: nat, retry: nat, now: int)
    requires k <= |out|
    ensures forall i :: 0 <= i < |Retried(out, k, retry, now)| ==> !First(Retried(out, k, retry, now)[i])
    decreases k
  {
    if k > 0 { RetriedAgain(out, k - 1, retry, now); }
  }

  lemma {:induction false} RetryKeepsWindow(n: nat, s: LibState, retry: nat, now: int)
    requires Windowed(n, s) && InOrder(s) && s.lastMid <= MAX_MID
    ensures Windowed(n, Step(n, s, RetryPass(retry, now))) && InOrder(Step(n, s, RetryPass(retry, now)))
  {
    hide FirstTags, Retried;
    RetriedAgain(s.out, |s.out|, retry, now);
    FirstTagsSame(s.sent, Retried(s.out, |s.out|, retry, now));
    assert s.sent + [] == s.sent;
  }

  lemma {:induction false} LossKeepsWindow(n: nat, s: LibState)
    requires Windowed(n, s) && InOrder(s) && s.lastMid <= MAX_MID
    ensures Windowed(n, Step(n, s, ConnectionLost)) && InOrder(Step(n, s, ConnectionLost))
  {
  }

  lemma {:induction false} AllSendable(out: seq<LibMsg>, k: nat)
    requires k <= |out| && forall i :: 0 <= i < |out| ==> 1 <= out[i].qos <= 2
    ensures CountSendable(out, k) == k
    decreases k
  {
    if k > 0 { AllSendable(out, k - 1); }
  }

  lemma {:induction false} ResetKeepsWindow(n: nat, s: LibState)
    requires Sound(n, s, Reconnects) && Windowed(n, s) && InOrder(s) && s.lastMid <= MAX_MID
    ensures Windowed(n, Step(n, s, Reconnects)) && InOrder(Step(n, s, Reconnects))
  {
    hide FirstTags;
    forall k | 0 <= k <= |s.out| ensures CountSendable(s.out, k) == k { AllSendable(s.out, k); }
  }

  // ----- Reconnects with a full window -----

  /**
   After a reconnect the number in flight is again the number of messages that do not wait if and
   only if there is no limit or fewer than n messages are unfinished: a longer list is counted as a
   whole, though its messages from the n-th on wait.
   */
  lemma {:induction false} ResetCounts(n: nat, calls: seq<Call>)
    requires SoundRun(n, calls)
    ensures var s := Run(n, Start, calls);
      var s' := Step(n, s, Reconnects);
      && s'.inflight == |s.out| && (s'.inflight == CountOut(s'.out, false) <==> n == 0 || |s.out| < n)
      && (n > 0 && n <= |s.out| ==> CountOut(s'.out, false) == n - 1)
  {
    hide Run, SoundRun, Step, FirstTags;
    RunKeepsWindow(n, calls);
    var s := Run(n, Start, calls);
    ResetSplits(n, s);
    var s' := Step(n, s, Reconnects);
    CountPrefix(s'.out, if n == 0 || |s.out| < n then |s.out| else n - 1);
  }

  lemma {:induction false} ResetSplits(n: nat, s: LibState)
    requires Windowed(n, s)
    ensures var s' := Step(n, s, Reconnects);
      && s'.inflight == |s'.out| == |s.out| && (forall i :: 0 <= i < |s.out| ==> 1 <= s'.out[i].qos <= 2)
      && forall i :: 0 <= i < |s.out| ==>
           (Waiting(s'.out[i]) <==> (if n == 0 || |s.out| < n then |s.out| else n - 1) <= i)
  {
    forall k | 0 <= k <= |s.out| ensures CountSendable(s.out, k) == k { AllSendable(s.out, k); }
  }

  // The count is ahead of the window by at least the limit: no acknowledgement makes room.
  predicate Stalled(n: nat, s: LibState) {
    && n > 0 && s.lastMid <= MAX_MID && n + CountOut(s.out, false) <= s.inflight
    && forall i :: 0 <= i < |s.out| ==> 1 <= s.out[i].qos <= 2
  }

  /**
   With 2n - 1 or more messages unfinished at a reconnect, none of those that wait is ever sent over
   that connection, whatever is published, answered and retried on it.
   */
  lemma {:induction false} ReconnectStalls(n: nat, calls: seq<Call>, later: seq<Call>)
    requires SoundRun(n, calls) && n > 0 && 2 * n - 1 <= |Run(n, Start, calls).out|
    requires var s := Step(n, Run(n, Start, calls), Reconnects);
      forall i :: 0 <= i < |later| ==> !later[i].Reconnects? && Sound(n, Run(n, s, later[..i]), later[i])
    ensures var s := Step(n, Run(n, Start, calls), Reconnects);
      StillWait(s.out, Run(n, s, later).out) && FirstTags(Run(n, s, later).sent) == FirstTags(s.sent)
  {
    hide Run, SoundRun, FirstTags, Sound;
    RunKeepsWindow(n, calls);
    ResetCounts(n, calls);
    ResetSplits(n, Run(n, Start, calls));
    StaysStalled(n, Step(n, Run(n, Start, calls), Reconnects), later);
  }

  // What waited waits.
  predicate StillWait(was: seq<LibMsg>, out: seq<LibMsg>) {
    forall m :: m in was && Waiting(m) ==> m in out
  }

  lemma {:induction false} StaysStalled(n: nat, s: LibState, later: seq<Call>)
    requires Stalled(n, s)
    requires forall i :: 0 <= i < |later| ==> !later[i].Reconnects? && Sound(n, Run(n, s, later[..i]), later[i])
    ensures Stalled(n, Run(n, s, later)) && FirstTags(Run(n, s, later).sent) == FirstTags(s.sent)
    ensures StillWait(s.out, Run(n, s, later).out)
    decreases |later|
  {
    hide Sound, FirstTags, Step;
    if later != [] {
      var last := |later| - 1;
      forall i | 0 <= i < last
        ensures !later[..last][i].Reconnects? && Sound(n, Run(n, s, later[..last][..i]), later[..last][i])
      {
        assert later[..last][..i] == later[..i];
      }
      StaysStalled(n, s, later[..last]);
      StalledStep(n, Run(n, s, later[..last]), later[last]);
      WaitOn(n, Run(n, s, later[..last]), later[last]);
    }
  }

  lemma {:induction false} StalledStep(n: nat, s: LibState, call: Call)
    requires Stalled(n, s) && Sound(n, s, call) && !call.Reconnects? && s.lastMid <= MAX_MID
    ensures Stalled(n, Step(n, s, call)) && FirstTags(Step(n, s, call).sent) == FirstTags(s.sent)
  {
    hide FirstTags, CountOut, Retried;
    assert s.sent + [] == s.sent;
    match call {
      case Publishes(qos, now) => CountOneMore(s.out, Step(n, s, call).out[|s.out|]);
      case Acknowledged(mid) =>
        var i := FindMid(s.out, mid, 0);
        if i < |s.out| { CountCut(s.out, i); }
      case Received(mid, now) =>
        CountAlike(s.out, Step(n, s, call).out);
        FirstTagsSame(s.sent, [Pubrel(mid, false)]);
      case RetryPass(retry, now) =>
        CountAlike(s.out, Step(n, s, call).out);
        RetriedAgain(s.out, |s.out|, retry, now);
        FirstTagsSame(s.sent, Retried(s.out, |s.out|, retry, now));
      case ConnectionLost =>
    }
  }

  lemma {:induction false} WaitOn(n: nat, s: LibState, call: Call)
    requires Stalled(n, s) && Sound(n, s, call) && !call.Reconnects? && s.lastMid <= MAX_MID
    ensures StillWait(s.out, Step(n, s, call).out)
  {
    hide CountOut, Retried;
    var out := Step(n, s, call).out;
    forall k | 0 <= k < |s.out| && Waiting(s.out[k]) ensures s.out[k] in out {
      if call.Acknowledged? {
        var i := FindMid(s.out, call.mid, 0);
        if i < |s.out| {
          CountCut(s.out, i);
          assert out[if k < i then k else k - 1] == s.out[k];
        }
      } else {
        assert out[k] == s.out[k];
      }
    }
  }

  lemma {:induction false} CountOneMore(out: seq<LibMsg>, m: LibMsg)
    ensures CountOut(out + [m], false) == CountOut(out, false) + if Waiting(m) then 0 else 1
  {
    assert (out + [m])[..|out|] == out;
  }

  lemma {:induction false} CountCut(out: seq<LibMsg>, i: nat)
    requires i < |out|
    ensures CountOut(Cut(out, i), false) == CountOut(out, false) - if Waiting(out[i]) then 0 else 1
  {
    var last := |out| - 1;
    if i == last {
      assert Cut(out, i) == out[..last];
    } else {
      CountCut(out[..last], i);
      assert Cut(out, i)[..last - 1] == Cut(out[..last], i);
    }
  }

  lemma {:induction false} CountAlike(a: seq<LibMsg>, b: seq<LibMsg>)
    requires |a| == |b| && forall i :: 0 <= i < |a| ==> Waiting(a[i]) == Waiting(b[i])
    ensures CountOut(a, false) == CountOut(b, false)
  {
    if a != [] { CountAlike(a[..|a| - 1], b[..|b| - 1]); }
  }

  // ----- The client object takes these steps -----

  predicate IsClient(c: LibClient, n: nat, s: LibState)
    reads c
  {
    && c.Valid() && c.maxInflight == n && c.connected == s.connected && c.out == s.out && c.inflight == s.inflight
    && c.lastMid == s.lastMid && c.sent == s.sent
  }

  // Any call into the library and any packet handled by it.
  method Handle(c: LibClient, n: nat, ghost s: LibState, call: Call, tag: nat)
    requires IsClient(c, n, s) && tag == s.published && (call.Publishes? ==> 1 <= call.qos <= 2)
    modifies c
    ensures IsClient(c, n, Step(n, s, call))
  {
    hide Released, MovesUp, Retried;
    assert s.sent + [] == s.sent;
    match call {
      case Publishes(qos, now) => var _ := c.PublishMessage(tag, qos, now);
      case Acknowledged(mid) => c.HandlePubackcomp(mid);
      case Received(mid, now) => var _ := c.HandlePubrec(mid, now);
      case RetryPass(retry, now) => c.RetryCheck(retry, now);
      case ConnectionLost => c.connected := false;
      case Reconnects =>
        c.ReconnectReset();
        c.connected := true;
    }
  }
}
