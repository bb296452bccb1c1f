/**
 Topic remapping of bridge connections: the outgoing half of _mosquitto_send_publish
 (lib/send_mosq.c) and the incoming half of mqtt3_handle_publish (src/read_handle.c).
 */
module Bridge {
  import opened Topics

  datatype Direction = BdOut | BdIn | BdBoth

  // A missing prefix or pattern is None, as the NULL pointers of the configuration.
  datatype BridgeTopic = BridgeTopic(
    pattern: Option<string>, direction: Direction,
    localPrefix: Option<string>, remotePrefix: Option<string>)
  {
    function LocalTopic(): string { Text(localPrefix) + Text(pattern) }

    function RemoteTopic(): string { Text(remotePrefix) + Text(pattern) }

    predicate Remaps() { remotePrefix.Some? || localPrefix.Some? }

    // The rule takes part in sending and matches the local topic.
    predicate TakesOut(topic: string)
      requires topic != []
    {
      direction != BdIn && Remaps() && LocalTopic() != [] && MatcherAnswer(LocalTopic(), topic)
    }

    predicate TakesIn(topic: string)
      requires topic != []
    {
      direction != BdOut && Remaps() && RemoteTopic() != [] && MatcherAnswer(RemoteTopic(), topic)
    }
  }

  function Text(s: Option<string>): string {
    if s.Some? then s.value else []
  }

  function Swap(strip: Option<string>, add: Option<string>, topic: string): string {
    Text(add) + if strip.Some? && strip.value <= topic then topic[|strip.value|..] else topic
  }

  // First rule from i on that satisfies the given direction.
  function FirstOut(rules: seq<BridgeTopic>, topic: string, i: nat): (r: nat)
    requires topic != [] && i <= |rules|
    ensures i <= r <= |rules|
    ensures r < |rules| ==> rules[r].TakesOut(topic)
    ensures forall k :: i <= k < r ==> !rules[k].TakesOut(topic)
    decreases |rules| - i
  {
    if i == |rules| || rules[i].TakesOut(topic) then i else FirstOut(rules, topic, i + 1)
  }

  function FirstIn(rules: seq<BridgeTopic>, topic: string, i: nat): (r: nat)
    requires topic != [] && i <= |rules|
    ensures i <= r <= |rules|
    ensures r < |rules| ==> rules[r].TakesIn(topic)
    ensures forall k :: i <= k < r ==> !rules[k].TakesIn(topic)
    decreases |rules| - i
  {
    if i == |rules| || rules[i].TakesIn(topic) then i else FirstIn(rules, topic, i + 1)
  }

  function MappedOut(rules: seq<BridgeTopic>, topic: string): string
    requires topic != []
  {
    var i := FirstOut(rules, topic, 0);
    if i == |rules| then topic else Swap(rules[i].localPrefix, rules[i].remotePrefix, topic)
  }

  function MappedIn(rules: seq<BridgeTopic>, topic: string): string
    requires topic != []
  {
    var i := FirstIn(rules, topic, 0);
    if i == |rules| then topic else Swap(rules[i].remotePrefix, rules[i].localPrefix, topic)
  }

  method RemapOut(rules: seq<BridgeTopic>, topic: string) returns (mapped: string)
    requires topic != []
    ensures mapped == MappedOut(rules, topic)
  {
    mapped := topic;
    var i := 0;
    while i < |rules|
      invariant i <= |rules| && mapped == topic
      invariant FirstOut(rules, topic, 0) == FirstOut(rules, topic, i)
    {
      var cur := rules[i];
      if (cur.direction == BdBoth || cur.direction == BdOut) && (cur.remotePrefix.Some? || cur.localPrefix.Some?) {
        var _, match_ := TopicMatchesSub(cur.LocalTopic(), topic);
        if match_ == Some(true) {
          if cur.localPrefix.Some? && cur.localPrefix.value <= mapped {
            mapped := mapped[|cur.localPrefix.value|..];
          }
          if cur.remotePrefix.Some? {
            mapped := cur.remotePrefix.value + mapped;
          }
          return;
        }
      }
      i := i + 1;
    }
  }

  method RemapIn(rules: seq<BridgeTopic>, topic: string) returns (mapped: string)
    requires topic != []
    ensures mapped == MappedIn(rules, topic)
  {
    mapped := topic;
    var i := 0;
    while i < |rules|
      invariant i <= |rules| && mapped == topic
      invariant FirstIn(rules, topic, 0) == FirstIn(rules, topic, i)
    {
      var cur := rules[i];
      if (cur.direction == BdBoth || cur.direction == BdIn) && (cur.remotePrefix.Some? || cur.localPrefix.Some?) {
        var _, match_ := TopicMatchesSub(cur.RemoteTopic(), topic);
        if match_ == Some(true) {
          if cur.remotePrefix.Some? && cur.remotePrefix.value <= mapped {
            mapped := mapped[|cur.remotePrefix.value|..];
          }
          if cur.localPrefix.Some? {
            mapped := cur.localPrefix.value + mapped;
          }
          break;
        }
      }
      i := i + 1;
    }
  }

  // A rule with a prefix whose direction allows this one, and whose filter matches level by level.
  predicate Applies(rule: BridgeTopic, out: bool, topic: string)
    requires topic != []
  {
    var filter := if out then rule.LocalTopic() else rule.RemoteTopic();
    && (rule.direction == BdBoth || rule.direction == if out then BdOut else BdIn)
    && (rule.localPrefix.Some? || rule.remotePrefix.Some?) && filter != []
    && TopicMatches(filter, topic) && !MatcherBlindSpot(Levels(filter), Levels(topic))
  }

  /**
   The first rule that applies in a direction decides what becomes of a topic in that direction: the
   prefix of the side it comes from is taken off, if it is there, and that of the other side put in
   front. If none applies, the topic stays as it is.
   */
  lemma {:induction false} FirstRuleDecides(rules: seq<BridgeTopic>, topic: string, out: bool, i: nat)
    requires topic != [] && WildcardFree(topic) && i <= |rules|
    requires forall k :: 0 <= k < |rules| ==> ValidFilter(rules[k].LocalTopic()) && ValidFilter(rules[k].RemoteTopic())
    requires forall k :: 0 <= k < i ==> !Applies(rules[k], out, topic)
    requires i < |rules| ==> Applies(rules[i], out, topic)
    ensures var mapped := if out then MappedOut(rules, topic) else MappedIn(rules, topic);
      if i == |rules| then mapped == topic
      else
        var off := Text(if out then rules[i].localPrefix else rules[i].remotePrefix);
        var on := Text(if out then rules[i].remotePrefix else rules[i].localPrefix);
        && (forall rest :: topic == off + rest ==> mapped == on + rest)
        && (!(off <= topic) ==> mapped == on + topic)
  {
    hide ValidFilter, WildcardFree, MatcherAnswer, TopicMatches, MatcherBlindSpot, Levels;
    forall k | 0 <= k < |rules|
      ensures Applies(rules[k], out, topic) == if out then rules[k].TakesOut(topic) else rules[k].TakesIn(topic)
    {
      if rules[k].LocalTopic() != [] { MatcherMeaning(rules[k].LocalTopic(), topic); }
      if rules[k].RemoteTopic() != [] { MatcherMeaning(rules[k].RemoteTopic(), topic); }
    }
    var first := if out then FirstOut(rules, topic, 0) else FirstIn(rules, topic, 0);
    assert first == i;
    if i < |rules| {
      var off := Text(if out then rules[i].localPrefix else rules[i].remotePrefix);
      forall rest | topic == off + rest ensures off <= topic && topic[|off|..] == rest {
      }
      assert topic[0..] == topic;
    }
  }

  // A rule for one direction never changes a topic that goes the other way.
  lemma {:induction false} OneWayRules(rules: seq<BridgeTopic>, topic: string)
    requires topic != []
    ensures (forall k :: 0 <= k < |rules| ==> rules[k].direction == BdIn) ==> MappedOut(rules, topic) == topic
    ensures (forall k :: 0 <= k < |rules| ==> rules[k].direction == BdOut) ==> MappedIn(rules, topic) == topic
  {
    var i, j := FirstOut(rules, topic, 0), FirstIn(rules, topic, 0);
    if i < |rules| { assert rules[i].TakesOut(topic); }
    if j < |rules| { assert rules[j].TakesIn(topic); }
  }

  /**
   With one "both" rule, a topic that starts with the local prefix and is taken going out
   comes back as itself exactly when the rest is non-empty or the remote prefix is, and the
   '$' guard of the matcher sees the same side of the rest and of the pattern whenever there is
   no remote prefix in front of them to hide it. With a non-empty remote prefix it always does.
   */
  lemma {:induction false} RemapRoundTrip(rule: BridgeTopic, rest: string)
    requires rule.direction == BdBoth && rule.Remaps()
    requires Text(rule.localPrefix) + rest != []
    requires rule.TakesOut(Text(rule.localPrefix) + rest)
    ensures MappedOut([rule], Text(rule.localPrefix) + rest) == Text(rule.remotePrefix) + rest
    ensures Text(rule.remotePrefix) + rest != [] ==>
              (MappedIn([rule], Text(rule.remotePrefix) + rest) == Text(rule.localPrefix) + rest <==>
               (|| Text(rule.remotePrefix) != [] || Text(rule.localPrefix) == []
                || (Text(rule.pattern) != [] && (Text(rule.pattern)[0] == '$') == (rest[0] == '$'))))
  {
    var lp, rp, f := Text(rule.localPrefix), Text(rule.remotePrefix), Text(rule.pattern);
    var out := lp + rest;
    assert out[|lp|..] == rest;
    assert FirstOut([rule], out, 0) == 0;
    assert Swap(rule.localPrefix, rule.remotePrefix, out) == rp + rest;
    if rp + rest != [] {
      var back := rp + rest;
      assert back[|rp|..] == rest;
      assert Swap(rule.remotePrefix, rule.localPrefix, back) == lp + rest;
      assert |lp + rest| == |lp| + |rest|;
      if lp != [] { MatcherBehindPrefix(lp, f, rest); } else { assert lp + rest == rest && lp + f == f; }
      if rp != [] { MatcherBehindPrefix(rp, f, rest); } else { assert rp + rest == rest && rp + f == f; }
      assert rule.TakesIn(back) ==> FirstIn([rule], back, 0) == 0;
      assert !rule.TakesIn(back) ==> FirstIn([rule], back, 0) == 1;
    }
  }

  // Without a remote prefix "l/$x" goes out as "$x", which the pattern "#" does not take back in.
  lemma {:induction false} RemapLosesDollar()
    ensures var rule := BridgeTopic(Some("#"), BdBoth, Some("l/"), None);
      MappedOut([rule], "l/$x") == "$x" && MappedIn([rule], "$x") != "l/$x"
  {
    var rule := BridgeTopic(Some("#"), BdBoth, Some("l/"), None);
    assert rule.LocalTopic() == "l/#" && "l/" + "$x" == "l/$x" && "" + "$x" == "$x";
    assert "l/#"[1..] == "/#" && "/#"[1..] == "#" && "l/$x"[1..] == "/$x" && "/$x"[1..] == "$x";
    assert Scan("#", "$x") && Scan("/#", "/$x") && Scan("l/#", "l/$x");
    assert rule.TakesOut("l/$x");
    RemapRoundTrip(rule, "$x");
  }
}
