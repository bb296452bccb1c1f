/**
 Looking up retained messages for a new subscription: _retain_search and mqtt3_retain_queue
 (src/subs.c:591-685).
 */
module RetainSearch {
  import opened Topics
  import opened SubTree
  import opened Subscriptions
  import Tokens

  // A retained message given to _retain_process: its topic's path and its stored message.
  datatype Offer = Offer(path: seq<string>, id: nat)

  // What a call offers, and whether it returns -1.
  datatype Found = Found(offers: seq<Offer>, flag: bool)

  predicate Rest(tokens: seq<string>) { tokens == ["#"] }

  function Own(b: Tree, at: seq<string>): seq<Offer> {
    if b.retained.Some? then [Offer(at, b.retained.value)] else []
  }

  predicate Enters(b: Tree, tokens: seq<string>) {
    tokens != [] && b.topic != "+" && (b.topic == tokens[0] || tokens[0] == "+")
  }

  function Offers(t: Tree, at: seq<string>, tokens: seq<string>, level: nat): Found
    requires tokens != []
    decreases t, |t.children| + 1
  {
    Found(OffersFirst(t, |t.children|, at, tokens, level), Rest(tokens) && t.children != [])
  }

  function OffersFirst(t: Tree, k: nat, at: seq<string>, tokens: seq<string>, level: nat): seq<Offer>
    requires k <= |t.children| && tokens != []
    decreases t, k
  {
    if k == 0 then []
    else
      var b := t.children[k - 1];
      OffersFirst(t, k - 1, at, tokens, level) + OffersBranch(b, at + [b.topic], tokens, level, k == |t.children|)
  }

  // What one branch contributes; `last` says that it has no next sibling.
  function OffersBranch(b: Tree, at: seq<string>, tokens: seq<string>, level: nat, last: bool): seq<Offer>
    requires tokens != []
    decreases b, |b.children| + 2
  {
    if Rest(tokens) then
      Own(b, at) + if b.children != [] then Offers(b, at, tokens, level + 1).offers else []
    else if Enters(b, tokens) then
      if |tokens| > 1 then
        var below := Offers(b, at, tokens[1..], level + 1);
        below.offers + if below.flag || (last && tokens[1] == "#" && level > 0) then Own(b, at) else []
      else Own(b, at)
    else []
  }

  // mqtt3_retain_queue.
  function QueueOffers(root: Tree, tokens: seq<string>): seq<Offer>
    requires tokens != []
  {
    var i := Top(root, tokens);
    if HasTop(root, tokens) then Offers(root.children[i], [], tokens, 0).offers else []
  }

  // ----- What is offered -----

  // The filter reaches this topic only because "#" also stands for its parent level.
  predicate ParentMatch(filter: seq<string>, topic: seq<string>) {
    filter != [] && filter[|filter| - 1] == "#" && |topic| == |filter| - 1
  }

  // The search notices a parent level if its node has children, or is a last sibling further down.
  predicate ParentSeen(t: Tree, path: seq<string>, level: nat)
    decreases |path|
  {
    path != [] &&
      var i := FindChild(t.children, path[0], 0);
      i < |t.children| &&
        if |path| == 1 then t.children[i].children != [] || (i == |t.children| - 1 && level > 0)
        else ParentSeen(t.children[i], path[1..], level + 1)
  }

  predicate Due(t: Tree, at: seq<string>, tokens: seq<string>, level: nat, o: Offer) {
    && at <= o.path && |o.path| > |at|
    && var rel := o.path[|at|..];
       RetainedAt(t, rel) == Some(o.id) && LevelMatch(tokens, rel)
       && (ParentMatch(tokens, rel) ==> ParentSeen(t, rel, level))
  }

  predicate DueAtBranch(b: Tree, at: seq<string>, tokens: seq<string>, level: nat, last: bool, o: Offer)
    requires tokens != []
  {
    && at <= o.path
    && var rel := o.path[|at|..];
       RetainedAt(b, rel) == Some(o.id) && LevelMatch(tokens, [b.topic] + rel)
       && (ParentMatch(tokens, [b.topic] + rel) ==>
             if rel == [] then b.children != [] || (last && level > 0) else ParentSeen(b, rel, level + 1))
  }

  predicate Clean(t: Tree) { WellFormed(t) && RetainedOnTopics(t) }

  lemma {:induction false} OffersExact(t: Tree, at: seq<string>, tokens: seq<string>, level: nat, o: Offer)
    requires Clean(t) && tokens != [] && ValidPath(tokens)
    ensures o in Offers(t, at, tokens, level).offers <==> Due(t, at, tokens, level, o)
    decreases t, |t.children| + 1
  {
    OffersFirstExact(t, |t.children|, at, tokens, level, o);
    if at <= o.path && |o.path| > |at| {
      assert o.path[|at|] == o.path[|at|..][0];
    }
  }

  lemma {:induction false} OffersFirstExact(t: Tree, k: nat, at: seq<string>, tokens: seq<string>, level: nat, o: Offer)
    requires Clean(t) && tokens != [] && ValidPath(tokens) && k <= |t.children|
    ensures o in OffersFirst(t, k, at, tokens, level) <==>
              Due(t, at, tokens, level, o) && FindChild(t.children, o.path[|at|], 0) < k
    decreases t, k
  {
    if k > 0 {
      var b := t.children[k - 1];
      var at' := at + [b.topic];
      OffersFirstExact(t, k - 1, at, tokens, level, o);
      OffersBranchExact(b, at', tokens, level, k == |t.children|, o);
      FindOnly(t.children, k - 1);
      assert at'[|at|] == b.topic;
      assert at' <= o.path <==> at <= o.path && |o.path| > |at| && o.path[|at|] == b.topic;
      if at' <= o.path {
        assert o.path[|at|..] == [b.topic] + o.path[|at'|..];
        assert o.path[|at|..][1..] == o.path[|at'|..];
      }
    }
  }

  lemma {:induction false} OwnExact(b: Tree, at: seq<string>, o: Offer)
    ensures o in Own(b, at) <==> o.path == at && RetainedAt(b, []) == Some(o.id)
  {
  }

  lemma {:induction false} OffersBranchExact(b: Tree, at: seq<string>, tokens: seq<string>, level: nat, last: bool,
                                             o: Offer)
    requires Clean(b) && tokens != [] && ValidPath(tokens)
    ensures o in OffersBranch(b, at, tokens, level, last) <==> DueAtBranch(b, at, tokens, level, last, o)
    decreases b, |b.children| + 2
  {
    OwnExact(b, at, o);
    if at <= o.path {
      var rel := o.path[|at|..];
      assert ([b.topic] + rel)[1..] == rel && ([b.topic] + rel)[0] == b.topic;
      assert o.path == at <==> rel == [];
      if b.topic == "+" { NoneRetained(b, rel); }
      assert Rest(tokens) <==> |tokens| == 1 && tokens[0] == "#";
      if Rest(tokens) {
        OffersExact(b, at, tokens, level + 1, o);
      } else {
        if Enters(b, tokens) {
          assert LevelMatch(tokens, [b.topic] + rel) == LevelMatch(tokens[1..], rel);
          if |tokens| > 1 {
            assert ValidPath(tokens[1..]);
            OffersExact(b, at, tokens[1..], level + 1, o);
            assert Rest(tokens[1..]) <==> |tokens| == 2 && tokens[1] == "#";
            assert ParentMatch(tokens, [b.topic] + rel) <==> ParentMatch(tokens[1..], rel);
            if rel == [] { MatchNoLevels(tokens[1..]); }
            if tokens[1] == "#" { assert |tokens| == 2; }
          } else {
            MatchNoLevels(tokens[1..]);
            if rel != [] { assert tokens[1..] == []; }
          }
        }
      }
    } else {
      if !Rest(tokens) && Enters(b, tokens) && |tokens| > 1 {
        assert ValidPath(tokens[1..]);
        OffersExact(b, at, tokens[1..], level + 1, o);
      }
      if Rest(tokens) { OffersExact(b, at, tokens, level + 1, o); }
    }
  }

  // Only nothing, or "#", matches when no topic level is left.
  lemma {:induction false} MatchNoLevels(f: seq<string>)
    ensures LevelMatch(f, []) <==> f == [] || (|f| == 1 && f[0] == "#")
  {
  }

  // ----- Each message at most once -----

  lemma {:induction false} OffersOnce(t: Tree, at: seq<string>, tokens: seq<string>, level: nat)
    requires Clean(t) && tokens != [] && ValidPath(tokens)
    ensures NoRepeat(Offers(t, at, tokens, level).offers)
    decreases t, |t.children| + 1
  {
    OffersFirstOnce(t, |t.children|, at, tokens, level);
  }

  lemma {:induction false} OffersFirstOnce(t: Tree, k: nat, at: seq<string>, tokens: seq<string>, level: nat)
    requires Clean(t) && tokens != [] && ValidPath(tokens) && k <= |t.children|
    ensures NoRepeat(OffersFirst(t, k, at, tokens, level))
    decreases t, k
  {
    if k > 0 {
      var b, last := t.children[k - 1], k == |t.children|;
      var at' := at + [b.topic];
      OffersFirstOnce(t, k - 1, at, tokens, level);
      OffersBranchOnce(b, at', tokens, level, last);
      FindOnly(t.children, k - 1);
      assert at'[|at|] == b.topic;
      forall o | o in OffersFirst(t, k - 1, at, tokens, level)
        ensures o !in OffersBranch(b, at', tokens, level, last)
      {
        OffersFirstExact(t, k - 1, at, tokens, level, o);
        OffersBranchExact(b, at', tokens, level, last, o);
      }
      NoRepeatConcat(OffersFirst(t, k - 1, at, tokens, level), OffersBranch(b, at', tokens, level, last));
    }
  }

  lemma {:induction false} OffersBranchOnce(b: Tree, at: seq<string>, tokens: seq<string>, level: nat, last: bool)
    requires Clean(b) && tokens != [] && ValidPath(tokens)
    ensures NoRepeat(OffersBranch(b, at, tokens, level, last))
    decreases b, |b.children| + 2
  {
    var own := Own(b, at);
    var rest := if Rest(tokens) then tokens else tokens[1..];
    if rest != [] {
      assert ValidPath(rest);
      var below := Offers(b, at, rest, level + 1).offers;
      OffersOnce(b, at, rest, level + 1);
      forall o | o in below
        ensures o !in own
      {
        OffersExact(b, at, rest, level + 1, o);
      }
      NoRepeatConcat(own, below);
      NoRepeatConcat(below, own);
      assert own + [] == own && below + [] == below;
    }
  }

  // ----- A new subscription -----

  // A filter that uses both wildcards.
  predicate MixesWildcards(f: seq<string>) {
    f != [] && f[|f| - 1] == "#" && exists i :: 0 <= i < |f| && f[i] == "+"
  }

  // Following a plain filter down to its "#", the level above it has that child.
  lemma {:induction false} ParentHasChild(t: Tree, f: seq<string>, p: seq<string>, level: nat)
    requires HasNode(t, f) && |f| >= 2 && f[|f| - 1] == "#" && |p| == |f| - 1
    requires forall i :: 0 <= i < |p| ==> p[i] == f[i]
    ensures ParentSeen(t, p, level)
    decreases |p|
  {
    var i := FindChild(t.children, f[0], 0);
    if |p| == 1 {
      assert f[1..][0] == "#";
    } else {
      ParentHasChild(t.children[i], f[1..], p[1..], level + 1);
    }
  }

  // Without "+" a parent level is the filter itself, less its "#".
  lemma {:induction false} PlainParent(f: seq<string>, p: seq<string>)
    requires LevelMatch(f, p) && ValidPath(f) && ParentMatch(f, p) && !MixesWildcards(f)
    ensures forall i :: 0 <= i < |p| ==> p[i] == f[i]
    decreases |p|
  {
    if p != [] {
      assert f[0] != "#" && f[0] != "+";
      assert ValidPath(f[1..]) && ParentMatch(f[1..], p[1..]);
      assert !MixesWildcards(f[1..]) by {
        forall i | 0 <= i < |f[1..]| ensures f[1..][i] != "+" { assert f[1..][i] == f[i + 1]; }
      }
      PlainParent(f[1..], p[1..]);
      forall i | 0 <= i < |p| ensures p[i] == f[i] {
        if i > 0 { assert p[i] == p[1..][i - 1] && f[i] == f[1..][i - 1]; }
      }
    }
  }

  /**
   What a new subscription is offered, for every valid filter: a retained message is offered
   exactly when its topic matches and, if it matches only as the parent level of "#", when the
   search notices that level. No message is offered twice.
   */
  lemma {:induction false} OfferedExactly(root: Tree, flat: Flat, f: seq<string>)
    requires RootWellFormed(root) && Agrees(root, flat) && FilterTokens(f)
    ensures forall o: Offer :: o in QueueOffers(root, f) <==>
              && o.path != [] && Filed(o.path) in flat.retained && flat.retained[Filed(o.path)] == o.id
              && Tokens.TokensMatch(f, o.path)
              && (ParentMatch(f, o.path) ==> ParentSeen(root.children[Top(root, f)], o.path, 0))
    ensures NoRepeat(QueueOffers(root, f))
  {
    forall o: Offer
      ensures o in QueueOffers(root, f) <==>
                && o.path != [] && RetainedAt(root, Filed(o.path)) == Some(o.id) && Tokens.TokensMatch(f, o.path)
                && (ParentMatch(f, o.path) ==> ParentSeen(root.children[Top(root, f)], o.path, 0))
    {
      OfferedAt(root, f, o);
    }
    if HasTop(root, f) {
      OffersOnce(root.children[Top(root, f)], [], f, 0);
    }
  }

  lemma {:induction false} OfferedAt(root: Tree, f: seq<string>, o: Offer)
    requires RootWellFormed(root) && FilterTokens(f)
    ensures o.path != [] && RetainedAt(root, Filed(o.path)).Some? && o.path[0] == f[0] ==> HasTop(root, f)
    ensures o in QueueOffers(root, f) <==>
              && o.path != [] && RetainedAt(root, Filed(o.path)) == Some(o.id) && Tokens.TokensMatch(f, o.path)
              && (ParentMatch(f, o.path) ==> ParentSeen(root.children[Top(root, f)], o.path, 0))
  {
    if o.path != [] { FiledParts(o.path, Filed(o.path)); }
    if HasTop(root, f) {
      var top := root.children[Top(root, f)];
      OffersExact(top, [], f, 0, o);
      assert o.path[0..] == o.path && [] <= o.path;
      if o.path != [] && RetainedAt(top, o.path).Some? {
        assert o.path[0] == top.topic;
      }
    }
  }

  /**
   Right after the subscription is in the tree, a filter that does not combine "+" with "#" is
   offered every retained message whose topic matches, and nothing else.
   */
  lemma {:induction false} OfferedAll(root: Tree, flat: Flat, f: seq<string>)
    requires RootWellFormed(root) && Agrees(root, flat) && FilterTokens(f)
    requires HasTop(root, f) && HasNode(root.children[Top(root, f)], f) && !MixesWildcards(f)
    ensures forall o: Offer :: o in QueueOffers(root, f) <==>
              && o.path != [] && Filed(o.path) in flat.retained && flat.retained[Filed(o.path)] == o.id
              && Tokens.TokensMatch(f, o.path)
  {
    OfferedExactly(root, flat, f);
    var top := root.children[Top(root, f)];
    forall p: seq<string> | p != [] && LevelMatch(f, p) && ParentMatch(f, p)
      ensures ParentSeen(top, p, 0)
    {
      PlainParent(f, p);
      ParentHasChild(top, f, p, 0);
    }
  }

  // Subscribing makes the node that OfferedAll asks for.
  lemma {:induction false} SubscribedHasNode(root: Tree, f: seq<string>, leaf: Leaf)
    requires RootWellFormed(root) && FilterTokens(f)
    ensures var r := SubAdd(root, f, leaf); HasTop(r, f) && HasNode(r.children[Top(r, f)], f)
  {
    var i := Top(root, f);
    var top := if HasTop(root, f) then root.children[i] else Empty(f[0]);
    var t := Add(top, f, Some(leaf));
    AddMakesNode(top, f, Some(leaf));
    AddKeepsTopic(top, f, Some(leaf));
    if HasTop(root, f) { FindSame(root.children, root.children[i := t], f[0]); }
    else { FindPrepend(root.children, t, f[0]); }
  }

  // The tree with a message retained for "x", and with a subscription to "+/#" added.
  const RetainedX := Node("", [], None,
                          [Node("", [], None, [Node("", [], None, [Node("x", [], Some(1), [])])]), Empty("$SYS")])

  const PlusHash := Node("+", [], None, [Node("#", [Leaf("c", 0)], None, [])])

  const SubscribedX :=
    Node("", [], None, [Node("", [], None, [Node("", [], None, [Node("x", [], Some(1), []), PlusHash])]),
                        Empty("$SYS")])

  lemma {:induction false} RetainedFirst()
    ensures Retain(Opened, ["", "x"], Some(1)) == RetainedX
  {
    var t := Empty("");
    assert ["", "x"][1..] == ["x"] && ["x"][1..] == [];
    var x := Node("x", [], None, []);
    assert Add(t, ["x"], None) == Node("", [], None, [x]);
    var g := Node("", [], None, [Node("", [], None, [x])]);
    assert Add(t, ["", "x"], None) == g;
    var gx := g.children[0];
    assert SetBranch(x, ["x"], Some(1)) == x.(retained := Some(1));
    assert SetFirst(gx, 1, ["x"], Some(1)) == [x.(retained := Some(1))];
    assert SetRetained(gx, ["x"], Some(1)) == Node("", [], None, [x.(retained := Some(1))]);
    assert SetFirst(g, 1, ["", "x"], Some(1)) == [SetRetained(gx, ["x"], Some(1))];
    assert Top(Opened, ["", "x"]) == 0;
    assert Opened.children[0 := SetRetained(g, ["", "x"], Some(1))] == RetainedX.children;
  }

  lemma {:induction false} FilterSecond()
    ensures SubAdd(RetainedX, ["", "+", "#"], Leaf("c", 0)) == SubscribedX
  {
    var who := Some(Leaf("c", 0));
    assert ["", "+", "#"][1..] == ["+", "#"] && ["+", "#"][1..] == ["#"] && ["#"][1..] == [];
    assert PutLeaf([], Leaf("c", 0)) == [Leaf("c", 0)];
    assert Add(Empty("#"), [], who) == PlusHash.children[0];
    assert Add(Empty("+"), ["#"], who) == PlusHash;
    var top := RetainedX.children[0];
    var inner := top.children[0];
    assert FindChild(inner.children, "+", 0) == 1;
    assert Add(inner, ["+", "#"], who) == inner.(children := [inner.children[0], PlusHash]);
    assert FindChild(top.children, "", 0) == 0;
    assert Add(top, ["", "+", "#"], who) == SubscribedX.children[0];
    assert Top(RetainedX, ["", "+", "#"]) == 0;
  }

  lemma {:induction false} UnseenX()
    ensures RetainedAt(SubscribedX, ["", "", "x"]) == Some(1)
    ensures Top(SubscribedX, ["", "+", "#"]) == 0 && !ParentSeen(SubscribedX.children[0], ["", "x"], 0)
  {
    assert ["", "", "x"][1..] == ["", "x"] && ["", "x"][1..] == ["x"] && ["x"][1..] == [];
    var inner := SubscribedX.children[0].children[0];
    assert FindChild(inner.children, "x", 0) == 0;
    assert !ParentSeen(inner, ["x"], 1);
  }

  lemma {:induction false} MatchesX()
    ensures Tokens.TokensMatch(["", "+", "#"], ["", "x"]) && ParentMatch(["", "+", "#"], ["", "x"])
  {
    var f, x := ["", "+", "#"], ["", "x"];
    assert f[1..] == ["+", "#"] && x[1..] == ["x"] && ["+", "#"][1..] == ["#"] && ["x"][1..] == [];
    assert LevelMatch(["+", "#"], ["x"]);
  }

  // Publishing to "x" with RETAIN, and subscribing to "+/#".
  const XAndFilter := [RetainedPublish(["", "x"], Some(1)), Subscribe(["", "+", "#"], Leaf("c", 0))]

  lemma {:induction false} RunX()
    ensures forall i :: 0 <= i < |XAndFilter| ==> Admissible(XAndFilter[i])
    ensures Run(XAndFilter).root == SubscribedX
  {
    var ops := XAndFilter;
    RetainedFirst();
    FilterSecond();
    hide Retain, SubAdd, RetainedX, SubscribedX;
    assert ops[..1] == [ops[0]] && [ops[0]][..0] == [];
    assert Run([ops[0]]).root == RetainedX;
  }

  /**
   A filter with both: "x" is retained, a client subscribes to "+/#", which matches "x", and is
   not offered the message, because the node of "x" has no children and a later sibling.
   */
  lemma {:induction false} MixedFilterMisses()
    ensures forall i :: 0 <= i < |XAndFilter| ==> Admissible(XAndFilter[i])
    ensures var root, x, f := Run(XAndFilter).root, ["", "x"], ["", "+", "#"];
      && RetainedAt(root, Filed(x)) == Some(1) && Tokens.TokensMatch(f, x)
      && forall o :: o in QueueOffers(root, f) ==> o.path != x
  {
    hide SubscribedX, QueueOffers, ParentSeen, RetainedAt, Run, XAndFilter, Agrees;
    RunX();
    TreeIsFlatTable(XAndFilter);
    UnseenX();
    MatchesX();
    var root, x, f := Run(XAndFilter).root, ["", "x"], ["", "+", "#"];
    assert Filed(x) == ["", "", "x"];
    forall o | o in QueueOffers(root, f) ensures o.path != x {
      OfferedAt(root, f, o);
    }
  }
}
