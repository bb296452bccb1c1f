/**
 The subscription tree as src/subs.c keeps it: nodes linked in place, edited through their
 parents. Every method is proved against the operation of the same name on tree values.
 */
module SubHierarchy {
  import opened Topics
  import opened MessageQueue
  import opened SubTree
  import Subscriptions
  import RetainSearch

  // The counters of struct mosquitto_db that the tree functions maintain.
  class Counters {
    var subscriptionCount: int
    var retainedCount: int

    constructor ()
      ensures subscriptionCount == 0 && retainedCount == 0
    {
      subscriptionCount, retainedCount := 0, 0;
    }
  }

  class SubHier {
    const topic: string
    var subs: seq<Leaf>
    var retained: Option<nat>
    var children: seq<SubHier>

    ghost var Repr: set<SubHier>   // this node and all below it
    ghost var tree: Tree           // the value of this node

    ghost predicate Valid()
      reads this, Repr
      decreases Repr
      ensures Valid() ==> this in Repr && tree.topic == topic && tree.retained == retained
      ensures Valid() ==> |tree.children| == |children|
    {
      && this in Repr
      && tree.topic == topic && tree.subs == subs && tree.retained == retained
      && |tree.children| == |children|
      && (forall i :: 0 <= i < |children| ==> ChildValid(i))
      && (forall i, j :: 0 <= i < j < |children| ==>
            ChildValid(i) && ChildValid(j) && children[i].Repr !! children[j].Repr)
    }

    ghost predicate ChildValid(i: nat)
      requires this in Repr && i < |children| && i < |tree.children|
      reads this, Repr
      decreases Repr, 0
    {
      var c := children[i];
      && c in Repr && c.Repr <= Repr && this !in c.Repr
      && c.Valid() && c.tree == tree.children[i]
    }

    // Valid, except that child i has changed without this node knowing.
    ghost predicate ValidBut(i: nat)
      reads this, Repr, set j | 0 <= j < |children| :: children[j]
      reads set j, o | 0 <= j < |children| && o in children[j].Repr :: o
    {
      && this in Repr && i < |children|
      && tree.topic == topic && tree.subs == subs && tree.retained == retained
      && |tree.children| == |children|
      && (forall j :: 0 <= j < |children| && j != i ==> ChildValid(j) && children[j].Repr !! children[i].Repr)
      && (forall j, k :: 0 <= j < k < |children| && j != i && k != i ==> children[j].Repr !! children[k].Repr)
      && children[i].Valid() && this !in children[i].Repr
    }

    // What a valid node says about child i.
    lemma {:induction false} ChildReady(i: nat)
      requires Valid() && i < |children|
      ensures i < |tree.children| && children[i].Valid() && children[i].tree == tree.children[i]
      ensures children[i].topic == tree.children[i].topic
      ensures children[i] in Repr && children[i].Repr <= Repr && this !in children[i].Repr
    {
      assert ChildValid(i);
    }

    ghost method Adopt(i: nat)
      requires ValidBut(i)
      modifies this`Repr, this`tree
      ensures Valid()
      ensures Repr == old(Repr) + children[i].Repr
      ensures tree == old(tree).(children := old(tree).children[i := children[i].tree])
    {
      Repr := Repr + children[i].Repr;
      tree := tree.(children := tree.children[i := children[i].tree]);
      forall j | 0 <= j < |children|
        ensures ChildValid(j)
      {
        assert j != i ==> old(ChildValid(j));
      }
    }

    constructor (topic: string)
      ensures Valid() && fresh(Repr) && tree == Empty(topic)
    {
      this.topic := topic;
      subs, retained, children := [], None, [];
      tree := Empty(topic);
      Repr := {this};
    }

    // Position of the child with this name, or the number of children.
    method FindBranch(name: string) returns (i: nat)
      requires Valid()
      ensures i == FindChild(tree.children, name, 0)
    {
      i := 0;
      while i < |children|
        invariant i <= |children|
        invariant FindChild(tree.children, name, 0) == FindChild(tree.children, name, i)
      {
        assert ChildValid(i);
        if children[i].topic == name {
          return;
        }
        i := i + 1;
      }
    }

    // _sub_add (src/subs.c:235-294).
    method AddSub(db: Counters, path: seq<string>, who: Option<Leaf>)
      requires Valid()
      modifies Repr, db`subscriptionCount
      ensures Valid() && fresh(Repr - old(Repr))
      ensures tree == Add(old(tree), path, who)
      ensures db.subscriptionCount - CountLeaves(tree) == old(db.subscriptionCount - CountLeaves(tree))
      decreases |path|
    {
      hide CountLeavesFirst, SubHier.Valid, SubHier.ValidBut;
      if path == [] {
        AddCounts(tree, path, who);
        if who.Some? {
          AddLeaf(db, who.value);
        }
        return;
      }
      var i := FindBranch(path[0]);
      if i == |children| {
        LinkEmpty(path[0]);
      }
      ChildReady(i);
      var branch := children[i];
      label before:
      branch.AddSub(db, path[1..], who);
      ReplaceChild(tree, i, branch.tree, |tree.children|);
      OthersUntouched@before(i);
      Adopt(i);
    }

    // A change confined to what child i owned leaves everything else in place.
    twostate lemma {:induction false} OthersUntouched(i: nat)
      requires old(Valid()) && i < |children|
      requires unchanged(this) && forall o :: o in old(Repr) && o !in old(children[i].Repr) ==> unchanged(o)
      requires children[i].Valid() && fresh(children[i].Repr - old(children[i].Repr))
      ensures ValidBut(i)
    {
      assert old(ChildValid(i));
      forall j | 0 <= j < |children| && j != i
        ensures ChildValid(j) && children[j].Repr !! children[i].Repr
      {
        assert old(ChildValid(j)) && old(children[j].Repr !! children[i].Repr);
        assert children[j].Repr == old(children[j].Repr);
        forall o | o in old(children[j].Repr) ensures unchanged(o) {}
      }
    }

    // Link a new empty node behind the last sibling.
    method LinkEmpty(name: string)
      requires Valid()
      modifies this
      ensures Valid() && fresh(Repr - old(Repr))
      ensures tree == old(tree).(children := old(tree).children + [Empty(name)])
      ensures |children| == |old(children)| + 1
      ensures CountLeaves(tree) == CountLeaves(old(tree))
    {
      AppendChild(tree, Empty(name));
      BareCounts(Empty(name));
      var branch := new SubHier(name);
      children := children + [branch];
      Repr := Repr + branch.Repr;
      tree := tree.(children := tree.children + [branch.tree]);
      forall j | 0 <= j < |children|
        ensures ChildValid(j)
        ensures j < |children| - 1 ==> children[j].Repr !! branch.Repr
      {
        if j < |children| - 1 { assert old(ChildValid(j)); }
      }
    }

    // The end of the path: update the client's leaf or append one.
    method AddLeaf(db: Counters, leaf: Leaf)
      requires Valid()
      modifies this, db`subscriptionCount
      ensures Valid() && Repr == old(Repr)
      ensures tree == old(tree).(subs := PutLeaf(old(tree).subs, leaf))
      ensures db.subscriptionCount == old(db.subscriptionCount) + |tree.subs| - |old(tree).subs|
    {
      var i := 0;
      while i < |subs|
        invariant i <= |subs|
        invariant FindLeaf(subs, leaf.client, 0) == FindLeaf(subs, leaf.client, i)
      {
        if subs[i].client == leaf.client {
          SetSubs(subs[i := leaf]);
          return;
        }
        i := i + 1;
      }
      SetSubs(subs + [leaf]);
      db.subscriptionCount := db.subscriptionCount + 1;
    }

    method SetSubs(subs': seq<Leaf>)
      requires Valid()
      modifies this`subs, this`tree
      ensures Valid() && tree == old(tree).(subs := subs')
    {
      subs := subs';
      tree := tree.(subs := subs);
      forall j | 0 <= j < |children|
        ensures ChildValid(j)
      {
        assert old(ChildValid(j));
      }
    }

    // Unlink a bare child.
    method Unlink(i: nat)
      requires Valid() && i < |children| && Bare(tree.children[i])
      modifies this
      ensures Valid() && Repr == old(Repr)
      ensures tree == old(tree).(children := Drop(old(tree).children, i))
      ensures children == Drop(old(children), i)
    {
      children := Drop(children, i);
      tree := tree.(children := Drop(tree.children, i));
      forall j | 0 <= j < |children|
        ensures ChildValid(j)
      {
        assert old(ChildValid(if j < i then j else j + 1));
      }
      forall j, k | 0 <= j < k < |children|
        ensures children[j].Repr !! children[k].Repr
      {
        assert old(children)[if j < i then j else j + 1].Repr !! old(children)[if k < i then k else k + 1].Repr;
      }
    }

    // Whether the node carries nothing: no children, no leaves, no retained message.
    method IsBare() returns (b: bool)
      requires Valid()
      ensures b == Bare(tree)
    {
      b := children == [] && subs == [] && retained == None;
    }

    // _sub_remove (src/subs.c:296-341).
    method RemoveSub(db: Counters, path: seq<string>, client: string)
      requires Valid()
      modifies Repr, db`subscriptionCount
      ensures Valid() && Repr == old(Repr)
      ensures tree == Remove(old(tree), path, client)
      ensures db.subscriptionCount - CountLeaves(tree) == old(db.subscriptionCount - CountLeaves(tree))
      decreases |path|
    {
      if path == [] {
        RemoveCounts(tree, path, client);
        var k := 0;
        while k < |subs|
          invariant k <= |subs|
          invariant FindLeaf(subs, client, 0) == FindLeaf(subs, client, k)
        {
          if subs[k].client == client {
            db.subscriptionCount := db.subscriptionCount - 1;
            SetSubs(Drop(subs, k));
            return;
          }
          k := k + 1;
        }
        return;
      }
      var i := FindBranch(path[0]);
      if i == |children| {
        return;
      }
      assert ChildValid(i);
      var branch := children[i];
      ReplaceCounts(tree, i, Remove(tree.children[i], path[1..], client));
      label before:
      branch.RemoveSub(db, path[1..], client);
      OthersUntouched@before(i);
      ghost var t := tree;
      Adopt(i);
      var bare := branch.IsBare();
      if bare {
        assert Drop(t.children[i := branch.tree], i) == Drop(t.children, i);
        Unlink(i);
      }
    }

    // _subs_clean_session (src/subs.c:493-543).
    method CleanSession(db: Counters, client: string)
      requires Valid()
      modifies Repr, db`subscriptionCount
      ensures Valid() && Repr == old(Repr)
      ensures tree == Clean(old(tree), client)
      ensures db.subscriptionCount == old(db.subscriptionCount) - CountClient(old(tree), client)
      decreases tree, 0
    {
      hide Clean, CleanFirst, CountClient, CountClientFirst, OtherLeaves, SubHier.Valid;
      ghost var t0 := tree;
      CleanLeaves(db, client);
      var i := 0;
      ghost var k := 0;
      CleanEnds(t0, client);
      while i < |children|
        invariant Valid() && Repr == old(Repr) && k <= |t0.children|
        invariant i == |CleanFirst(t0, k, client)|
        invariant tree == t0.(subs := OtherLeaves(t0.subs, client),
                              children := CleanFirst(t0, k, client) + t0.children[k..])
        invariant db.subscriptionCount ==
                    old(db.subscriptionCount) - (|t0.subs| - |OtherLeaves(t0.subs, client)|)
                    - CountClientFirst(t0, k, client)
        decreases |t0.children| - k
      {
        CleanHead(t0, k, client);
        var bare := CleanChild(db, i, client);
        if !bare {
          i := i + 1;
        }
        k := k + 1;
      }
    }

    // Clean child i and unlink it if that leaves it bare.
    method CleanChild(db: Counters, i: nat, client: string) returns (bare: bool)
      requires Valid() && i < |children|
      modifies Repr, db`subscriptionCount
      ensures Valid() && Repr == old(Repr)
      ensures bare == Bare(Clean(old(tree).children[i], client))
      ensures tree == old(tree).(children := Replace(old(tree).children, i, Clean(old(tree).children[i], client)))
      ensures |children| == |tree.children|
      ensures db.subscriptionCount == old(db.subscriptionCount) - CountClient(old(tree).children[i], client)
      decreases tree.children[i], 1
    {
      assert ChildValid(i);
      var child := children[i];
      label before:
      child.CleanSession(db, client);
      OthersUntouched@before(i);
      ghost var t := tree;
      Adopt(i);
      bare := child.IsBare();
      if bare {
        assert Drop(t.children[i := child.tree], i) == Drop(t.children, i);
        Unlink(i);
      }
    }

    // Drop all leaves of the client.
    method CleanLeaves(db: Counters, client: string)
      requires Valid()
      modifies this, db`subscriptionCount
      ensures Valid() && Repr == old(Repr)
      ensures tree == old(tree).(subs := OtherLeaves(old(tree).subs, client))
      ensures db.subscriptionCount == old(db.subscriptionCount) - (|old(tree).subs| - |tree.subs|)
    {
      var kept: seq<Leaf> := [];
      var i := 0;
      assert subs[..0] == [];
      while i < |subs|
        invariant i <= |subs| && subs == old(subs)
        invariant kept == OtherLeaves(subs[..i], client)
        invariant db.subscriptionCount == old(db.subscriptionCount) - (i - |kept|)
        invariant Valid() && tree == old(tree) && Repr == old(Repr)
      {
        assert subs[..i + 1][..i] == subs[..i];
        if subs[i].client == client {
          db.subscriptionCount := db.subscriptionCount - 1;
        } else {
          kept := kept + [subs[i]];
        }
        i := i + 1;
      }
      assert subs[..i] == subs;
      SetSubs(kept);
    }

    // _subs_process (src/subs.c:76-152): set or clear the retained message if `value` says so, and
    // list the leaves the publication goes to. `at` is the node's path, kept for the specification.
    method Process(db: Counters, store: MessageStore, at: seq<string>,
                   value: Option<Option<nat>>) returns (hits: seq<Hit>)
      requires Valid() && RetainedKnown(tree, store.refs.Keys) && ValueKnown(value, store.refs.Keys)
      modifies this`retained, this`tree, db`retainedCount, store`refs
      ensures Valid() && RetainedKnown(tree, store.refs.Keys) && store.refs.Keys == old(store.refs.Keys)
      ensures tree == if value.Some? then old(tree).(retained := value.value) else old(tree)
      ensures hits == LeafHits(tree, at)
      ensures db.retainedCount - CountRetained(tree) == old(db.retainedCount - CountRetained(tree))
      ensures RetainFollows(old(store.refs), old(tree), store.refs, tree)
    {
      if value.Some? {
        var set_ := tree.(retained := value.value);
        assert set_.children[..|tree.children|] == tree.children[..|tree.children|];
        SameChildren(tree, set_, |tree.children|);
        if retained.Some? {
          store.refs := store.refs[retained.value := store.refs[retained.value] - 1];
          db.retainedCount := db.retainedCount - 1;
        }
        retained := value.value;
        if value.value.Some? {
          store.refs := store.refs[value.value.value := store.refs[value.value.value] + 1];
          db.retainedCount := db.retainedCount + 1;
        }
        assert store.refs.Keys == old(store.refs.Keys);
        tree := set_;
        forall j | 0 <= j < |children| ensures ChildValid(j) { assert old(ChildValid(j)); }
      }
      hits := [];
      var k := 0;
      while k < |subs|
        invariant k <= |subs| == |LeafHits(tree, at)| && hits == LeafHits(tree, at)[..k]
      {
        assert LeafHits(tree, at)[..k + 1] == LeafHits(tree, at)[..k] + [LeafHits(tree, at)[k]];
        hits := hits + [Hit(at, subs[k])];
        k := k + 1;
      }
      assert LeafHits(tree, at)[..k] == LeafHits(tree, at);
    }

    // _sub_search (src/subs.c:343-373). `value` is what to do to the retained message of the topic's
    // own node: nothing (None), clear it (Some(None)) or set it.
    method SearchSubs(db: Counters, store: MessageStore, tokens: seq<string>, at: seq<string>,
                      value: Option<Option<nat>>)
      returns (hits: seq<Hit>)
      requires Valid() && RetainedKnown(tree, store.refs.Keys) && ValueKnown(value, store.refs.Keys)
      modifies Repr, db`retainedCount, store`refs
      ensures Valid() && Repr == old(Repr) && RetainedKnown(tree, store.refs.Keys)
      ensures store.refs.Keys == old(store.refs.Keys)
      ensures tree == SetIf(old(tree), tokens, value)
      ensures hits == Search(old(tree), at, tokens)
      ensures db.retainedCount - CountRetained(tree) == old(db.retainedCount - CountRetained(tree))
      ensures RetainFollows(old(store.refs), old(tree), store.refs, tree)
      decreases tree, 0
    {
      hide RetainFollows, SetIf, Search, SearchFirst, SearchBranch, RetainedKnown, SubHier.Valid, CountRetained,
        SetIfFirst;
      ghost var t0 := tree;
      hits := [];
      var k := 0;
      SearchEnds(t0, at, tokens, value);
      RetainFollowsRefl(store.refs, tree);
      ChildrenHere();
      while k < |children|
        invariant Valid() && Repr == old(Repr) && k <= |children| == |t0.children|
        invariant RetainedKnown(tree, store.refs.Keys) && store.refs.Keys == old(store.refs.Keys)
        invariant tree == t0.(children := SetIfFirst(t0, k, tokens, value))
        invariant hits == SearchFirst(t0, k, at, tokens)
        invariant db.retainedCount - CountRetained(tree) == old(db.retainedCount - CountRetained(tree))
        invariant RetainFollows(old(store.refs), t0, store.refs, tree)
      {
        SearchHead(t0, k, at, tokens, value);
        ChildrenHere();
        ghost var refs, t := store.refs, tree;
        var found := SearchBranchAt(db, store, k, tokens, at + [children[k].topic], value);
        RetainFollowsTrans(old(store.refs), t0, refs, t, store.refs, tree);
        hits := hits + found;
        k := k + 1;
      }
    }

    lemma {:induction false} ChildrenHere()
      requires Valid()
      ensures |children| == |tree.children|
      ensures forall k :: 0 <= k < |children| ==> children[k].topic == tree.children[k].topic
    {
      forall k | 0 <= k < |children| ensures children[k].topic == tree.children[k].topic { assert ChildValid(k); }
    }

    // One turn of the loop in _sub_search, on child k.
    method SearchBranchAt(db: Counters, store: MessageStore, k: nat, tokens: seq<string>, at: seq<string>,
                          value: Option<Option<nat>>)
      returns (hits: seq<Hit>)
      requires Valid() && k < |children| && RetainedKnown(tree, store.refs.Keys) && ValueKnown(value, store.refs.Keys)
      modifies Repr, db`retainedCount, store`refs
      ensures Valid() && Repr == old(Repr) && |children| == |old(children)|
      ensures RetainedKnown(tree, store.refs.Keys) && store.refs.Keys == old(store.refs.Keys)
      ensures tree == old(tree).(children := old(tree).children[k := SetIfBranch(old(tree).children[k], tokens, value)])
      ensures hits == SearchBranch(old(tree).children[k], at, tokens)
      ensures db.retainedCount - CountRetained(tree) == old(db.retainedCount - CountRetained(tree))
      ensures RetainFollows(old(store.refs), old(tree), store.refs, tree)
      decreases tree.children[k], 2
    {
      assert ChildValid(k);
      var branch := children[k];
      ghost var t0 := tree;
      KnownChild(t0, k, store.refs.Keys);
      hide RetainFollows, SetIfBranch, SearchBranch, RetainedKnown;
      label before:
      hits := branch.Visit(db, store, tokens, at, value);
      OthersUntouched@before(k);
      ChildFollows(old(store.refs), store.refs, t0, k, branch.tree);
      KnownReplace(t0, k, branch.tree, store.refs.Keys);
      Adopt(k);
    }

    // What the loop does with this node as a branch.
    method Visit(db: Counters, store: MessageStore, tokens: seq<string>, at: seq<string>, value: Option<Option<nat>>)
      returns (hits: seq<Hit>)
      requires Valid() && RetainedKnown(tree, store.refs.Keys) && ValueKnown(value, store.refs.Keys)
      modifies Repr, db`retainedCount, store`refs
      ensures Valid() && Repr == old(Repr)
      ensures RetainedKnown(tree, store.refs.Keys) && store.refs.Keys == old(store.refs.Keys)
      ensures tree == SetIfBranch(old(tree), tokens, value)
      ensures hits == SearchBranch(old(tree), at, tokens)
      ensures db.retainedCount - CountRetained(tree) == old(db.retainedCount - CountRetained(tree))
      ensures RetainFollows(old(store.refs), old(tree), store.refs, tree)
      decreases tree, 1
    {
      ghost var t0 := tree;
      VisitUnfold(t0, tokens, at, value);
      RetainFollowsRefl(store.refs, tree);
      hide RetainFollows, SetIfBranch, SearchBranch, RetainedKnown, SetIf, Search;
      hits := [];
      if tokens != [] && (topic == tokens[0] || topic == "+") {
        var sr := if topic == "+" then None else value;
        hits := SearchSubs(db, store, tokens[1..], at, sr);
        ghost var refs, t := store.refs, tree;
        if |tokens| == 1 {
          var own := Process(db, store, at, sr);
          RetainFollowsTrans(old(store.refs), t0, refs, t, store.refs, tree);
          SetIfLeaves(t0, tokens[1..], sr, at);
          hits := hits + own;
        }
      } else if topic == "#" && children == [] {
        hits := Process(db, store, at, None);
      }
    }

    // ----- The same on the root, db->subs -----

    // mqtt3_sub_add behind the tokeniser (src/subs.c:386-416).
    method RootAdd(db: Counters, tokens: seq<string>, leaf: Leaf)
      requires Valid() && tokens != []
      modifies Repr, db`subscriptionCount
      ensures Valid() && fresh(Repr - old(Repr))
      ensures tree == Subscriptions.SubAdd(old(tree), tokens, leaf)
      ensures db.subscriptionCount - CountLeaves(tree) == old(db.subscriptionCount - CountLeaves(tree))
    {
      hide SubHier.Valid, SubHier.ValidBut, CountLeavesFirst, Add;
      ghost var t0 := tree;
      ChildrenHere();
      var i := FindBranch(tokens[0]);
      var missing := i == |children|;
      if missing {
        LinkFront(tokens[0]);
        i := 0;
      }
      ghost var t1 := tree;
      ChildReady(i);
      var subhier := children[i];
      label before:
      subhier.AddSub(db, tokens, Some(leaf));
      OthersUntouched@before(i);
      ReplaceChild(t1, i, subhier.tree, |t1.children|);
      Adopt(i);
      if missing {
        assert ([Empty(tokens[0])] + t0.children)[0 := subhier.tree] == [subhier.tree] + t0.children;
      }
    }

    // A new top-level node goes in front.
    method LinkFront(name: string)
      requires Valid()
      modifies this
      ensures Valid() && fresh(Repr - old(Repr))
      ensures tree == old(tree).(children := [Empty(name)] + old(tree).children)
      ensures |children| == |old(children)| + 1
      ensures CountLeaves(tree) == CountLeaves(old(tree))
    {
      Subscriptions.PrependChild(tree, Empty(name), |tree.children|);
      BareCounts(Empty(name));
      var child := new SubHier(name);
      children := [child] + children;
      Repr := Repr + child.Repr;
      tree := tree.(children := [child.tree] + tree.children);
      forall j | 0 <= j < |children|
        ensures ChildValid(j)
        ensures j > 0 ==> children[j] == old(children)[j - 1] && children[j].Repr !! child.Repr
      {
        if j > 0 { assert old(ChildValid(j - 1)); }
      }
    }

    // mqtt3_sub_remove behind the tokeniser (src/subs.c:440-447).
    method RootRemove(db: Counters, tokens: seq<string>, client: string)
      requires Valid() && tokens != []
      modifies Repr, db`subscriptionCount
      ensures Valid() && Repr == old(Repr)
      ensures tree == Subscriptions.SubRemove(old(tree), tokens, client)
      ensures db.subscriptionCount - CountLeaves(tree) == old(db.subscriptionCount - CountLeaves(tree))
    {
      var i := FindBranch(tokens[0]);
      if i < |children| {
        assert ChildValid(i);
        var subhier := children[i];
        label before:
        subhier.RemoveSub(db, tokens, client);
        OthersUntouched@before(i);
        ReplaceChild(tree, i, subhier.tree, |tree.children|);
        Adopt(i);
      }
    }

    // mqtt3_subs_clean_session (src/subs.c:547-558).
    method RootClean(db: Counters, client: string)
      requires Valid()
      modifies Repr, db`subscriptionCount
      ensures Valid() && Repr == old(Repr)
      ensures tree == Subscriptions.SubClean(old(tree), client)
      ensures db.subscriptionCount ==
        old(db.subscriptionCount) - CountClientFirst(old(tree), |old(tree).children|, client)
    {
      hide Clean, CountClient, CountClientFirst, CountLeaves, SubHier.Valid, SubHier.ValidBut, CleanedFirst,
        Subscriptions.SubClean;
      ghost var t0 := tree;
      var k := 0;
      CleanedEnds(t0, client);
      while k < |children|
        invariant Valid() && Repr == old(Repr) && k <= |children| == |t0.children|
        invariant tree == t0.(children := CleanedFirst(t0, k, client))
        invariant db.subscriptionCount == old(db.subscriptionCount) - CountClientFirst(t0, k, client)
      {
        ChildReady(k);
        CleanedMore(t0, k, client);
        var child := children[k];
        label before:
        child.CleanSession(db, client);
        OthersUntouched@before(k);
        Adopt(k);
        k := k + 1;
      }
    }

    // mqtt3_db_messages_queue on the tree (src/subs.c:470-482): `value` is None unless the
    // publication is retained. Sibling names are unique, so one top-level node at most is entered.
    method RootPublish(db: Counters, store: MessageStore, tokens: seq<string>,
                       value: Option<Option<nat>>) returns (hits: seq<Hit>)
      requires Valid() && tokens != [] && (value.Some? ==> Subscriptions.TopicTokens(tokens))
      requires DistinctNames(tree.children)
      requires RetainedKnown(tree, store.refs.Keys) && ValueKnown(value, store.refs.Keys)
      modifies Repr, db`retainedCount, db`subscriptionCount, store`refs
      ensures Valid() && fresh(Repr - old(Repr))
      ensures RetainedKnown(tree, store.refs.Keys) && store.refs.Keys == old(store.refs.Keys)
      ensures tree == if value.Some? then Subscriptions.Retain(old(tree), tokens, value.value) else old(tree)
      ensures hits == Subscriptions.Recipients(old(tree), tokens)
      ensures db.subscriptionCount == old(db.subscriptionCount)
      ensures db.retainedCount - CountRetained(tree) == old(db.retainedCount - CountRetained(tree))
      ensures RetainFollows(old(store.refs), old(tree), store.refs, tree)
    {
      ghost var t0 := tree;
      hits := [];
      RetainFollowsRefl(store.refs, tree);
      var i := FindBranch(tokens[0]);
      if i < |children| {
        hits := PublishBelow(db, store, i, tokens, value);
      }
    }

    // The body of the loop on the matching top-level node.
    method PublishBelow(db: Counters, store: MessageStore, i: nat, tokens: seq<string>,
                        value: Option<Option<nat>>) returns (hits: seq<Hit>)
      requires Valid() && tokens != [] && i == FindChild(tree.children, tokens[0], 0) < |children|
      requires value.Some? ==> Subscriptions.TopicTokens(tokens)
      requires RetainedKnown(tree, store.refs.Keys) && ValueKnown(value, store.refs.Keys)
      modifies Repr, db`retainedCount, db`subscriptionCount, store`refs
      ensures Valid() && fresh(Repr - old(Repr))
      ensures RetainedKnown(tree, store.refs.Keys) && store.refs.Keys == old(store.refs.Keys)
      ensures tree == if value.Some? then Subscriptions.Retain(old(tree), tokens, value.value) else old(tree)
      ensures hits == Subscriptions.Recipients(old(tree), tokens)
      ensures db.subscriptionCount == old(db.subscriptionCount)
      ensures db.retainedCount - CountRetained(tree) == old(db.retainedCount - CountRetained(tree))
      ensures RetainFollows(old(store.refs), old(tree), store.refs, tree)
    {
      assert ChildValid(i);
      var subhier := children[i];
      ghost var t0, refs := tree, store.refs;
      KnownChild(t0, i, store.refs.Keys);
      GrownFollows(store.refs, t0.children[i], tokens);
      PublishParts(t0, i, tokens, value);
      label before:
      if value.Some? {
        subhier.AddSub(db, tokens, None);
      }
      ghost var grown := subhier.tree;
      hide RetainFollows, RetainedKnown, Add;
      hits := subhier.SearchSubs(db, store, tokens, [], value);
      RetainFollowsTrans(refs, t0.children[i], refs, grown, store.refs, subhier.tree);
      OthersUntouched@before(i);
      ChildFollows(refs, store.refs, t0, i, subhier.tree);
      KnownReplace(t0, i, subhier.tree, store.refs.Keys);
      Adopt(i);
    }

    // _retain_search (src/subs.c:615-656): what is offered, and the flag.
    method SearchRetained(tokens: seq<string>, at: seq<string>, level: nat) returns (offers: seq<RetainSearch.Offer>,
        flag: bool)
      requires Valid() && tokens != []
      ensures RetainSearch.Found(offers, flag) == RetainSearch.Offers(tree, at, tokens, level)
      decreases Repr
    {
      flag := false;
      offers := [];
      var k := 0;
      while k < |children|
        invariant k <= |children|
        invariant offers == RetainSearch.OffersFirst(tree, k, at, tokens, level)
        invariant flag == (RetainSearch.Rest(tokens) && k > 0)
      {
        assert ChildValid(k);
        var branch := children[k];
        var at' := at + [branch.topic];
        var own := if branch.retained.Some? then [RetainSearch.Offer(at', branch.retained.value)] else [];
        var some := [];
        assert RetainSearch.Rest(tokens) <==> tokens[0] == "#" && |tokens| == 1;
        if tokens[0] == "#" && |tokens| == 1 {
          flag := true;
          some := own;
          if branch.children != [] {
            var below, _ := branch.SearchRetained(tokens, at', level + 1);
            some := some + below;
          }
        } else if branch.topic != "+" && (branch.topic == tokens[0] || tokens[0] == "+") {
          if |tokens| > 1 {
            var below, seen := branch.SearchRetained(tokens[1..], at', level + 1);
            some := below;
            if seen || (k + 1 == |children| && tokens[1] == "#" && level > 0) {
              some := some + own;
            }
          } else {
            some := own;
          }
        }
        assert some + [] == some;
        assert some == RetainSearch.OffersBranch(branch.tree, at', tokens, level, k + 1 == |children|);
        offers := offers + some;
        k := k + 1;
      }
    }

    // mqtt3_retain_queue behind the tokeniser (src/subs.c:669-676).
    method RootRetained(tokens: seq<string>) returns (offers: seq<RetainSearch.Offer>)
      requires Valid() && tokens != []
      ensures offers == RetainSearch.QueueOffers(tree, tokens)
    {
      var i := FindBranch(tokens[0]);
      offers := [];
      if i < |children| {
        assert ChildValid(i);
        var found, _ := children[i].SearchRetained(tokens, [], 0);
        offers := found;
      }
    }
  }

  // The children when the first k have been cleaned and all are still linked.
  function CleanedFirst(t: Tree, k: nat, client: string): (r: seq<Tree>)
    requires k <= |t.children|
    ensures |r| == |t.children|
  {
    seq(|t.children|, i requires 0 <= i < |t.children| => if i < k then Clean(t.children[i], client) else t.children[i])
  }

  lemma {:induction false} CleanedEnds(t: Tree, client: string)
    ensures CleanedFirst(t, 0, client) == t.children && CountClientFirst(t, 0, client) == 0
    ensures t.(children := CleanedFirst(t, |t.children|, client)) == Subscriptions.SubClean(t, client)
  {
    assert CleanedFirst(t, |t.children|, client) == Subscriptions.SubClean(t, client).children;
  }

  lemma {:induction false} CleanedMore(t: Tree, k: nat, client: string)
    requires k < |t.children|
    ensures CleanedFirst(t, k, client)[k] == t.children[k]
    ensures CleanedFirst(t, k, client)[k := Clean(t.children[k], client)] == CleanedFirst(t, k + 1, client)
    ensures CountClientFirst(t, k + 1, client) == CountClientFirst(t, k, client) + CountClient(t.children[k], client)
  {
  }

  // Making the path of a topic moves no retained message.
  lemma {:induction false} GrownFollows(refs: map<nat, int>, top: Tree, tokens: seq<string>)
    requires RetainedKnown(top, refs.Keys)
    ensures RetainFollows(refs, top, refs, Add(top, tokens, None)) && RetainFollows(refs, top, refs, top)
    ensures RetainedKnown(Add(top, tokens, None), refs.Keys)
    ensures CountRetained(Add(top, tokens, None)) == CountRetained(top)
    ensures CountLeaves(Add(top, tokens, None)) == CountLeaves(top)
  {
    AddCounts(top, tokens, None);
    AddKnown(top, tokens, None, refs.Keys);
  }

  lemma {:induction false} AddKnown(t: Tree, path: seq<string>, who: Option<Leaf>, ids: set<nat>)
    requires RetainedKnown(t, ids)
    ensures RetainedKnown(Add(t, path, who), ids)
    decreases |path|
  {
    if path != [] {
      var i := FindChild(t.children, path[0], 0);
      if i < |t.children| { AddKnown(t.children[i], path[1..], who, ids); }
      else { AddKnown(Empty(path[0]), path[1..], who, ids); }
    }
  }

  lemma {:induction false} PublishParts(root: Tree, i: nat, tokens: seq<string>, value: Option<Option<nat>>)
    requires tokens != [] && i == FindChild(root.children, tokens[0], 0) < |root.children|
    requires value.Some? ==> Subscriptions.TopicTokens(tokens)
    ensures var top := if value.Some? then Add(root.children[i], tokens, None) else root.children[i];
      && (if value.Some? then Subscriptions.Retain(root, tokens, value.value) else root)
           == root.(children := root.children[i := SetIf(top, tokens, value)])
      && Subscriptions.Recipients(root, tokens) == Search(top, [], tokens)
  {
    var top := if value.Some? then Add(root.children[i], tokens, None) else root.children[i];
    if value.Some? {
      GrownSearch(root.children[i], tokens, [], tokens);
      AddKeepsTopic(root.children[i], tokens, None);
      FindSame(root.children, root.children[i := top], tokens[0]);
    } else {
      assert root.children[i := root.children[i]] == root.children;
    }
  }

  // The two branches of the loop, spelled out.
  lemma {:induction false} VisitUnfold(b: Tree, tokens: seq<string>, at: seq<string>, value: Option<Option<nat>>)
    ensures var sr := if b.topic == "+" then None else value;
      if Follows(b, tokens) then
        var b' := SetIf(b, tokens[1..], sr);
        && SetIfBranch(b, tokens, value) == (if |tokens| == 1 && sr.Some? then b'.(retained := sr.value) else b')
        && SearchBranch(b, at, tokens) == Search(b, at, tokens[1..]) + (if |tokens| == 1 then LeafHits(b, at) else [])
        && Search(b, at, tokens[1..]) + [] == Search(b, at, tokens[1..])
      else
        && SetIfBranch(b, tokens, value) == b
        && SearchBranch(b, at, tokens) == if b.topic == "#" && b.children == [] then LeafHits(b, at) else []
  {
  }

  // The counters follow a change of one child.
  lemma {:induction false} ChildFollows(r0: map<nat, int>, r1: map<nat, int>, t: Tree, k: nat, c: Tree)
    requires k < |t.children| && RetainFollows(r0, t.children[k], r1, c)
    ensures RetainFollows(r0, t, r1, t.(children := t.children[k := c]))
    ensures CountRetained(t.(children := t.children[k := c])) ==
        CountRetained(t) - CountRetained(t.children[k]) + CountRetained(c)
  {
    ReplaceChild(t, k, c, |t.children|);
  }

  predicate ValueKnown(value: Option<Option<nat>>, ids: set<nat>) {
    value.Some? && value.value.Some? ==> value.value.value in ids
  }

  // Every retained message is in the store.
  predicate RetainedKnown(t: Tree, ids: set<nat>)
    decreases t
  {
    && (t.retained.Some? ==> t.retained.value in ids)
    && forall i :: 0 <= i < |t.children| ==> RetainedKnown(t.children[i], ids)
  }

  // The counters moved exactly as the pointers held by the tree.
  ghost predicate RetainFollows(before: map<nat, int>, t0: Tree, after: map<nat, int>, t1: Tree) {
    && before.Keys == after.Keys
    && forall id :: id in before ==> after[id] - RetainedRefs(t1, id) == before[id] - RetainedRefs(t0, id)
  }

  lemma {:induction false} RetainFollowsRefl(refs: map<nat, int>, t: Tree)
    ensures RetainFollows(refs, t, refs, t)
  {
  }

  lemma {:induction false} RetainFollowsTrans(r0: map<nat, int>, t0: Tree, r1: map<nat, int>, t1: Tree,
                                              r2: map<nat, int>, t2: Tree)
    requires RetainFollows(r0, t0, r1, t1) && RetainFollows(r1, t1, r2, t2)
    ensures RetainFollows(r0, t0, r2, t2)
  {
  }

  lemma {:induction false} KnownChild(t: Tree, k: nat, ids: set<nat>)
    requires RetainedKnown(t, ids) && k < |t.children|
    ensures RetainedKnown(t.children[k], ids)
  {
  }

  lemma {:induction false} KnownReplace(t: Tree, k: nat, c: Tree, ids: set<nat>)
    requires RetainedKnown(t, ids) && k < |t.children| && RetainedKnown(c, ids)
    ensures RetainedKnown(t.(children := t.children[k := c]), ids)
  {
  }

  // ----- Setting or not setting -----

  function SetIf(t: Tree, tokens: seq<string>, value: Option<Option<nat>>): Tree {
    if value.Some? then SetRetained(t, tokens, value.value) else t
  }

  function SetIfBranch(b: Tree, tokens: seq<string>, value: Option<Option<nat>>): Tree {
    if value.Some? then SetBranch(b, tokens, value.value) else b
  }

  // The first k children have been visited.
  function SetIfFirst(t: Tree, k: nat, tokens: seq<string>, value: Option<Option<nat>>): (r: seq<Tree>)
    requires k <= |t.children|
    ensures |r| == |t.children|
    ensures forall i :: 0 <= i < |r| ==>
              r[i] == if i < k then SetIfBranch(t.children[i], tokens, value) else t.children[i]
  {
    seq(|t.children|, i requires 0 <= i < |t.children| =>
      if i < k then SetIfBranch(t.children[i], tokens, value) else t.children[i])
  }

  lemma {:induction false} SearchEnds(t: Tree, at: seq<string>, tokens: seq<string>, value: Option<Option<nat>>)
    ensures SetIfFirst(t, 0, tokens, value) == t.children && SearchFirst(t, 0, at, tokens) == []
    ensures t.(children := SetIfFirst(t, |t.children|, tokens, value)) == SetIf(t, tokens, value)
    ensures SearchFirst(t, |t.children|, at, tokens) == Search(t, at, tokens)
  {
    if value.Some? {
      SetFirstAt(t, |t.children|, tokens, value.value);
      assert SetIfFirst(t, |t.children|, tokens, value) == SetFirst(t, |t.children|, tokens, value.value);
    } else {
      assert SetIfFirst(t, |t.children|, tokens, value) == t.children;
    }
  }

  lemma {:induction false} SearchHead(t: Tree, k: nat, at: seq<string>, tokens: seq<string>, value: Option<Option<nat>>)
    requires k < |t.children|
    ensures SetIfFirst(t, k, tokens, value)[k] == t.children[k]
    ensures SetIfFirst(t, k, tokens, value)[k := SetIfBranch(t.children[k], tokens, value)] == SetIfFirst(t, k + 1,
          tokens, value)
    ensures SearchFirst(t, k + 1, at, tokens) ==
              SearchFirst(t, k, at, tokens) + SearchBranch(t.children[k], at + [t.children[k].topic], tokens)
  {
  }

  lemma {:induction false} SetIfLeaves(t: Tree, tokens: seq<string>, value: Option<Option<nat>>, at: seq<string>)
    ensures LeafHits(SetIf(t, tokens, value), at) == LeafHits(t, at)
  {
  }

  // The child that is cleaned next, and the list afterwards.
  lemma {:induction false} CleanHead(t: Tree, k: nat, client: string)
    requires k < |t.children|
    ensures var done, c := CleanFirst(t, k, client), Clean(t.children[k], client);
      var list := done + t.children[k..];
      && list[|done|] == t.children[k]
      && Replace(list, |done|, c) == CleanFirst(t, k + 1, client) + t.children[k + 1..]
      && |CleanFirst(t, k + 1, client)| == |done| + (if Bare(c) then 0 else 1)
      && CountClientFirst(t, k + 1, client) == CountClientFirst(t, k, client) + CountClient(t.children[k], client)
  {
  }

  // Before the first child and behind the last one.
  lemma {:induction false} CleanEnds(t: Tree, client: string)
    ensures t.children == CleanFirst(t, 0, client) + t.children[0..]
    ensures CleanFirst(t, 0, client) == [] && CountClientFirst(t, 0, client) == 0
    ensures var n := |t.children|;
      && CleanFirst(t, n, client) + t.children[n..] == CleanFirst(t, n, client)
      && Clean(t, client) == t.(subs := OtherLeaves(t.subs, client), children := CleanFirst(t, n, client))
      && CountClient(t, client) == |t.subs| - |OtherLeaves(t.subs, client)| + CountClientFirst(t, n, client)
  {
  }
}
