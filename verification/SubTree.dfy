/**
 The subscription tree of src/subs.c as a value: a trie of topic levels whose nodes carry
 subscriber leaves and at most one retained message, and what the operations do to it.

 Paths are token lists. Clients are named by their id, which is unique among contexts; a
 retained message is named by the id of its stored message.
 */
module SubTree {
  import opened Topics

  datatype Leaf = Leaf(client: string, qos: nat)

  datatype Tree = Node(topic: string, subs: seq<Leaf>, retained: Option<nat>, children: seq<Tree>)

  function Empty(topic: string): Tree { Node(topic, [], None, []) }

  // A node that carries nothing is unlinked when a removal passes it.
  predicate Bare(t: Tree) { t.children == [] && t.subs == [] && t.retained == None }

  // ----- Sibling and leaf lists -----

  function FindChild(ch: seq<Tree>, name: string, k: nat): (i: nat)
    requires k <= |ch|
    ensures k <= i <= |ch|
    ensures i < |ch| ==> ch[i].topic == name
    ensures forall j :: k <= j < i ==> ch[j].topic != name
    decreases |ch| - k
  {
    if k == |ch| || ch[k].topic == name then k else FindChild(ch, name, k + 1)
  }

  function FindLeaf(subs: seq<Leaf>, client: string, k: nat): (i: nat)
    requires k <= |subs|
    ensures k <= i <= |subs|
    ensures i < |subs| ==> subs[i].client == client
    ensures forall j :: k <= j < i ==> subs[j].client != client
    decreases |subs| - k
  {
    if k == |subs| || subs[k].client == client then k else FindLeaf(subs, client, k + 1)
  }

  function Drop<T>(s: seq<T>, i: nat): (r: seq<T>)
    requires i < |s|
    ensures |r| == |s| - 1
    ensures forall k :: 0 <= k < |r| ==> r[k] == s[if k < i then k else k + 1]
  {
    seq(|s| - 1, k requires 0 <= k < |s| - 1 => s[if k < i then k else k + 1])
  }

  // ----- The operations -----

  function PutLeaf(subs: seq<Leaf>, leaf: Leaf): seq<Leaf> {
    var i := FindLeaf(subs, leaf.client, 0);
    if i < |subs| then subs[i := leaf] else subs + [leaf]
  }

  function DropLeaf(subs: seq<Leaf>, client: string): seq<Leaf> {
    var i := FindLeaf(subs, client, 0);
    if i < |subs| then Drop(subs, i) else subs
  }

  // _sub_add: walk or create the path; at its end put the leaf, if there is one.
  function Add(t: Tree, path: seq<string>, who: Option<Leaf>): Tree
    decreases |path|
  {
    if path == [] then
      if who.Some? then t.(subs := PutLeaf(t.subs, who.value)) else t
    else
      var i := FindChild(t.children, path[0], 0);
      if i < |t.children| then t.(children := t.children[i := Add(t.children[i], path[1..], who)])
      else t.(children := t.children + [Add(Empty(path[0]), path[1..], who)])
  }

  function Replace(ch: seq<Tree>, i: nat, c: Tree): seq<Tree>
    requires i < |ch|
  {
    if Bare(c) then Drop(ch, i) else ch[i := c]
  }

  // _sub_remove: drop the leaf at the end of the path and unlink nodes left bare on the way back.
  function Remove(t: Tree, path: seq<string>, client: string): Tree
    decreases |path|
  {
    if path == [] then t.(subs := DropLeaf(t.subs, client))
    else
      var i := FindChild(t.children, path[0], 0);
      if i < |t.children| then t.(children := Replace(t.children, i, Remove(t.children[i], path[1..], client)))
      else t
  }

  function OtherLeaves(subs: seq<Leaf>, client: string): (r: seq<Leaf>)
    ensures |r| <= |subs|
  {
    if subs == [] then []
    else OtherLeaves(subs[..|subs| - 1], client) + if subs[|subs| - 1].client == client then [] else [subs[|subs| - 1]]
  }

  // _subs_clean_session: drop all leaves of the client below a node, unlinking bare children.
  function Clean(t: Tree, client: string): Tree
    decreases t, |t.children| + 1
  {
    t.(subs := OtherLeaves(t.subs, client), children := CleanFirst(t, |t.children|, client))
  }

  // The first k children of t, cleaned.
  function CleanFirst(t: Tree, k: nat, client: string): seq<Tree>
    requires k <= |t.children|
    decreases t, k
  {
    if k == 0 then []
    else
      var c := Clean(t.children[k - 1], client);
      CleanFirst(t, k - 1, client) + if Bare(c) then [] else [c]
  }

  // ----- Search -----

  // A leaf that a search gives to _subs_process, with the path of its node.
  datatype Hit = Hit(path: seq<string>, leaf: Leaf)

  function LeafHits(t: Tree, at: seq<string>): (r: seq<Hit>)
    ensures |r| == |t.subs|
    ensures forall i :: 0 <= i < |r| ==> r[i] == Hit(at, t.subs[i])
  {
    seq(|t.subs|, i requires 0 <= i < |t.subs| => Hit(at, t.subs[i]))
  }

  predicate Follows(branch: Tree, tokens: seq<string>) {
    tokens != [] && (branch.topic == tokens[0] || branch.topic == "+")
  }

  // _sub_search below t, whose own path is `at`, in visiting order.
  function Search(t: Tree, at: seq<string>, tokens: seq<string>): seq<Hit>
    decreases t, |t.children| + 1
  {
    SearchFirst(t, |t.children|, at, tokens)
  }

  // What is found below the first k children.
  function SearchFirst(t: Tree, k: nat, at: seq<string>, tokens: seq<string>): seq<Hit>
    requires k <= |t.children|
    decreases t, k
  {
    if k == 0 then []
    else SearchFirst(t, k - 1, at, tokens) + SearchBranch(t.children[k - 1], at + [t.children[k - 1].topic], tokens)
  }

  // What is found at one branch and below it.
  function SearchBranch(b: Tree, at: seq<string>, tokens: seq<string>): seq<Hit>
    decreases b, |b.children| + 2
  {
    if Follows(b, tokens) then
      Search(b, at, tokens[1..]) + if |tokens| == 1 then LeafHits(b, at) else []
    else if b.topic == "#" && b.children == [] then LeafHits(b, at)
    else []
  }

  // The retained message that a search sets (Some) or clears (None), where no "+" was passed.
  function SetRetained(t: Tree, tokens: seq<string>, value: Option<nat>): Tree
    decreases t, |t.children| + 1
  {
    t.(children := SetFirst(t, |t.children|, tokens, value))
  }

  function SetFirst(t: Tree, k: nat, tokens: seq<string>, value: Option<nat>): (r: seq<Tree>)
    requires k <= |t.children|
    ensures |r| == k
    decreases t, k
  {
    if k == 0 then []
    else SetFirst(t, k - 1, tokens, value) + [SetBranch(t.children[k - 1], tokens, value)]
  }

  function SetBranch(b: Tree, tokens: seq<string>, value: Option<nat>): Tree
    decreases b, |b.children| + 2
  {
    if Follows(b, tokens) && b.topic != "+" then
      var b' := SetRetained(b, tokens[1..], value);
      if |tokens| == 1 then b'.(retained := value) else b'
    else b
  }

  // ----- The flat reading of a tree -----

  // The subscription of a client to a filter, if any.
  function Lookup(t: Tree, path: seq<string>, client: string): Option<nat>
    decreases |path|
  {
    if path == [] then
      var i := FindLeaf(t.subs, client, 0);
      if i < |t.subs| then Some(t.subs[i].qos) else None
    else
      var i := FindChild(t.children, path[0], 0);
      if i < |t.children| then Lookup(t.children[i], path[1..], client) else None
  }

  // The message retained for a topic, if any.
  function RetainedAt(t: Tree, path: seq<string>): Option<nat>
    decreases |path|
  {
    if path == [] then t.retained
    else
      var i := FindChild(t.children, path[0], 0);
      if i < |t.children| then RetainedAt(t.children[i], path[1..]) else None
  }

  predicate HasNode(t: Tree, path: seq<string>)
    decreases |path|
  {
    path == [] ||
      var i := FindChild(t.children, path[0], 0);
      i < |t.children| && HasNode(t.children[i], path[1..])
  }

  // ----- Well-formed trees -----

  predicate DistinctLeaves(subs: seq<Leaf>) {
    forall i, j :: 0 <= i < j < |subs| ==> subs[i].client != subs[j].client
  }

  predicate DistinctNames(ch: seq<Tree>) {
    forall i, j :: 0 <= i < j < |ch| ==> ch[i].topic != ch[j].topic
  }

  // Sibling names and the clients of a node are unique, and "#" has no children.
  predicate WellFormed(t: Tree)
    decreases t
  {
    && DistinctLeaves(t.subs) && DistinctNames(t.children)
    && (t.topic == "#" ==> t.children == [])
    && forall i :: 0 <= i < |t.children| ==> WellFormed(t.children[i])
  }

  // Neither wildcard nodes nor nodes below them hold a retained message.
  predicate RetainedOnTopics(t: Tree)
    decreases t
  {
    && (t.topic == "+" || t.topic == "#" ==> CountRetained(t) == 0)
    && forall i :: 0 <= i < |t.children| ==> RetainedOnTopics(t.children[i])
  }

  // "#" only as the last level.
  predicate ValidPath(path: seq<string>) {
    forall i :: 0 <= i < |path| - 1 ==> path[i] != "#"
  }

  predicate PlainPath(path: seq<string>) {
    forall i :: 0 <= i < |path| ==> path[i] != "#" && path[i] != "+"
  }

  // ----- Finding siblings after a change -----

  lemma {:induction false} FindSame(a: seq<Tree>, b: seq<Tree>, name: string)
    requires |a| == |b| && forall i :: 0 <= i < |a| ==> a[i].topic == b[i].topic
    ensures FindChild(a, name, 0) == FindChild(b, name, 0)
  {
    var i, j := FindChild(a, name, 0), FindChild(b, name, 0);
    assert i < |a| ==> b[i].topic == name;
    assert j < |b| ==> a[j].topic == name;
  }

  lemma {:induction false} FindAppend(ch: seq<Tree>, c: Tree, name: string)
    ensures FindChild(ch + [c], name, 0) ==
              if FindChild(ch, name, 0) < |ch| then FindChild(ch, name, 0)
              else if c.topic == name then |ch| else |ch| + 1
  {
    var i, j := FindChild(ch, name, 0), FindChild(ch + [c], name, 0);
    if i < |ch| {
      assert (ch + [c])[i].topic == name;
    }
    if j < |ch| {
      assert ch[j].topic == name;
    }
    if c.topic == name { assert (ch + [c])[|ch|].topic == name; }
  }

  lemma {:induction false} FindOnly(ch: seq<Tree>, i: nat)
    requires DistinctNames(ch) && i < |ch|
    ensures FindChild(ch, ch[i].topic, 0) == i
  {
  }

  lemma {:induction false} FindDrop(ch: seq<Tree>, i: nat, name: string)
    requires DistinctNames(ch) && i < |ch|
    ensures DistinctNames(Drop(ch, i))
    ensures var j := FindChild(ch, name, 0);
      FindChild(Drop(ch, i), name, 0) == if j == i || j == |ch| then |ch| - 1 else if j < i then j else j - 1
  {
    var r := Drop(ch, i);
    var j, k := FindChild(ch, name, 0), FindChild(r, name, 0);
    if k < |r| {
      assert ch[if k < i then k else k + 1].topic == name;
    }
    if j < |ch| && j != i {
      assert r[if j < i then j else j - 1].topic == name;
    }
  }

  lemma {:induction false} LeafPut(subs: seq<Leaf>, leaf: Leaf, client: string)
    ensures var r := PutLeaf(subs, leaf);
      var i, j := FindLeaf(subs, client, 0), FindLeaf(r, client, 0);
      if client == leaf.client then j < |r| && r[j] == leaf
      else (j < |r| <==> i < |subs|) && (i < |subs| ==> r[j] == subs[i])
    ensures DistinctLeaves(subs) ==> DistinctLeaves(PutLeaf(subs, leaf))
  {
    var r := PutLeaf(subs, leaf);
    var p, i, j := FindLeaf(subs, leaf.client, 0), FindLeaf(subs, client, 0), FindLeaf(r, client, 0);
    if i < |subs| { assert r[i].client == client; }
    if j < |r| && j < |subs| { assert subs[j].client == r[j].client; }
    if client == leaf.client { assert r[p] == leaf; }
  }

  lemma {:induction false} LeafDrop(subs: seq<Leaf>, who: string, client: string)
    requires DistinctLeaves(subs)
    ensures var r := DropLeaf(subs, who);
      var i, j := FindLeaf(subs, client, 0), FindLeaf(r, client, 0);
      if client == who then j == |r|
      else (j < |r| <==> i < |subs|) && (i < |subs| ==> r[j] == subs[i])
    ensures DistinctLeaves(DropLeaf(subs, who))
  {
    var r := DropLeaf(subs, who);
    var p, i, j := FindLeaf(subs, who, 0), FindLeaf(subs, client, 0), FindLeaf(r, client, 0);
    if p < |subs| {
      if i < |subs| && client != who { assert r[if i < p then i else i - 1].client == client; }
      if j < |r| { assert subs[if j < p then j else j + 1].client == client; }
    }
  }

  // ----- Subscribing is an update of the flat table -----

  lemma {:induction false} LookupEmpty(topic: string, path: seq<string>, client: string)
    ensures Lookup(Empty(topic), path, client) == None
    ensures RetainedAt(Empty(topic), path) == None
  {
  }

  lemma {:induction false} AddKeepsTopic(t: Tree, path: seq<string>, who: Option<Leaf>)
    ensures Add(t, path, who).topic == t.topic
    ensures path == [] ==> Add(t, path, who).children == t.children
    ensures path != [] ==> Add(t, path, who).subs == t.subs
    ensures Add(t, path, who).retained == t.retained
  {
  }

  predicate SameKey(path: seq<string>, client: string, path': seq<string>, leaf: Option<Leaf>) {
    leaf.Some? && path == path' && client == leaf.value.client
  }

  lemma {:induction false} LookupAdd(t: Tree, path: seq<string>, who: Option<Leaf>, p: seq<string>, c: string)
    ensures Lookup(Add(t, path, who), p, c) == if SameKey(p, c, path, who) then Some(who.value.qos) else Lookup(t, p, c)
    decreases |path|
  {
    AddKeepsTopic(t, path, who);
    if path == [] {
      if who.Some? { LeafPut(t.subs, who.value, c); }
    } else if p != [] {
      var t', i := Add(t, path, who), FindChild(t.children, path[0], 0);
      assert p == path <==> p[0] == path[0] && p[1..] == path[1..] by {
        assert p == [p[0]] + p[1..] && path == [path[0]] + path[1..];
      }
      if i < |t.children| {
        AddKeepsTopic(t.children[i], path[1..], who);
        FindSame(t.children, t'.children, p[0]);
        LookupAdd(t.children[i], path[1..], who, p[1..], c);
      } else {
        AddKeepsTopic(Empty(path[0]), path[1..], who);
        FindAppend(t.children, Add(Empty(path[0]), path[1..], who), p[0]);
        LookupAdd(Empty(path[0]), path[1..], who, p[1..], c);
        LookupEmpty(path[0], p[1..], c);
      }
    }
  }

  lemma {:induction false} RetainedAdd(t: Tree, path: seq<string>, who: Option<Leaf>, p: seq<string>)
    ensures RetainedAt(Add(t, path, who), p) == RetainedAt(t, p)
    decreases |path|
  {
    AddKeepsTopic(t, path, who);
    if path != [] && p != [] {
      var t', i := Add(t, path, who), FindChild(t.children, path[0], 0);
      if i < |t.children| {
        AddKeepsTopic(t.children[i], path[1..], who);
        FindSame(t.children, t'.children, p[0]);
        RetainedAdd(t.children[i], path[1..], who, p[1..]);
      } else {
        AddKeepsTopic(Empty(path[0]), path[1..], who);
        FindAppend(t.children, Add(Empty(path[0]), path[1..], who), p[0]);
        RetainedAdd(Empty(path[0]), path[1..], who, p[1..]);
        LookupEmpty(path[0], p[1..], "");
      }
    }
  }

  lemma {:induction false} AddMakesNode(t: Tree, path: seq<string>, who: Option<Leaf>)
    ensures HasNode(Add(t, path, who), path)
    decreases |path|
  {
    if path != [] {
      var t', i := Add(t, path, who), FindChild(t.children, path[0], 0);
      if i < |t.children| {
        AddKeepsTopic(t.children[i], path[1..], who);
        FindSame(t.children, t'.children, path[0]);
        AddMakesNode(t.children[i], path[1..], who);
      } else {
        AddKeepsTopic(Empty(path[0]), path[1..], who);
        FindAppend(t.children, Add(Empty(path[0]), path[1..], who), path[0]);
        AddMakesNode(Empty(path[0]), path[1..], who);
      }
    }
  }

  lemma {:induction false} AddWellFormed(t: Tree, path: seq<string>, who: Option<Leaf>)
    requires WellFormed(t) && ValidPath([t.topic] + path)
    ensures WellFormed(Add(t, path, who))
    decreases |path|
  {
    AddKeepsTopic(t, path, who);
    if path == [] {
      if who.Some? { LeafPut(t.subs, who.value, ""); }
    } else {
      var t', i := Add(t, path, who), FindChild(t.children, path[0], 0);
      assert t.topic != "#" by { assert ([t.topic] + path)[0] == t.topic; }
      assert ValidPath([path[0]] + path[1..]) by {
        assert [path[0]] + path[1..] == path;
        forall k | 0 <= k < |path| - 1 ensures path[k] != "#" { assert ([t.topic] + path)[k + 1] == path[k]; }
      }
      if i < |t.children| {
        AddKeepsTopic(t.children[i], path[1..], who);
        AddWellFormed(t.children[i], path[1..], who);
      } else {
        AddKeepsTopic(Empty(path[0]), path[1..], who);
        AddWellFormed(Empty(path[0]), path[1..], who);
      }
    }
  }

  // ----- Unsubscribing deletes from the flat table, and pruning is invisible -----

  lemma {:induction false} LookupBare(t: Tree, path: seq<string>, client: string)
    requires Bare(t)
    ensures Lookup(t, path, client) == None && RetainedAt(t, path) == None
  {
  }

  lemma {:induction false} RemoveKeepsTopic(t: Tree, path: seq<string>, client: string)
    ensures Remove(t, path, client).topic == t.topic && Remove(t, path, client).retained == t.retained
    ensures path != [] ==> Remove(t, path, client).subs == t.subs
    ensures path == [] ==> Remove(t, path, client).children == t.children
  {
  }

  // Looking below a node whose child i became c, and was unlinked if c is bare.
  lemma {:induction false} LookReplaced(t: Tree, i: nat, c: Tree, p: seq<string>, client: string)
    requires DistinctNames(t.children) && i < |t.children| && c.topic == t.children[i].topic && p != []
    ensures var t' := t.(children := Replace(t.children, i, c));
      && DistinctNames(t'.children)
      && Lookup(t', p, client) == (if p[0] == c.topic then Lookup(c, p[1..], client) else Lookup(t, p, client))
      && RetainedAt(t', p) == (if p[0] == c.topic then RetainedAt(c, p[1..]) else RetainedAt(t, p))
  {
    FindOnly(t.children, i);
    if Bare(c) {
      FindDrop(t.children, i, p[0]);
      LookupBare(c, p[1..], client);
    } else {
      FindSame(t.children, t.children[i := c], p[0]);
    }
  }

  lemma {:induction false} LookupRemove(t: Tree, path: seq<string>, who: string, p: seq<string>, c: string)
    requires WellFormed(t)
    ensures Lookup(Remove(t, path, who), p, c) == if p == path && c == who then None else Lookup(t, p, c)
    ensures RetainedAt(Remove(t, path, who), p) == RetainedAt(t, p)
    decreases |path|
  {
    RemoveKeepsTopic(t, path, who);
    if path == [] {
      LeafDrop(t.subs, who, c);
    } else if p != [] {
      var i := FindChild(t.children, path[0], 0);
      assert p == path <==> p[0] == path[0] && p[1..] == path[1..] by {
        assert p == [p[0]] + p[1..] && path == [path[0]] + path[1..];
      }
      if i < |t.children| {
        var child := Remove(t.children[i], path[1..], who);
        RemoveKeepsTopic(t.children[i], path[1..], who);
        LookReplaced(t, i, child, p, c);
        LookupRemove(t.children[i], path[1..], who, p[1..], c);
      }
    }
  }

  lemma {:induction false} ReplaceWellFormed(t: Tree, i: nat, c: Tree)
    requires WellFormed(t) && i < |t.children| && c.topic == t.children[i].topic && WellFormed(c)
    ensures WellFormed(t.(children := Replace(t.children, i, c)))
  {
    if Bare(c) { FindDrop(t.children, i, ""); }
  }

  lemma {:induction false} RemoveWellFormed(t: Tree, path: seq<string>, who: string)
    requires WellFormed(t)
    ensures WellFormed(Remove(t, path, who))
    decreases |path|
  {
    if path == [] {
      LeafDrop(t.subs, who, "");
    } else {
      var i := FindChild(t.children, path[0], 0);
      if i < |t.children| {
        RemoveKeepsTopic(t.children[i], path[1..], who);
        RemoveWellFormed(t.children[i], path[1..], who);
        ReplaceWellFormed(t, i, Remove(t.children[i], path[1..], who));
      }
    }
  }

  // ----- Cleaning a session deletes all of a client's subscriptions -----

  lemma {:induction false} LeafAppend(subs: seq<Leaf>, leaf: Leaf, client: string)
    ensures FindLeaf(subs + [leaf], client, 0) ==
              if FindLeaf(subs, client, 0) < |subs| then FindLeaf(subs, client, 0)
              else if leaf.client == client then |subs| else |subs| + 1
  {
    var i, j := FindLeaf(subs, client, 0), FindLeaf(subs + [leaf], client, 0);
    if i < |subs| { assert (subs + [leaf])[i].client == client; }
    if j < |subs| { assert subs[j].client == client; }
    if leaf.client == client { assert (subs + [leaf])[|subs|].client == client; }
  }

  lemma {:induction false} OtherLeavesFrom(subs: seq<Leaf>, who: string)
    requires DistinctLeaves(subs)
    ensures DistinctLeaves(OtherLeaves(subs, who)) && forall k :: 0 <= k < |OtherLeaves(subs, who)| ==>
        OtherLeaves(subs, who)[k] in subs
    decreases |subs|
  {
    if subs != [] {
      var a, last := subs[..|subs| - 1], subs[|subs| - 1];
      OtherLeavesFrom(a, who);
      assert subs == a + [last];
      var r := OtherLeaves(a, who);
      forall k | 0 <= k < |r| ensures r[k].client != last.client {
        assert r[k] in a;
      }
      assert r + [] == r;
    }
  }

  lemma {:induction false} OtherLeavesFind(subs: seq<Leaf>, who: string, c: string)
    requires DistinctLeaves(subs)
    ensures var r := OtherLeaves(subs, who);
      var i, j := FindLeaf(subs, c, 0), FindLeaf(r, c, 0);
      && DistinctLeaves(r)
      && if c == who then j == |r| else (j < |r| <==> i < |subs|) && (i < |subs| ==> r[j] == subs[i])
    decreases |subs|
  {
    hide FindLeaf;
    OtherLeavesFrom(subs, who);
    if subs != [] {
      var a, last := subs[..|subs| - 1], subs[|subs| - 1];
      var r := OtherLeaves(a, who);
      OtherLeavesFind(a, who, c);
      assert subs == a + [last] && r + [] == r;
      LeafAppend(a, last, c);
      LeafAppend(r, last, c);
    }
  }

  lemma {:induction false} CleanKeepsTopic(t: Tree, who: string)
    ensures Clean(t, who).topic == t.topic && Clean(t, who).retained == t.retained
  {
  }

  lemma {:induction false} CleanFind(t: Tree, k: nat, who: string, name: string)
    requires DistinctNames(t.children) && k <= |t.children|
    ensures var r, i := CleanFirst(t, k, who), FindChild(t.children, name, 0);
      var j := FindChild(r, name, 0);
      if i < k && !Bare(Clean(t.children[i], who)) then j < |r| && r[j] == Clean(t.children[i], who) else j == |r|
    decreases k
  {
    hide Clean, Bare, FindChild;
    if k > 0 {
      var c, r := Clean(t.children[k - 1], who), CleanFirst(t, k - 1, who);
      CleanKeepsTopic(t.children[k - 1], who);
      CleanFind(t, k - 1, who, name);
      FindAppend(r, c, name);
      assert r + [] == r;
      FindOnly(t.children, k - 1);
    }
  }

  lemma {:induction false} LookupClean(t: Tree, who: string, p: seq<string>, c: string)
    requires WellFormed(t)
    ensures Lookup(Clean(t, who), p, c) == if c == who then None else Lookup(t, p, c)
    ensures RetainedAt(Clean(t, who), p) == RetainedAt(t, p)
    decreases |p|
  {
    if p == [] {
      OtherLeavesFind(t.subs, who, c);
    } else {
      var i := FindChild(t.children, p[0], 0);
      CleanFind(t, |t.children|, who, p[0]);
      if i < |t.children| {
        LookupClean(t.children[i], who, p[1..], c);
        if Bare(Clean(t.children[i], who)) {
          LookupBare(Clean(t.children[i], who), p[1..], c);
        }
      }
    }
  }

  lemma {:induction false} CleanFirstWellFormed(t: Tree, k: nat, who: string)
    requires WellFormed(t) && k <= |t.children|
    ensures var r := CleanFirst(t, k, who);
      && DistinctNames(r)
      && (forall i :: 0 <= i < |r| ==> WellFormed(r[i]) && FindChild(t.children, r[i].topic, 0) < k)
    decreases t, k
  {
    if k > 0 {
      var c, r := Clean(t.children[k - 1], who), CleanFirst(t, k - 1, who);
      CleanFirstWellFormed(t, k - 1, who);
      CleanWellFormed(t.children[k - 1], who);
      CleanKeepsTopic(t.children[k - 1], who);
      FindOnly(t.children, k - 1);
    }
  }

  lemma {:induction false} CleanWellFormed(t: Tree, who: string)
    requires WellFormed(t)
    ensures WellFormed(Clean(t, who))
    decreases t, |t.children| + 1
  {
    CleanFirstWellFormed(t, |t.children|, who);
    OtherLeavesFind(t.subs, who, "");
  }

  // ----- A search finds exactly the matching subscriptions -----

  // The rest of a hit's path below `at`.
  function Rel(at: seq<string>, h: Hit): seq<string>
    requires at <= h.path
  {
    h.path[|at|..]
  }

  // What the flat table says about a hit below t: the leaf is there and its filter matches.
  predicate Expected(t: Tree, at: seq<string>, tokens: seq<string>, h: Hit) {
    && at <= h.path && |h.path| > |at|
    && Lookup(t, Rel(at, h), h.leaf.client) == Some(h.leaf.qos)
    && LevelMatch(Rel(at, h), tokens)
  }

  // The same at a branch: its own leaves match if nothing, or only "#", is left.
  predicate ExpectedAtBranch(b: Tree, at: seq<string>, tokens: seq<string>, h: Hit) {
    && at <= h.path
    && Lookup(b, Rel(at, h), h.leaf.client) == Some(h.leaf.qos)
    && LevelMatch([b.topic] + Rel(at, h), tokens)
  }

  lemma {:induction false} LeafHitsExact(b: Tree, at: seq<string>, h: Hit)
    requires DistinctLeaves(b.subs)
    ensures h in LeafHits(b, at) <==> h.path == at && Lookup(b, [], h.leaf.client) == Some(h.leaf.qos)
  {
    var i := FindLeaf(b.subs, h.leaf.client, 0);
    if h in LeafHits(b, at) {
      var k :| 0 <= k < |b.subs| && LeafHits(b, at)[k] == h;
      assert b.subs[k].client == h.leaf.client;
    }
    if h.path == at && Lookup(b, [], h.leaf.client) == Some(h.leaf.qos) {
      assert b.subs[i] == h.leaf;
      assert LeafHits(b, at)[i] == h;
    }
  }

  lemma {:induction false} SearchExact(t: Tree, at: seq<string>, tokens: seq<string>, h: Hit)
    requires WellFormed(t) && PlainPath(tokens)
    ensures h in Search(t, at, tokens) <==> Expected(t, at, tokens, h)
    decreases t, |t.children| + 1
  {
    SearchFirstExact(t, |t.children|, at, tokens, h);
    if at <= h.path && |h.path| > |at| {
      assert h.path[|at|] == Rel(at, h)[0];
    }
  }

  lemma {:induction false} SearchFirstExact(t: Tree, k: nat, at: seq<string>, tokens: seq<string>, h: Hit)
    requires WellFormed(t) && PlainPath(tokens) && k <= |t.children|
    ensures h in SearchFirst(t, k, at, tokens) <==>
              Expected(t, at, tokens, h) && FindChild(t.children, h.path[|at|], 0) < k
    decreases t, k
  {
    hide Expected, ExpectedAtBranch, SearchBranch, WellFormed, PlainPath;
    if k > 0 {
      var b := t.children[k - 1];
      var at' := at + [b.topic];
      ChildWellFormed(t, k - 1);
      SearchFirstExact(t, k - 1, at, tokens, h);
      SearchBranchExact(b, at', tokens, h);
      ExpectedBelow(t, k - 1, at, tokens, h);
    }
  }

  // Whatever the tokens are, only leaves of the tree are found.
  lemma {:induction false} SearchFinds(t: Tree, at: seq<string>, tokens: seq<string>, h: Hit)
    requires WellFormed(t) && h in Search(t, at, tokens)
    ensures at <= h.path && |h.path| > |at| && Lookup(t, Rel(at, h), h.leaf.client) == Some(h.leaf.qos)
    decreases t, |t.children| + 1
  {
    SearchFirstFinds(t, |t.children|, at, tokens, h);
  }

  lemma {:induction false} SearchFirstFinds(t: Tree, k: nat, at: seq<string>, tokens: seq<string>, h: Hit)
    requires WellFormed(t) && k <= |t.children| && h in SearchFirst(t, k, at, tokens)
    ensures at <= h.path && |h.path| > |at| && Lookup(t, Rel(at, h), h.leaf.client) == Some(h.leaf.qos)
    decreases t, k
  {
    hide SearchBranch, WellFormed;
    if h !in SearchFirst(t, k - 1, at, tokens) {
      var b := t.children[k - 1];
      ChildWellFormed(t, k - 1);
      SearchBranchFinds(b, at + [b.topic], tokens, h);
      FoundBelow(t, k - 1, at, h);
    } else {
      SearchFirstFinds(t, k - 1, at, tokens, h);
    }
  }

  lemma {:induction false} SearchBranchFinds(b: Tree, at: seq<string>, tokens: seq<string>, h: Hit)
    requires WellFormed(b) && h in SearchBranch(b, at, tokens)
    ensures at <= h.path && Lookup(b, Rel(at, h), h.leaf.client) == Some(h.leaf.qos)
    decreases b, |b.children| + 2
  {
    LeafHitsExact(b, at, h);
    if h in LeafHits(b, at) {
      assert Rel(at, h) == [];
    } else {
      SearchFinds(b, at, tokens[1..], h);
    }
  }

  lemma {:induction false} FoundBelow(t: Tree, j: nat, at: seq<string>, h: Hit)
    requires DistinctNames(t.children) && j < |t.children|
    requires var b := t.children[j];
      at + [b.topic] <= h.path && Lookup(b, Rel(at + [b.topic], h), h.leaf.client) == Some(h.leaf.qos)
    ensures at <= h.path && |h.path| > |at| && Lookup(t, Rel(at, h), h.leaf.client) == Some(h.leaf.qos)
  {
    var b := t.children[j];
    assert (at + [b.topic])[|at|] == b.topic;
    assert Rel(at, h) == [b.topic] + Rel(at + [b.topic], h);
    FindOnly(t.children, j);
  }

  lemma {:induction false} ChildWellFormed(t: Tree, i: nat)
    requires WellFormed(t) && i < |t.children|
    ensures WellFormed(t.children[i]) && DistinctNames(t.children)
  {
  }

  lemma {:induction false} ExpectedBelow(t: Tree, j: nat, at: seq<string>, tokens: seq<string>, h: Hit)
    requires DistinctNames(t.children) && j < |t.children|
    ensures Expected(t, at, tokens, h) ==> |h.path| > |at|
    ensures var b := t.children[j];
      ExpectedAtBranch(b, at + [b.topic], tokens, h) <==>
        Expected(t, at, tokens, h) && FindChild(t.children, h.path[|at|], 0) == j
  {
    var b := t.children[j];
    var at' := at + [b.topic];
    FindOnly(t.children, j);
    if at <= h.path && |h.path| > |at| && h.path[|at|] == b.topic {
      assert at' <= h.path;
      assert Rel(at, h) == [b.topic] + Rel(at', h);
      assert Rel(at, h)[1..] == Rel(at', h);
    }
  }

  lemma {:induction false} SearchBranchExact(b: Tree, at: seq<string>, tokens: seq<string>, h: Hit)
    requires WellFormed(b) && PlainPath(tokens)
    ensures h in SearchBranch(b, at, tokens) <==> ExpectedAtBranch(b, at, tokens, h)
    decreases b, |b.children| + 2
  {
    LeafHitsExact(b, at, h);
    if at <= h.path {
      var rel := Rel(at, h);
      assert ([b.topic] + rel)[1..] == rel;
      assert h.path == at <==> rel == [];
    }
    if Follows(b, tokens) {
      assert PlainPath(tokens[1..]);
      SearchExact(b, at, tokens[1..], h);
      if at <= h.path {
        var rel := Rel(at, h);
        assert b.topic != "#" && ([b.topic] + rel)[0] == b.topic;
        assert LevelMatch([b.topic] + rel, tokens) == LevelMatch(rel, tokens[1..]);
        assert LevelMatch([], tokens[1..]) <==> |tokens| == 1;
      }
    } else if at <= h.path {
      assert ([b.topic] + Rel(at, h))[0] == b.topic;
      assert |[b.topic] + Rel(at, h)| == 1 <==> h.path == at;
    }
  }

  // ----- No leaf is found twice -----

  predicate NoRepeat<T(==)>(s: seq<T>) {
    forall i, j :: 0 <= i < j < |s| ==> s[i] != s[j]
  }

  lemma {:induction false} NoRepeatConcat<T>(a: seq<T>, b: seq<T>)
    requires NoRepeat(a) && NoRepeat(b) && forall x :: x in a ==> x !in b
    ensures NoRepeat(a + b)
  {
    forall i, j | 0 <= i < j < |a + b|
      ensures (a + b)[i] != (a + b)[j]
    {
      if i < |a| && |a| <= j {
        assert a[i] in a && b[j - |a|] in b;
      }
    }
  }

  lemma {:induction false} SearchOnce(t: Tree, at: seq<string>, tokens: seq<string>)
    requires WellFormed(t) && PlainPath(tokens)
    ensures NoRepeat(Search(t, at, tokens))
    decreases t, |t.children| + 1
  {
    SearchFirstOnce(t, |t.children|, at, tokens);
  }

  lemma {:induction false} SearchFirstOnce(t: Tree, k: nat, at: seq<string>, tokens: seq<string>)
    requires WellFormed(t) && PlainPath(tokens) && k <= |t.children|
    ensures NoRepeat(SearchFirst(t, k, at, tokens))
    decreases t, k
  {
    if k > 0 {
      var b := t.children[k - 1];
      var at' := at + [b.topic];
      SearchFirstOnce(t, k - 1, at, tokens);
      SearchBranchOnce(b, at', tokens);
      FindOnly(t.children, k - 1);
      forall h | h in SearchFirst(t, k - 1, at, tokens)
        ensures h !in SearchBranch(b, at', tokens)
      {
        SearchFirstExact(t, k - 1, at, tokens, h);
        SearchBranchExact(b, at', tokens, h);
        assert at'[|at|] == b.topic;
      }
      NoRepeatConcat(SearchFirst(t, k - 1, at, tokens), SearchBranch(b, at', tokens));
    }
  }

  lemma {:induction false} SearchBranchOnce(b: Tree, at: seq<string>, tokens: seq<string>)
    requires WellFormed(b) && PlainPath(tokens)
    ensures NoRepeat(SearchBranch(b, at, tokens))
    decreases b, |b.children| + 2
  {
    var own := LeafHits(b, at);
    assert NoRepeat(own);
    if Follows(b, tokens) {
      assert PlainPath(tokens[1..]);
      SearchOnce(b, at, tokens[1..]);
      var below := Search(b, at, tokens[1..]);
      forall h | h in below
        ensures h !in own
      {
        SearchExact(b, at, tokens[1..], h);
      }
      NoRepeatConcat(below, own);
      assert below + [] == below;
    }
  }

  // ----- Making the path of a topic first changes nothing about who is found -----

  lemma {:induction false} GrownSearch(t: Tree, path: seq<string>, at: seq<string>, tokens: seq<string>)
    requires PlainPath(path)
    ensures Search(Add(t, path, None), at, tokens) == Search(t, at, tokens)
    ensures Add(t, path, None).subs == t.subs
    decreases |path|, 1
  {
    if path != [] {
      var i, r := FindChild(t.children, path[0], 0), Add(t, path, None);
      if i < |t.children| {
        GrownBranch(t.children[i], path, at + [path[0]], tokens);
        AddKeepsTopic(t.children[i], path[1..], None);
        SameSearch(t, r, |t.children|, at, tokens);
      } else {
        var n, c := |t.children|, Add(Empty(path[0]), path[1..], None);
        GrownBranch(Empty(path[0]), path, at + [path[0]], tokens);
        AddKeepsTopic(Empty(path[0]), path[1..], None);
        assert r.children == t.children + [c] && r.children[..n] == t.children;
        SameSearch(t, r, n, at, tokens);
        NothingFound(path[0], at + [path[0]], tokens);
        assert SearchFirst(r, n + 1, at, tokens) ==
               SearchFirst(r, n, at, tokens) + SearchBranch(c, at + [c.topic], tokens);
      }
    }
  }

  lemma {:induction false} NothingFound(topic: string, at: seq<string>, tokens: seq<string>)
    ensures SearchBranch(Empty(topic), at, tokens) == []
  {
    if tokens != [] { assert Search(Empty(topic), at, tokens[1..]) == []; }
  }

  lemma {:induction false} GrownBranch(b: Tree, path: seq<string>, at: seq<string>, tokens: seq<string>)
    requires path != [] && PlainPath(path) && b.topic == path[0]
    ensures SearchBranch(Add(b, path[1..], None), at, tokens) == SearchBranch(b, at, tokens)
    decreases |path|, 0
  {
    AddKeepsTopic(b, path[1..], None);
    if tokens != [] { GrownSearch(b, path[1..], at, tokens[1..]); }
    var r := Add(b, path[1..], None);
    assert b.topic != "#";
    if Follows(b, tokens) { assert LeafHits(r, at) == LeafHits(b, at); }
  }

  // Branches that are searched alike.
  lemma {:induction false} SameSearch(t: Tree, r: Tree, k: nat, at: seq<string>, tokens: seq<string>)
    requires k <= |t.children| && k <= |r.children|
    requires forall i :: 0 <= i < k ==> r.children[i].topic == t.children[i].topic
    requires forall i :: 0 <= i < k ==>
      SearchBranch(r.children[i], at + [t.children[i].topic], tokens) == SearchBranch(t.children[i],
            at + [t.children[i].topic], tokens)
    ensures SearchFirst(r, k, at, tokens) == SearchFirst(t, k, at, tokens)
    decreases k
  {
    if k > 0 { SameSearch(t, r, k - 1, at, tokens); }
  }

  // ----- A retained publish updates the map of retained messages at its own topic -----

  lemma {:induction false} SetFirstAt(t: Tree, k: nat, tokens: seq<string>, value: Option<nat>)
    requires k <= |t.children|
    ensures forall i :: 0 <= i < k ==> SetFirst(t, k, tokens, value)[i] == SetBranch(t.children[i], tokens, value)
    ensures forall i :: 0 <= i < k ==> SetFirst(t, k, tokens, value)[i].topic == t.children[i].topic
    decreases k
  {
    if k > 0 { SetFirstAt(t, k - 1, tokens, value); }
  }

  lemma {:induction false} RetainedSet(t: Tree, tokens: seq<string>, value: Option<nat>, p: seq<string>)
    requires PlainPath(tokens) && tokens != []
    ensures RetainedAt(SetRetained(t, tokens, value), p) ==
              if p == tokens && HasNode(t, tokens) then value else RetainedAt(t, p)
    decreases |tokens|
  {
    if p != [] {
      var i := FindChild(t.children, p[0], 0);
      var t' := SetRetained(t, tokens, value);
      SetFirstAt(t, |t.children|, tokens, value);
      FindSame(t.children, t'.children, p[0]);
      assert p == tokens <==> p[0] == tokens[0] && p[1..] == tokens[1..] by {
        assert p == [p[0]] + p[1..] && tokens == [tokens[0]] + tokens[1..];
      }
      if i < |t.children| {
        var b := t.children[i];
        assert t'.children[i] == SetBranch(b, tokens, value);
        if b.topic == tokens[0] {
          assert PlainPath(tokens[1..]);
          if |tokens| == 1 {
            assert tokens[1..] == [];
            SetNothing(b, value);
          } else {
            RetainedSet(b, tokens[1..], value, p[1..]);
          }
        }
      }
    }
  }

  // With no level left nothing below is set.
  lemma {:induction false} SetNothing(t: Tree, value: Option<nat>)
    ensures SetRetained(t, [], value) == t
  {
    SetFirstAt(t, |t.children|, [], value);
    assert SetFirst(t, |t.children|, [], value) == t.children;
  }

  lemma {:induction false} LookupSet(t: Tree, tokens: seq<string>, value: Option<nat>, p: seq<string>, c: string)
    ensures Lookup(SetRetained(t, tokens, value), p, c) == Lookup(t, p, c)
    decreases |p|
  {
    if p != [] {
      var i := FindChild(t.children, p[0], 0);
      var t' := SetRetained(t, tokens, value);
      SetFirstAt(t, |t.children|, tokens, value);
      FindSame(t.children, t'.children, p[0]);
      if i < |t.children| {
        var b := t.children[i];
        assert t'.children[i] == SetBranch(b, tokens, value);
        if Follows(b, tokens) && b.topic != "+" {
          LookupSet(b, tokens[1..], value, p[1..], c);
        }
      }
    }
  }

  lemma {:induction false} SetWellFormed(t: Tree, tokens: seq<string>, value: Option<nat>)
    requires WellFormed(t) && RetainedOnTopics(t) && PlainPath(tokens)
    ensures WellFormed(SetRetained(t, tokens, value))
    ensures t.topic != "+" && t.topic != "#" ==> RetainedOnTopics(SetRetained(t, tokens, value))
    decreases t
  {
    var t' := SetRetained(t, tokens, value);
    SetFirstAt(t, |t.children|, tokens, value);
    forall i | 0 <= i < |t'.children|
      ensures WellFormed(t'.children[i]) && RetainedOnTopics(t'.children[i])
    {
      var b := t.children[i];
      assert t'.children[i] == SetBranch(b, tokens, value);
      if Follows(b, tokens) && b.topic != "+" {
        assert PlainPath(tokens[1..]);
        SetWellFormed(b, tokens[1..], value);
      }
    }
  }

  lemma {:induction false} AddRetainedOnTopics(t: Tree, path: seq<string>, who: Option<Leaf>)
    requires RetainedOnTopics(t)
    ensures RetainedOnTopics(Add(t, path, who))
    decreases |path|
  {
    AddCounts(t, path, who);
    AddKeepsTopic(t, path, who);
    if path != [] {
      var i := FindChild(t.children, path[0], 0);
      if i < |t.children| { AddRetainedOnTopics(t.children[i], path[1..], who); }
      else { BareCounts(Empty(path[0])); AddRetainedOnTopics(Empty(path[0]), path[1..], who); }
    }
  }

  lemma {:induction false} RemoveRetainedOnTopics(t: Tree, path: seq<string>, who: string)
    requires RetainedOnTopics(t)
    ensures RetainedOnTopics(Remove(t, path, who))
    decreases |path|
  {
    RemoveCounts(t, path, who);
    RemoveKeepsTopic(t, path, who);
    if path != [] {
      var i := FindChild(t.children, path[0], 0);
      if i < |t.children| { RemoveRetainedOnTopics(t.children[i], path[1..], who); }
    }
  }

  lemma {:induction false} CleanRetainedOnTopics(t: Tree, who: string)
    requires RetainedOnTopics(t)
    ensures RetainedOnTopics(Clean(t, who))
    decreases t, |t.children| + 1
  {
    CleanFirstRetainedOnTopics(t, |t.children|, who);
    CleanCounts(t, who);
    CleanKeepsTopic(t, who);
  }

  lemma {:induction false} CleanFirstRetainedOnTopics(t: Tree, k: nat, who: string)
    requires RetainedOnTopics(t) && k <= |t.children|
    ensures forall i :: 0 <= i < |CleanFirst(t, k, who)| ==> RetainedOnTopics(CleanFirst(t, k, who)[i])
    decreases t, k
  {
    if k > 0 {
      CleanFirstRetainedOnTopics(t, k - 1, who);
      CleanRetainedOnTopics(t.children[k - 1], who);
    }
  }

  // ----- The counters count the flat table -----

  function CountLeaves(t: Tree): nat
    decreases t, |t.children| + 1
  {
    |t.subs| + CountLeavesFirst(t, |t.children|)
  }

  function CountLeavesFirst(t: Tree, k: nat): nat
    requires k <= |t.children|
    decreases t, k
  {
    if k == 0 then 0 else CountLeavesFirst(t, k - 1) + CountLeaves(t.children[k - 1])
  }

  function CountRetained(t: Tree): nat
    decreases t, |t.children| + 1
  {
    (if t.retained.Some? then 1 else 0) + CountRetainedFirst(t, |t.children|)
  }

  function CountRetainedFirst(t: Tree, k: nat): nat
    requires k <= |t.children|
    decreases t, k
  {
    if k == 0 then 0 else CountRetainedFirst(t, k - 1) + CountRetained(t.children[k - 1])
  }

  // Retained pointers to one stored message.
  function RetainedRefs(t: Tree, id: nat): nat
    decreases t, |t.children| + 1
  {
    (if t.retained == Some(id) then 1 else 0) + RetainedRefsFirst(t, |t.children|, id)
  }

  function RetainedRefsFirst(t: Tree, k: nat, id: nat): nat
    requires k <= |t.children|
    decreases t, k
  {
    if k == 0 then 0 else RetainedRefsFirst(t, k - 1, id) + RetainedRefs(t.children[k - 1], id)
  }

  // Nodes that agree on their children have the same sums over them.
  lemma {:induction false} SameChildren(a: Tree, b: Tree, k: nat)
    requires k <= |a.children| && k <= |b.children| && a.children[..k] == b.children[..k]
    ensures CountLeavesFirst(a, k) == CountLeavesFirst(b, k)
    ensures CountRetainedFirst(a, k) == CountRetainedFirst(b, k)
    ensures forall id :: RetainedRefsFirst(a, k, id) == RetainedRefsFirst(b, k, id)
    decreases k
  {
    if k > 0 {
      assert a.children[..k][..k - 1] == a.children[..k - 1] && b.children[..k][..k - 1] == b.children[..k - 1];
      assert a.children[..k][k - 1] == b.children[..k][k - 1];
      SameChildren(a, b, k - 1);
    }
  }

  // One child more, at the end.
  lemma {:induction false} AppendChild(t: Tree, c: Tree)
    ensures var t' := t.(children := t.children + [c]);
      && CountLeaves(t') == CountLeaves(t) + CountLeaves(c)
      && CountRetained(t') == CountRetained(t) + CountRetained(c)
      && forall id :: RetainedRefs(t', id) == RetainedRefs(t, id) + RetainedRefs(c, id)
  {
    var t' := t.(children := t.children + [c]);
    assert t'.children[..|t.children|] == t.children[..|t.children|];
    SameChildren(t, t', |t.children|);
  }

  // Child i replaced, seen through the first k children.
  lemma {:induction false} ReplaceChild(t: Tree, i: nat, c: Tree, k: nat)
    requires i < |t.children| && k <= |t.children|
    ensures var t' := t.(children := t.children[i := c]);
      if k <= i then
        && CountLeavesFirst(t', k) == CountLeavesFirst(t, k)
        && CountRetainedFirst(t', k) == CountRetainedFirst(t, k)
        && forall id :: RetainedRefsFirst(t', k, id) == RetainedRefsFirst(t, k, id)
      else
        && CountLeavesFirst(t', k) == CountLeavesFirst(t, k) - CountLeaves(t.children[i]) + CountLeaves(c)
        && CountRetainedFirst(t', k) == CountRetainedFirst(t, k) - CountRetained(t.children[i]) + CountRetained(c)
        && forall id :: RetainedRefsFirst(t', k, id) == RetainedRefsFirst(t, k, id) - RetainedRefs(t.children[i],
              id) + RetainedRefs(c, id)
    decreases k
  {
    if k > 0 { ReplaceChild(t, i, c, k - 1); }
  }

  // Child i removed, seen through the first k children of the old node.
  lemma {:induction false} RemoveChild(t: Tree, i: nat, k: nat)
    requires i < |t.children| && i < k <= |t.children|
    ensures var t' := t.(children := Drop(t.children, i));
      && CountLeavesFirst(t', k - 1) == CountLeavesFirst(t, k) - CountLeaves(t.children[i])
      && CountRetainedFirst(t', k - 1) == CountRetainedFirst(t, k) - CountRetained(t.children[i])
      && forall id :: RetainedRefsFirst(t', k - 1, id) == RetainedRefsFirst(t, k, id) - RetainedRefs(t.children[i], id)
    decreases k
  {
    var t' := t.(children := Drop(t.children, i));
    if k == i + 1 {
      assert t'.children[..i] == t.children[..i];
      SameChildren(t, t', i);
    } else {
      RemoveChild(t, i, k - 1);
    }
  }

  lemma {:induction false} BareCounts(t: Tree)
    requires Bare(t)
    ensures CountLeaves(t) == 0 && CountRetained(t) == 0 && forall id :: RetainedRefs(t, id) == 0
  {
  }

  // Replacing a child, or unlinking it when bare, moves the sums by the child's own.
  lemma {:induction false} ReplaceCounts(t: Tree, i: nat, c: Tree)
    requires i < |t.children|
    ensures var t' := t.(children := Replace(t.children, i, c));
      && CountLeaves(t') == CountLeaves(t) - CountLeaves(t.children[i]) + CountLeaves(c)
      && CountRetained(t') == CountRetained(t) - CountRetained(t.children[i]) + CountRetained(c)
      && forall id :: RetainedRefs(t', id) ==
           RetainedRefs(t, id) - RetainedRefs(t.children[i], id) + RetainedRefs(c, id)
  {
    if Bare(c) {
      BareCounts(c);
      RemoveChild(t, i, |t.children|);
    } else {
      ReplaceChild(t, i, c, |t.children|);
    }
  }

  lemma {:induction false} AddCounts(t: Tree, path: seq<string>, who: Option<Leaf>)
    ensures CountLeaves(Add(t, path, who)) ==
              CountLeaves(t) + if who.Some? && Lookup(t, path, who.value.client) == None then 1 else 0
    ensures CountRetained(Add(t, path, who)) == CountRetained(t)
    ensures forall id :: RetainedRefs(Add(t, path, who), id) == RetainedRefs(t, id)
    decreases |path|
  {
    var t' := Add(t, path, who);
    if path == [] {
      assert t'.children[..|t.children|] == t.children[..|t.children|];
      SameChildren(t, t', |t.children|);
    } else {
      var i := FindChild(t.children, path[0], 0);
      if i < |t.children| {
        AddCounts(t.children[i], path[1..], who);
        ReplaceChild(t, i, Add(t.children[i], path[1..], who), |t.children|);
      } else {
        AddCounts(Empty(path[0]), path[1..], who);
        AppendChild(t, Add(Empty(path[0]), path[1..], who));
        if who.Some? { LookupEmpty(path[0], path[1..], who.value.client); }
        BareCounts(Empty(path[0]));
      }
    }
  }

  lemma {:induction false} RemoveCounts(t: Tree, path: seq<string>, who: string)
    ensures CountLeaves(Remove(t, path, who)) == CountLeaves(t) - if Lookup(t, path, who).Some? then 1 else 0
    ensures CountRetained(Remove(t, path, who)) == CountRetained(t)
    ensures forall id :: RetainedRefs(Remove(t, path, who), id) == RetainedRefs(t, id)
    decreases |path|
  {
    var t' := Remove(t, path, who);
    if path == [] {
      assert t'.children[..|t.children|] == t.children[..|t.children|];
      SameChildren(t, t', |t.children|);
    } else {
      var i := FindChild(t.children, path[0], 0);
      if i < |t.children| {
        RemoveCounts(t.children[i], path[1..], who);
        ReplaceCounts(t, i, Remove(t.children[i], path[1..], who));
      }
    }
  }

  // Leaves of one client.
  function CountClient(t: Tree, who: string): nat
    decreases t, |t.children| + 1
  {
    |t.subs| - |OtherLeaves(t.subs, who)| + CountClientFirst(t, |t.children|, who)
  }

  function CountClientFirst(t: Tree, k: nat, who: string): nat
    requires k <= |t.children|
    decreases t, k
  {
    if k == 0 then 0 else CountClientFirst(t, k - 1, who) + CountClient(t.children[k - 1], who)
  }

  lemma {:induction false} CleanCounts(t: Tree, who: string)
    ensures CountLeaves(Clean(t, who)) == CountLeaves(t) - CountClient(t, who)
    ensures CountRetained(Clean(t, who)) == CountRetained(t)
    ensures forall id :: RetainedRefs(Clean(t, who), id) == RetainedRefs(t, id)
    decreases t, |t.children| + 1
  {
    CleanFirstCounts(t, |t.children|, who);
    var c, n := Clean(t, who), Node("", [], None, CleanFirst(t, |t.children|, who));
    SameChildren(c, n, |n.children|);
  }

  lemma {:induction false} CleanFirstCounts(t: Tree, k: nat, who: string)
    requires k <= |t.children|
    ensures var n := Node("", [], None, CleanFirst(t, k, who));
      && CountLeaves(n) == CountLeavesFirst(t, k) - CountClientFirst(t, k, who)
      && CountRetained(n) == CountRetainedFirst(t, k)
      && forall id :: RetainedRefs(n, id) == RetainedRefsFirst(t, k, id)
    decreases t, k
  {
    if k > 0 {
      var n, c := Node("", [], None, CleanFirst(t, k - 1, who)), Clean(t.children[k - 1], who);
      CleanFirstCounts(t, k - 1, who);
      CleanCounts(t.children[k - 1], who);
      if Bare(c) {
        BareCounts(c);
        assert n.children + [] == n.children;
      } else {
        AppendChild(n, c);
      }
    }
  }

  lemma {:induction false} SetIsReplace(t: Tree, tokens: seq<string>, value: Option<nat>)
    requires DistinctNames(t.children) && PlainPath(tokens) && tokens != []
    ensures var i := FindChild(t.children, tokens[0], 0);
      SetRetained(t, tokens, value) ==
        if i < |t.children| then t.(children := t.children[i := SetBranch(t.children[i], tokens, value)]) else t
  {
    var i, t' := FindChild(t.children, tokens[0], 0), SetRetained(t, tokens, value);
    SetFirstAt(t, |t.children|, tokens, value);
    forall k | 0 <= k < |t.children| && k != i
      ensures t'.children[k] == t.children[k]
    {
      assert t.children[k].topic != tokens[0] || i == k;
    }
    if i < |t.children| {
      assert t'.children == t.children[i := SetBranch(t.children[i], tokens, value)];
    } else {
      assert t'.children == t.children;
    }
  }

  // Another retained message at a node.
  lemma {:induction false} RetainedCounts(b: Tree, value: Option<nat>)
    ensures var b' := b.(retained := value);
      && CountLeaves(b') == CountLeaves(b)
      && CountRetained(b') == CountRetained(b) + (if value.Some? then 1 else 0) - (if b.retained.Some? then 1 else 0)
      && forall id: nat :: RetainedRefs(b', id) ==
           RetainedRefs(b, id) + (if value == Some(id) then 1 else 0) - (if b.retained == Some(id) then 1 else 0)
  {
    var b' := b.(retained := value);
    assert b'.children[..|b.children|] == b.children[..|b.children|];
    SameChildren(b, b', |b.children|);
  }

  lemma {:induction false} SetCounts(t: Tree, tokens: seq<string>, value: Option<nat>)
    requires WellFormed(t) && PlainPath(tokens) && tokens != [] && HasNode(t, tokens)
    ensures var t' := SetRetained(t, tokens, value);
      && CountLeaves(t') == CountLeaves(t)
      && CountRetained(t') ==
           CountRetained(t) + (if value.Some? then 1 else 0) - (if RetainedAt(t, tokens).Some? then 1 else 0)
      && forall id: nat :: RetainedRefs(t', id) ==
           RetainedRefs(t, id) + (if value == Some(id) then 1 else 0)
           - (if RetainedAt(t, tokens) == Some(id) then 1 else 0)
    decreases |tokens|
  {
    SetIsReplace(t, tokens, value);
    var i := FindChild(t.children, tokens[0], 0);
    var b := t.children[i];
    var b' := SetRetained(b, tokens[1..], value);
    assert SetBranch(b, tokens, value) == if |tokens| == 1 then b'.(retained := value) else b';
    ChildWellFormed(t, i);
    hide SetRetained, SetFirst, SetBranch, WellFormed, CountLeavesFirst, CountRetainedFirst, RetainedRefsFirst;
    if |tokens| == 1 {
      assert tokens[1..] == [];
      SetNothing(b, value);
      RetainedCounts(b, value);
      ReplaceChild(t, i, b.(retained := value), |t.children|);
    } else {
      assert PlainPath(tokens[1..]);
      SetCounts(b, tokens[1..], value);
      ReplaceChild(t, i, b', |t.children|);
    }
  }

  // ----- All subscriptions of a tree -----

  function LeafKeys(subs: seq<Leaf>, at: seq<string>): set<(seq<string>, string)> {
    set i | 0 <= i < |subs| :: (at, subs[i].client)
  }

  function Keys(t: Tree, at: seq<string>): set<(seq<string>, string)>
    decreases t, |t.children| + 1
  {
    LeafKeys(t.subs, at) + KeysFirst(t, |t.children|, at)
  }

  function KeysFirst(t: Tree, k: nat, at: seq<string>): set<(seq<string>, string)>
    requires k <= |t.children|
    decreases t, k
  {
    if k == 0 then {} else KeysFirst(t, k - 1, at) + Keys(t.children[k - 1], at + [t.children[k - 1].topic])
  }

  lemma {:induction false} KeysExact(t: Tree, at: seq<string>, p: seq<string>, c: string)
    requires WellFormed(t)
    ensures (p, c) in Keys(t, at) <==> at <= p && Lookup(t, p[|at|..], c).Some?
    decreases t, |t.children| + 1
  {
    KeysFirstExact(t, |t.children|, at, p, c);
    var i := FindLeaf(t.subs, c, 0);
    assert (p, c) in LeafKeys(t.subs, at) <==> p == at && i < |t.subs| by {
      if i < |t.subs| { assert t.subs[i].client == c; }
    }
    if at <= p {
      assert p == at <==> p[|at|..] == [];
      if p != at { assert p[|at|] == p[|at|..][0]; }
    }
  }

  lemma {:induction false} KeysFirstExact(t: Tree, k: nat, at: seq<string>, p: seq<string>, c: string)
    requires WellFormed(t) && k <= |t.children|
    ensures (p, c) in KeysFirst(t, k, at) <==>
              at <= p && |p| > |at| && FindChild(t.children, p[|at|], 0) < k && Lookup(t, p[|at|..], c).Some?
    decreases t, k
  {
    if k > 0 {
      var b := t.children[k - 1];
      var at' := at + [b.topic];
      KeysFirstExact(t, k - 1, at, p, c);
      KeysExact(b, at', p, c);
      FindOnly(t.children, k - 1);
      assert at'[|at|] == b.topic;
      assert at' <= p <==> at <= p && |p| > |at| && p[|at|] == b.topic;
      if at' <= p {
        assert p[|at|..] == [b.topic] + p[|at'|..];
        assert p[|at|..][1..] == p[|at'|..];
      }
    }
  }

  lemma {:induction false} LeafKeysCount(subs: seq<Leaf>, at: seq<string>)
    requires DistinctLeaves(subs)
    ensures |LeafKeys(subs, at)| == |subs|
    decreases |subs|
  {
    if subs != [] {
      var a, x := subs[..|subs| - 1], (at, subs[|subs| - 1].client);
      LeafKeysCount(a, at);
      assert LeafKeys(subs, at) == LeafKeys(a, at) + {x};
      assert x !in LeafKeys(a, at);
    }
  }

  // subscription_count is the size of the flat table.
  lemma {:induction false} KeysCount(t: Tree, at: seq<string>)
    requires WellFormed(t)
    ensures |Keys(t, at)| == CountLeaves(t)
    decreases t, |t.children| + 1
  {
    LeafKeysCount(t.subs, at);
    KeysFirstCount(t, |t.children|, at);
    forall x | x in LeafKeys(t.subs, at)
      ensures x !in KeysFirst(t, |t.children|, at)
    {
      KeysFirstExact(t, |t.children|, at, x.0, x.1);
    }
    DisjointSizes(LeafKeys(t.subs, at), KeysFirst(t, |t.children|, at));
  }

  lemma {:induction false} KeysFirstCount(t: Tree, k: nat, at: seq<string>)
    requires WellFormed(t) && k <= |t.children|
    ensures |KeysFirst(t, k, at)| == CountLeavesFirst(t, k)
    decreases t, k
  {
    if k > 0 {
      var b := t.children[k - 1];
      var at' := at + [b.topic];
      KeysFirstCount(t, k - 1, at);
      KeysCount(b, at');
      FindOnly(t.children, k - 1);
      assert at'[|at|] == b.topic;
      forall x | x in KeysFirst(t, k - 1, at)
        ensures x !in Keys(b, at')
      {
        KeysFirstExact(t, k - 1, at, x.0, x.1);
        KeysExact(b, at', x.0, x.1);
      }
      DisjointSizes(KeysFirst(t, k - 1, at), Keys(b, at'));
    }
  }

  lemma {:induction false} DisjointSizes<T>(a: set<T>, b: set<T>)
    requires a !! b
    ensures |a + b| == |a| + |b|
  {
  }

  lemma {:induction false} NoneRetained(t: Tree, p: seq<string>)
    requires CountRetained(t) == 0
    ensures RetainedAt(t, p) == None
    decreases |p|
  {
    if p != [] {
      var i := FindChild(t.children, p[0], 0);
      if i < |t.children| {
        ChildCount(t, i, |t.children|);
        NoneRetained(t.children[i], p[1..]);
      }
    }
  }

  lemma {:induction false} ChildCount(t: Tree, i: nat, k: nat)
    requires i < k <= |t.children|
    ensures CountRetained(t.children[i]) <= CountRetainedFirst(t, k)
    decreases k
  {
    if i < k - 1 { ChildCount(t, i, k - 1); }
  }
}
