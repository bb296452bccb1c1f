/**
 The whole subscription tree below db->subs: subscribing, unsubscribing, cleaning a session and
 publishing (src/subs.c:375-558), and what any sequence of them leaves in the tree.
 */
module Subscriptions {
  import opened Topics
  import opened SubTree
  import Tokens

  // A filter or topic is filed under the top-level node named by its first token, where the
  // whole token list starts again.
  function Filed(tokens: seq<string>): seq<string>
    requires tokens != []
  {
    [tokens[0]] + tokens
  }

  function Top(root: Tree, tokens: seq<string>): (i: nat)
    requires tokens != []
    ensures i <= |root.children|
  {
    FindChild(root.children, tokens[0], 0)
  }

  predicate HasTop(root: Tree, tokens: seq<string>)
    requires tokens != []
  {
    Top(root, tokens) < |root.children|
  }

  // mqtt3_sub_add: a missing top-level node is put in front.
  function SubAdd(root: Tree, tokens: seq<string>, leaf: Leaf): Tree
    requires tokens != []
  {
    var i := Top(root, tokens);
    if HasTop(root, tokens) then root.(children := root.children[i := Add(root.children[i], tokens, Some(leaf))])
    else root.(children := [Add(Empty(tokens[0]), tokens, Some(leaf))] + root.children)
  }

  // mqtt3_sub_remove: a top-level node is never unlinked.
  function SubRemove(root: Tree, tokens: seq<string>, client: string): Tree
    requires tokens != []
  {
    var i := Top(root, tokens);
    if HasTop(root, tokens) then root.(children := root.children[i := Remove(root.children[i], tokens, client)])
    else root
  }

  // mqtt3_subs_clean_session.
  function SubClean(root: Tree, client: string): (r: Tree)
    ensures r == root.(children := r.children) && |r.children| == |root.children|
    ensures forall i :: 0 <= i < |r.children| ==> r.children[i] == Clean(root.children[i], client)
  {
    root.(children := seq(|root.children|, i requires 0 <= i < |root.children| => Clean(root.children[i], client)))
  }

  // mqtt3_db_messages_queue: the leaves that a publication is given to.
  function Recipients(root: Tree, tokens: seq<string>): seq<Hit>
    requires tokens != []
  {
    var i := Top(root, tokens);
    if HasTop(root, tokens) then Search(root.children[i], [], tokens) else []
  }

  // The same function's effect on the tree for a retained publication; None clears.
  function Retain(root: Tree, tokens: seq<string>, value: Option<nat>): Tree
    requires tokens != []
  {
    var i := Top(root, tokens);
    if HasTop(root, tokens)
    then root.(children := root.children[i := SetRetained(Add(root.children[i], tokens, None), tokens, value)])
    else root
  }

  // ----- Well-formed roots -----

  predicate TopWellFormed(top: Tree) {
    && top.subs == [] && top.retained == None && top.topic != "#" && top.topic != "+"
    && forall i :: 0 <= i < |top.children| ==> top.children[i].topic == top.topic
  }

  predicate RootWellFormed(root: Tree) {
    && WellFormed(root) && RetainedOnTopics(root)
    && root.topic == "" && root.subs == [] && root.retained == None
    && forall i :: 0 <= i < |root.children| ==> TopWellFormed(root.children[i])
  }

  // The tree that mqtt3_db_open builds.
  const Opened := Node("", [], None, [Empty(""), Empty("$SYS")])

  // Filters as SUBSCRIBE admits them: "#" last only, and the first token is no wildcard.
  predicate FilterTokens(f: seq<string>) {
    f != [] && f[0] != "+" && f[0] != "#" && ValidPath(f)
  }

  predicate TopicTokens(t: seq<string>) {
    t != [] && PlainPath(t)
  }

  // ----- The flat table -----

  // Subscriptions by filter path and client, retained messages by topic path, and the first tokens
  // that have a top-level node.
  datatype Flat = Flat(subs: map<(seq<string>, string), nat>, retained: map<seq<string>, nat>, tops: set<string>)

  const NoneFlat := Flat(map[], map[], {"", "$SYS"})

  ghost predicate Agrees(root: Tree, flat: Flat) {
    && (forall p, c :: Lookup(root, p, c).Some? <==> (p, c) in flat.subs)
    && (forall p, c :: (p, c) in flat.subs ==> Lookup(root, p, c) == Some(flat.subs[(p, c)]))
    && (forall p :: RetainedAt(root, p).Some? <==> p in flat.retained)
    && (forall p :: p in flat.retained ==> RetainedAt(root, p) == Some(flat.retained[p]))
    && TopsAgree(root, flat.tops)
  }

  ghost predicate TopsAgree(root: Tree, tops: set<string>) {
    forall name :: HasTop(root, [name]) <==> name in tops
  }

  // ----- Top-level siblings -----

  // One top-level child replaced by a tree of the same name.
  lemma {:induction false} LookTop(root: Tree, i: nat, c: Tree, p: seq<string>, client: string)
    requires i < |root.children| && c.topic == root.children[i].topic && DistinctNames(root.children)
    ensures var r := root.(children := root.children[i := c]);
      && Lookup(r, p, client) ==
           (if p != [] && p[0] == c.topic then Lookup(c, p[1..], client) else Lookup(root, p, client))
      && RetainedAt(r, p) == (if p != [] && p[0] == c.topic then RetainedAt(c, p[1..]) else RetainedAt(root, p))
  {
    if p != [] {
      FindOnly(root.children, i);
      FindSame(root.children, root.children[i := c], p[0]);
    }
  }

  lemma {:induction false} FindPrepend(ch: seq<Tree>, c: Tree, name: string)
    ensures FindChild([c] + ch, name, 0) == if c.topic == name then 0 else 1 + FindChild(ch, name, 0)
  {
    var i, j := FindChild(ch, name, 0), FindChild([c] + ch, name, 0);
    if i < |ch| { assert ([c] + ch)[i + 1].topic == name; }
    if 0 < j <= |ch| { assert ch[j - 1].topic == name; }
    assert ([c] + ch)[0] == c;
  }

  lemma {:induction false} LookPrepended(root: Tree, c: Tree, p: seq<string>, client: string)
    ensures var r := root.(children := [c] + root.children);
      && Lookup(r, p, client) ==
           (if p != [] && p[0] == c.topic then Lookup(c, p[1..], client) else Lookup(root, p, client))
      && RetainedAt(r, p) == (if p != [] && p[0] == c.topic then RetainedAt(c, p[1..]) else RetainedAt(root, p))
  {
    if p != [] { FindPrepend(root.children, c, p[0]); }
  }

  // Where a leaf or a retained message of these tokens is looked up.
  lemma {:induction false} LookTopChild(root: Tree, tokens: seq<string>, p: seq<string>, client: string)
    requires tokens != [] && p != [] && p[0] == tokens[0]
    ensures HasTop(root, tokens) ==>
              && Lookup(root, p, client) == Lookup(root.children[Top(root, tokens)], p[1..], client)
              && RetainedAt(root, p) == RetainedAt(root.children[Top(root, tokens)], p[1..])
    ensures !HasTop(root, tokens) ==> Lookup(root, p, client) == None && RetainedAt(root, p) == None
  {
  }

  lemma {:induction false} FiledParts(tokens: seq<string>, p: seq<string>)
    requires tokens != []
    ensures p == Filed(tokens) <==> p != [] && p[0] == tokens[0] && p[1..] == tokens
    ensures Filed(tokens)[1..] == tokens
  {
    if p != [] { assert p == [p[0]] + p[1..]; }
  }

  // ----- Each operation on the flat reading -----

  lemma {:induction false} LookupSubAdd(root: Tree, tokens: seq<string>, leaf: Leaf, p: seq<string>, c: string)
    requires RootWellFormed(root) && tokens != []
    ensures Lookup(SubAdd(root, tokens, leaf), p, c) ==
              if p == Filed(tokens) && c == leaf.client then Some(leaf.qos) else Lookup(root, p, c)
    ensures RetainedAt(SubAdd(root, tokens, leaf), p) == RetainedAt(root, p)
  {
    var i := Top(root, tokens);
    FiledParts(tokens, p);
    var top := if HasTop(root, tokens) then root.children[i] else Empty(tokens[0]);
    var new_ := Add(top, tokens, Some(leaf));
    AddKeepsTopic(top, tokens, Some(leaf));
    if HasTop(root, tokens) { LookTop(root, i, new_, p, c); } else { LookPrepended(root, new_, p, c); }
    if p != [] && p[0] == tokens[0] {
      LookTopChild(root, tokens, p, c);
      LookupAdd(top, tokens, Some(leaf), p[1..], c);
      RetainedAdd(top, tokens, Some(leaf), p[1..]);
      LookupEmpty(tokens[0], p[1..], c);
    }
  }

  lemma {:induction false} LookupSubRemove(root: Tree, tokens: seq<string>, who: string, p: seq<string>, c: string)
    requires RootWellFormed(root) && tokens != []
    ensures Lookup(SubRemove(root, tokens, who), p, c) ==
              if p == Filed(tokens) && c == who then None else Lookup(root, p, c)
    ensures RetainedAt(SubRemove(root, tokens, who), p) == RetainedAt(root, p)
  {
    var i := Top(root, tokens);
    FiledParts(tokens, p);
    if HasTop(root, tokens) {
      var top := root.children[i];
      RemoveKeepsTopic(top, tokens, who);
      LookTop(root, i, Remove(top, tokens, who), p, c);
      if p != [] && p[0] == tokens[0] {
        LookTopChild(root, tokens, p, c);
        LookupRemove(top, tokens, who, p[1..], c);
      }
    } else if p != [] && p[0] == tokens[0] {
      LookTopChild(root, tokens, p, c);
    }
  }

  lemma {:induction false} LookupSubClean(root: Tree, who: string, p: seq<string>, c: string)
    requires RootWellFormed(root)
    ensures Lookup(SubClean(root, who), p, c) == if c == who then None else Lookup(root, p, c)
    ensures RetainedAt(SubClean(root, who), p) == RetainedAt(root, p)
  {
    var r := SubClean(root, who);
    if p != [] {
      forall i | 0 <= i < |root.children| ensures r.children[i].topic == root.children[i].topic {
        CleanKeepsTopic(root.children[i], who);
      }
      FindSame(root.children, r.children, p[0]);
      var i := FindChild(root.children, p[0], 0);
      if i < |root.children| { LookupClean(root.children[i], who, p[1..], c); }
    }
  }

  lemma {:induction false} LookupRetain(root: Tree, tokens: seq<string>, value: Option<nat>, p: seq<string>, c: string)
    requires RootWellFormed(root) && TopicTokens(tokens)
    ensures Lookup(Retain(root, tokens, value), p, c) == Lookup(root, p, c)
    ensures RetainedAt(Retain(root, tokens, value), p) ==
              if p == Filed(tokens) && HasTop(root, tokens) then value else RetainedAt(root, p)
  {
    var i := Top(root, tokens);
    FiledParts(tokens, p);
    if HasTop(root, tokens) {
      var top := root.children[i];
      var grown := Add(top, tokens, None);
      AddKeepsTopic(top, tokens, None);
      LookTop(root, i, SetRetained(grown, tokens, value), p, c);
      if p != [] && p[0] == tokens[0] {
        LookTopChild(root, tokens, p, c);
        LookupSet(grown, tokens, value, p[1..], c);
        LookupAdd(top, tokens, None, p[1..], c);
        AddMakesNode(top, tokens, None);
        RetainedSet(grown, tokens, value, p[1..]);
        RetainedAdd(top, tokens, None, p[1..]);
      }
    }
  }

  // ----- Top-level nodes are never unlinked -----

  lemma {:induction false} SubAddKeepsTops(root: Tree, tokens: seq<string>, leaf: Leaf, name: string)
    requires tokens != []
    ensures HasTop(SubAdd(root, tokens, leaf), [name]) <==> HasTop(root, [name]) || name == tokens[0]
  {
    var i := Top(root, tokens);
    if HasTop(root, tokens) {
      var c := Add(root.children[i], tokens, Some(leaf));
      AddKeepsTopic(root.children[i], tokens, Some(leaf));
      FindSame(root.children, root.children[i := c], name);
    } else {
      AddKeepsTopic(Empty(tokens[0]), tokens, Some(leaf));
      FindPrepend(root.children, Add(Empty(tokens[0]), tokens, Some(leaf)), name);
    }
  }

  lemma {:induction false} RetainKeepsTops(root: Tree, tokens: seq<string>, value: Option<nat>, name: string)
    requires tokens != []
    ensures HasTop(Retain(root, tokens, value), [name]) <==> HasTop(root, [name])
  {
    var i := Top(root, tokens);
    if HasTop(root, tokens) {
      var grown := Add(root.children[i], tokens, None);
      AddKeepsTopic(root.children[i], tokens, None);
      FindSame(root.children, root.children[i := SetRetained(grown, tokens, value)], name);
    }
  }

  lemma {:induction false} SubRemoveKeepsTops(root: Tree, tokens: seq<string>, client: string, name: string)
    requires tokens != []
    ensures HasTop(SubRemove(root, tokens, client), [name]) <==> HasTop(root, [name])
  {
    var i := Top(root, tokens);
    if HasTop(root, tokens) {
      RemoveKeepsTopic(root.children[i], tokens, client);
      FindSame(root.children, root.children[i := Remove(root.children[i], tokens, client)], name);
    }
  }

  lemma {:induction false} SubCleanKeepsTops(root: Tree, client: string, name: string)
    ensures HasTop(SubClean(root, client), [name]) <==> HasTop(root, [name])
  {
    var r := SubClean(root, client);
    forall i | 0 <= i < |root.children| ensures r.children[i].topic == root.children[i].topic {
      CleanKeepsTopic(root.children[i], client);
    }
    FindSame(root.children, r.children, name);
  }

  // ----- Well-formedness is kept -----

  lemma {:induction false} AddTopWellFormed(top: Tree, tokens: seq<string>, who: Option<Leaf>)
    requires WellFormed(top) && RetainedOnTopics(top) && TopWellFormed(top)
    requires FilterTokens(tokens) && tokens[0] == top.topic
    ensures var t := Add(top, tokens, who);
      WellFormed(t) && RetainedOnTopics(t) && TopWellFormed(t) && t.topic == top.topic
  {
    assert ValidPath([top.topic] + tokens) by {
      forall k | 0 <= k < |tokens| ensures ([top.topic] + tokens)[k] != "#" {
        if k > 0 { assert ([top.topic] + tokens)[k] == tokens[k - 1]; }
      }
    }
    AddWellFormed(top, tokens, who);
    AddRetainedOnTopics(top, tokens, who);
    AddKeepsTopic(top, tokens, who);
    var i := FindChild(top.children, tokens[0], 0);
    if i < |top.children| { AddKeepsTopic(top.children[i], tokens[1..], who); }
    else { AddKeepsTopic(Empty(tokens[0]), tokens[1..], who); }
  }

  lemma {:induction false} ReplaceTop(root: Tree, i: nat, c: Tree)
    requires RootWellFormed(root) && i < |root.children| && c.topic == root.children[i].topic
    requires WellFormed(c) && RetainedOnTopics(c) && TopWellFormed(c)
    ensures RootWellFormed(root.(children := root.children[i := c]))
  {
  }

  lemma {:induction false} SubAddWellFormed(root: Tree, tokens: seq<string>, leaf: Leaf)
    requires RootWellFormed(root) && FilterTokens(tokens)
    ensures RootWellFormed(SubAdd(root, tokens, leaf))
  {
    var i := Top(root, tokens);
    if HasTop(root, tokens) {
      AddTopWellFormed(root.children[i], tokens, Some(leaf));
      ReplaceTop(root, i, Add(root.children[i], tokens, Some(leaf)));
    } else {
      AddTopWellFormed(Empty(tokens[0]), tokens, Some(leaf));
      PrependTop(root, Add(Empty(tokens[0]), tokens, Some(leaf)));
    }
  }

  lemma {:induction false} PrependTop(root: Tree, c: Tree)
    requires RootWellFormed(root) && WellFormed(c) && RetainedOnTopics(c) && TopWellFormed(c)
    requires FindChild(root.children, c.topic, 0) == |root.children|
    ensures RootWellFormed(root.(children := [c] + root.children))
  {
    var ch := [c] + root.children;
    forall i | 0 < i < |ch| ensures ch[i] == root.children[i - 1] {}
    forall i, j | 0 <= i < j < |ch| ensures ch[i].topic != ch[j].topic {
      assert ch[j] == root.children[j - 1];
    }
  }

  lemma {:induction false} SubRemoveWellFormed(root: Tree, tokens: seq<string>, who: string)
    requires RootWellFormed(root) && tokens != []
    ensures RootWellFormed(SubRemove(root, tokens, who))
  {
    var i := Top(root, tokens);
    if HasTop(root, tokens) {
      var top := root.children[i];
      RemoveWellFormed(top, tokens, who);
      RemoveRetainedOnTopics(top, tokens, who);
      RemoveKeepsTopic(top, tokens, who);
      var k := FindChild(top.children, tokens[0], 0);
      if k < |top.children| { RemoveKeepsTopic(top.children[k], tokens[1..], who); }
      ReplaceTop(root, i, Remove(top, tokens, who));
    }
  }

  lemma {:induction false} CleanTopNames(top: Tree, k: nat, who: string)
    requires k <= |top.children| && forall i :: 0 <= i < |top.children| ==> top.children[i].topic == top.topic
    ensures forall i :: 0 <= i < |CleanFirst(top, k, who)| ==> CleanFirst(top, k, who)[i].topic == top.topic
    decreases k
  {
    if k > 0 {
      CleanTopNames(top, k - 1, who);
      CleanKeepsTopic(top.children[k - 1], who);
    }
  }

  lemma {:induction false} SubCleanWellFormed(root: Tree, who: string)
    requires RootWellFormed(root)
    ensures RootWellFormed(SubClean(root, who))
  {
    var r := SubClean(root, who);
    forall i | 0 <= i < |r.children|
      ensures r.children[i].topic == root.children[i].topic
      ensures WellFormed(r.children[i]) && RetainedOnTopics(r.children[i]) && TopWellFormed(r.children[i])
    {
      CleanKeepsTopic(root.children[i], who);
      CleanWellFormed(root.children[i], who);
      CleanRetainedOnTopics(root.children[i], who);
      CleanTopNames(root.children[i], |root.children[i].children|, who);
    }
  }

  lemma {:induction false} RetainWellFormed(root: Tree, tokens: seq<string>, value: Option<nat>)
    requires RootWellFormed(root) && TopicTokens(tokens)
    ensures RootWellFormed(Retain(root, tokens, value))
  {
    var i := Top(root, tokens);
    if HasTop(root, tokens) {
      var grown := Add(root.children[i], tokens, None);
      AddTopWellFormed(root.children[i], tokens, None);
      SetWellFormed(grown, tokens, value);
      SetFirstAt(grown, |grown.children|, tokens, value);
      var r := SetRetained(grown, tokens, value);
      forall k | 0 <= k < |r.children| ensures r.children[k].topic == r.topic {
        assert r.children[k].topic == grown.children[k].topic;
      }
      ReplaceTop(root, i, SetRetained(grown, tokens, value));
    }
  }

  // ----- Whole runs -----

  datatype Op =
    | Subscribe(tokens: seq<string>, leaf: Leaf)
    | Unsubscribe(tokens: seq<string>, client: string)
    | CleanSession(client: string)
    | RetainedPublish(tokens: seq<string>, value: Option<nat>)

  // The tree with db->subscription_count and db->retained_count, as the code updates them.
  datatype Counted = Counted(root: Tree, subscriptions: int, retained: int)

  predicate Admissible(op: Op) {
    match op
    case Subscribe(tokens, _) => FilterTokens(tokens)
    case Unsubscribe(tokens, _) => tokens != []
    case CleanSession(_) => true
    case RetainedPublish(tokens, _) => TopicTokens(tokens)
  }

  function One(o: Option<nat>): int { if o.Some? then 1 else 0 }

  function Step(s: Counted, op: Op): Counted
    requires Admissible(op)
  {
    match op
    case Subscribe(tokens, leaf) =>
      Counted(SubAdd(s.root, tokens, leaf),
              s.subscriptions + 1 - One(Lookup(s.root, Filed(tokens), leaf.client)), s.retained)
    case Unsubscribe(tokens, client) =>
      Counted(SubRemove(s.root, tokens, client),
              s.subscriptions - One(Lookup(s.root, Filed(tokens), client)), s.retained)
    case CleanSession(client) =>
      Counted(SubClean(s.root, client), s.subscriptions - CountClientFirst(s.root, |s.root.children|, client),
              s.retained)
    case RetainedPublish(tokens, value) =>
      Counted(Retain(s.root, tokens, value), s.subscriptions,
              if HasTop(s.root, tokens) then
                s.retained - One(RetainedAt(s.root, Filed(tokens))) + One(value)
              else s.retained)
  }

  // The same operation on the flat reading. A retained publish needs its top-level node.
  function FlatStep(flat: Flat, op: Op): Flat
    requires Admissible(op)
  {
    match op
    case Subscribe(tokens, leaf) =>
      flat.(subs := flat.subs[(Filed(tokens), leaf.client) := leaf.qos], tops := flat.tops + {tokens[0]})
    case Unsubscribe(tokens, client) => flat.(subs := flat.subs - {(Filed(tokens), client)})
    case CleanSession(client) => flat.(subs := map k | k in flat.subs && k.1 != client :: flat.subs[k])
    case RetainedPublish(tokens, value) =>
      if tokens[0] !in flat.tops then flat
      else if value.Some? then flat.(retained := flat.retained[Filed(tokens) := value.value])
      else flat.(retained := flat.retained - {Filed(tokens)})
  }

  lemma {:induction false} StepAgrees(s: Counted, flat: Flat, op: Op)
    requires RootWellFormed(s.root) && Admissible(op) && Agrees(s.root, flat)
    ensures RootWellFormed(Step(s, op).root)
    ensures Agrees(Step(s, op).root, FlatStep(flat, op))
  {
    hide SubAdd, SubRemove, SubClean, Retain, Lookup, RetainedAt, HasTop, RootWellFormed, Filed, FilterTokens,
      TopicTokens;
    var root', flat' := Step(s, op).root, FlatStep(flat, op);
    StepWellFormed(s, op);
    StepTops(s, flat.tops, op);
    TopByName(s, flat.tops, op);
    forall p, c
      ensures Lookup(root', p, c).Some? <==> (p, c) in flat'.subs
      ensures (p, c) in flat'.subs ==> Lookup(root', p, c) == Some(flat'.subs[(p, c)])
    {
      StepLookup(s, op, p, c);
    }
    forall p
      ensures RetainedAt(root', p).Some? <==> p in flat'.retained
      ensures p in flat'.retained ==> RetainedAt(root', p) == Some(flat'.retained[p])
    {
      StepLookup(s, op, p, "");
    }
  }

  lemma {:induction false} StepWellFormed(s: Counted, op: Op)
    requires RootWellFormed(s.root) && Admissible(op)
    ensures RootWellFormed(Step(s, op).root)
  {
    match op {
      case Subscribe(tokens, leaf) => SubAddWellFormed(s.root, tokens, leaf);
      case Unsubscribe(tokens, client) => SubRemoveWellFormed(s.root, tokens, client);
      case CleanSession(client) => SubCleanWellFormed(s.root, client);
      case RetainedPublish(tokens, value) => RetainWellFormed(s.root, tokens, value);
    }
  }

  lemma {:induction false} TopByName(s: Counted, tops: set<string>, op: Op)
    requires Admissible(op) && TopsAgree(s.root, tops)
    ensures op.RetainedPublish? ==> op.tokens != [] && (HasTop(s.root, op.tokens) <==> op.tokens[0] in tops)
  {
    if op.RetainedPublish? { assert HasTop(s.root, op.tokens) <==> HasTop(s.root, [op.tokens[0]]); }
  }

  lemma {:induction false} StepTops(s: Counted, tops: set<string>, op: Op)
    requires Admissible(op) && TopsAgree(s.root, tops)
    ensures TopsAgree(Step(s, op).root, if op.Subscribe? then tops + {op.tokens[0]} else tops)
  {
    forall name
      ensures HasTop(Step(s, op).root, [name]) <==> name in tops || (op.Subscribe? && name == op.tokens[0])
    {
      match op {
        case Subscribe(tokens, leaf) => SubAddKeepsTops(s.root, tokens, leaf, name);
        case Unsubscribe(tokens, client) => SubRemoveKeepsTops(s.root, tokens, client, name);
        case CleanSession(client) => SubCleanKeepsTops(s.root, client, name);
        case RetainedPublish(tokens, value) => RetainKeepsTops(s.root, tokens, value, name);
      }
    }
  }

  lemma {:induction false} StepLookup(s: Counted, op: Op, p: seq<string>, c: string)
    requires RootWellFormed(s.root) && Admissible(op)
    ensures Lookup(Step(s, op).root, p, c) ==
              match op
              case Subscribe(tokens, leaf) =>
                if p == Filed(tokens) && c == leaf.client then Some(leaf.qos) else Lookup(s.root, p, c)
              case Unsubscribe(tokens, client) =>
                if p == Filed(tokens) && c == client then None else Lookup(s.root, p, c)
              case CleanSession(client) => if c == client then None else Lookup(s.root, p, c)
              case RetainedPublish(_, _) => Lookup(s.root, p, c)
    ensures RetainedAt(Step(s, op).root, p) ==
              if op.RetainedPublish? && HasTop(s.root, op.tokens) && p == Filed(op.tokens) then op.value
              else RetainedAt(s.root, p)
  {
    match op {
      case Subscribe(tokens, leaf) => LookupSubAdd(s.root, tokens, leaf, p, c);
      case Unsubscribe(tokens, client) => LookupSubRemove(s.root, tokens, client, p, c);
      case CleanSession(client) => LookupSubClean(s.root, client, p, c);
      case RetainedPublish(tokens, value) => LookupRetain(s.root, tokens, value, p, c);
    }
  }

  // ----- The counters follow -----

  predicate CountersRight(s: Counted) {
    s.subscriptions == CountLeaves(s.root) && s.retained == CountRetained(s.root)
  }

  lemma {:induction false} PrependChild(t: Tree, c: Tree, k: nat)
    requires k <= |t.children|
    ensures var t' := t.(children := [c] + t.children);
      && CountLeavesFirst(t', k + 1) == CountLeavesFirst(t, k) + CountLeaves(c)
      && CountRetainedFirst(t', k + 1) == CountRetainedFirst(t, k) + CountRetained(c)
      && forall id :: RetainedRefsFirst(t', k + 1, id) == RetainedRefsFirst(t, k, id) + RetainedRefs(c, id)
    decreases k
  {
    var t' := t.(children := [c] + t.children);
    assert t'.children[k] == if k == 0 then c else t.children[k - 1];
    if k > 0 { PrependChild(t, c, k - 1); }
  }

  lemma {:induction false} SubCleanCounts(root: Tree, who: string, k: nat)
    requires k <= |root.children|
    ensures var r := SubClean(root, who);
      && CountLeavesFirst(r, k) == CountLeavesFirst(root, k) - CountClientFirst(root, k, who)
      && CountRetainedFirst(r, k) == CountRetainedFirst(root, k)
      && forall id :: RetainedRefsFirst(r, k, id) == RetainedRefsFirst(root, k, id)
    decreases k
  {
    if k > 0 {
      SubCleanCounts(root, who, k - 1);
      CleanCounts(root.children[k - 1], who);
    }
  }

  // Subscribing, unsubscribing and cleaning move no retained message.
  lemma {:induction false} StepRefs(s: Counted, op: Op)
    requires RootWellFormed(s.root) && Admissible(op) && !op.RetainedPublish?
    ensures forall id :: RetainedRefs(Step(s, op).root, id) == RetainedRefs(s.root, id)
    ensures CountRetained(Step(s, op).root) == CountRetained(s.root)
  {
    match op {
      case Subscribe(tokens, leaf) =>
        var i := Top(s.root, tokens);
        if HasTop(s.root, tokens) {
          AddCounts(s.root.children[i], tokens, Some(leaf));
          ReplaceChild(s.root, i, Add(s.root.children[i], tokens, Some(leaf)), |s.root.children|);
        } else {
          AddCounts(Empty(tokens[0]), tokens, Some(leaf));
          BareCounts(Empty(tokens[0]));
          PrependChild(s.root, Add(Empty(tokens[0]), tokens, Some(leaf)), |s.root.children|);
        }
      case Unsubscribe(tokens, client) =>
        var i := Top(s.root, tokens);
        if HasTop(s.root, tokens) {
          RemoveCounts(s.root.children[i], tokens, client);
          ReplaceChild(s.root, i, Remove(s.root.children[i], tokens, client), |s.root.children|);
        }
      case CleanSession(client) => SubCleanCounts(s.root, client, |s.root.children|);
    }
  }

  // What a retained publish does to the number of pointers to one stored message.
  lemma {:induction false} RetainCounts(root: Tree, tokens: seq<string>, value: Option<nat>, id: nat)
    requires RootWellFormed(root) && TopicTokens(tokens)
    ensures var root', was := Retain(root, tokens, value), RetainedAt(root, Filed(tokens));
      && CountLeaves(root') == CountLeaves(root)
      && CountRetained(root') == CountRetained(root) + (if HasTop(root, tokens) then One(value) - One(was) else 0)
      && RetainedRefs(root', id) == RetainedRefs(root, id) +
           (if HasTop(root, tokens) && value == Some(id) then 1 else 0) -
           (if HasTop(root, tokens) && was == Some(id) then 1 else 0)
  {
    if HasTop(root, tokens) {
      var i := Top(root, tokens);
      var top := root.children[i];
      var grown := Add(top, tokens, None);
      var set_ := SetRetained(grown, tokens, value);
      FiledParts(tokens, Filed(tokens));
      LookTopChild(root, tokens, Filed(tokens), "");
      AddTopWellFormed(top, tokens, None);
      AddCounts(top, tokens, None);
      AddMakesNode(top, tokens, None);
      RetainedAdd(top, tokens, None, tokens);
      SetCounts(grown, tokens, value);
      ReplaceChild(root, i, set_, |root.children|);
    }
  }

  lemma {:induction false} StepCounters(s: Counted, op: Op)
    requires RootWellFormed(s.root) && Admissible(op) && CountersRight(s)
    ensures CountersRight(Step(s, op))
  {
    match op {
      case Subscribe(tokens, leaf) =>
        var i := Top(s.root, tokens);
        FiledParts(tokens, Filed(tokens));
        LookTopChild(s.root, tokens, Filed(tokens), leaf.client);
        if HasTop(s.root, tokens) {
          AddCounts(s.root.children[i], tokens, Some(leaf));
          ReplaceChild(s.root, i, Add(s.root.children[i], tokens, Some(leaf)), |s.root.children|);
        } else {
          AddCounts(Empty(tokens[0]), tokens, Some(leaf));
          LookupEmpty(tokens[0], tokens, leaf.client);
          BareCounts(Empty(tokens[0]));
          PrependChild(s.root, Add(Empty(tokens[0]), tokens, Some(leaf)), |s.root.children|);
        }
      case Unsubscribe(tokens, client) =>
        var i := Top(s.root, tokens);
        FiledParts(tokens, Filed(tokens));
        LookTopChild(s.root, tokens, Filed(tokens), client);
        if HasTop(s.root, tokens) {
          RemoveCounts(s.root.children[i], tokens, client);
          ReplaceChild(s.root, i, Remove(s.root.children[i], tokens, client), |s.root.children|);
        }
      case CleanSession(client) => SubCleanCounts(s.root, client, |s.root.children|);
      case RetainedPublish(tokens, value) => RetainCounts(s.root, tokens, value, 0);
    }
  }

  function Run(ops: seq<Op>): Counted
    requires forall i :: 0 <= i < |ops| ==> Admissible(ops[i])
  {
    if ops == [] then Counted(Opened, 0, 0) else Step(Run(ops[..|ops| - 1]), ops[|ops| - 1])
  }

  function FlatRun(ops: seq<Op>): Flat
    requires forall i :: 0 <= i < |ops| ==> Admissible(ops[i])
  {
    if ops == [] then NoneFlat
    else
      var last := |ops| - 1;
      FlatStep(FlatRun(ops[..last]), ops[last])
  }

  lemma {:induction false} OpenedAgrees()
    ensures RootWellFormed(Opened) && Agrees(Opened, NoneFlat) && CountersRight(Counted(Opened, 0, 0))
  {
    forall p, c
      ensures Lookup(Opened, p, c) == None && RetainedAt(Opened, p) == None
    {
      if p != [] {
        var i := FindChild(Opened.children, p[0], 0);
        if i < 2 { LookupEmpty(Opened.children[i].topic, p[1..], c); }
      }
    }
    assert Opened.children[0].topic == "" && Opened.children[1].topic == "$SYS";
    BareCounts(Empty(""));
    BareCounts(Empty("$SYS"));
    assert CountLeavesFirst(Opened, 2) == CountLeavesFirst(Opened, 1) + CountLeaves(Opened.children[1]);
    assert CountRetainedFirst(Opened, 2) == CountRetainedFirst(Opened, 1) + CountRetained(Opened.children[1]);
  }

  /**
   After any sequence of operations the tree is the flat table and the map of retained messages,
   it is well formed, and subscription_count is the number of subscriptions in the table.
   */
  lemma {:induction false} TreeIsFlatTable(ops: seq<Op>)
    requires forall i :: 0 <= i < |ops| ==> Admissible(ops[i])
    ensures RootWellFormed(Run(ops).root) && Agrees(Run(ops).root, FlatRun(ops)) && CountersRight(Run(ops))
    ensures Run(ops).subscriptions == |FlatRun(ops).subs|
    ensures Run(ops).retained == |FlatRun(ops).retained|
    decreases |ops|
  {
    hide Step, FlatStep, Agrees, RootWellFormed, CountersRight, Admissible;
    if ops == [] {
      OpenedAgrees();
    } else {
      var last := |ops| - 1;
      TreeIsFlatTable(ops[..last]);
      StepAgrees(Run(ops[..last]), FlatRun(ops[..last]), ops[last]);
      StepCounters(Run(ops[..last]), ops[last]);
      StepRetainedSize(Run(ops[..last]), FlatRun(ops[..last]), ops[last]);
    }
    TableSize(Run(ops).root, FlatRun(ops));
    SubscriptionsCounted(Run(ops));
  }

  lemma {:induction false} SubscriptionsCounted(s: Counted)
    requires CountersRight(s)
    ensures s.subscriptions == CountLeaves(s.root)
  {
  }

  lemma {:induction false} StepRetainedSize(s: Counted, flat: Flat, op: Op)
    requires Admissible(op) && Agrees(s.root, flat) && s.retained == |flat.retained|
    ensures Step(s, op).retained == |FlatStep(flat, op).retained|
  {
    TopByName(s, flat.tops, op);
    hide HasTop, Lookup, RetainedAt, Retain, SubAdd, SubRemove, SubClean, TopicTokens, Filed;
    if op.RetainedPublish? {
      var p := Filed(op.tokens);
      assert RetainedAt(s.root, p).Some? <==> p in flat.retained;
      if p in flat.retained { assert flat.retained == (flat.retained - {p})[p := flat.retained[p]]; }
    }
  }

  lemma {:induction false} TableSize(root: Tree, flat: Flat)
    requires RootWellFormed(root) && Agrees(root, flat)
    ensures |flat.subs| == CountLeaves(root)
  {
    forall k: (seq<string>, string)
      ensures k in Keys(root, []) <==> k in flat.subs
    {
      KeysExact(root, [], k.0, k.1);
      assert k.0[0..] == k.0 && [] <= k.0;
      assert k == (k.0, k.1);
    }
    assert Keys(root, []) == flat.subs.Keys;
    KeysCount(root, []);
  }

  // ----- Who gets a publication -----

  /**
   A publication to a wildcard-free topic is given to exactly the subscriptions of the flat table
   whose filter is filed under the same top-level node and matches, each once.
   */
  lemma {:induction false} RecipientsExact(root: Tree, flat: Flat, tokens: seq<string>)
    requires RootWellFormed(root) && Agrees(root, flat) && TopicTokens(tokens)
    ensures forall h: Hit :: h in Recipients(root, tokens) <==>
              && h.path != [] && (Filed(h.path), h.leaf.client) in flat.subs
              && flat.subs[(Filed(h.path), h.leaf.client)] == h.leaf.qos
              && Tokens.TokensMatch(h.path, tokens)
    ensures NoRepeat(Recipients(root, tokens))
    ensures forall h, h' ::
              (h in Recipients(root, tokens) && h' in Recipients(root, tokens)
               && h.path == h'.path && h.leaf.client == h'.leaf.client) ==> h == h'
  {
    forall h: Hit
      ensures h in Recipients(root, tokens) <==>
                h.path != [] && Lookup(root, Filed(h.path), h.leaf.client) ==
                    Some(h.leaf.qos) && Tokens.TokensMatch(h.path, tokens)
    {
      RecipientExact(root, tokens, h);
    }
    RecipientsOnce(root, tokens);
  }

  lemma {:induction false} RecipientsOnce(root: Tree, tokens: seq<string>)
    requires RootWellFormed(root) && TopicTokens(tokens)
    ensures NoRepeat(Recipients(root, tokens))
  {
    if HasTop(root, tokens) { SearchOnce(root.children[Top(root, tokens)], [], tokens); }
  }

  // Whatever the tokens are, the recipients are subscribed.
  lemma {:induction false} RecipientSubscribed(root: Tree, tokens: seq<string>, h: Hit)
    requires RootWellFormed(root) && tokens != [] && h in Recipients(root, tokens)
    ensures h.path != [] && Lookup(root, Filed(h.path), h.leaf.client) == Some(h.leaf.qos)
  {
    var top := root.children[Top(root, tokens)];
    SearchFinds(top, [], tokens, h);
    assert Rel([], h) == h.path;
    FiledParts(h.path, Filed(h.path));
  }

  lemma {:induction false} RecipientExact(root: Tree, tokens: seq<string>, h: Hit)
    requires RootWellFormed(root) && TopicTokens(tokens)
    ensures h in Recipients(root, tokens) <==>
              h.path != [] && Lookup(root, Filed(h.path), h.leaf.client) ==
                  Some(h.leaf.qos) && Tokens.TokensMatch(h.path, tokens)
  {
    var i := Top(root, tokens);
    if h.path != [] { FiledParts(h.path, Filed(h.path)); }
    if HasTop(root, tokens) {
      var top := root.children[i];
      SearchExact(top, [], tokens, h);
      assert h.path[0..] == h.path && [] <= h.path;
      if h.path != [] && Lookup(top, h.path, h.leaf.client).Some? {
        assert h.path[0] == top.topic;
      }
    }
  }
}
