/**
 Splitting topics and filters into the token lists that address the subscription tree
 (_sub_topic_tokenise, src/subs.c:154-233).
 */
module Tokens {
  import opened Topics

  // Topics outside the "$" trees hang below an empty first token; a leading separator takes its place.
  function Tokens(s: string): (r: seq<string>)
    ensures r != []
  {
    if s != [] && (s[0] == '$' || s[0] == '/') then Levels(s) else [""] + Levels(s)
  }

  // A topic without wildcards has none among its tokens.
  lemma {:induction false} PlainTokens(s: string)
    requires WildcardFree(s)
    ensures forall i :: 0 <= i < |Tokens(s)| ==> WildcardFree(Tokens(s)[i])
  {
    PlainLevels(s);
  }

  lemma {:induction false} PlainLevels(s: string)
    requires WildcardFree(s)
    ensures forall i :: 0 <= i < |Levels(s)| ==> WildcardFree(Levels(s)[i])
    decreases |s|
  {
    if s != [] {
      assert forall i :: 0 <= i < |s[1..]| ==> s[1..][i] == s[i + 1];
      PlainLevels(s[1..]);
    }
  }

  method TopicTokenise(subtopic: string) returns (tokens: seq<string>)
    ensures tokens == Tokens(subtopic)
  {
    tokens := [];
    if subtopic == [] || subtopic[0] != '$' {
      tokens := [""];
    }
    var len := |subtopic|;
    var start := 0;
    if subtopic != [] && subtopic[0] == '/' {
      tokens := [""];
      start := 1;
    }
    ghost var goal := tokens + Levels(subtopic[start..]);
    assert goal == Tokens(subtopic) by { StartTokens(subtopic); }
    assert subtopic[start..start] == "";
    BehindNothing(subtopic[start..]);
    hide Levels, Behind, Tokens;
    var i := start;
    while i < len + 1
      invariant start <= i <= len + 1
      invariant i <= len ==> tokens + Behind(subtopic[start..i], subtopic[i..]) == goal
      invariant i == len + 1 ==> tokens == goal
    {
      ghost var was := tokens;
      if i == len || subtopic[i] == '/' {
        if start != i {
          tokens := tokens + [subtopic[start..i]];
        } else {
          assert subtopic[start..i] == "";
          tokens := tokens + [""];
        }
        assert tokens == was + [subtopic[start..i]];
        SeparatorStep(subtopic, was, start, i);
        start := i + 1;
      } else {
        TextStep(subtopic, was, start, i);
      }
      i := i + 1;
    }
  }

  // A level ends before position i.
  lemma {:induction false} SeparatorStep(s: string, tokens: seq<string>, start: nat, i: nat)
    requires start <= i <= |s| && (i < |s| ==> s[i] == '/')
    ensures tokens + Behind(s[start..i], s[i..]) ==
              if i == |s| then tokens + [s[start..i]]
              else (tokens + [s[start..i]]) + Behind(s[i + 1..i + 1], s[i + 1..])
  {
    BehindSeparator(s[start..i], s[i..]);
    if i < |s| {
      assert s[i..][1..] == s[i + 1..] && s[i + 1..i + 1] == "";
      BehindNothing(s[i + 1..]);
    }
  }

  lemma {:induction false} TextStep(s: string, tokens: seq<string>, start: nat, i: nat)
    requires start <= i < |s| && s[i] != '/'
    ensures tokens + Behind(s[start..i], s[i..]) == tokens + Behind(s[start..i + 1], s[i + 1..])
  {
    BehindText(s[start..i], s[i..]);
    assert s[i..][1..] == s[i + 1..] && s[start..i] + [s[i]] == s[start..i + 1];
  }

  lemma {:induction false} StartTokens(s: string)
    ensures s != [] && s[0] == '$' ==> [] + Levels(s[0..]) == Tokens(s)
    ensures s != [] && s[0] == '/' ==> [""] + Levels(s[1..]) == Tokens(s)
    ensures s == [] || (s[0] != '$' && s[0] != '/') ==> [""] + Levels(s[0..]) == Tokens(s)
  {
    assert s[0..] == s;
  }

  // The levels of `part` followed by `rest`, when part holds no separator.
  function Behind(part: string, rest: string): seq<string> {
    var r := Levels(rest);
    [part + r[0]] + r[1..]
  }

  lemma {:induction false} BehindNothing(rest: string)
    ensures Behind("", rest) == Levels(rest)
  {
    assert "" + Levels(rest)[0] == Levels(rest)[0];
  }

  lemma {:induction false} BehindText(part: string, rest: string)
    requires rest != [] && rest[0] != '/'
    ensures Behind(part, rest) == Behind(part + [rest[0]], rest[1..])
  {
    var r := Levels(rest[1..]);
    assert part + ([rest[0]] + r[0]) == (part + [rest[0]]) + r[0];
  }

  lemma {:induction false} BehindSeparator(part: string, rest: string)
    requires rest == [] || rest[0] == '/'
    ensures Behind(part, rest) == [part] + if rest == [] then [] else Levels(rest[1..])
  {
    assert part + [] == part;
  }

  // ----- What the tokens say about the strings -----

  // The token list belongs to the same tree, and each level matches.
  predicate TokensMatch(filter: seq<string>, topic: seq<string>) {
    filter != [] && topic != [] && filter[0] == topic[0] && LevelMatch(filter, topic)
  }

  /**
   On a valid filter and a topic that do not start with a separator, matching in the tree is
   matching in the sense of section 4.7, with the rule about "$" topics.
   */
  lemma {:induction false} TokensMatchIsTopicMatch(filter: string, topic: string)
    requires filter != [] && topic != [] && ValidFilter(filter) && WildcardFree(topic)
    requires filter[0] != '/' && topic[0] != '/'
    ensures TokensMatch(Tokens(filter), Tokens(topic)) <==> TopicMatches(filter, topic)
  {
    var F, T := Levels(filter), Levels(topic);
    FirstLevelHead(filter);
    FirstLevelHead(topic);
    if (filter[0] == '$') != (topic[0] == '$') {
      DollarMismatch(filter, topic);
    } else if filter[0] == '$' {
      assert F[0] != "+" && F[0] != "#";
    } else {
      assert ([""] + F)[1..] == F && ([""] + T)[1..] == T;
    }
  }

  /**
   Two different strings share a token list exactly when one is the other behind a separator and
   that other one starts with neither '$' nor a separator, as "a" and "/a" do.
   */
  lemma {:induction false} TokensCollide(a: string, b: string)
    ensures Tokens(a) == Tokens(b) <==> a == b || Slashed(a, b) || Slashed(b, a)
  {
    if Slashed(a, b) { assert b[1..] == a; }
    if Slashed(b, a) { assert a[1..] == b; }
    if Tokens(a) == Tokens(b) {
      HeadToken(a);
      HeadToken(b);
      assert ([""] + Levels(a))[1..] == Levels(a) && ([""] + Levels(b))[1..] == Levels(b);
      if a != [] && (a[0] == '$' || a[0] == '/') {
        if b != [] && (b[0] == '$' || b[0] == '/') {
          LevelsInjective(a, b);
        } else {
          assert a[0] == '/';
          assert ([[]] + Levels(a[1..]))[1..] == Levels(a[1..]);
          LevelsInjective(a[1..], b);
          assert a == ['/'] + b;
        }
      } else if b != [] && (b[0] == '$' || b[0] == '/') {
        assert b[0] == '/';
        assert ([[]] + Levels(b[1..]))[1..] == Levels(b[1..]);
        LevelsInjective(a, b[1..]);
        assert b == ['/'] + a;
      } else {
        LevelsInjective(a, b);
      }
    }
  }

  predicate Slashed(a: string, b: string) {
    b == ['/'] + a && (a == [] || (a[0] != '$' && a[0] != '/'))
  }

  lemma {:induction false} HeadToken(s: string)
    ensures s != [] && s[0] == '$' <==> Tokens(s)[0] != ""
  {
    FirstLevelHead(s);
  }
}
