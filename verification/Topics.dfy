/**
 Topic strings, topic filters and the matcher of lib/util_mosq.c.

 Levels, ValidLevels and TopicMatches are the level-by-level reading of section 4.7 of
 MQTT 3.1.1; everything else is the character-level code.
 */
module Topics {

  datatype Option<+T> = None | Some(value: T)

  datatype Rc = Success | Inval

  const MAX_STRING := 65535

  // ----- Level-by-level reading (section 4.7 of MQTT 3.1.1) -----

  function Levels(s: string): (r: seq<string>)
    ensures |r| >= 1
  {
    if s == [] then [[]]
    else if s[0] == '/' then [[]] + Levels(s[1..])
    else var r := Levels(s[1..]); [[s[0]] + r[0]] + r[1..]
  }

  predicate IsWild(c: char) { c == '+' || c == '#' }

  predicate WildcardFree(s: string) {
    forall i :: 0 <= i < |s| ==> !IsWild(s[i])
  }

  // A level of a filter: "+", "#", or text without wildcards.
  predicate ValidLevel(l: string) {
    l == "+" || l == "#" || WildcardFree(l)
  }

  predicate ValidLevels(f: seq<string>) {
    && (forall i :: 0 <= i < |f| ==> ValidLevel(f[i]))
    && (forall i :: 0 <= i < |f| - 1 ==> f[i] != "#")
  }

  predicate LevelMatch(f: seq<string>, t: seq<string>) {
    if f == [] then t == []
    else if f[0] == "#" then |f| == 1
    else t != [] && (f[0] == "+" || f[0] == t[0]) && LevelMatch(f[1..], t[1..])
  }

  // A filter that starts with a wildcard does not see topics that start with '$' (section 4.7.2).
  predicate TopicMatches(sub: string, topic: string)
    requires sub != [] && topic != []
  {
    LevelMatch(Levels(sub), Levels(topic)) && !(topic[0] == '$' && IsWild(sub[0]))
  }

  // ----- Wildcard checks -----

  // No '+' or '#' next to anything but a separator, and nothing after '#'.
  predicate ValidFilter(s: string) {
    forall i :: 0 <= i < |s| ==> WildcardPlaced(s, i)
  }

  predicate WildcardPlaced(s: string, i: nat)
    requires i < |s|
  {
    IsWild(s[i]) ==>
      && (i == 0 || s[i - 1] == '/')
      && (i + 1 == |s| || (s[i] == '+' && s[i + 1] == '/'))
  }

  predicate PassesLenCheck(topic: string) {
    WildcardFree(topic) && |topic| <= MAX_STRING
  }

  method TopicWildcardLenCheck(str: string) returns (rc: Rc)
    ensures rc == Success <==> PassesLenCheck(str)
  {
    var len := 0;
    while len < |str|
      invariant len <= |str|
      invariant WildcardFree(str[..len])
    {
      if str[len] == '+' || str[len] == '#' {
        return Inval;
      }
      len := len + 1;
    }
    assert str[..len] == str;
    return if len > MAX_STRING then Inval else Success;
  }

  method TopicWildcardPosCheck(str: string) returns (rc: Rc)
    ensures rc == Success <==> ValidFilter(str) && |str| <= MAX_STRING
  {
    var c: Option<char> := None;
    var len := 0;
    while len < |str|
      invariant len <= |str|
      invariant c == if len == 0 then None else Some(str[len - 1])
      invariant forall i :: 0 <= i < len ==> WildcardPlaced(str, i)
    {
      if str[len] == '+' {
        if (c != None && c != Some('/')) || (len + 1 < |str| && str[len + 1] != '/') {
          assert !WildcardPlaced(str, len);
          return Inval;
        }
      } else if str[len] == '#' {
        if (c != None && c != Some('/')) || len + 1 < |str| {
          assert !WildcardPlaced(str, len);
          return Inval;
        }
      }
      c := Some(str[len]);
      len := len + 1;
    }
    return if len > MAX_STRING then Inval else Success;
  }

  // Dropping the first character of a filter keeps it valid when that character is no
  // wildcard, is a whole "+" level, or is a separator; and the other way round.
  lemma {:induction false} ValidFilterTail(s: string)
    requires ValidFilter(s) && s != []
    requires s[0] == '/' || |s| == 1 || !IsWild(s[1])
    ensures ValidFilter(s[1..])
  {
    forall i | 0 <= i < |s| - 1
      ensures WildcardPlaced(s[1..], i)
    {
      assert WildcardPlaced(s, i + 1);
    }
  }

  lemma {:induction false} ValidFilterCons(s: string)
    requires s != [] && ValidFilter(s[1..]) && WildcardPlaced(s, 0)
    requires s[0] == '/' || |s| == 1 || !IsWild(s[1])
    ensures ValidFilter(s)
  {
    forall i | 0 <= i < |s|
      ensures WildcardPlaced(s, i)
    {
      if i > 0 {
        assert WildcardPlaced(s[1..], i - 1);
      }
    }
  }

  // After an ordinary character the next one is not a wildcard.
  lemma {:induction false} NoWildAfterText(s: string)
    requires ValidFilter(s) && |s| > 1 && s[0] != '/'
    ensures !IsWild(s[1])
  {
    assert WildcardPlaced(s, 1);
  }

  // The character check accepts exactly the filters whose levels are well formed.
  lemma {:induction false} ValidFilterByLevels(s: string)
    ensures ValidFilter(s) <==> ValidLevels(Levels(s))
    decreases |s|
  {
    if s != [] {
      var f := Levels(s);
      var g := Levels(s[1..]);
      ValidFilterByLevels(s[1..]);
      if s[0] == '/' {
        if ValidFilter(s) { ValidFilterTail(s); }
        if ValidLevels(f) {
          assert forall i :: 0 <= i < |g| ==> g[i] == f[i + 1];
          ValidFilterCons(s);
        }
      } else {
        FirstLevelHead(s);
        if ValidFilter(s) {
          if |s| > 1 { NoWildAfterText(s); }
          ValidFilterTail(s);
          assert WildcardPlaced(s, 0);
          if !IsWild(s[0]) { FirstLevelText(s); }
        }
        if ValidLevels(f) {
          assert ValidLevel(f[0]);
          assert forall i :: 0 < i < |g| ==> g[i] == f[i];
          assert g[0] == f[0][1..];
          FirstLevelHead(s[1..]);
          assert ValidLevel(g[0]);
          assert ValidLevels(g) by {
            if g[0] == "#" { assert IsWild(f[0][1]); }
          }
          ValidFilterCons(s);
        }
      }
    }
  }

  // The first level starts with the first character unless that is a separator.
  lemma {:induction false} FirstLevelHead(s: string)
    ensures s == [] || s[0] == '/' ==> Levels(s)[0] == []
    ensures s != [] && s[0] != '/' ==> Levels(s)[0] != [] && Levels(s)[0][0] == s[0]
  {
  }

  lemma {:induction false} FirstLevelText(s: string)
    requires ValidFilter(s) && s != [] && !IsWild(s[0])
    ensures WildcardFree(Levels(s)[0])
    decreases |s|
  {
    if s[0] != '/' && |s| > 1 {
      NoWildAfterText(s);
      ValidFilterTail(s);
      FirstLevelText(s[1..]);
    }
  }

  // ----- The matcher (lib/util_mosq.c:206-282) -----

  // The loop of the matcher on what is left of the filter and of the topic.
  function Scan(f: string, t: string): bool
    decreases |f|
  {
    if f == [] || t == [] then false
    else if f[0] == t[0] then
      if |t| == 1 then EndsMatch(f[1..])
      else Scan(f[1..], t[1..])
    else if f[0] == '+' then
      var t' := DropLevel(t);
      (f[1..] == [] && t' == []) || Scan(f[1..], t')
    else f[0] == '#' && |f| == 1
  }

  // What may be left of the filter when the topic ends on an equal character.
  predicate EndsMatch(g: string) {
    || g == []
    || (|g| == 1 && g[0] == '+')
    || (|g| == 2 && g[0] == '/' && g[1] == '#')
  }

  function DropLevel(t: string): (r: string)
    ensures |r| <= |t|
    ensures r == [] || r[0] == '/'
  {
    if t == [] || t[0] == '/' then t else DropLevel(t[1..])
  }

  // The same decision by positions, as the loop keeps them.
  function ScanAt(sub: string, topic: string, spos: nat, tpos: nat): bool
    decreases |sub| - spos
  {
    if spos >= |sub| || tpos >= |topic| then false
    else if sub[spos] == topic[tpos] then
      if tpos == |topic| - 1 then
        || spos + 1 == |sub|
        || (spos + 2 == |sub| && sub[spos + 1] == '+')
        || (spos + 3 == |sub| && sub[spos + 1] == '/' && sub[spos + 2] == '#')
      else ScanAt(sub, topic, spos + 1, tpos + 1)
    else if sub[spos] == '+' then
      var t' := LevelEnd(topic, tpos);
      (spos + 1 == |sub| && t' == |topic|) || ScanAt(sub, topic, spos + 1, t')
    else sub[spos] == '#' && spos + 1 == |sub|
  }

  function LevelEnd(topic: string, tpos: nat): (r: nat)
    requires tpos <= |topic|
    ensures tpos <= r <= |topic|
    decreases |topic| - tpos
  {
    if tpos < |topic| && topic[tpos] != '/' then LevelEnd(topic, tpos + 1) else tpos
  }

  lemma {:induction false} LevelEndDrops(topic: string, tpos: nat)
    requires tpos <= |topic|
    ensures topic[LevelEnd(topic, tpos)..] == DropLevel(topic[tpos..])
    decreases |topic| - tpos
  {
    if tpos < |topic| && topic[tpos] != '/' {
      assert topic[tpos..][1..] == topic[tpos + 1..];
      LevelEndDrops(topic, tpos + 1);
    }
  }

  lemma {:induction false} ScanAtScans(sub: string, topic: string, spos: nat, tpos: nat)
    requires spos <= |sub| && tpos <= |topic|
    ensures ScanAt(sub, topic, spos, tpos) == Scan(sub[spos..], topic[tpos..])
    decreases |sub| - spos
  {
    if spos < |sub| && tpos < |topic| {
      var f, t := sub[spos..], topic[tpos..];
      assert f[1..] == sub[spos + 1..] && t[1..] == topic[tpos + 1..];
      if sub[spos] == topic[tpos] {
        ScanAtScans(sub, topic, spos + 1, tpos + 1);
      } else if sub[spos] == '+' {
        LevelEndDrops(topic, tpos);
        ScanAtScans(sub, topic, spos + 1, LevelEnd(topic, tpos));
      }
    }
  }

  /**
   The single-pass matcher. The result is None where the C function returns success without
   writing through its result pointer.
   */
  method TopicMatchesSub(sub: string, topic: string) returns (rc: Rc, result: Option<bool>)
    ensures rc == Success
    ensures result.None? <==> sub == [] && topic == []
    ensures result.Some? && (sub == [] || topic == []) ==> !result.value
    ensures sub != [] && topic != [] ==> result == Some(MatcherAnswer(sub, topic))
    ensures sub != [] && topic != [] && ValidFilter(sub) && WildcardFree(topic) ==>
              result == Some(TopicMatches(sub, topic) && !MatcherBlindSpot(Levels(sub), Levels(topic)))
  {
    hide TopicMatches, MatcherBlindSpot, Levels, ValidFilter, WildcardFree;
    if sub != [] && topic != [] && ValidFilter(sub) && WildcardFree(topic) {
      MatcherMeaning(sub, topic);
    }
    rc := Success;
    result := None;
    var slen, tlen := |sub|, |topic|;

    if slen > 0 && tlen > 0 {
      if (sub[0] == '$' && topic[0] != '$') || (topic[0] == '$' && sub[0] != '$') {
        result := Some(false);
        return;
      }
      ScanAtScans(sub, topic, 0, 0);
      assert sub[0..] == sub && topic[0..] == topic;
    }

    var spos, tpos := 0, 0;
    while spos < slen && tpos < tlen
      invariant 0 <= spos <= slen && 0 <= tpos <= tlen
      invariant result == None
      invariant spos == 0 ==> tpos == 0
      invariant tpos == tlen && spos == slen ==> spos == 0
      invariant ScanAt(sub, topic, spos, tpos) == ScanAt(sub, topic, 0, 0)
      decreases slen - spos
    {
      if sub[spos] == topic[tpos] {
        if tpos == tlen - 1 {
          if spos == slen - 3 && sub[spos + 1] == '/' && sub[spos + 2] == '#' {
            result := Some(true);
            return;
          }
        }
        spos := spos + 1;
        tpos := tpos + 1;
        if spos == slen && tpos == tlen {
          result := Some(true);
          return;
        } else if tpos == tlen && spos == slen - 1 && sub[spos] == '+' {
          spos := spos + 1;
          result := Some(true);
          return;
        }
      } else {
        if sub[spos] == '+' {
          spos := spos + 1;
          ghost var start := tpos;
          while tpos < tlen && topic[tpos] != '/'
            invariant tpos <= tlen
            invariant LevelEnd(topic, tpos) == LevelEnd(topic, start)
          {
            tpos := tpos + 1;
          }
          if tpos == tlen && spos == slen {
            result := Some(true);
            return;
          }
        } else if sub[spos] == '#' {
          result := Some(spos + 1 == slen);
          return;
        } else {
          result := Some(false);
          return;
        }
      }
    }
    if tpos < tlen || spos < slen {
      result := Some(false);
    }
  }

  // What the matcher answers on two non-empty strings.
  predicate MatcherAnswer(sub: string, topic: string)
    requires sub != [] && topic != []
  {
    (sub[0] == '$') == (topic[0] == '$') && Scan(sub, topic)
  }

  /**
   On a valid filter and a wildcard-free topic the matcher decides level-by-level matching,
   except on its blind spot, where it always answers false.
   */
  lemma {:induction false} MatcherMeaning(sub: string, topic: string)
    requires sub != [] && topic != []
    requires ValidFilter(sub) && WildcardFree(topic)
    ensures MatcherAnswer(sub, topic) <==>
              TopicMatches(sub, topic) && !MatcherBlindSpot(Levels(sub), Levels(topic))
  {
    ScanMeaning(sub, topic);
    if (sub[0] == '$') != (topic[0] == '$') {
      DollarMismatch(sub, topic);
    }
  }

  /**
   Where the matcher answers false although the filter matches: the filter ends in "#" and
   either the topic stops at a "+" directly in front of it, or "#" faces one empty level.
   */
  predicate MatcherBlindSpot(f: seq<string>, t: seq<string>) {
    && f != [] && f[|f| - 1] == "#"
    && (|| (|f| >= 2 && |t| == |f| - 1 && f[|f| - 2] == "+")
        || (|t| == |f| && t[|t| - 1] == ""))
  }

  // Two filters that match and that the matcher refuses, one of each kind.
  lemma {:induction false} BlindSpotExamples()
    ensures TopicMatches("+/#", "a") && !MatcherAnswer("+/#", "a")
    ensures TopicMatches("a/#", "a/") && !MatcherAnswer("a/#", "a/")
  {
    SmallLevels();
    OneCharLevels('a');
    assert "+/#"[1..] == "/#" && "a/#"[1..] == "/#" && "a/"[1..] == "/";
    OneCharLevels('/');
    assert Levels("+/#") == ["+", "#"] && Levels("a/#") == ["a", "#"] && Levels("a/") == ["a", ""];
    assert LevelMatch(["+", "#"], ["a"]) by { assert ["+", "#"][1..] == ["#"] && ["a"][1..] == []; }
    assert LevelMatch(["a", "#"], ["a", ""]) by { assert ["a", "#"][1..] == ["#"] && ["a", ""][1..] == [""]; }
    ValidFilterByLevels("+/#");
    ValidFilterByLevels("a/#");
    MatcherMeaning("+/#", "a");
    MatcherMeaning("a/#", "a/");
  }

  lemma {:induction false} DollarMismatch(sub: string, topic: string)
    requires sub != [] && topic != []
    requires (sub[0] == '$') != (topic[0] == '$')
    ensures ValidFilter(sub) ==> !TopicMatches(sub, topic)
  {
    if ValidFilter(sub) {
      FirstLevelHead(sub);
      FirstLevelHead(topic);
      if !IsWild(sub[0]) {
        assert Levels(sub)[0] != Levels(topic)[0];
      }
    }
  }

  // Level relation for a pair of suffixes.
  predicate Spec(f: string, t: string) {
    LevelMatch(Levels(f), Levels(t)) && !MatcherBlindSpot(Levels(f), Levels(t))
  }

  // The scan decides the level relation on every non-empty topic rest.
  lemma {:induction false} ScanMeaning(f: string, t: string)
    requires ValidFilter(f) && WildcardFree(t) && t != []
    ensures Scan(f, t) == Spec(f, t)
    decreases |f|
  {
    if f == [] {
      ScanEmptyFilter(t);
    } else if f[0] == t[0] {
      assert !IsWild(t[0]);
      if |f| > 1 && f[0] != '/' { NoWildAfterText(f); }
      ValidFilterTail(f);
      if |t| == 1 {
        ScanLastChar(f, t[0]);
        assert t == [t[0]];
      } else {
        ScanMeaning(f[1..], t[1..]);
        SpecSameHead(f, t);
      }
    } else if f[0] == '+' {
      ScanPlus(f, t);
      if |f| > 1 && DropLevel(t) != [] {
        assert WildcardPlaced(f, 0);
        ValidFilterTail(f);
        DropWildcardFree(t);
        ScanMeaning(f[1..], DropLevel(t));
      }
    } else if f[0] == '#' {
      assert WildcardPlaced(f, 0);
      assert f == "#";
      SmallLevels();
      FirstLevelHead(t);
      if |Levels(t)| == 1 { OneLevel(t); }
    } else {
      FirstLevelHead(f);
      FirstLevelHead(t);
      assert Levels(f)[0] != Levels(t)[0];
    }
  }

  lemma {:induction false} OneLevel(t: string)
    requires |Levels(t)| == 1
    ensures Levels(t)[0] == t
    decreases |t|
  {
    if t != [] {
      OneLevel(t[1..]);
    }
  }

  lemma {:induction false} ScanEmptyFilter(t: string)
    requires t != []
    ensures !Spec([], t)
  {
    assert Levels([]) == [[]];
    if LevelMatch([[]], Levels(t)) {
      assert LevelMatch([[]][1..], Levels(t)[1..]);
      assert |Levels(t)| == 1;
      OneLevel(t);
    }
  }

  // Equal ordinary characters in front do not change the relation.
  lemma {:induction false} SpecSameHead(f: string, t: string)
    requires f != [] && |t| > 1 && f[0] == t[0] && !IsWild(f[0])
    requires f[0] != '/' && |f| > 1 ==> !IsWild(f[1])
    ensures Spec(f, t) == Spec(f[1..], t[1..])
  {
    FirstLevelHead(f[1..]);
    var f1, t1 := Levels(f[1..]), Levels(t[1..]);
    hide LevelMatch, MatcherBlindSpot;
    if f[0] == '/' {
      assert Levels(f) == [""] + f1 && Levels(t) == [""] + t1;
      SameBehind("", f1, t1);
    } else {
      assert Levels(f) == [[f[0]] + f1[0]] + f1[1..] && Levels(t) == [[t[0]] + t1[0]] + t1[1..];
      assert f1[0] != "+" && f1[0] != "#";
      SameLonger(f[0], f1, t1);
    }
  }

  // A plain level in front of both.
  lemma {:induction false} SameBehind(name: string, f: seq<string>, t: seq<string>)
    requires f != [] && t != [] && name != "+" && name != "#"
    ensures LevelMatch([name] + f, [name] + t) == LevelMatch(f, t)
    ensures MatcherBlindSpot([name] + f, [name] + t) == MatcherBlindSpot(f, t)
  {
    assert ([name] + f)[1..] == f && ([name] + t)[1..] == t;
    assert forall k :: 1 <= k <= |f| ==> ([name] + f)[k] == f[k - 1];
  }

  // A character more in the first level of both.
  lemma {:induction false} SameLonger(c: char, f: seq<string>, t: seq<string>)
    requires f != [] && t != [] && !IsWild(c) && f[0] != "+" && f[0] != "#"
    ensures LevelMatch([[c] + f[0]] + f[1..], [[c] + t[0]] + t[1..]) == LevelMatch(f, t)
    ensures MatcherBlindSpot([[c] + f[0]] + f[1..], [[c] + t[0]] + t[1..]) == MatcherBlindSpot(f, t)
  {
    var F, T := [[c] + f[0]] + f[1..], [[c] + t[0]] + t[1..];
    assert F[1..] == f[1..] && T[1..] == t[1..];
    assert F[0][0] == c && F[0] != "+" && F[0] != "#" && T[0] != "";
    assert F[0][1..] == f[0] && T[0][1..] == t[0];
    hide IsWild;
  }

  lemma {:induction false} NonEmptyLevels(s: string)
    requires s != []
    ensures Levels(s) != [[]]
  {
    FirstLevelHead(s);
    assert s[0] == '/' ==> |Levels(s)| >= 2;
  }

  // A string is determined by its levels.
  lemma {:induction false} LevelsInjective(a: string, b: string)
    requires Levels(a) == Levels(b)
    ensures a == b
    decreases |a|
  {
    FirstLevelHead(a);
    FirstLevelHead(b);
    if a == [] {
      if b != [] { NonEmptyLevels(b); }
    } else if a[0] == '/' {
      assert |Levels(a)| >= 2;
      assert b != [] && b[0] == '/';
      assert Levels(a)[1..] == Levels(a[1..]) && Levels(b)[1..] == Levels(b[1..]);
      LevelsInjective(a[1..], b[1..]);
    } else {
      var g, h := Levels(a[1..]), Levels(b[1..]);
      assert Levels(a)[0][1..] == g[0] && Levels(b)[0][1..] == h[0];
      assert Levels(a)[1..] == g[1..] && Levels(b)[1..] == h[1..];
      assert g == [g[0]] + g[1..] && h == [h[0]] + h[1..];
      LevelsInjective(a[1..], b[1..]);
    }
  }

  lemma {:induction false} OneCharLevels(c: char)
    ensures Levels([c]) == if c == '/' then [[], []] else [[c]]
  {
    var e: string := [];
    assert [c][1..] == e;
    var r := Levels(e);
    assert r == [e] && r[1..] == [] && [c] + e == [c];
  }

  lemma {:induction false} SmallLevels()
    ensures Levels("") == [""] && Levels("+") == ["+"] && Levels("#") == ["#"] && Levels("/#") == ["", "#"]
  {
    OneCharLevels('+');
    OneCharLevels('#');
    assert "/#"[1..] == "#";
  }

  lemma {:induction false} MatchNoTopic(g: seq<string>, t: seq<string>)
    requires t == []
    ensures LevelMatch(g, t) <==> g == [] || g == ["#"]
  {
    if g != [] {
      assert g == ["#"] <==> |g| == 1 && g[0] == "#";
    }
  }

  // Matching one text level, or an empty one, leaves these filters.
  lemma {:induction false} MatchOneLevel(g: seq<string>, l: string)
    requires g != []
    ensures LevelMatch(g, [l]) <==>
              || g == ["#"]
              || (g[0] != "#" && (g[0] == "+" || g[0] == l) && (|g| == 1 || (|g| == 2 && g[1] == "#")))
  {
    assert [l][1..] == [];
    MatchNoTopic(g[1..], []);
    if g[0] != "#" && |g| == 2 && g[1] == "#" { assert g[1..] == ["#"]; }
  }

  lemma {:induction false} ScanLastChar(f: string, c: char)
    requires ValidFilter(f) && f != [] && f[0] == c && !IsWild(c)
    ensures Spec(f, [c]) <==> EndsMatch(f[1..])
  {
    var f' := f[1..];
    var F, F', T := Levels(f), Levels(f'), Levels([c]);
    SmallLevels();
    OneCharLevels(c);
    if F' == [""] { LevelsInjective(f', ""); }
    if F' == ["+"] { LevelsInjective(f', "+"); }
    if F' == ["", "#"] { LevelsInjective(f', "/#"); }
    assert f' == "" || f' == "+" || f' == "/#" <==> EndsMatch(f');
    if |f| > 1 && c != '/' { NoWildAfterText(f); }
    if c == '/' {
      assert F == [[]] + F' && F[1..] == F' && T[1..] == [""];
      MatchOneLevel(F', "");
      if |F'| == 1 { assert F' == [F'[0]]; }
      if |F'| == 2 { assert F' == [F'[0], F'[1]]; }
    } else {
      assert F == [[c] + F'[0]] + F'[1..];
      assert F[0] == [c] <==> F'[0] == [];
      MatchOneLevel(F, [c]);
      if |F| == 1 { assert F' == [F'[0]]; }
      if |F| == 2 { assert F' == [F'[0], F'[1]]; }
    }
  }

  lemma {:induction false} DropWildcardFree(t: string)
    requires WildcardFree(t)
    ensures WildcardFree(DropLevel(t))
    decreases |t|
  {
    if t != [] && t[0] != '/' {
      assert forall i :: 0 <= i < |t[1..]| ==> t[1..][i] == t[i + 1];
      DropWildcardFree(t[1..]);
    }
  }

  // The text in front of the first separator is the first level.
  lemma {:induction false} LevelsDrop(t: string) returns (l: string)
    ensures DropLevel(t) == [] ==> Levels(t) == [t]
    ensures DropLevel(t) != [] ==> Levels(t) == [l] + Levels(DropLevel(t)[1..])
    decreases |t|
  {
    if t == [] || t[0] == '/' {
      l := [];
    } else {
      var l' := LevelsDrop(t[1..]);
      l := [t[0]] + l';
      hide Levels, DropLevel;
      HeadLevels(t);
      HeadDrops(t);
      if DropLevel(t) == [] {
        HeadRest(t[1..], []);
        assert [t[0]] + t[1..] == t;
      } else {
        HeadRest(l', Levels(DropLevel(t)[1..]));
      }
    }
  }

  lemma {:induction false} HeadLevels(t: string)
    requires t != [] && t[0] != '/'
    ensures var r := Levels(t[1..]); Levels(t) == [[t[0]] + r[0]] + r[1..]
  {
  }

  lemma {:induction false} HeadDrops(t: string)
    requires t != [] && t[0] != '/'
    ensures DropLevel(t) == DropLevel(t[1..])
  {
  }

  lemma {:induction false} HeadRest(x: string, rest: seq<string>)
    ensures ([x] + rest)[0] == x && ([x] + rest)[1..] == rest
  {
  }

  lemma {:induction false} ScanPlus(f: string, t: string)
    requires ValidFilter(f) && f != [] && f[0] == '+' && t != [] && t[0] != '+'
    ensures |f| == 1 ==> Spec(f, t) == (DropLevel(t) == [])
    ensures |f| > 1 && DropLevel(t) == [] ==> !Spec(f, t)
    ensures |f| > 1 && DropLevel(t) != [] ==> Spec(f, t) == Spec(f[1..], DropLevel(t))
  {
    var t' := DropLevel(t);
    var l := LevelsDrop(t);
    assert WildcardPlaced(f, 0);
    if |f| == 1 {
      assert f == "+";
      PlusAlone(t);
    } else {
      assert f[1] == '/';
      var g := f[1..][1..];
      PlusLevels(f);
      if t' == [] {
        PlusFullTopic(Levels(g), t);
      } else {
        PlusMore(Levels(g), l, Levels(t'[1..]));
      }
    }
  }

  lemma {:induction false} PlusAlone(t: string)
    requires t != []
    requires DropLevel(t) == [] ==> Levels(t) == [t]
    requires DropLevel(t) != [] ==> |Levels(t)| >= 2
    ensures Spec("+", t) == (DropLevel(t) == [])
  {
    SmallLevels();
    var F, T := ["+"], Levels(t);
    assert F[1..] == [];
    assert LevelMatch(F, T) <==> T[1..] == [];
  }

  lemma {:induction false} PlusLevels(f: string)
    requires |f| > 1 && f[0] == '+' && f[1] == '/'
    ensures Levels(f) == ["+"] + Levels(f[1..][1..])
    ensures Levels(f[1..]) == [""] + Levels(f[1..][1..])
  {
    var r := Levels(f[1..]);
    assert r[1..] == Levels(f[1..][1..]);
    assert ['+'] + r[0] == "+";
  }

  lemma {:induction false} PlusFullTopic(g: seq<string>, t: string)
    requires g != []
    ensures !(LevelMatch(["+"] + g, [t]) && !MatcherBlindSpot(["+"] + g, [t]))
  {
    MatchOneLevel(["+"] + g, t);
  }

  lemma {:induction false} PlusMore(g: seq<string>, l: string, u: seq<string>)
    requires g != [] && u != []
    ensures LevelMatch(["+"] + g, [l] + u) == LevelMatch(["" ] + g, [""] + u)
    ensures MatcherBlindSpot(["+"] + g, [l] + u) == MatcherBlindSpot([""] + g, [""] + u)
  {
    assert (["+"] + g)[1..] == g && ([""] + g)[1..] == g;
    assert ([l] + u)[1..] == u && ([""] + u)[1..] == u;
    if |g| >= 2 { assert (["+"] + g)[|g| - 1] == g[|g| - 2] == ([""] + g)[|g| - 1]; }
  }

  // ----- Shared prefixes -----

  // Behind a shared non-empty prefix only the rests matter.
  predicate RestMatches(f: string, t: string) {
    if t == [] then EndsMatch(f) else Scan(f, t)
  }

  lemma {:induction false} ScanBehindPrefix(p: string, f: string, t: string)
    requires p != []
    ensures Scan(p + f, p + t) == RestMatches(f, t)
    decreases |p|
  {
    assert (p + f)[1..] == p[1..] + f && (p + t)[1..] == p[1..] + t;
    if |p| == 1 {
      assert p[1..] + f == f && p[1..] + t == t;
    } else {
      ScanBehindPrefix(p[1..], f, t);
    }
  }

  // The answer for p + f against p + t does not depend on the non-empty prefix p.
  lemma {:induction false} MatcherBehindPrefix(p: string, f: string, t: string)
    requires p != []
    ensures MatcherAnswer(p + f, p + t) == RestMatches(f, t)
  {
    ScanBehindPrefix(p, f, t);
  }
}
