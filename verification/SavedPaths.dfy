/**
 How a node of the subscription tree is spelled in a backup (_db_subs_retain_write,
 src/persist.c:285-292), and which token list the spelling is split into when it is restored.
 */
module SavedPaths {
  import opened Topics
  import Tokens
  import opened Subscriptions

  // A level behind the topic spelled so far. An empty topic takes no separator.
  function Spelled(topic: string, name: string): string {
    if topic != "" then topic + "/" + name else name
  }

  function SpelledAll(topic: string, path: seq<string>): string
    decreases |path|
  {
    if path == [] then topic else Spelled(SpelledAll(topic, path[..|path| - 1]), path[|path| - 1])
  }

  // ----- Levels without separators -----

  predicate SlashFree(s: string) { forall i :: 0 <= i < |s| ==> s[i] != '/' }

  predicate AllSlashFree(path: seq<string>) { forall i :: 0 <= i < |path| ==> SlashFree(path[i]) }

  lemma {:induction false} LevelsSlashFree(s: string)
    ensures AllSlashFree(Levels(s))
  {
    if s != [] { LevelsSlashFree(s[1..]); }
  }

  lemma {:induction false} TokensSlashFree(s: string)
    ensures AllSlashFree(Tokens.Tokens(s))
  {
    LevelsSlashFree(s);
  }

  lemma {:induction false} LevelsBehind(s: string, name: string)
    requires SlashFree(name)
    ensures Levels(s + "/" + name) == Levels(s) + [name]
  {
    if s == [] {
      OneLevelText(name);
      assert (s + "/" + name)[1..] == name;
    } else {
      assert (s + "/" + name)[1..] == s[1..] + "/" + name;
      LevelsBehind(s[1..], name);
    }
  }

  lemma {:induction false} OneLevelText(s: string)
    requires SlashFree(s)
    ensures Levels(s) == [s]
  {
    if s != [] {
      assert forall i :: 0 <= i < |s[1..]| ==> s[1..][i] == s[i + 1];
      OneLevelText(s[1..]);
      assert s == [s[0]] + s[1..];
    }
  }

  // ----- What comes back -----

  // A path without the empty levels at its front.
  function Strip(path: seq<string>): (r: seq<string>)
    ensures |r| <= |path| && (r != [] ==> r[0] != "")
  {
    if path != [] && path[0] == "" then Strip(path[1..]) else path
  }

  lemma {:induction false} StripBehind(path: seq<string>, name: string)
    ensures Strip(path + [name]) == if Strip(path) == [] && name == "" then [] else Strip(path) + [name]
  {
    if path != [] && path[0] == "" {
      StripBehind(path[1..], name);
      assert (path + [name])[1..] == path[1..] + [name];
    } else if path == [] {
      assert [name][1..] == [];
    }
  }

  // The tokens that a spelled path is split into.
  function Returned(path: seq<string>): (r: seq<string>)
    ensures r != []
  {
    var q := Strip(path);
    if q == [] then ["", ""] else if q[0][0] == '$' then q else [""] + q
  }

  lemma {:induction false} SpelledLevels(path: seq<string>)
    requires AllSlashFree(path)
    ensures SpelledAll("", path) == "" <==> Strip(path) == []
    ensures Strip(path) != [] ==> Levels(SpelledAll("", path)) == Strip(path)
    ensures Strip(path) != [] ==> SpelledAll("", path)[0] == Strip(path)[0][0]
    decreases |path|
  {
    if path != [] {
      var k := |path| - 1;
      var shorter, name := path[..k], path[k];
      SpelledLevels(shorter);
      StripBehind(shorter, name);
      assert shorter + [name] == path;
      LevelsBehind(SpelledAll("", shorter), name);
      OneLevelText(name);
    }
  }

  lemma {:induction false} SpelledTokens(path: seq<string>)
    requires AllSlashFree(path)
    ensures Tokens.Tokens(SpelledAll("", path)) == Returned(path)
  {
    SpelledLevels(path);
    if Strip(path) == [] { assert Levels("") == [""]; } else { StripSlashFree(path); }
  }

  lemma {:induction false} StripSlashFree(path: seq<string>)
    requires AllSlashFree(path)
    ensures AllSlashFree(Strip(path))
  {
    if path != [] && path[0] == "" { StripSlashFree(path[1..]); }
  }

  // Filters outside the "$" trees whose first level is neither empty nor starts with '$'; and "/".
  predicate SpelledRight(tokens: seq<string>) {
    && |tokens| >= 2 && tokens[0] == ""
    && (tokens == ["", ""] || (tokens[1] != "" && tokens[1][0] != '$'))
  }

  // Exactly the spellable filters come back from a backup as they were.
  lemma {:induction false} FilterComesBack(s: string)
    ensures Tokens.Tokens(SpelledAll("", Filed(Tokens.Tokens(s)))) == Tokens.Tokens(s) <==>
              SpelledRight(Tokens.Tokens(s))
  {
    var t := Tokens.Tokens(s);
    TokensSlashFree(s);
    FiledSlashFree(t);
    SpelledTokens(Filed(t));
    Tokens.HeadToken(s);
    assert |t| >= 2 || t[0] != "";
    ReturnedFiled(t);
  }

  // A filter in a "$" tree comes back one level longer; an empty first level is lost.
  lemma {:induction false} MangledFilters()
    ensures Tokens.Tokens(SpelledAll("", Filed(Tokens.Tokens("$a")))) == ["$a", "$a"] != Tokens.Tokens("$a")
    ensures Tokens.Tokens(SpelledAll("", Filed(Tokens.Tokens("//a")))) == ["", "a"] != Tokens.Tokens("//a")
  {
    OneLevelText("$a");
    OneLevelText("a");
    var d, e := ["$a"], ["", "", "a"];
    assert "//a"[1..] == "/a" && "/a"[1..] == "a";
    assert Tokens.Tokens("$a") == d;
    assert Tokens.Tokens("//a") == e;
    SpelledTokens(Filed(d));
    SpelledTokens(Filed(e));
    assert Filed(d) == ["$a", "$a"] && Filed(e) == ["", "", "", "a"];
    assert Strip(["", "", "", "a"]) == Strip(["", "", "a"]) == Strip(["", "a"]) == Strip(["a"]) by {
      assert ["", "", "", "a"][1..] == ["", "", "a"] && ["", "", "a"][1..] == ["", "a"] && ["", "a"][1..] == ["a"];
    }
  }

  lemma {:induction false} FiledSlashFree(t: seq<string>)
    requires t != [] && AllSlashFree(t)
    ensures AllSlashFree(Filed(t))
  {
  }

  lemma {:induction false} ReturnedFiled(t: seq<string>)
    requires t != []
    ensures Returned(Filed(t)) == t <==> SpelledRight(t)
  {
    var f := Filed(t);
    assert f[1..] == t;
    if t[0] == "" {
      assert Strip(f) == Strip(t) == Strip(t[1..]);
      if |t| >= 2 && t[1] != "" {
        assert Strip(t[1..]) == t[1..] && [""] + t[1..] == t;
      } else if t == ["", ""] {
        assert Strip(t[1..]) == Strip(t[1..][1..]) == [];
      }
    } else {
      assert |Strip(f)| == |t| + 1;
    }
  }

  predicate Dollar(t: seq<string>) { t != [] && t[0] != "" && t[0][0] == '$' }

  // Whatever is restored is a filter that would come back, or one of a "$" tree; those grow.
  lemma {:induction false} ReturnedShape(t: seq<string>)
    requires t != []
    ensures SpelledRight(Returned(Filed(t))) || Dollar(Returned(Filed(t)))
    ensures Dollar(t) ==> Dollar(Returned(Filed(t))) && |Returned(Filed(t))| > |t|
  {
    assert Filed(t)[1..] == t;
    if t[0] != "" { assert Strip(Filed(t)) == Filed(t); }
  }

  lemma {:induction false} StripIsEnd(path: seq<string>)
    ensures Strip(path) == path[|path| - |Strip(path)|..]
  {
    if path != [] && path[0] == "" { StripIsEnd(path[1..]); }
  }

  lemma {:induction false} EndElement(f: seq<string>, r: seq<string>, k: nat)
    requires Strip(f) != [] && r == Returned(f) && k < |r| - 1
    ensures r[k] == "" || exists i :: 0 <= i < |f| - 1 && f[i] == r[k]
  {
    StripIsEnd(f);
    var q := Strip(f);
    var j := if q[0][0] == '$' then k else k - 1;
    if j >= 0 { assert f[|f| - |q| + j] == q[j]; }
  }

  // A filter is spelled as a filter.
  lemma {:induction false} ReturnedFilter(t: seq<string>)
    requires FilterTokens(t)
    ensures FilterTokens(Returned(Filed(t)))
  {
    var f := Filed(t);
    StripIsEnd(f);
    forall i | 0 <= i < |f| - 1 ensures f[i] != "#" { assert f[i] == if i == 0 then t[0] else t[i - 1]; }
    var q, r := Strip(f), Returned(f);
    forall k | 0 <= k < |r| - 1 ensures r[k] != "#" {
      if q != [] { assert r[k] == "" || exists i :: 0 <= i < |f| - 1 && f[i] == r[k] by { EndElement(f, r, k); } }
    }
  }
}
