/** The slug rule shared by agent session keys and tag slugs:
    `re.sub(r"[^a-z0-9]+", "-", value.lower()).strip("-")`. */
module Slugs {
  import opened Common

  predicate IsSlugChar(c: char)
  {
    'a' <= c <= 'z' || '0' <= c <= '9'
  }

  /** `str.lower` on one character, for the ASCII letters. */
  function LowerChar(c: char): char
  {
    if 'A' <= c <= 'Z' then (c as int + 32) as char else c
  }

  function Lower(s: string): (r: string)
    ensures |r| == |s|
    ensures forall i :: 0 <= i < |s| ==> r[i] == LowerChar(s[i])
  {
    seq(|s|, i requires 0 <= i < |s| => LowerChar(s[i]))
  }

  /** Only slug characters and single dashes: what `re.sub` leaves behind. */
  ghost predicate DashSeparated(s: string)
  {
    && (forall i :: 0 <= i < |s| ==> IsSlugChar(s[i]) || s[i] == '-')
    && (forall i :: 0 <= i < |s| - 1 ==> s[i] != '-' || s[i + 1] != '-')
  }

  /** A finished slug: dash-separated groups with no dash at either end. */
  ghost predicate IsSlug(s: string)
  {
    s != [] && DashSeparated(s) && s[0] != '-' && s[|s| - 1] != '-'
  }

  /** `re.sub(r"[^a-z0-9]+", "-", s)`: every maximal run of non-slug
      characters becomes one dash. `inRun` says that the character before
      `s` was already replaced. */
  function CollapseRuns(s: string, inRun: bool): (r: string)
    ensures DashSeparated(r)
    ensures inRun ==> r == [] || r[0] != '-'
    ensures |r| <= |s|
  {
    if s == [] then []
    else if IsSlugChar(s[0]) then [s[0]] + CollapseRuns(s[1..], false)
    else if inRun then CollapseRuns(s[1..], true)
    else ['-'] + CollapseRuns(s[1..], true)
  }

  /** The slug before the empty-result fallback of either caller. */
  function SlugCore(value: string): (r: string)
    ensures |r| <= |value|
    ensures r == [] || (r[0] != '-' && r[|r| - 1] != '-')
  {
    Strip(CollapseRuns(Lower(value), false), Dash)
  }

  /** A dash-separated string stays dash-separated once its ends are cut. */
  lemma SliceKeepsDashSeparated(s: string, a: nat, b: nat)
    requires DashSeparated(s) && a <= b <= |s|
    ensures DashSeparated(s[a..b])
  {
    var t := s[a..b];
    forall i | 0 <= i < |t| - 1 ensures t[i] != '-' || t[i + 1] != '-' {
      assert t[i] == s[a + i] && t[i + 1] == s[a + i + 1];
    }
  }

  /** The core slug is empty or a finished slug. */
  lemma SlugCoreShape(value: string)
    ensures SlugCore(value) == [] || IsSlug(SlugCore(value))
  {
    var c := CollapseRuns(Lower(value), false);
    StripIsSlice(c, Dash);
    SliceKeepsDashSeparated(c, StripOffset(c, Dash), StripOffset(c, Dash) + |Strip(c, Dash)|);
  }

  /** `re.sub` leaves a dash-separated string alone. */
  lemma {:induction false} CollapseRunsFixpoint(s: string)
    requires DashSeparated(s)
    ensures CollapseRuns(s, false) == s
  {
    if s != [] {
      SliceKeepsDashSeparated(s, 1, |s|);
      CollapseRunsFixpoint(s[1..]);
      if s[0] == '-' {
        assert s[1..] == [] || s[1] != '-';
        assert s[1..] == [] || IsSlugChar(s[1]);
      }
    }
  }

  /** Slugifying a finished slug gives it back. */
  lemma SlugCoreFixpoint(s: string)
    requires IsSlug(s)
    ensures SlugCore(s) == s
  {
    assert Lower(s) == s;
    CollapseRunsFixpoint(s);
    StripFixpoint(s, Dash);
  }

  // ---------------------------------------------------------------------------
  // What a slug means: the alphanumeric groups of the lower-cased value,
  // joined by single dashes

  /** A non-empty run of slug characters. */
  ghost predicate IsGroup(w: string)
  {
    w != [] && forall i :: 0 <= i < |w| ==> IsSlugChar(w[i])
  }

  /** The maximal runs of slug characters of `s`, in order. */
  function Groups(s: string): (r: seq<string>)
    ensures forall k :: 0 <= k < |r| ==> IsGroup(r[k])
    ensures s != [] && IsSlugChar(s[0]) ==> r != []
  {
    if s == [] then []
    else if !IsSlugChar(s[0]) then Groups(s[1..])
    else
      var rest := Groups(s[1..]);
      if |s| > 1 && IsSlugChar(s[1]) then
        assert IsGroup([s[0]] + rest[0]) by {
          var w := [s[0]] + rest[0];
          forall i | 0 <= i < |w| ensures IsSlugChar(w[i]) {
            if i > 0 { assert w[i] == rest[0][i - 1]; }
          }
        }
        [[s[0]] + rest[0]] + rest[1..]
      else [[s[0]]] + rest
  }

  /** `"-".join(groups)`. */
  function JoinDash(groups: seq<string>): string
  {
    if groups == [] then []
    else if |groups| == 1 then groups[0]
    else groups[0] + "-" + JoinDash(groups[1..])
  }

  /** The slug characters of `s`, in order. */
  function Alnum(s: string): string
  {
    if s == [] then [] else (if IsSlugChar(s[0]) then [s[0]] else []) + Alnum(s[1..])
  }

  /** The groups' characters one after the other. */
  function Flatten(groups: seq<string>): string
  {
    if groups == [] then [] else groups[0] + Flatten(groups[1..])
  }

  /** Growing the first group by one character grows the joined text by it. */
  lemma JoinDashCons(c: char, groups: seq<string>)
    requires groups != []
    ensures JoinDash([[c] + groups[0]] + groups[1..]) == [c] + JoinDash(groups)
  {
    var g := [[c] + groups[0]] + groups[1..];
    assert g[1..] == groups[1..];
    if |groups| > 1 {
      assert g[0] + "-" + JoinDash(g[1..]) == [c] + (groups[0] + "-" + JoinDash(groups[1..]));
    }
  }

  /** Joining groups that are not all empty gives a non-empty text. */
  lemma JoinDashNonEmpty(groups: seq<string>)
    requires groups != [] && groups[0] != []
    ensures JoinDash(groups) != []
  {
  }

  /** Cutting trailing dashes after a prefix, when something is left of the rest. */
  lemma {:induction false} TrimRightAfter(p: string, x: string)
    requires TrimRight(x, Dash) != []
    ensures TrimRight(p + x, Dash) == p + TrimRight(x, Dash)
  {
    if x[|x| - 1] == '-' {
      var x' := x[..|x| - 1];
      assert (p + x)[..|p + x| - 1] == p + x';
      TrimRightAfter(p, x');
    }
  }

  /** Cutting trailing dashes when the rest is nothing but dashes. */
  lemma {:induction false} TrimRightAllDashes(p: string, x: string)
    requires TrimRight(x, Dash) == []
    ensures TrimRight(p + x, Dash) == TrimRight(p, Dash)
  {
    if x != [] {
      var x' := x[..|x| - 1];
      assert (p + x)[..|p + x| - 1] == p + x';
      TrimRightAllDashes(p, x');
    } else {
      assert p + x == p;
    }
  }

  /** Outside a run, a leading non-slug character adds one dash. */
  lemma CollapseRunsStart(s: string)
    ensures CollapseRuns(s, false) == if s != [] && !IsSlugChar(s[0]) then ['-'] + CollapseRuns(s, true) else CollapseRuns(s, true)
  {
  }

  /** Inside a run, `re.sub` followed by `rstrip("-")` joins the groups. */
  lemma {:induction false} CollapseRunsGroups(s: string)
    ensures TrimRight(CollapseRuns(s, true), Dash) == JoinDash(Groups(s))
  {
    if s != [] {
      CollapseRunsGroups(s[1..]);
      if IsSlugChar(s[0]) {
        GroupsStep(s);
      }
    }
  }

  /** The step of `CollapseRunsGroups` for a leading slug character. */
  lemma GroupsStep(s: string)
    requires s != [] && IsSlugChar(s[0])
    requires TrimRight(CollapseRuns(s[1..], true), Dash) == JoinDash(Groups(s[1..]))
    ensures TrimRight(CollapseRuns(s, true), Dash) == JoinDash(Groups(s))
  {
    CollapseStep(s);
    GroupsOfSlugStart(s);
    JoinStep(s[0], if |s| > 1 && !IsSlugChar(s[1]) then "-" else "", CollapseRuns(s[1..], true), Groups(s[1..]), Groups(s));
  }

  lemma CollapseStep(s: string)
    requires s != [] && IsSlugChar(s[0])
    ensures CollapseRuns(s, true) == [s[0]] + (if |s| > 1 && !IsSlugChar(s[1]) then "-" else "") + CollapseRuns(s[1..], true)
  {
    CollapseRunsStart(s[1..]);
  }

  lemma GroupsOfSlugStart(s: string)
    requires s != [] && IsSlugChar(s[0])
    ensures var g := Groups(s[1..]);
      Groups(s) == if !(|s| > 1 && !IsSlugChar(s[1])) && g != [] then [[s[0]] + g[0]] + g[1..] else [[s[0]]] + g
  {
    if |s| == 1 {
      assert Groups(s[1..]) == [];
    }
  }

  /** A slug character, at most one dash, then the rest: the joined groups
      with the character put in front. */
  lemma JoinStep(c: char, d: string, x: string, g: seq<string>, gs: seq<string>)
    requires IsSlugChar(c) && (d == "" || d == "-")
    requires TrimRight(x, Dash) == JoinDash(g)
    requires forall k :: 0 <= k < |g| ==> IsGroup(g[k])
    requires gs == if d == "" && g != [] then [[c] + g[0]] + g[1..] else [[c]] + g
    ensures TrimRight([c] + d + x, Dash) == JoinDash(gs)
  {
    if g == [] {
      TrimRightAllDashes([c] + d, x);
      assert TrimRight([c] + d, Dash) == [c];
      assert gs == [[c]];
    } else {
      JoinDashNonEmpty(g);
      TrimRightAfter([c] + d, x);
      if d == "" {
        JoinDashCons(c, g);
      } else {
        assert gs[1..] == g;
      }
    }
  }

  /** `lstrip("-")` removes exactly the one dash `re.sub` may put first. */
  lemma {:induction false} TrimLeftOneDash(lead: bool, x: string)
    requires x == [] || x[0] != '-'
    ensures TrimLeft(if lead then ['-'] + x else x, Dash) == x
  {
    TrimLeftStops(x);
    if lead {
      var s := ['-'] + x;
      assert s[1..] == x;
      TrimLeftDrops(s);
    }
  }

  lemma TrimLeftStops(x: string)
    requires x == [] || x[0] != '-'
    ensures TrimLeft(x, Dash) == x
  {
  }

  lemma TrimLeftDrops(s: string)
    requires s != [] && s[0] == '-'
    ensures TrimLeft(s, Dash) == TrimLeft(s[1..], Dash)
  {
  }

  /** The slug is the lower-cased value's alphanumeric groups joined by
      single dashes: each dash stands for one separating run. */
  lemma SlugCoreGroups(value: string)
    ensures SlugCore(value) == JoinDash(Groups(Lower(value)))
  {
    var l := Lower(value);
    CollapseRunsStart(l);
    TrimLeftOneDash(l != [] && !IsSlugChar(l[0]), CollapseRuns(l, true));
    CollapseRunsGroups(l);
  }

  lemma {:induction false} AlnumAppend(a: string, b: string)
    ensures Alnum(a + b) == Alnum(a) + Alnum(b)
  {
    if a != [] {
      assert (a + b)[1..] == a[1..] + b;
      AlnumAppend(a[1..], b);
    } else {
      assert a + b == b;
    }
  }

  lemma {:induction false} AlnumOfGroup(w: string)
    requires forall i :: 0 <= i < |w| ==> IsSlugChar(w[i])
    ensures Alnum(w) == w
  {
    if w != [] {
      AlnumOfGroup(w[1..]);
    }
  }

  /** The groups hold every slug character of `s` and nothing else. */
  lemma {:induction false} GroupsFlatten(s: string)
    ensures Flatten(Groups(s)) == Alnum(s)
  {
    if s != [] {
      var t := s[1..];
      GroupsFlatten(t);
      if IsSlugChar(s[0]) {
        var g := Groups(t);
        if |s| > 1 && IsSlugChar(s[1]) {
          var h := [[s[0]] + g[0]] + g[1..];
          assert h[1..] == g[1..];
          assert Flatten(h) == [s[0]] + (g[0] + Flatten(g[1..]));
        } else {
          assert ([[s[0]]] + g)[1..] == g;
        }
      }
    }
  }

  /** Joining with dashes adds no slug character. */
  lemma {:induction false} AlnumJoinDash(groups: seq<string>)
    requires forall k :: 0 <= k < |groups| ==> IsGroup(groups[k])
    ensures Alnum(JoinDash(groups)) == Flatten(groups)
  {
    if groups != [] {
      var g0, rest := groups[0], groups[1..];
      AlnumOfGroup(g0);
      assert Flatten(groups) == g0 + Flatten(rest);
      if |groups| == 1 {
        assert Flatten(rest) == [];
        assert g0 + [] == g0;
      } else {
        var j := JoinDash(rest);
        assert JoinDash(groups) == (g0 + "-") + j;
        AlnumJoinDash(rest);
        AlnumAppend(g0 + "-", j);
        AlnumAppend(g0, "-");
        AlnumOfDash();
        assert Alnum(g0 + "-") == g0;
      }
    }
  }

  lemma AlnumOfDash()
    ensures Alnum("-") == []
  {
    assert "-"[1..] == [];
  }

  /** The slug keeps every letter and digit of the lower-cased value, in
      order, and adds none. */
  lemma SlugCoreKeepsAlnum(value: string)
    ensures Alnum(SlugCore(value)) == Alnum(Lower(value))
  {
    SlugCoreGroups(value);
    AlnumJoinDash(Groups(Lower(value)));
    GroupsFlatten(Lower(value));
  }
}
