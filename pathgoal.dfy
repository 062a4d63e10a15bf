/**
 * Path/goal addressing: `_get_path_and_goal` of the generator, and the
 * helpers it emits into `lib/DEFS` (`_normalize_path_and_goal` and the
 * `_GoalsPathVar` class whose `//` operator builds Buck target names).
 */
module PathGoal {
  import opened Text

  /** `_get_path_and_goal`: splits a `path[:goal]` reference (see GetPathAndGoalSpec). */
  function GetPathAndGoal(pathGoal: string): (string, string)
  {
    var pg := Split(pathGoal, ':');
    (pg[0], if |pg| == 2 then pg[1] else LastSegment(pg[0], '/'))
  }

  /** The path is the text before the first `:`, and neither part holds a `:`. */
  lemma PathIsBeforeFirstColon(pathGoal: string)
    ensures var (path, goal) := GetPathAndGoal(pathGoal);
      ':' !in path && ':' !in goal &&
      StartsWith(pathGoal, path) && (|path| == |pathGoal| || pathGoal[|path|] == ':')
  {
    var pg := Split(pathGoal, ':');
    SplitSpec(pathGoal, ':');
    SplitHead(pathGoal, ':');
    var path := pg[0];
    if |pg| != 2 {
      LastSegmentSpec(path, '/');
      var goal := LastSegment(path, '/');
      assert forall i :: 0 <= i < |goal| ==> goal[i] == path[|path| - |goal| + i];
    }
  }

  /** With exactly one `:`, the goal is the text after it. */
  lemma ExplicitGoalSplits(pathGoal: string)
    requires Count(pathGoal, ':') == 1
    ensures pathGoal == GetPathAndGoal(pathGoal).0 + ":" + GetPathAndGoal(pathGoal).1
  {
    SplitCount(pathGoal, ':');
    SplitHead(pathGoal, ':');
  }

  /** Otherwise the goal is the last `/` segment of the path. */
  lemma DefaultGoalIsLastSegment(pathGoal: string)
    requires Count(pathGoal, ':') != 1
    ensures var path := GetPathAndGoal(pathGoal).0; var goal := GetPathAndGoal(pathGoal).1;
      '/' !in goal && |goal| <= |path| && path[|path| - |goal|..] == goal &&
      (|goal| < |path| ==> path[|path| - |goal| - 1] == '/')
  {
    var pg := Split(pathGoal, ':');
    var path := pg[0];
    var goal := LastSegment(path, '/');
    SplitCount(pathGoal, ':');
    assert |pg| != 2;
    assert GetPathAndGoal(pathGoal) == (path, goal);
    LastSegmentSpec(path, '/');
    assert '/' !in goal && |goal| <= |path| && path[|path| - |goal|..] == goal &&
      (|goal| < |path| ==> path[|path| - |goal| - 1] == '/');
  }

  /** `_normalize_path_and_goal`: the canonical `path:goal` form of a reference. */
  function Normalize(pathGoal: string): string
  {
    var (path, goal) := GetPathAndGoal(pathGoal);
    path + [':'] + goal
  }

  /**
   * A normalised reference holds exactly one `:`, and a reference that
   * already holds exactly one is left as it is.
   */
  lemma NormalizeSpec(pathGoal: string)
    ensures Count(Normalize(pathGoal), ':') == 1
    ensures Count(pathGoal, ':') == 1 ==> Normalize(pathGoal) == pathGoal
  {
    PathIsBeforeFirstColon(pathGoal);
    if Count(pathGoal, ':') == 1 {
      ExplicitGoalSplits(pathGoal);
    }
    var (path, goal) := GetPathAndGoal(pathGoal);
    CountAroundOne(path, goal, ':');
  }

  /** Normalising is idempotent. */
  lemma NormalizeIdempotent(pathGoal: string)
    ensures Normalize(Normalize(pathGoal)) == Normalize(pathGoal)
  {
    NormalizeSpec(pathGoal);
    NormalizeSpec(Normalize(pathGoal));
  }

  /** `dict(pairs)`: a table from key/value pairs in which a later pair overrides an earlier one with the same key. */
  function ToTable(pairs: seq<(string, string)>): map<string, string>
  {
    if |pairs| == 0 then map[]
    else
      var n := |pairs| - 1;
      ToTable(pairs[..n])[pairs[n].0 := pairs[n].1]
  }

  /** The table's keys are exactly the keys of the pairs, and every entry comes from a pair. */
  lemma {:induction false} ToTableEntries(pairs: seq<(string, string)>, k: string)
    ensures k in ToTable(pairs) <==> exists i :: 0 <= i < |pairs| && pairs[i].0 == k
    ensures k in ToTable(pairs) ==> exists i :: 0 <= i < |pairs| && pairs[i] == (k, ToTable(pairs)[k])
  {
    if |pairs| > 0 {
      var n := |pairs| - 1;
      var prefix := pairs[..n];
      ToTableEntries(prefix, k);
      if k != pairs[n].0 && k in ToTable(prefix) {
        var i :| 0 <= i < n && prefix[i] == (k, ToTable(prefix)[k]);
        assert pairs[i] == prefix[i];
      }
      if k != pairs[n].0 && exists i :: 0 <= i < |pairs| && pairs[i].0 == k {
        var i :| 0 <= i < |pairs| && pairs[i].0 == k;
        assert prefix[i] == pairs[i];
      }
    }
  }

  /** For each key, the value of the last pair with that key is kept. */
  lemma {:induction false} ToTableLastWins(pairs: seq<(string, string)>, i: nat)
    requires i < |pairs|
    requires forall j :: i < j < |pairs| ==> pairs[j].0 != pairs[i].0
    ensures pairs[i].0 in ToTable(pairs) && ToTable(pairs)[pairs[i].0] == pairs[i].1
  {
    var n := |pairs| - 1;
    if i < n {
      var prefix := pairs[..n];
      assert prefix[i] == pairs[i];
      forall j | i < j < n
        ensures prefix[j].0 != prefix[i].0
      {
        assert prefix[j] == pairs[j];
      }
      ToTableLastWins(prefix, i);
    }
  }

  /** The alias pairs with both key and value normalised, in order. */
  function NormalizedPairs(alias: seq<(string, string)>): (r: seq<(string, string)>)
    ensures |r| == |alias|
  {
    seq(|alias|, i requires 0 <= i < |alias| => (Normalize(alias[i].0), Normalize(alias[i].1)))
  }

  /**
   * `_normalize_path_and_goal_dict`: keys and values normalised; when two
   * keys normalise to the same reference, the later entry wins.
   */
  function NormalizeAlias(alias: seq<(string, string)>): map<string, string>
  {
    ToTable(NormalizedPairs(alias))
  }

  /** Every key and every value of a normalised table holds exactly one `:`. */
  lemma NormalizeAliasWellFormed(alias: seq<(string, string)>, k: string)
    requires k in NormalizeAlias(alias)
    ensures Count(k, ':') == 1 && Count(NormalizeAlias(alias)[k], ':') == 1
  {
    var pairs := NormalizedPairs(alias);
    ToTableEntries(pairs, k);
    var i :| 0 <= i < |pairs| && pairs[i] == (k, ToTable(pairs)[k]);
    NormalizeSpec(alias[i].0);
    NormalizeSpec(alias[i].1);
  }

  /** The normalised table's keys are exactly the normalised original keys. */
  lemma NormalizeAliasKeys(alias: seq<(string, string)>, k: string)
    ensures k in NormalizeAlias(alias) <==> exists i :: 0 <= i < |alias| && Normalize(alias[i].0) == k
  {
    var pairs := NormalizedPairs(alias);
    ToTableEntries(pairs, k);
    assert forall i :: 0 <= i < |alias| ==> pairs[i].0 == Normalize(alias[i].0);
  }

  /** For each normalised key, the value of the last entry with that key is kept, normalised. */
  lemma NormalizeAliasLastWins(alias: seq<(string, string)>, i: nat)
    requires i < |alias|
    requires forall j :: i < j < |alias| ==> Normalize(alias[j].0) != Normalize(alias[i].0)
    ensures Normalize(alias[i].0) in NormalizeAlias(alias)
    ensures NormalizeAlias(alias)[Normalize(alias[i].0)] == Normalize(alias[i].1)
  {
    var pairs := NormalizedPairs(alias);
    assert forall j :: 0 <= j < |alias| ==> pairs[j].0 == Normalize(alias[j].0);
    ToTableLastWins(pairs, i);
  }

  /** A `_GoalsPathVar`: a Buck cell-relative directory plus its normalised alias table. */
  datatype GoalsPathVar = GoalsPathVar(root: string, path: string, alias: map<string, string>)

  /** `_GoalsPathVar(root, path, alias)`: the alias table is normalised on construction. */
  function NewGoalsPathVar(root: string, path: string, alias: seq<(string, string)>): GoalsPathVar
  {
    GoalsPathVar(root, path, NormalizeAlias(alias))
  }

  /**
   * `str(var)`: `//` followed by `root + path` with its leading slashes
   * removed, so exactly two slashes open the result.
   */
  function PathVarString(v: GoalsPathVar): (r: string)
    ensures StartsWith(r, "//") && (|r| > 2 ==> r[2] != '/')
    ensures var t := v.root + v.path;
      |r| - 2 <= |t| && t[|t| - (|r| - 2)..] == r[2..] &&
      forall i :: 0 <= i < |t| - (|r| - 2) ==> t[i] == '/'
  {
    var r := "//" + LStrip(v.root + v.path, '/');
    assert r[2..] == LStrip(v.root + v.path, '/');
    r
  }

  /**
   * `var // pathGoal` as the generator emits it: the alias substitution when
   * the normalised reference is an alias key, otherwise `str(var)` joined to
   * the normalised reference by `/`.
   */
  function FloorDiv(v: GoalsPathVar, pathGoal: string): string
  {
    var suffix := Normalize(pathGoal);
    if suffix in v.alias then v.alias[suffix]
    else PathVarString(v) + "/" + suffix
  }

  /**
   * An alias entry wins over composition whatever the root and path: two
   * variables with the same alias table resolve an aliased reference alike,
   * to the alias value.
   */
  lemma AliasShortCircuits(v: GoalsPathVar, w: GoalsPathVar, pathGoal: string)
    requires v.alias == w.alias && Normalize(pathGoal) in v.alias
    ensures FloorDiv(v, pathGoal) == FloorDiv(w, pathGoal) == v.alias[Normalize(pathGoal)]
  {
  }

  /** Without an alias and without `:`, the goal defaults to the last `/` segment of the reference. */
  lemma DefaultGoal(v: GoalsPathVar, pathGoal: string)
    requires ':' !in pathGoal && Normalize(pathGoal) !in v.alias
    ensures FloorDiv(v, pathGoal) == PathVarString(v) + "/" + pathGoal + ":" + LastSegment(pathGoal, '/')
  {
    SplitNoSeparator(pathGoal, ':');
    assert Normalize(pathGoal) == pathGoal + ":" + LastSegment(pathGoal, '/');
  }

  /** Without an alias, a reference with exactly one `:` is used verbatim. */
  lemma ExplicitGoal(v: GoalsPathVar, pathGoal: string)
    requires Count(pathGoal, ':') == 1 && pathGoal !in v.alias
    ensures FloorDiv(v, pathGoal) == PathVarString(v) + "/" + pathGoal
  {
    NormalizeSpec(pathGoal);
  }

  /**
   * Every reference a constructed variable resolves is a well-formed
   * `target:goal` with exactly one `:`, provided its root and path hold none.
   */
  lemma FloorDivHasOneColon(root: string, path: string, alias: seq<(string, string)>, pathGoal: string)
    requires ':' !in root + path
    ensures Count(FloorDiv(NewGoalsPathVar(root, path, alias), pathGoal), ':') == 1
  {
    var v := NewGoalsPathVar(root, path, alias);
    var suffix := Normalize(pathGoal);
    NormalizeSpec(pathGoal);
    if suffix in v.alias {
      NormalizeAliasWellFormed(alias, suffix);
    } else {
      var s := PathVarString(v);
      var t := root + path;
      assert ':' !in s by {
        assert forall i :: 2 <= i < |s| ==> s[i] == t[|t| - (|s| - 2) + i - 2];
        assert s[0] == '/' && s[1] == '/';
      }
      CountZero(s + "/", ':');
      CountConcat(s + "/", suffix, ':');
    }
  }

  /** The DEFS file's `root = _GoalsPathVar('', '')`. */
  function RootVar(): (v: GoalsPathVar)
    ensures PathVarString(v) == "//" && v.alias == map[]
  {
    NewGoalsPathVar("", "", [])
  }

  /**
   * As written, `root // ref` opens with three slashes, because `str(root)`
   * is `//` and `//` composes with a further `/`.
   */
  lemma RootFloorDivTripleSlash(path: string, goal: string)
    requires ':' !in path && ':' !in goal
    ensures FloorDiv(RootVar(), path + ":" + goal) == "///" + path + ":" + goal
  {
    CountAroundOne(path, goal, ':');
    assert path + [':'] + goal == path + ":" + goal;
    ExplicitGoal(RootVar(), path + ":" + goal);
  }

  /**
   * `var // pathGoal` with the separator added only after a non-empty
   * `str(var)` body: the root variable then yields `//path:goal`.
   */
  function FloorDivCorrected(v: GoalsPathVar, pathGoal: string): (r: string)
    ensures Normalize(pathGoal) !in v.alias ==> StartsWith(r, "//")
  {
    var suffix := Normalize(pathGoal);
    if suffix in v.alias then v.alias[suffix]
    else
      var s := PathVarString(v);
      if s == "//" then s + suffix else s + "/" + suffix
  }

  /** The corrected operator agrees with the written one on every variable other than the root. */
  lemma FloorDivCorrectedAgrees(v: GoalsPathVar, pathGoal: string)
    requires PathVarString(v) != "//"
    ensures FloorDivCorrected(v, pathGoal) == FloorDiv(v, pathGoal)
  {
  }

  /**
   * With the correction, a composed reference never opens with more than two
   * slashes unless the reference itself starts with one.
   */
  lemma CorrectedHasTwoLeadingSlashes(v: GoalsPathVar, pathGoal: string)
    requires Normalize(pathGoal) !in v.alias
    requires |pathGoal| > 0 ==> pathGoal[0] != '/'
    ensures var r := FloorDivCorrected(v, pathGoal); |r| > 2 && r[..2] == "//" && r[2] != '/'
  {
    PathIsBeforeFirstColon(pathGoal);
    var (p, g) := GetPathAndGoal(pathGoal);
    var suffix := Normalize(pathGoal);
    assert suffix == p + [':'] + g;
    assert suffix[0] != '/';
  }

  /** The corrected root variable names the reference with exactly two leading slashes. */
  lemma RootFloorDivCorrected(pathGoal: string)
    requires Count(pathGoal, ':') == 1
    ensures FloorDivCorrected(RootVar(), pathGoal) == "//" + pathGoal
  {
    NormalizeSpec(pathGoal);
  }
}
