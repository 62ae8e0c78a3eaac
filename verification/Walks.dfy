/** merge_tuples: growing relation paths by one edge at a time. */
module Walks {
  import opened Common
  import opened Graphs

  type Path = seq<Name>

  // `list2` holds 2-tuples.
  type Pairs = seq<Edge>

  // The two names of `pair` stand next to each other in `path`, in this order.
  predicate StepsAlong(pair: Edge, path: Path)
  {
    exists i :: 0 <= i < |path| - 1 && path[i] == pair.0 && path[i + 1] == pair.1
  }

  method FindAllIndexes(path: Path, value: Name) returns (indexes: seq<nat>)
    ensures forall i :: i in indexes <==> 0 <= i < |path| && path[i] == value
  {
    indexes := [];
    var start := 0;
    while start < |path|
      invariant start <= |path|
      invariant forall i :: i in indexes <==> 0 <= i < start && path[i] == value
    {
      if path[start] == value {
        indexes := indexes + [start];
      }
      start := start + 1;
    }
  }

  method IsContinuousSubsequence(pair: Edge, path: Path) returns (r: bool)
    ensures r == StepsAlong(pair, path)
  {
    var indexes := FindAllIndexes(path, pair.0);
    var k := 0;
    while k < |indexes|
      invariant k <= |indexes|
      invariant forall j :: 0 <= j < k ==> indexes[j] in indexes && (indexes[j] == |path| - 1 || path[indexes[j] + 1] != pair.1)
    {
      assert indexes[k] in indexes;
      if indexes[k] != |path| - 1 && path[indexes[k] + 1] == pair.1 {
        return true;
      }
      k := k + 1;
    }
    return false;
  }

  predicate Usable(path: Path, pair: Edge)
    requires path != []
  {
    pair.0 == path[|path| - 1] && !StepsAlong(pair, path) && !StepsAlong((pair.1, pair.0), path)
  }

  function Extensions(path: Path, pairs: Pairs): seq<Path>
    requires path != []
  {
    if pairs == [] then []
    else Extensions(path, pairs[..|pairs| - 1]) + if Usable(path, pairs[|pairs| - 1]) then [path + [pairs[|pairs| - 1].1]] else []
  }

  // A path that has come back to one of its own names is left alone.
  predicate Closed(path: Path)
    requires path != []
  {
    path[|path| - 1] in path[..|path| - 1]
  }

  function Grown(path: Path, pairs: Pairs): seq<Path>
    requires path != []
  {
    if Closed(path) || Extensions(path, pairs) == [] then [path] else Extensions(path, pairs)
  }

  ghost predicate NonEmpty(paths: seq<Path>)
  {
    forall i :: 0 <= i < |paths| ==> paths[i] != []
  }

  function MergedTuples(paths: seq<Path>, pairs: Pairs): (r: seq<Path>)
    requires NonEmpty(paths)
    ensures NonEmpty(r)
  {
    if paths == [] then []
    else
      GrownIsNonEmpty(paths[|paths| - 1], pairs);
      MergedTuples(paths[..|paths| - 1], pairs) + Grown(paths[|paths| - 1], pairs)
  }

  lemma GrownIsNonEmpty(path: Path, pairs: Pairs)
    requires path != []
    ensures NonEmpty(Grown(path, pairs))
  {
    ExtensionsMean(path, pairs);
    forall i | 0 <= i < |Extensions(path, pairs)| ensures Extensions(path, pairs)[i] != [] {
      assert Extensions(path, pairs)[i] in Extensions(path, pairs);
    }
  }

  lemma {:induction false} ExtensionsMean(path: Path, pairs: Pairs)
    requires path != []
    ensures forall r :: r in Extensions(path, pairs) <==> exists e :: e in pairs && Usable(path, e) && r == path + [e.1]
    decreases |pairs|
  {
    hide Usable;
    if pairs != [] {
      var front, last := pairs[..|pairs| - 1], pairs[|pairs| - 1];
      assert pairs == front + [last];
      ExtensionsMean(path, front);
      assert forall e :: e in pairs <==> e in front || e == last;
    }
  }

  method MergeTuples(list1: seq<Path>, list2: Pairs) returns (result: seq<Path>)
    requires NonEmpty(list1)
    ensures result == MergedTuples(list1, list2)
  {
    hide Usable, StepsAlong;
    result := [];
    var i := 0;
    while i < |list1|
      invariant i <= |list1| && result == MergedTuples(list1[..i], list2)
    {
      var tup := list1[i];
      assert list1[..i + 1][..i] == list1[..i] && tup in list1;
      if Closed(tup) {
        result := result + [tup];
      } else {
        var extended := ExtendTuple(tup, list2);
        result := result + if extended == [] then [tup] else extended;
      }
      i := i + 1;
    }
    assert list1[..|list1|] == list1;
  }

  method ExtendTuple(tup: Path, list2: Pairs) returns (extended: seq<Path>)
    requires tup != []
    ensures extended == Extensions(tup, list2)
  {
    extended := [];
    var j := 0;
    while j < |list2|
      invariant j <= |list2| && extended == Extensions(tup, list2[..j])
    {
      var candidate := list2[j];
      assert list2[..j + 1][..j] == list2[..j];
      if candidate.0 == tup[|tup| - 1] {
        var forward := IsContinuousSubsequence(candidate, tup);
        var backward := IsContinuousSubsequence((candidate.1, candidate.0), tup);
        if !forward && !backward {
          extended := extended + [tup + [candidate.1]];
        }
      }
      j := j + 1;
    }
    assert list2[..|list2|] == list2;
  }

  /* ---------- walks ---------- */

  function Undirected(pairs: Pairs): set<Edge>
  {
    set e | e in pairs :: FromTo(e.0, e.1)
  }

  function StepAt(path: Path, i: nat): Edge
    requires i + 1 < |path|
  {
    FromTo(path[i], path[i + 1])
  }

  // A walk over the undirected edges of `pairs` that uses none of them twice.
  ghost predicate Walk(path: Path, pairs: Pairs)
  {
    && path != []
    && (forall i :: 0 <= i < |path| - 1 ==> StepAt(path, i) in Undirected(pairs))
    && (forall i, j :: 0 <= i < j < |path| - 1 ==> StepAt(path, i) != StepAt(path, j))
  }

  lemma ExtensionIsWalk(path: Path, pairs: Pairs, e: Edge)
    requires Walk(path, pairs) && e in pairs && Usable(path, e)
    ensures Walk(path + [e.1], pairs)
  {
    var r := path + [e.1];
    var n := |path| - 1;
    assert StepAt(r, n) == FromTo(e.0, e.1) && StepAt(r, n) in Undirected(pairs);
    forall i | 0 <= i < n ensures StepAt(r, i) == StepAt(path, i) && StepAt(r, i) != StepAt(r, n) {
      FromToIsUnordered(path[i], path[i + 1], e.0, e.1);
    }
  }

  ghost predicate AllWalks(paths: seq<Path>, pairs: Pairs)
  {
    forall p :: p in paths ==> Walk(p, pairs)
  }

  lemma GrownMeans(path: Path, pairs: Pairs, r: Path)
    requires path != [] && r in Grown(path, pairs)
    ensures r == path || exists e :: e in pairs && Usable(path, e) && r == path + [e.1]
  {
    ExtensionsMean(path, pairs);
  }

  // Which input a result comes from.
  lemma {:induction false} ResultComesFrom(paths: seq<Path>, pairs: Pairs, r: Path) returns (p: Path)
    requires NonEmpty(paths) && r in MergedTuples(paths, pairs)
    ensures p in paths && r in Grown(p, pairs)
    decreases |paths|
  {
    hide Grown;
    var front, last := paths[..|paths| - 1], paths[|paths| - 1];
    if r in Grown(last, pairs) {
      p := last;
    } else {
      p := ResultComesFrom(front, pairs, r);
    }
  }

  lemma {:induction false} NothingIsLost(paths: seq<Path>, pairs: Pairs, p: Path, r: Path)
    requires NonEmpty(paths) && p in paths && r in Grown(p, pairs)
    ensures r in MergedTuples(paths, pairs)
    decreases |paths|
  {
    hide Grown;
    var front, last := paths[..|paths| - 1], paths[|paths| - 1];
    if p != last {
      assert paths == front + [last];
      NothingIsLost(front, pairs, p, r);
    }
  }

  // e leaves from the end of the path, and its two names do not yet stand next to each other in it.
  ghost predicate FreshStep(path: Path, e: Edge)
    requires path != []
  {
    && e.0 == path[|path| - 1]
    && forall i :: 0 <= i < |path| - 1 ==>
         !(path[i] == e.0 && path[i + 1] == e.1) && !(path[i] == e.1 && path[i + 1] == e.0)
  }

  // The last name of the path occurs once, and some pair gives a fresh step.
  ghost predicate CanGrow(path: Path, pairs: Pairs)
    requires path != []
  {
    (forall i :: 0 <= i < |path| - 1 ==> path[i] != path[|path| - 1]) && exists e :: e in pairs && FreshStep(path, e)
  }

  // What becomes of a path: each of its fresh steps when it can grow, and itself when it cannot.
  ghost predicate Becomes(path: Path, pairs: Pairs, r: Path)
    requires path != []
  {
    if CanGrow(path, pairs) then exists e :: e in pairs && FreshStep(path, e) && r == path + [e.1] else r == path
  }

  lemma UsableIsFresh(path: Path, e: Edge)
    requires path != []
    ensures Usable(path, e) <==> FreshStep(path, e)
  {
  }

  lemma GrownBecomes(path: Path, pairs: Pairs, r: Path)
    requires path != []
    ensures r in Grown(path, pairs) <==> Becomes(path, pairs, r)
  {
    hide Usable, FreshStep;
    ExtensionsMean(path, pairs);
    forall e ensures Usable(path, e) <==> FreshStep(path, e) {
      UsableIsFresh(path, e);
    }
    var front := path[..|path| - 1];
    assert Closed(path) <==> exists i :: 0 <= i < |path| - 1 && path[i] == path[|path| - 1] by {
      if Closed(path) {
        var i :| 0 <= i < |front| && front[i] == path[|path| - 1];
        assert path[i] == path[|path| - 1];
      }
      if i :| 0 <= i < |path| - 1 && path[i] == path[|path| - 1] {
        assert front[i] in front;
      }
    }
    var all := Extensions(path, pairs);
    if all != [] {
      assert all[0] in all;
    }
    if e :| e in pairs && FreshStep(path, e) {
      assert path + [e.1] in all;
    }
  }

  // The results are exactly what the paths become.
  lemma MergedTuplesMean(paths: seq<Path>, pairs: Pairs, r: Path)
    requires NonEmpty(paths)
    ensures r in MergedTuples(paths, pairs) <==> exists p :: p in paths && p != [] && Becomes(p, pairs, r)
  {
    hide MergedTuples, Grown, Becomes;
    if r in MergedTuples(paths, pairs) {
      var p := ResultComesFrom(paths, pairs, r);
      GrownBecomes(p, pairs, r);
    }
    if p :| p in paths && p != [] && Becomes(p, pairs, r) {
      GrownBecomes(p, pairs, r);
      NothingIsLost(paths, pairs, p, r);
    }
  }

  // Every result is a walk that extends one input by at most one edge, and every input is the beginning
  // of some result.
  lemma MergingKeepsWalks(paths: seq<Path>, pairs: Pairs)
    requires AllWalks(paths, pairs)
    ensures NonEmpty(paths) && AllWalks(MergedTuples(paths, pairs), pairs)
    ensures forall r :: r in MergedTuples(paths, pairs) ==> exists p :: p in paths && p <= r && |r| <= |p| + 1
    ensures forall p :: p in paths ==> exists r :: r in MergedTuples(paths, pairs) && p <= r
  {
    hide MergedTuples, Walk, Usable, Grown;
    assert NonEmpty(paths) by { WalksAreNonEmpty(paths, pairs); }
    forall r | r in MergedTuples(paths, pairs)
      ensures Walk(r, pairs) && exists p :: p in paths && p <= r && |r| <= |p| + 1
    {
      var p := ResultComesFrom(paths, pairs, r);
      GrownMeans(p, pairs, r);
      if r != p {
        var e :| e in pairs && Usable(p, e) && r == p + [e.1];
        ExtensionIsWalk(p, pairs, e);
      }
    }
    forall p | p in paths ensures exists r :: r in MergedTuples(paths, pairs) && p <= r {
      var r := SomeGrown(p, pairs);
      NothingIsLost(paths, pairs, p, r);
    }
  }

  lemma WalksAreNonEmpty(paths: seq<Path>, pairs: Pairs)
    requires AllWalks(paths, pairs)
    ensures NonEmpty(paths)
  {
    forall i | 0 <= i < |paths| ensures paths[i] != [] {
      assert paths[i] in paths;
    }
  }

  lemma SomeGrown(p: Path, pairs: Pairs) returns (r: Path)
    requires p != []
    ensures r in Grown(p, pairs) && p <= r
  {
    r := Grown(p, pairs)[0];
    GrownMeans(p, pairs, r);
  }

  /* ---------- the fixpoint ---------- */

  ghost predicate Stuck(p: Path, pairs: Pairs)
    requires p != []
  {
    Grown(p, pairs) == [p]
  }

  lemma GrownStepsOrStays(p: Path, pairs: Pairs, r: Path)
    requires p != [] && r in Grown(p, pairs)
    ensures Stuck(p, pairs) ==> r == p
    ensures !Stuck(p, pairs) ==> |r| == |p| + 1
  {
    ExtensionsMean(p, pairs);
  }

  lemma {:induction false} AllStuckIsFixed(paths: seq<Path>, pairs: Pairs)
    requires NonEmpty(paths) && forall p :: p in paths ==> Stuck(p, pairs)
    ensures MergedTuples(paths, pairs) == paths
    decreases |paths|
  {
    hide Grown;
    if paths != [] {
      var front, last := paths[..|paths| - 1], paths[|paths| - 1];
      AllStuckIsFixed(front, pairs);
      assert last in paths && paths == front + [last];
    }
  }

  lemma WalksAreShort(p: Path, pairs: Pairs)
    requires Walk(p, pairs)
    ensures |p| <= |Undirected(pairs)| + 1
  {
    hide FromTo, Undirected;
    var steps := seq(|p| - 1, i requires 0 <= i < |p| - 1 => StepAt(p, i));
    Pigeonhole(steps, Undirected(pairs));
  }

  function Rounds(paths: seq<Path>, pairs: Pairs, n: nat): (r: seq<Path>)
    requires NonEmpty(paths)
    ensures NonEmpty(r)
  {
    if n == 0 then paths else MergedTuples(Rounds(paths, pairs, n - 1), pairs)
  }

  lemma {:induction false} RoundsStickOrGrow(paths: seq<Path>, pairs: Pairs, n: nat)
    requires AllWalks(paths, pairs) && NonEmpty(paths)
    ensures AllWalks(Rounds(paths, pairs, n), pairs)
    ensures forall r :: r in Rounds(paths, pairs, n) ==> Stuck(r, pairs) || |r| > n
    decreases n
  {
    hide MergedTuples, Stuck, Walk;
    if n == 0 {
      forall r | r in paths ensures |r| > 0 {
      }
    } else {
      var before := Rounds(paths, pairs, n - 1);
      RoundsStickOrGrow(paths, pairs, n - 1);
      MergingKeepsWalks(before, pairs);
      forall r | r in MergedTuples(before, pairs) ensures Stuck(r, pairs) || |r| > n {
        var p := ResultComesFrom(before, pairs, r);
        GrownStepsOrStays(p, pairs, r);
      }
    }
  }

  // After as many rounds as there are undirected edges, merging changes nothing any more.
  lemma RoundsReachFixpoint(paths: seq<Path>, pairs: Pairs, n: nat)
    requires AllWalks(paths, pairs) && NonEmpty(paths) && n >= |Undirected(pairs)|
    ensures MergedTuples(Rounds(paths, pairs, n), pairs) == Rounds(paths, pairs, n)
  {
    hide MergedTuples, Stuck, Walk, Undirected, Rounds;
    var r := Rounds(paths, pairs, n);
    RoundsStickOrGrow(paths, pairs, n);
    forall p | p in r ensures Stuck(p, pairs) {
      if !Stuck(p, pairs) {
        var q := SomeGrown(p, pairs);
        GrownStepsOrStays(p, pairs, q);
        NothingIsLost(r, pairs, p, q);
        MergingKeepsWalks(r, pairs);
        WalksAreShort(q, pairs);
        assert false;
      }
    }
    AllStuckIsFixed(r, pairs);
  }
}
