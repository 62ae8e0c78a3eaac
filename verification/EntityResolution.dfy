/** Entity resolution: candidate pairs are judged in batches, and the connected components of the
    approved pairs are the clusters to merge. */
module EntityResolution {
  import opened Common
  import opened Options
  import opened Similarity

  type Name = string
  type Pair = (Name, Name)

  const BATCH := 100

  /* ---------- candidates and batches ---------- */

  function PairsWith(a: Name, rest: seq<Name>, candidate: (Name, Name) -> bool): seq<Pair>
  {
    if rest == [] then []
    else (if candidate(a, rest[0]) then [(a, rest[0])] else []) + PairsWith(a, rest[1..], candidate)
  }

  // The candidates among itertools.combinations(nodes, 2), in that order.
  function Candidates(nodes: seq<Name>, candidate: (Name, Name) -> bool): seq<Pair>
  {
    if nodes == [] then [] else PairsWith(nodes[0], nodes[1..], candidate) + Candidates(nodes[1..], candidate)
  }

  lemma {:induction false} PairsWithMean(a: Name, rest: seq<Name>, candidate: (Name, Name) -> bool)
    ensures forall p :: p in PairsWith(a, rest, candidate) <==> p.0 == a && p.1 in rest && candidate(a, p.1)
  {
    if rest != [] {
      PairsWithMean(a, rest[1..], candidate);
    }
  }

  // Every unordered pair of different positions is considered once, in node order.
  lemma {:induction false} CandidatesMean(nodes: seq<Name>, candidate: (Name, Name) -> bool)
    ensures forall p :: p in Candidates(nodes, candidate) <==>
      candidate(p.0, p.1) && exists i, j :: 0 <= i < j < |nodes| && p == (nodes[i], nodes[j])
    decreases |nodes|
  {
    if nodes != [] {
      var rest := nodes[1..];
      PairsWithMean(nodes[0], rest, candidate);
      CandidatesMean(rest, candidate);
      forall p | p in Candidates(nodes, candidate)
        ensures candidate(p.0, p.1) && exists i, j :: 0 <= i < j < |nodes| && p == (nodes[i], nodes[j])
      {
        if p in PairsWith(nodes[0], rest, candidate) {
          var k :| 0 <= k < |rest| && rest[k] == p.1;
          assert p == (nodes[0], nodes[k + 1]);
        } else {
          var i, j :| 0 <= i < j < |rest| && p == (rest[i], rest[j]);
          assert p == (nodes[i + 1], nodes[j + 1]);
        }
      }
      forall i, j | 0 <= i < j < |nodes| && candidate(nodes[i], nodes[j])
        ensures (nodes[i], nodes[j]) in Candidates(nodes, candidate)
      {
        if i == 0 {
          assert nodes[j] == rest[j - 1];
        } else {
          assert nodes[i] == rest[i - 1] && nodes[j] == rest[j - 1];
        }
      }
    }
  }

  function Join<T>(lists: seq<seq<T>>): seq<T>
  {
    if lists == [] then [] else Join(lists[..|lists| - 1]) + lists[|lists| - 1]
  }

  // `for i in range(0, len(lst), 100)`
  method Batches(lst: seq<Pair>) returns (batches: seq<seq<Pair>>)
    ensures Join(batches) == lst
    ensures forall k :: 0 <= k < |batches| ==> 0 < |batches[k]| <= 100 && (k < |batches| - 1 ==> |batches[k]| == 100)
  {
    batches := [];
    var i := 0;
    while i < |lst|
      invariant i == |batches| * BATCH || i >= |lst|
      invariant Join(batches) == lst[..if i <= |lst| then i else |lst|]
      invariant forall k :: 0 <= k < |batches| ==> 0 < |batches[k]| <= BATCH
      invariant forall k :: 0 <= k < |batches| ==> (i < |lst| || k < |batches| - 1) ==> |batches[k]| == BATCH
      decreases |lst| - i
    {
      var batch := if i + BATCH <= |lst| then lst[i..i + BATCH] else lst[i..];
      ghost var before := batches;
      batches := batches + [batch];
      assert batches[..|batches| - 1] == before;
      i := i + BATCH;
    }
  }

  /* ---------- judging a batch ---------- */

  // One record of the model's answer: the question number it names (0 when none) and whether it says
  // yes.
  datatype Answer = Answer(question: nat, yes: bool)

  function Accepted(length: nat, a: Answer): bool
  {
    a.question <= length && a.question != 0 && a.yes
  }

  method ProcessResults(length: nat, answers: seq<Answer>) returns (accepted: seq<nat>)
    ensures forall q :: q in accepted <==> exists a :: a in answers && Accepted(length, a) && a.question == q
    ensures forall q :: q in accepted <==> exists a :: a in answers && a.yes && a.question == q && 1 <= q <= length
  {
    accepted := [];
    var i := 0;
    while i < |answers|
      invariant i <= |answers|
      invariant forall q :: q in accepted <==> exists a :: a in answers[..i] && Accepted(length, a) && a.question == q
    {
      var a := answers[i];
      assert forall x :: x in answers[..i + 1] <==> x in answers[..i] || x == a;
      if a.question <= length && a.question != 0 && a.yes {
        accepted := accepted + [a.question];
      }
      i := i + 1;
    }
    assert answers[..|answers|] == answers;
  }

  // The pairs a batch's answer approves; a call that failed or timed out has no answer.
  ghost function Approved(batch: seq<Pair>, reply: Option<seq<Answer>>): set<Pair>
  {
    if reply == None then {}
    else set a | a in reply.value && Accepted(|batch|, a) :: batch[a.question - 1]
  }

  // Some record of the answer names the question of this pair, counted from 1, and says yes.
  ghost predicate SaysYes(batch: seq<Pair>, reply: Option<seq<Answer>>, p: Pair)
  {
    reply.Some? && exists a :: a in reply.value && a.yes && 1 <= a.question <= |batch| && batch[a.question - 1] == p
  }

  lemma ApprovedMeans(batch: seq<Pair>, reply: Option<seq<Answer>>, p: Pair)
    ensures p in Approved(batch, reply) <==> SaysYes(batch, reply, p)
  {
    if SaysYes(batch, reply, p) {
      var a :| a in reply.value && a.yes && 1 <= a.question <= |batch| && batch[a.question - 1] == p;
      assert Accepted(|batch|, a);
    }
  }

  lemma ApprovedAreCandidates(batch: seq<Pair>, reply: Option<seq<Answer>>)
    ensures forall p :: p in Approved(batch, reply) ==> p in batch
  {
  }

  method ResolveCandidate(batch: seq<Pair>, reply: Option<seq<Answer>>, resolution: set<Pair>) returns (r: set<Pair>)
    ensures r == resolution + Approved(batch, reply)
    ensures forall p :: p in r <==> p in resolution || SaysYes(batch, reply, p)
  {
    hide SaysYes;
    r := resolution;
    forall p ensures p in Approved(batch, reply) <==> SaysYes(batch, reply, p) {
      ApprovedMeans(batch, reply, p);
    }
    if reply == None {
      return;
    }
    var accepted := ProcessResults(|batch|, reply.value);
    forall j | 0 <= j < |accepted| ensures 0 < accepted[j] <= |batch| {
      assert accepted[j] in accepted;
    }
    var i := 0;
    while i < |accepted|
      invariant i <= |accepted|
      invariant forall p :: p in r <==> p in resolution || exists j :: 0 <= j < i && p == batch[accepted[j] - 1]
    {
      r := r + {batch[accepted[i] - 1]};
      i := i + 1;
    }
    forall p | p in Approved(batch, reply) ensures p in r {
      var a :| a in reply.value && Accepted(|batch|, a) && p == batch[a.question - 1];
      assert a.question in accepted;
    }
    forall p | p in r && p !in resolution ensures p in Approved(batch, reply) {
      var j :| 0 <= j < |accepted| && p == batch[accepted[j] - 1];
      assert accepted[j] in accepted;
      var a :| a in reply.value && Accepted(|batch|, a) && a.question == accepted[j];
    }
  }

  /* ---------- connected components ---------- */

  predicate Linked(pairs: set<Pair>, a: Name, b: Name)
  {
    (a, b) in pairs || (b, a) in pairs
  }

  ghost predicate Chain(pairs: set<Pair>, p: seq<Name>)
  {
    p != [] && forall i :: 0 <= i < |p| - 1 ==> Linked(pairs, p[i], p[i + 1])
  }

  ghost predicate Connected(pairs: set<Pair>, a: Name, b: Name)
  {
    exists p :: Chain(pairs, p) && p[0] == a && p[|p| - 1] == b
  }

  function Nodes(pairs: set<Pair>): set<Name>
  {
    (set p | p in pairs :: p.0) + (set p | p in pairs :: p.1)
  }

  function Adjacent(pairs: set<Pair>, a: Name): set<Name>
  {
    set b | b in Nodes(pairs) && Linked(pairs, a, b)
  }

  lemma AdjacentMeans(pairs: set<Pair>, a: Name, b: Name)
    ensures b in Adjacent(pairs, a) <==> Linked(pairs, a, b)
  {
    if Linked(pairs, a, b) {
      var p := if (a, b) in pairs then (a, b) else (b, a);
      assert p in pairs;
    }
  }

  lemma ConnectedToItself(pairs: set<Pair>, a: Name)
    ensures Connected(pairs, a, a)
  {
    assert Chain(pairs, [a]);
  }

  lemma ConnectedStep(pairs: set<Pair>, a: Name, b: Name, c: Name)
    requires Connected(pairs, a, b) && Linked(pairs, b, c)
    ensures Connected(pairs, a, c)
  {
    var p :| Chain(pairs, p) && p[0] == a && p[|p| - 1] == b;
    var q := p + [c];
    assert Chain(pairs, q) && q[|q| - 1] == c;
  }

  ghost predicate ClosedUnder(pairs: set<Pair>, s: set<Name>)
  {
    forall a, b :: a in s && Linked(pairs, a, b) ==> b in s
  }

  lemma {:induction false} ChainStaysInside(pairs: set<Pair>, s: set<Name>, p: seq<Name>)
    requires Chain(pairs, p) && ClosedUnder(pairs, s) && p[0] in s
    ensures p[|p| - 1] in s
    decreases |p|
  {
    hide Linked;
    if |p| > 1 {
      var q := p[..|p| - 1];
      assert Linked(pairs, p[|p| - 2], p[|p| - 1]);
      ChainStaysInside(pairs, s, q);
    }
  }

  // The breadth-first walk of one component.
  method PlainBfs(pairs: set<Pair>, source: Name) returns (seen: set<Name>)
    requires source in Nodes(pairs)
    ensures forall b :: b in seen <==> Connected(pairs, source, b)
    ensures source in seen && seen <= Nodes(pairs) && ClosedUnder(pairs, seen)
  {
    hide Linked, Connected, Nodes;
    seen := {source};
    var frontier := {source};
    ConnectedToItself(pairs, source);
    while frontier != {}
      invariant source in seen && frontier <= seen <= Nodes(pairs)
      invariant forall b :: b in seen ==> Connected(pairs, source, b)
      invariant forall a, b :: a in seen - frontier && Linked(pairs, a, b) ==> b in seen
      decreases Nodes(pairs) - seen, frontier
    {
      var a :| a in frontier;
      var found := Adjacent(pairs, a) - seen;
      forall b | b in found ensures Connected(pairs, source, b) {
        AdjacentMeans(pairs, a, b);
        ConnectedStep(pairs, source, a, b);
      }
      forall b | Linked(pairs, a, b) ensures b in seen + found {
        AdjacentMeans(pairs, a, b);
      }
      AdjacentAreNodes(pairs, a);
      ghost var before := seen;
      seen := seen + found;
      frontier := frontier - {a} + found;
      if found != {} {
        var b :| b in found;
        assert b in Nodes(pairs) - before && b !in Nodes(pairs) - seen;
      } else {
        assert seen == before;
      }
    }
    forall b | Connected(pairs, source, b) ensures b in seen {
      ReachedByClosure(pairs, seen, source, b);
    }
  }

  lemma AdjacentAreNodes(pairs: set<Pair>, a: Name)
    ensures Adjacent(pairs, a) <= Nodes(pairs)
  {
  }

  lemma ReachedByClosure(pairs: set<Pair>, s: set<Name>, a: Name, b: Name)
    requires ClosedUnder(pairs, s) && a in s && Connected(pairs, a, b)
    ensures b in s
  {
    var p :| Chain(pairs, p) && p[0] == a && p[|p| - 1] == b;
    ChainStaysInside(pairs, s, p);
  }

  // The clusters found so far.
  ghost predicate Components(pairs: set<Pair>, clusters: seq<set<Name>>, covered: set<Name>)
  {
    && (forall k :: 0 <= k < |clusters| ==> clusters[k] != {} && clusters[k] <= covered && ClosedUnder(pairs, clusters[k]))
    && (forall j, k :: 0 <= j < k < |clusters| ==> clusters[j] !! clusters[k])
    && (forall k, a, b :: 0 <= k < |clusters| && a in clusters[k] ==> (b in clusters[k] <==> Connected(pairs, a, b)))
    && (forall a :: a in covered ==> exists k :: 0 <= k < |clusters| && a in clusters[k])
  }

  lemma ConnectedIsSymmetric(pairs: set<Pair>, a: Name, b: Name)
    requires Connected(pairs, a, b)
    ensures Connected(pairs, b, a)
  {
    var p :| Chain(pairs, p) && p[0] == a && p[|p| - 1] == b;
    var q := seq(|p|, i requires 0 <= i < |p| => p[|p| - 1 - i]);
    forall i | 0 <= i < |q| - 1 ensures Linked(pairs, q[i], q[i + 1]) {
      assert Linked(pairs, p[|p| - 2 - i], p[|p| - 2 - i + 1]);
    }
    assert Chain(pairs, q);
  }

  lemma ConnectedIsTransitive(pairs: set<Pair>, a: Name, b: Name, c: Name)
    requires Connected(pairs, a, b) && Connected(pairs, b, c)
    ensures Connected(pairs, a, c)
  {
    var p :| Chain(pairs, p) && p[0] == a && p[|p| - 1] == b;
    var q :| Chain(pairs, q) && q[0] == b && q[|q| - 1] == c;
    var r := p + q[1..];
    forall i | 0 <= i < |r| - 1 ensures Linked(pairs, r[i], r[i + 1]) {
      if i < |p| - 1 {
        assert Linked(pairs, p[i], p[i + 1]);
      } else {
        var k := i - (|p| - 1);
        assert Linked(pairs, q[k], q[k + 1]);
        assert r[i] == q[k];
      }
    }
    assert Chain(pairs, r);
  }

  method ConnectedComponents(pairs: set<Pair>) returns (clusters: seq<set<Name>>)
    ensures Components(pairs, clusters, Nodes(pairs))
  {
    hide Linked, Connected, Nodes, ClosedUnder;
    clusters := [];
    var covered: set<Name> := {};
    var todo := Nodes(pairs);
    while todo != {}
      invariant todo <= Nodes(pairs) && Nodes(pairs) - todo <= covered <= Nodes(pairs)
      invariant Components(pairs, clusters, covered)
      decreases todo
    {
      var v :| v in todo;
      if v !in covered {
        var c := PlainBfs(pairs, v);
        NewComponent(pairs, clusters, covered, v, c);
        clusters := clusters + [c];
        covered := covered + c;
      }
      todo := todo - {v};
    }
    assert covered == Nodes(pairs);
  }

  lemma NewComponent(pairs: set<Pair>, clusters: seq<set<Name>>, covered: set<Name>, v: Name, c: set<Name>)
    requires Components(pairs, clusters, covered) && v !in covered && v in c && ClosedUnder(pairs, c)
    requires forall b :: b in c <==> Connected(pairs, v, b)
    ensures Components(pairs, clusters + [c], covered + c)
  {
    hide Linked, Connected, ClosedUnder;
    forall k | 0 <= k < |clusters| ensures clusters[k] !! c {
      forall b | b in clusters[k] ensures b !in c {
        if b in c {
          ConnectedIsSymmetric(pairs, v, b);
          assert false;
        }
      }
    }
    WalkIsComponent(pairs, v, c);
    hide Components;
    AppendComponent(pairs, clusters, covered, c);
  }

  // What a walk sees is a whole component.
  lemma WalkIsComponent(pairs: set<Pair>, v: Name, c: set<Name>)
    requires forall b :: b in c <==> Connected(pairs, v, b)
    ensures forall a, b :: a in c ==> (b in c <==> Connected(pairs, a, b))
  {
    hide Connected;
    forall a, b | a in c ensures b in c <==> Connected(pairs, a, b) {
      ConnectedIsSymmetric(pairs, v, a);
      if b in c {
        ConnectedIsTransitive(pairs, a, v, b);
      }
      if Connected(pairs, a, b) {
        ConnectedIsTransitive(pairs, v, a, b);
      }
    }
  }

  lemma AppendComponent(pairs: set<Pair>, clusters: seq<set<Name>>, covered: set<Name>, c: set<Name>)
    requires Components(pairs, clusters, covered) && c != {} && ClosedUnder(pairs, c)
    requires forall a, b :: a in c ==> (b in c <==> Connected(pairs, a, b))
    requires forall k :: 0 <= k < |clusters| ==> clusters[k] !! c
    ensures Components(pairs, clusters + [c], covered + c)
  {
    hide Linked, Connected, ClosedUnder;
    var all := clusters + [c];
    assert all[|clusters|] == c && forall k :: 0 <= k < |clusters| ==> all[k] == clusters[k];
  }

  /* ---------- the whole resolution ---------- */

  // The nodes of one entity type, sorted, with the candidate pairs drawn from them.
  datatype Group = Group(entityType: string, nodes: seq<Name>)

  ghost predicate Grouped(groups: seq<Group>)
  {
    && (forall g, i, j :: 0 <= g < |groups| && 0 <= i < j < |groups[g].nodes| ==> groups[g].nodes[i] != groups[g].nodes[j])
    && (forall g, h, n :: 0 <= g < h < |groups| ==> !(n in groups[g].nodes && n in groups[h].nodes))
  }

  ghost predicate SameGroup(groups: seq<Group>, a: Name, b: Name)
  {
    exists g :: 0 <= g < |groups| && a in groups[g].nodes && b in groups[g].nodes
  }

  // Approved pairs are different nodes of one type that were candidates.
  ghost predicate Sound(groups: seq<Group>, candidate: (Name, Name) -> bool, pairs: set<Pair>)
  {
    forall p :: p in pairs ==> p.0 != p.1 && candidate(p.0, p.1) && SameGroup(groups, p.0, p.1)
  }

  // All batches of one type; the order in which they are answered does not matter, since each only adds
  // its approved pairs.
  method ResolveGroup(group: Group, candidate: (Name, Name) -> bool, replies: seq<Pair> -> Option<seq<Answer>>, resolution: set<Pair>)
      returns (r: set<Pair>, ghost batches: seq<seq<Pair>>)
    ensures Join(batches) == Candidates(group.nodes, candidate)
    ensures forall k :: 0 <= k < |batches| ==> 0 < |batches[k]| <= BATCH
    ensures forall p :: p in r <==> p in resolution || exists b :: b in batches && p in Approved(b, replies(b))
  {
    hide Approved;
    var bs := Batches(Candidates(group.nodes, candidate));
    batches := bs;
    r := resolution;
    var todo := set b | b in bs;
    while todo != {}
      invariant forall b :: b in todo ==> b in bs
      invariant forall p :: p in r <==> p in resolution || exists b :: b in bs && b !in todo && p in Approved(b, replies(b))
      decreases todo
    {
      var b :| b in todo;
      r := ResolveCandidate(b, replies(b), r);
      todo := todo - {b};
    }
  }

  lemma {:induction false} InJoin<T>(lists: seq<seq<T>>, k: nat, x: T)
    requires k < |lists| && x in lists[k]
    ensures x in Join(lists)
    decreases |lists|
  {
    if k < |lists| - 1 {
      InJoin(lists[..|lists| - 1], k, x);
    }
  }

  function AllCandidates(groups: seq<Group>, candidate: (Name, Name) -> bool): seq<Pair>
  {
    if groups == [] then []
    else AllCandidates(groups[..|groups| - 1], candidate) + Candidates(groups[|groups| - 1].nodes, candidate)
  }

  // The batches that were asked about, and the pairs their answers approve.
  ghost predicate Judged(asked: seq<seq<Pair>>, replies: seq<Pair> -> Option<seq<Answer>>, pairs: set<Pair>)
  {
    && (forall k :: 0 <= k < |asked| ==> 0 < |asked[k]| <= BATCH)
    && forall p :: p in pairs <==> exists b :: b in asked && SaysYes(b, replies(b), p)
  }

  lemma {:induction false} JoinOfBoth<T>(a: seq<seq<T>>, b: seq<seq<T>>)
    ensures Join(a + b) == Join(a) + Join(b)
    decreases |b|
  {
    if b == [] {
      assert a + b == a;
    } else {
      var all, front, last := a + b, b[..|b| - 1], b[|b| - 1];
      assert all[..|all| - 1] == a + front && all[|all| - 1] == last;
      assert Join(all) == Join(a + front) + last && Join(b) == Join(front) + last;
      hide Join;
      JoinOfBoth(a, front);
      Associates(Join(a), Join(front), last);
    }
  }

  method ResolveAll(groups: seq<Group>, candidate: (Name, Name) -> bool, replies: seq<Pair> -> Option<seq<Answer>>)
      returns (pairs: set<Pair>, ghost asked: seq<seq<Pair>>)
    requires Grouped(groups)
    ensures Sound(groups, candidate, pairs)
    ensures Join(asked) == AllCandidates(groups, candidate) && Judged(asked, replies, pairs)
  {
    hide Approved, Sound, Grouped, Judged, Candidates, Join;
    pairs := {};
    asked := [];
    var g := 0;
    NothingIsSound(groups, candidate, replies);
    while g < |groups|
      invariant g <= |groups| && Sound(groups, candidate, pairs)
      invariant Join(asked) == AllCandidates(groups[..g], candidate) && Judged(asked, replies, pairs)
    {
      ghost var batches;
      var r;
      r, batches := ResolveGroup(groups[g], candidate, replies, pairs);
      GroupIsSound(groups, candidate, replies, pairs, g, batches, r);
      JoinOfBoth(asked, batches);
      assert groups[..g + 1][..g] == groups[..g];
      JudgedBoth(asked, batches, replies, pairs, r);
      asked := asked + batches;
      pairs := r;
      g := g + 1;
    }
    assert groups[..|groups|] == groups;
  }

  lemma NothingIsSound(groups: seq<Group>, candidate: (Name, Name) -> bool, replies: seq<Pair> -> Option<seq<Answer>>)
    ensures Sound(groups, candidate, {}) && Judged([], replies, {})
    ensures Join<Pair>([]) == AllCandidates(groups[..0], candidate)
  {
  }

  lemma JudgedBoth(asked: seq<seq<Pair>>, batches: seq<seq<Pair>>, replies: seq<Pair> -> Option<seq<Answer>>,
                   pairs: set<Pair>, r: set<Pair>)
    requires Judged(asked, replies, pairs) && forall k :: 0 <= k < |batches| ==> 0 < |batches[k]| <= BATCH
    requires forall p :: p in r <==> p in pairs || exists b :: b in batches && p in Approved(b, replies(b))
    ensures Judged(asked + batches, replies, r)
  {
    hide Approved, SaysYes;
    assert forall b :: b in asked + batches <==> b in asked || b in batches;
    forall b, p ensures p in Approved(b, replies(b)) <==> SaysYes(b, replies(b), p) {
      ApprovedMeans(b, replies(b), p);
    }
  }

  lemma GroupIsSound(groups: seq<Group>, candidate: (Name, Name) -> bool, replies: seq<Pair> -> Option<seq<Answer>>,
                     pairs: set<Pair>, g: nat, batches: seq<seq<Pair>>, r: set<Pair>)
    requires Grouped(groups) && Sound(groups, candidate, pairs) && g < |groups|
    requires Join(batches) == Candidates(groups[g].nodes, candidate)
    requires forall p :: p in r <==> p in pairs || exists b :: b in batches && p in Approved(b, replies(b))
    ensures Sound(groups, candidate, r)
  {
    forall p | p in r && p !in pairs ensures p.0 != p.1 && candidate(p.0, p.1) && SameGroup(groups, p.0, p.1) {
      var b :| b in batches && p in Approved(b, replies(b));
      ApprovedAreCandidates(b, replies(b));
      var k :| 0 <= k < |batches| && batches[k] == b;
      InJoin(batches, k, p);
      CandidatesMean(groups[g].nodes, candidate);
    }
  }

  lemma {:induction false} ChainStaysInGroup(groups: seq<Group>, candidate: (Name, Name) -> bool, pairs: set<Pair>, p: seq<Name>, g: nat)
    requires Grouped(groups) && Sound(groups, candidate, pairs) && Chain(pairs, p)
    requires g < |groups| && p[0] in groups[g].nodes
    ensures p[|p| - 1] in groups[g].nodes
    decreases |p|
  {
    if |p| > 1 {
      var q := p[..|p| - 1];
      ChainStaysInGroup(groups, candidate, pairs, q, g);
      assert Linked(pairs, p[|p| - 2], p[|p| - 1]);
    }
  }

  // The entity sets handed to concurrent merging: pairwise disjoint, at least two members each, one
  // entity type each, and two nodes share a set exactly when a chain of approved pairs links them.
  method Resolve(groups: seq<Group>, candidate: (Name, Name) -> bool, replies: seq<Pair> -> Option<seq<Answer>>)
      returns (clusters: seq<set<Name>>, pairs: set<Pair>, ghost asked: seq<seq<Pair>>)
    requires Grouped(groups)
    ensures Join(asked) == AllCandidates(groups, candidate) && Judged(asked, replies, pairs)
    ensures Sound(groups, candidate, pairs)
    ensures forall j, k :: 0 <= j < k < |clusters| ==> clusters[j] !! clusters[k]
    ensures forall k :: 0 <= k < |clusters| ==> |clusters[k]| >= 2
    ensures forall k, a, b :: 0 <= k < |clusters| && a in clusters[k] && b in clusters[k] ==> SameGroup(groups, a, b)
    ensures forall k, a, b :: 0 <= k < |clusters| && a in clusters[k] ==> (b in clusters[k] <==> Connected(pairs, a, b))
    ensures forall p :: p in pairs ==> exists k :: 0 <= k < |clusters| && p.0 in clusters[k] && p.1 in clusters[k]
  {
    hide Components, Sound, SameGroup, Connected, Judged;
    pairs, asked := ResolveAll(groups, candidate, replies);
    clusters := ConnectedComponents(pairs);
    forall j, k | 0 <= j < k < |clusters| ensures clusters[j] !! clusters[k] {
      ClustersAreDisjoint(pairs, clusters, j, k);
    }
    forall k | 0 <= k < |clusters| ensures |clusters[k]| >= 2 {
      ClusterHasTwo(groups, candidate, pairs, clusters, k);
    }
    forall k, a, b | 0 <= k < |clusters| && a in clusters[k] && b in clusters[k] ensures SameGroup(groups, a, b) {
      ClusterHasOneType(groups, candidate, pairs, clusters, k, a, b);
    }
    forall k, a, b | 0 <= k < |clusters| && a in clusters[k] ensures b in clusters[k] <==> Connected(pairs, a, b) {
      ClusterFacts(pairs, clusters, k);
    }
    forall p | p in pairs ensures exists k :: 0 <= k < |clusters| && p.0 in clusters[k] && p.1 in clusters[k] {
      var k := PairIsClustered(pairs, clusters, p);
    }
  }

  lemma ClusterFacts(pairs: set<Pair>, clusters: seq<set<Name>>, k: nat)
    requires Components(pairs, clusters, Nodes(pairs)) && k < |clusters|
    ensures clusters[k] != {} && clusters[k] <= Nodes(pairs) && ClosedUnder(pairs, clusters[k])
    ensures forall a, b :: a in clusters[k] ==> (b in clusters[k] <==> Connected(pairs, a, b))
  {
    hide Connected, ClosedUnder, Nodes;
  }

  lemma ClustersAreDisjoint(pairs: set<Pair>, clusters: seq<set<Name>>, j: nat, k: nat)
    requires Components(pairs, clusters, Nodes(pairs)) && j < k < |clusters|
    ensures clusters[j] !! clusters[k]
  {
    hide Connected, ClosedUnder, Nodes;
  }

  lemma PairIsClustered(pairs: set<Pair>, clusters: seq<set<Name>>, p: Pair) returns (k: nat)
    requires Components(pairs, clusters, Nodes(pairs)) && p in pairs
    ensures k < |clusters| && p.0 in clusters[k] && p.1 in clusters[k]
  {
    hide Connected, ClosedUnder;
    assert p.0 in Nodes(pairs);
    k :| 0 <= k < |clusters| && p.0 in clusters[k];
    hide Components;
    ClusterFacts(pairs, clusters, k);
    ClosedGives(pairs, clusters[k], p.0, p.1);
  }

  lemma ClosedGives(pairs: set<Pair>, s: set<Name>, a: Name, b: Name)
    requires ClosedUnder(pairs, s) && a in s && Linked(pairs, a, b)
    ensures b in s
  {
  }

  lemma SomePair(pairs: set<Pair>, a: Name) returns (p: Pair)
    requires a in Nodes(pairs)
    ensures p in pairs && (p.0 == a || p.1 == a)
  {
    p :| p in pairs && (p.0 == a || p.1 == a);
  }

  lemma ClusterHasTwo(groups: seq<Group>, candidate: (Name, Name) -> bool, pairs: set<Pair>, clusters: seq<set<Name>>, k: nat)
    requires Sound(groups, candidate, pairs) && Components(pairs, clusters, Nodes(pairs)) && k < |clusters|
    ensures |clusters[k]| >= 2
  {
    hide Connected, Components, ClosedUnder, Nodes, SameGroup;
    ClusterFacts(pairs, clusters, k);
    var a :| a in clusters[k];
    var p := SomePair(pairs, a);
    var b := if p.0 == a then p.1 else p.0;
    ClosedGives(pairs, clusters[k], a, b);
    SubsetSize({a, b}, clusters[k]);
  }

  lemma SubsetSize(a: set<Name>, b: set<Name>)
    requires a <= b
    ensures |a| <= |b|
  {
    assert b == a + (b - a);
  }

  lemma ClusterHasOneType(groups: seq<Group>, candidate: (Name, Name) -> bool, pairs: set<Pair>, clusters: seq<set<Name>>, k: nat, a: Name, b: Name)
    requires Grouped(groups) && Sound(groups, candidate, pairs) && Components(pairs, clusters, Nodes(pairs))
    requires k < |clusters| && a in clusters[k] && b in clusters[k]
    ensures SameGroup(groups, a, b)
  {
    hide Components, ClosedUnder, Nodes, Grouped;
    ClusterFacts(pairs, clusters, k);
    var p :| Chain(pairs, p) && p[0] == a && p[|p| - 1] == b;
    var q := SomePair(pairs, a);
    assert SameGroup(groups, q.0, q.1);
    var g :| 0 <= g < |groups| && q.0 in groups[g].nodes && q.1 in groups[g].nodes;
    ChainStaysInGroup(groups, candidate, pairs, p, g);
  }

  /* ---------- from a graph ---------- */

  function OfType(nodes: seq<Name>, typeOf: Name -> string, t: string): seq<Name>
  {
    if nodes == [] then []
    else
      var last := nodes[|nodes| - 1];
      OfType(nodes[..|nodes| - 1], typeOf, t) + if typeOf(last) == t then [last] else []
  }

  lemma {:induction false} OfTypeMeans(nodes: seq<Name>, typeOf: Name -> string, t: string)
    requires NoDuplicates(nodes)
    ensures forall n :: n in OfType(nodes, typeOf, t) <==> n in nodes && typeOf(n) == t
    ensures NoDuplicates(OfType(nodes, typeOf, t))
  {
    if nodes != [] {
      var front, last := nodes[..|nodes| - 1], nodes[|nodes| - 1];
      assert nodes == front + [last];
      OfTypeMeans(front, typeOf, t);
      assert last !in front;
    }
  }

  // The nodes by entity type; a type comes up with its first node.
  method GroupByType(nodes: seq<Name>, typeOf: Name -> string) returns (groups: seq<Group>)
    requires NoDuplicates(nodes)
    ensures Grouped(groups)
    ensures forall g, n :: 0 <= g < |groups| ==> (n in groups[g].nodes <==> n in nodes && typeOf(n) == groups[g].entityType)
    ensures forall n :: n in nodes ==> exists g :: 0 <= g < |groups| && n in groups[g].nodes
  {
    hide OfType;
    groups := [];
    var k := 0;
    while k < |nodes|
      invariant k <= |nodes|
      invariant forall g :: 0 <= g < |groups| ==> groups[g].nodes == OfType(nodes, typeOf, groups[g].entityType)
      invariant forall g, h :: 0 <= g < h < |groups| ==> groups[g].entityType != groups[h].entityType
      invariant forall i :: 0 <= i < k ==> HasGroup(groups, typeOf(nodes[i]))
    {
      var t := typeOf(nodes[k]);
      var known := false;
      var g := 0;
      while g < |groups| && !known
        invariant g <= |groups|
        invariant !known ==> forall h :: 0 <= h < g ==> groups[h].entityType != t
        invariant known ==> HasGroup(groups, t)
        decreases |groups| - g, !known
      {
        if groups[g].entityType == t {
          known := true;
        } else {
          g := g + 1;
        }
      }
      if !known {
        ghost var before := groups;
        groups := groups + [Group(t, OfType(nodes, typeOf, t))];
        assert groups[|before|].entityType == t;
        forall i | 0 <= i < k ensures HasGroup(groups, typeOf(nodes[i])) {
          assert HasGroup(before, typeOf(nodes[i]));
          var h :| 0 <= h < |before| && before[h].entityType == typeOf(nodes[i]);
          assert groups[h] == before[h];
        }
      }
      k := k + 1;
    }
    forall t ensures NoDuplicates(OfType(nodes, typeOf, t)) && forall n :: n in OfType(nodes, typeOf, t) <==> n in nodes && typeOf(n) == t {
      OfTypeMeans(nodes, typeOf, t);
    }
    forall n | n in nodes ensures exists g :: 0 <= g < |groups| && n in groups[g].nodes {
      var i :| 0 <= i < |nodes| && nodes[i] == n;
      assert HasGroup(groups, typeOf(nodes[i]));
    }
  }

  ghost predicate HasGroup(groups: seq<Group>, t: string)
  {
    exists g :: 0 <= g < |groups| && groups[g].entityType == t
  }

  // A pair is put to the model when it touches the new subgraph and its names are similar.
  predicate IsCandidate(lang: Language, subgraph: set<Name>, a: Name, b: Name)
  {
    (a in subgraph || b in subgraph) && IsSimilar(lang, a, b)
  }

  lemma {:induction false} AskedAreCandidates(groups: seq<Group>, candidate: (Name, Name) -> bool, p: Pair)
    requires Grouped(groups) && p in AllCandidates(groups, candidate)
    ensures p.0 != p.1 && candidate(p.0, p.1) && SameGroup(groups, p.0, p.1)
    decreases |groups|
  {
    hide Candidates;
    var front, last := groups[..|groups| - 1], groups[|groups| - 1];
    if p in Candidates(last.nodes, candidate) {
      CandidatesMean(last.nodes, candidate);
    } else {
      AskedAreCandidates(front, candidate, p);
      var g :| 0 <= g < |front| && p.0 in front[g].nodes && p.1 in front[g].nodes;
      assert groups[g] == front[g];
    }
  }

  lemma {:induction false} EveryCandidateIsAsked(groups: seq<Group>, candidate: (Name, Name) -> bool, g: nat, a: Name, b: Name)
    requires g < |groups| && a in groups[g].nodes && b in groups[g].nodes && a != b && candidate(a, b) && candidate(b, a)
    ensures (a, b) in AllCandidates(groups, candidate) || (b, a) in AllCandidates(groups, candidate)
    decreases |groups|
  {
    if g < |groups| - 1 {
      EveryCandidateIsAsked(groups[..|groups| - 1], candidate, g, a, b);
    } else {
      CandidatesMean(groups[g].nodes, candidate);
      var i :| 0 <= i < |groups[g].nodes| && groups[g].nodes[i] == a;
      var j :| 0 <= j < |groups[g].nodes| && groups[g].nodes[j] == b;
      assert i < j ==> (a, b) in Candidates(groups[g].nodes, candidate);
      assert j < i ==> (b, a) in Candidates(groups[g].nodes, candidate);
    }
  }

  // From the nodes of a graph to the entity sets to merge. Every pair of different nodes of one type that
  // may be asked about is asked about, and the sets are the components of the approved pairs.
  method ResolveGraph(nodes: seq<Name>, typeOf: Name -> string, lang: Language, subgraph: set<Name>,
                      replies: seq<Pair> -> Option<seq<Answer>>)
      returns (clusters: seq<set<Name>>, pairs: set<Pair>, ghost asked: seq<seq<Pair>>)
    requires NoDuplicates(nodes) && IsDistance(lang.distance)
    ensures Judged(asked, replies, pairs)
    ensures forall a, b :: a in nodes && b in nodes && a != b && typeOf(a) == typeOf(b) ==>
      (a in subgraph || b in subgraph) && IsSimilar(lang, a, b) ==> (a, b) in Join(asked) || (b, a) in Join(asked)
    ensures forall p :: p in Join(asked) ==>
      && p.0 != p.1 && p.0 in nodes && p.1 in nodes && typeOf(p.0) == typeOf(p.1)
      && (p.0 in subgraph || p.1 in subgraph) && IsSimilar(lang, p.0, p.1)
    ensures forall p :: p in pairs ==> p in Join(asked)
    ensures forall j, k :: 0 <= j < k < |clusters| ==> clusters[j] !! clusters[k]
    ensures forall k :: 0 <= k < |clusters| ==> |clusters[k]| >= 2
    ensures forall k, a, b :: 0 <= k < |clusters| && a in clusters[k] && b in clusters[k] ==> a in nodes && typeOf(a) == typeOf(b)
    ensures forall k, a, b :: 0 <= k < |clusters| && a in clusters[k] ==> (b in clusters[k] <==> Connected(pairs, a, b))
    ensures forall p :: p in pairs ==> exists k :: 0 <= k < |clusters| && p.0 in clusters[k] && p.1 in clusters[k]
  {
    hide Connected, IsSimilar, Grouped, Judged, IsDistance, Approved, SaysYes;
    var candidate := (a, b) => IsCandidate(lang, subgraph, a, b);
    var groups := GroupByType(nodes, typeOf);
    clusters, pairs, asked := Resolve(groups, candidate, replies);
    assert ByType(groups, nodes, typeOf);
    GroupsAsk(groups, nodes, typeOf, lang, subgraph, candidate, Join(asked));
    forall p | p in pairs ensures p in Join(asked) {
      ApprovedWereAsked(asked, replies, pairs, p);
    }
    hide Join, SameGroup, ByType;
    forall a, b | SameGroup(groups, a, b) ensures a in nodes && b in nodes && typeOf(a) == typeOf(b) {
      SameGroupMeans(groups, nodes, typeOf, a, b);
    }
    assert forall k, a, b :: 0 <= k < |clusters| && a in clusters[k] && b in clusters[k] ==> SameGroup(groups, a, b);
  }

  ghost predicate ByType(groups: seq<Group>, nodes: seq<Name>, typeOf: Name -> string)
  {
    && (forall g, n :: 0 <= g < |groups| ==> (n in groups[g].nodes <==> n in nodes && typeOf(n) == groups[g].entityType))
    && forall n :: n in nodes ==> exists g :: 0 <= g < |groups| && n in groups[g].nodes
  }

  lemma GroupOf(groups: seq<Group>, nodes: seq<Name>, typeOf: Name -> string, a: Name, b: Name) returns (g: nat)
    requires ByType(groups, nodes, typeOf) && a in nodes && b in nodes && typeOf(a) == typeOf(b)
    ensures g < |groups| && a in groups[g].nodes && b in groups[g].nodes
  {
    g :| 0 <= g < |groups| && a in groups[g].nodes;
  }

  lemma SameGroupMeans(groups: seq<Group>, nodes: seq<Name>, typeOf: Name -> string, a: Name, b: Name)
    requires ByType(groups, nodes, typeOf) && SameGroup(groups, a, b)
    ensures a in nodes && b in nodes && typeOf(a) == typeOf(b)
  {
    var g :| 0 <= g < |groups| && a in groups[g].nodes && b in groups[g].nodes;
  }

  lemma GroupsAsk(groups: seq<Group>, nodes: seq<Name>, typeOf: Name -> string, lang: Language, subgraph: set<Name>,
                  candidate: (Name, Name) -> bool, asked: seq<Pair>)
    requires Grouped(groups) && asked == AllCandidates(groups, candidate) && IsDistance(lang.distance)
    requires ByType(groups, nodes, typeOf)
    requires forall a, b :: candidate(a, b) <==> IsCandidate(lang, subgraph, a, b)
    ensures forall a, b :: a in nodes && b in nodes && a != b && typeOf(a) == typeOf(b) ==>
      (a in subgraph || b in subgraph) && IsSimilar(lang, a, b) ==> (a, b) in asked || (b, a) in asked
    ensures forall p :: p in asked ==>
      && p.0 != p.1 && p.0 in nodes && p.1 in nodes && typeOf(p.0) == typeOf(p.1)
      && (p.0 in subgraph || p.1 in subgraph) && IsSimilar(lang, p.0, p.1)
  {
    hide IsSimilar, Grouped, IsDistance, AllCandidates, ByType, SameGroup;
    forall a, b | a in nodes && b in nodes && a != b && typeOf(a) == typeOf(b) && IsCandidate(lang, subgraph, a, b)
      ensures (a, b) in asked || (b, a) in asked
    {
      SimilarIsSymmetric(lang, a, b);
      var g := GroupOf(groups, nodes, typeOf, a, b);
      EveryCandidateIsAsked(groups, candidate, g, a, b);
    }
    forall p | p in asked
      ensures p.0 != p.1 && IsCandidate(lang, subgraph, p.0, p.1) && p.0 in nodes && p.1 in nodes && typeOf(p.0) == typeOf(p.1)
    {
      AskedAreCandidates(groups, candidate, p);
      SameGroupMeans(groups, nodes, typeOf, p.0, p.1);
    }
  }

  lemma ApprovedWereAsked(asked: seq<seq<Pair>>, replies: seq<Pair> -> Option<seq<Answer>>, pairs: set<Pair>, p: Pair)
    requires Judged(asked, replies, pairs) && p in pairs
    ensures p in Join(asked)
  {
    hide Join;
    var b :| b in asked && SaysYes(b, replies(b), p);
    var k :| 0 <= k < |asked| && asked[k] == b;
    InJoin(asked, k, p);
  }
}
