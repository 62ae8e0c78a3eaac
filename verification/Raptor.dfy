/** RAPTOR's layer loop: every layer is clustered, every cluster is summarised concurrently, and the
    summaries, appended in completion order, are the next layer. */
module Raptor {
  import opened Common
  import opened Options

  datatype Chunk = Chunk(text: string, embedding: seq<real>)

  // An input pair; the embedding may be missing or empty.
  datatype Raw = Raw(text: string, embedding: Option<seq<real>>)

  datatype Failure = NoClusterCount | NoLabel | EmptyCluster | TooManyErrors | MissingSummary

  predicate Usable(r: Raw)
  {
    r.text != "" && r.embedding.Some? && r.embedding.value != []
  }

  function UsableChunks(raws: seq<Raw>): (r: seq<Chunk>)
    ensures |r| <= |raws|
  {
    if raws == [] then []
    else (if Usable(raws[0]) then [Chunk(raws[0].text, raws[0].embedding.value)] else []) + UsableChunks(raws[1..])
  }

  lemma UsableFirst(raw: Raw, rest: seq<Raw>)
    ensures UsableChunks([raw] + rest) == UsableChunks([raw]) + UsableChunks(rest)
  {
    assert ([raw] + rest)[1..] == rest && [raw][1..] == [];
  }

  // The pairs are taken in their order, one by one.
  lemma {:induction false} UsableOfBoth(a: seq<Raw>, b: seq<Raw>)
    ensures UsableChunks(a + b) == UsableChunks(a) + UsableChunks(b)
    decreases |a|
  {
    if a == [] {
      assert a + b == b;
    } else {
      hide UsableChunks;
      Uncons(a, b);
      UsableFirst(a[0], a[1..]);
      UsableFirst(a[0], a[1..] + b);
      UsableOfBoth(a[1..], b);
      Associates(UsableChunks([a[0]]), UsableChunks(a[1..]), UsableChunks(b));
    }
  }

  // A pair is taken exactly if it has a text and an embedding.
  lemma TakesUsable(raw: Raw)
    ensures UsableChunks([raw]) ==
      if raw.text != "" && raw.embedding.Some? && |raw.embedding.value| > 0 then [Chunk(raw.text, raw.embedding.value)] else []
  {
    assert [raw][1..] == [];
  }

  /* ---------- clusters of a layer ---------- */

  // `[i + start for i in range(len(lbls)) if lbls[i] == c]`
  function Members(labels: seq<nat>, c: nat, start: nat): seq<nat>
  {
    if labels == [] then []
    else Members(labels[..|labels| - 1], c, start) + if labels[|labels| - 1] == c then [start + |labels| - 1] else []
  }

  lemma {:induction false} MembersMean(labels: seq<nat>, c: nat, start: nat)
    ensures forall i :: i in Members(labels, c, start) <==> start <= i < start + |labels| && labels[i - start] == c
  {
    if labels != [] {
      MembersMean(labels[..|labels| - 1], c, start);
    }
  }

  // `order` names every cluster below n once.
  ghost predicate Order(order: seq<nat>, n: nat)
  {
    && |order| == n && (forall j :: 0 <= j < n ==> order[j] < n)
    && forall i, j :: 0 <= i < j < n ==> order[i] != order[j]
  }

  // The summaries of a layer that starts at `start`: one per cluster, in some completion order; made[j]
  // lists the chunks that summary j was written from.
  ghost predicate LayerMade(made: seq<seq<nat>>, labels: seq<nat>, start: nat)
  {
    && (forall i :: 0 <= i < |labels| ==> labels[i] < |made|)
    && exists order :: Order(order, |made|) && Follows(made, labels, start, order)
  }

  ghost predicate Follows(made: seq<seq<nat>>, labels: seq<nat>, start: nat, order: seq<nat>)
    requires |order| == |made|
  {
    forall j :: 0 <= j < |made| ==> made[j] == Members(labels, order[j], start) && made[j] != []
  }

  // n different values below n are all the values below n.
  lemma {:induction false} OrderCovers(order: seq<nat>, n: nat, c: nat) returns (j: nat)
    requires Order(order, n) && c < n
    ensures j < n && order[j] == c
  {
    if c !in order {
      var below := Below(n);
      BelowSize(n);
      Pigeonhole(order, below - {c});
      assert false;
    }
    j :| 0 <= j < |order| && order[j] == c;
  }

  function Below(n: nat): set<nat>
  {
    if n == 0 then {} else Below(n - 1) + {n - 1}
  }

  lemma {:induction false} BelowSize(n: nat)
    ensures |Below(n)| == n && forall x :: x in Below(n) <==> 0 <= x < n
  {
    if n > 0 {
      BelowSize(n - 1);
    }
  }

  ghost predicate CoveredBy(made: seq<seq<nat>>, i: nat)
  {
    exists j :: 0 <= j < |made| && i in made[j]
  }

  // The clusters behind the summaries partition the layer: non-empty, inside the layer, and every chunk
  // of the layer is in exactly one.
  lemma LayerIsPartitioned(made: seq<seq<nat>>, labels: seq<nat>, start: nat)
    requires LayerMade(made, labels, start)
    ensures forall j :: 0 <= j < |made| ==> made[j] != [] && forall i :: i in made[j] ==> start <= i < start + |labels|
    ensures forall j, k, i :: 0 <= j < k < |made| && i in made[j] ==> i !in made[k]
    ensures forall i :: start <= i < start + |labels| ==> CoveredBy(made, i)
  {
    var order :| Order(order, |made|) && Follows(made, labels, start, order);
    forall j | 0 <= j < |made|
      ensures forall i :: i in made[j] <==> start <= i < start + |labels| && labels[i - start] == order[j]
    {
      MembersMean(labels, order[j], start);
    }
    forall i | start <= i < start + |labels| ensures CoveredBy(made, i) {
      var j := OrderCovers(order, |made|, labels[i - start]);
      assert i in made[j];
    }
  }

  /* ---------- what comes from outside ---------- */

  // Per layer: a raw cluster count and raw labels (None where no cluster probability passes the
  // threshold), reduced to their legal ranges below, and the outcome of summarising each cluster.
  datatype World = World(count: nat -> nat, choice: (nat, nat) -> Option<nat>, summary: (nat, nat) -> Option<Chunk>)

  ghost predicate ByOrder(texts: seq<Chunk>, w: World, layer: nat, order: seq<nat>)
    requires |order| == |texts|
  {
    forall j :: 0 <= j < |texts| ==> w.summary(layer, order[j]) == Some(texts[j])
  }

  // New chunk j is the summary of the cluster that made[j] lists, and of no other.
  ghost predicate LayerWritten(made: seq<seq<nat>>, texts: seq<Chunk>, labels: seq<nat>, start: nat, w: World, layer: nat)
  {
    |texts| == |made| && exists order :: Order(order, |made|) && Follows(made, labels, start, order) && ByOrder(texts, w, layer, order)
  }

  // _get_optimal_clusters picks from range(1, min(max_cluster, m)).
  function ClusterCount(w: World, layer: nat, maxCluster: int, m: nat): Option<nat>
    requires m >= 3
  {
    if Min(maxCluster, m) <= 1 then None else Some(1 + w.count(layer) % (Min(maxCluster, m) - 1))
  }

  // With one cluster every label is 0 and no probability is consulted.
  function Label(w: World, layer: nat, n: nat, i: nat): (r: Option<nat>)
    requires n >= 1
    ensures r.Some? ==> r.value < n
  {
    if n == 1 then Some(0)
    else if w.choice(layer, i).None? then None
    else Some(w.choice(layer, i).value % n)
  }

  method Labels(w: World, layer: nat, n: nat, m: nat) returns (r: Option<seq<nat>>)
    requires n >= 1
    ensures r.Some? ==> |r.value| == m && forall i :: 0 <= i < m ==> r.value[i] < n && Label(w, layer, n, i) == Some(r.value[i])
    ensures r.None? ==> exists i :: 0 <= i < m && Label(w, layer, n, i) == None
  {
    var labels: seq<nat> := [];
    while |labels| < m
      invariant |labels| <= m
      invariant forall i :: 0 <= i < |labels| ==> labels[i] < n && Label(w, layer, n, i) == Some(labels[i])
    {
      var l := Label(w, layer, n, |labels|);
      if l.None? {
        return None;
      }
      labels := labels + [l.value];
    }
    r := Some(labels);
  }

  /* ---------- the shape of a finished tree ---------- */

  // Layers follow each other without gaps, each strictly smaller than the one before it.
  ghost predicate Tiled(layers: seq<(nat, nat)>, first: nat, total: nat)
  {
    && layers != [] && layers[0] == (0, first) && layers[|layers| - 1].1 == total
    && (forall k :: 0 <= k < |layers| ==> layers[k].0 <= layers[k].1)
    && (forall k :: 1 <= k < |layers| ==> NarrowsAt(layers, k))
  }

  ghost predicate NarrowsAt(layers: seq<(nat, nat)>, k: nat)
    requires 1 <= k < |layers|
  {
    layers[k].0 == layers[k - 1].1 && layers[k].1 + layers[k - 1].0 < layers[k - 1].1 + layers[k].0
  }

  // Every layer that has a next layer with chunks in it is partitioned by the clusters behind them.
  // made[i] belongs to chunk first + i.
  ghost predicate Summarised(layers: seq<(nat, nat)>, labels: seq<nat>, made: seq<seq<nat>>, first: nat)
  {
    && layers != [] && |labels| == layers[|layers| - 1].0 && first + |made| == layers[|layers| - 1].1
    && forall k :: 1 <= k < |layers| ==> StepMadeAt(layers, k, labels, made, first)
  }

  ghost predicate StepMadeAt(layers: seq<(nat, nat)>, k: nat, labels: seq<nat>, made: seq<seq<nat>>, first: nat)
    requires 1 <= k < |layers|
  {
    StepMade(layers[k - 1], layers[k], labels, made, first)
  }

  ghost predicate StepMade(below: (nat, nat), above: (nat, nat), labels: seq<nat>, made: seq<seq<nat>>, first: nat)
  {
    && below.0 <= below.1 == above.0 <= above.1 && first <= above.0 && above.1 <= first + |made| && below.1 <= |labels|
    && (above.1 > above.0 ==> LayerMade(made[above.0 - first..above.1 - first], labels[below.0..below.1], below.0))
    && (above.1 == above.0 ==> below.1 - below.0 == 2)
  }

  // Twice the most chunks there can be when the current layer has m of them.
  function Budget(first: nat, k: nat, m: nat): int
  {
    2 * first + k * (k + 1) - m * (m - 1)
  }

  lemma BudgetCovers(first: nat, k: nat, m: nat, next: nat, total: nat)
    requires next < m && 2 * total <= Budget(first, k, m)
    ensures 2 * (total + next) <= Budget(first, k, next)
  {
    assert next * (next + 1) <= (m - 1) * m by { MulMonotone(next, m - 1); }
    assert next * (next - 1) + 2 * next == next * (next + 1);
  }

  lemma MulMonotone(a: nat, b: nat)
    requires a <= b
    ensures a * (a + 1) <= b * (b + 1)
  {
    assert b * (b + 1) - a * (a + 1) == (b - a) * (b + a + 1);
  }

  // The layer below the top one has two chunks, and their summary failed.
  ghost predicate LostTop(w: World, layers: seq<(nat, nat)>)
  {
    |layers| >= 2
    && var below := layers[|layers| - 2]; below.1 == below.0 + 2 && w.summary(|layers| - 2, 0).None?
  }

  class TreeBuilder {
    const maxCluster: int
    const maxErrors: nat
    var errorCount: nat
    var chunks: seq<Chunk>
    ghost var made: seq<seq<nat>> // for every summary, the chunks it was written from

    constructor (maxCluster: int, maxErrors: int)
      ensures this.maxCluster == maxCluster && this.maxErrors == (if maxErrors < 1 then 1 else maxErrors) && errorCount == 0
    {
      this.maxCluster, this.maxErrors := maxCluster, if maxErrors < 1 then 1 else maxErrors;
      errorCount, chunks, made := 0, [], [];
    }

    // A failed cluster is skipped and counted; too many of them abort the whole call.
    method Summarize(w: World, layer: nat, c: nat, ghost members: seq<nat>) returns (failure: Option<Failure>)
      modifies this
      ensures w.summary(layer, c).Some? ==>
                failure == None && chunks == old(chunks) + [w.summary(layer, c).value] && made == old(made) + [members]
      ensures w.summary(layer, c).None? ==>
                chunks == old(chunks) && made == old(made) && errorCount == old(errorCount) + 1
                && failure == if errorCount >= maxErrors then Some(TooManyErrors) else None
    {
      match w.summary(layer, c)
      case Some(summary) =>
        chunks := chunks + [summary];
        made := made + [members];
        failure := None;
      case None =>
        errorCount := errorCount + 1;
        failure := if errorCount >= maxErrors then Some(TooManyErrors) else None;
    }

    // The concurrent summaries of one layer finish in an order that is not ours to choose.
    method SummarizeLayer(w: World, layer: nat, labels: seq<nat>, n: nat, start: nat) returns (failure: Option<Failure>)
      requires forall i :: 0 <= i < |labels| ==> labels[i] < n
      requires forall c :: 0 <= c < n ==> Members(labels, c, start) != []
      modifies this
      ensures old(chunks) <= chunks && old(made) <= made && |chunks| - |old(chunks)| == |made| - |old(made)| <= n
      ensures failure == None && |made| - |old(made)| == n ==>
                LayerMade(made[|old(made)|..], labels, start)
                && LayerWritten(made[|old(made)|..], chunks[|old(chunks)|..], labels, start, w, layer)
    {
      hide Members;
      ghost var before := |made|;
      ghost var order: seq<nat> := [];
      BelowSize(n);
      var pending := Below(n);
      while pending != {}
        invariant forall c :: c in pending ==> c < n
        invariant old(chunks) <= chunks && old(made) <= made && before == |old(made)|
        invariant |chunks| - |old(chunks)| == |made| - before == |order|
        invariant forall j :: 0 <= j < |order| ==> order[j] < n && order[j] !in pending
        invariant forall i, j :: 0 <= i < j < |order| ==> order[i] != order[j]
        invariant forall j :: 0 <= j < |order| ==> made[before + j] == Members(labels, order[j], start) && made[before + j] != []
        invariant forall j :: 0 <= j < |order| ==> w.summary(layer, order[j]) == Some(chunks[|old(chunks)| + j])
        invariant |order| + |pending| <= n
        decreases pending
      {
        var c :| c in pending;
        failure := Summarize(w, layer, c, Members(labels, c, start));
        if failure != None {
          return;
        }
        pending := pending - {c};
        if w.summary(layer, c).Some? {
          order := order + [c];
        }
      }
      failure := None;
      if |made| - before == n {
        assert Order(order, n) && Follows(made[before..], labels, start, order);
        assert ByOrder(chunks[|old(chunks)|..], w, layer, order);
      }
    }

    // One pass of the loop over the layer [start, |chunks|): its summaries and its labels.
    method BuildLayer(w: World, layer: nat, start: nat) returns (r: Result<seq<nat>, Failure>)
      requires |chunks| - start >= 2
      modifies this
      ensures old(chunks) <= chunks && old(made) <= made && |chunks| - |old(chunks)| == |made| - |old(made)|
      ensures r.Ok? ==>
                var m, next := |old(chunks)| - start, |chunks| - |old(chunks)|;
                && |r.value| == m && next < m && (m >= 3 ==> next >= 1 && next < Min(maxCluster, m))
                && (next > 0 ==> LayerMade(made[|old(made)|..], r.value, start)
                                 && LayerWritten(made[|old(made)|..], chunks[|old(chunks)|..], r.value, start, w, layer))
                && (next == 0 <==> m == 2 && w.summary(layer, 0).None?)
      ensures |old(chunks)| - start == 2 ==> (r.Ok? <==> w.summary(layer, 0).Some? || old(errorCount) + 1 < maxErrors)
    {
      var end := |chunks|;
      if end - start == 2 {
        ghost var pair := Members([0, 0], 0, start);
        var failure := Summarize(w, layer, 0, pair);
        if failure != None {
          return Err(failure.value);
        }
        if |chunks| > end {
          PairMade(start, w, layer, chunks[end]);
          assert made[|old(made)|..] == [pair] && chunks[end..] == [chunks[end]];
        }
        return Ok([0, 0]);
      }
      var count := ClusterCount(w, layer, maxCluster, end - start);
      if count == None {
        return Err(NoClusterCount);
      }
      var n := count.value;
      var labels := Labels(w, layer, n, end - start);
      if labels == None {
        return Err(NoLabel);
      }
      var c := 0;
      while c < n
        invariant c <= n && forall b :: 0 <= b < c ==> Members(labels.value, b, start) != []
      {
        if Members(labels.value, c, start) == [] {
          return Err(EmptyCluster);
        }
        c := c + 1;
      }
      var failure := SummarizeLayer(w, layer, labels.value, n, start);
      if failure != None {
        return Err(failure.value);
      }
      if |chunks| - end != n {
        return Err(MissingSummary);
      }
      return Ok(labels.value);
    }

    // The whole call. On a normal return the layers tile the chunks, every layer but the last is
    // partitioned by the clusters its summaries were written from, and the number of chunks is bounded.
    method Build(raws: seq<Raw>, w: World) returns (r: Result<seq<Chunk>, Failure>, layers: seq<(nat, nat)>, labels: seq<nat>)
      modifies this
      ensures |raws| <= 1 ==> r == Ok([])
      ensures |raws| > 1 && r.Ok? ==>
                var usable := UsableChunks(raws);
                var n := |usable|;
                && usable <= r.value
                && Tiled(layers, n, |r.value|) && Summarised(layers, labels, made, n)
                && (layers[|layers| - 1].1 - layers[|layers| - 1].0 <= 1)
                && (layers[|layers| - 1].0 == layers[|layers| - 1].1 <==> n == 0 || LostTop(w, layers))
                && (n <= 1 ==> r.value == usable)
                && (maxCluster >= 2 && n >= 2 ==>
                      var k := Min(maxCluster, n) - 1;
                      2 * |r.value| <= 2 * n + k * (k + 1))
      ensures |raws| > 1 && |UsableChunks(raws)| == 2 ==> (r.Ok? <==> w.summary(0, 0).Some? || old(errorCount) + 1 < maxErrors)
    {
      hide Tiled, Summarised, WithinBudget, LayerMade, LayerWritten;
      if |raws| <= 1 {
        return Ok([]), [], [];
      }
      chunks := UsableChunks(raws);
      made := [];
      ghost var usable := chunks;
      var n := |chunks|;
      layers, labels := [(0, n)], [];
      NoLayerYet(n);
      var start, end := 0, n;
      while end - start > 1
        invariant start <= end == |chunks| && n + |made| == end && usable <= chunks
        invariant layers != [] && layers[|layers| - 1] == (start, end)
        invariant Tiled(layers, n, end) && Summarised(layers, labels, made, n)
        invariant |layers| == 1 ==> errorCount == old(errorCount)
        invariant |layers| > 1 ==> (start == end <==> LostTop(w, layers)) && (n == 2 ==> end - start <= 1)
        invariant n == 2 && |layers| > 1 ==> w.summary(0, 0).Some? || old(errorCount) + 1 < maxErrors
        invariant if |layers| == 1 then start == 0 && chunks == usable else n >= 2 && WithinBudget(maxCluster, n, end - start, end)
        decreases end - start
      {
        ghost var before := made;
        var one := BuildLayer(w, |layers| - 1, start);
        if one.Err? {
          return Err(one.error), layers, labels;
        }
        ExtendTiling(layers, n, end, |chunks|);
        ExtendTree(layers, labels, before, n, one.value, made, |chunks|);
        SpendBudget(maxCluster, n, end - start, end, |chunks| - end, |layers| == 1);
        labels := labels + one.value;
        layers := layers + [(end, |chunks|)];
        start, end := end, |chunks|;
      }
      r := Ok(chunks);
      if maxCluster >= 2 && n >= 2 {
        BudgetMeans(maxCluster, n, end - start, end);
      }
    }
  }

  // It happens: two chunks, a summary that fails, and a limit that lets one failure pass.
  method EmptyTop() returns (chunks: seq<Chunk>, layers: seq<(nat, nat)>)
    ensures |chunks| == 2 && layers == [(0, 2), (2, 2)]
  {
    var raw := Raw("text", Some([1.0]));
    var raws := [raw, raw];
    assert |UsableChunks(raws)| == 2 by {
      assert raws[1..] == [raw] && [raw][1..] == [];
    }
    var w := World(_ => 0, (_, _) => None, (_, _) => None);
    var builder := new TreeBuilder(3, 2);
    var r;
    var labels;
    r, layers, labels := builder.Build(raws, w);
    chunks := r.value;
    assert |layers| > 1 ==> NarrowsAt(layers, 1);
    assert |layers| > 2 ==> NarrowsAt(layers, 2);
    assert |layers| > 3 ==> NarrowsAt(layers, 3);
  }

  lemma NoLayerYet(n: nat)
    ensures Tiled([(0, n)], n, n) && Summarised([(0, n)], [], [], n)
  {
  }

  lemma PairMade(start: nat, w: World, layer: nat, text: Chunk)
    requires w.summary(layer, 0) == Some(text)
    ensures Members([0, 0], 0, start) != [] && LayerMade([Members([0, 0], 0, start)], [0, 0], start)
    ensures LayerWritten([Members([0, 0], 0, start)], [text], [0, 0], start, w, layer)
  {
    assert Order([0], 1) && Follows([Members([0, 0], 0, start)], [0, 0], start, [0]) && ByOrder([text], w, layer, [0]);
  }

  lemma FirstBudget(first: nat, k: nat, next: nat)
    requires next <= k
    ensures 2 * (first + next) <= Budget(first, k, next)
  {
    MulMonotone(next, k);
    assert next * (next - 1) + 2 * next == next * (next + 1);
  }

  lemma ExtendTiling(layers: seq<(nat, nat)>, first: nat, end: nat, total: nat)
    requires Tiled(layers, first, end) && end <= total && total - end < end - layers[|layers| - 1].0
    ensures Tiled(layers + [(end, total)], first, total)
  {
    var all := layers + [(end, total)];
    forall k | 1 <= k < |all| ensures NarrowsAt(all, k) {
      if k < |layers| {
        assert NarrowsAt(layers, k);
      }
    }
  }

  lemma StepStays(below: (nat, nat), above: (nat, nat), labels: seq<nat>, made: seq<seq<nat>>, first: nat,
                  labels': seq<nat>, made': seq<seq<nat>>)
    requires StepMade(below, above, labels, made, first) && labels <= labels' && made <= made'
    ensures StepMade(below, above, labels', made', first)
  {
    hide LayerMade;
    assert made'[above.0 - first..above.1 - first] == made[above.0 - first..above.1 - first];
    assert labels'[below.0..below.1] == labels[below.0..below.1];
  }

  // One more layer keeps the tree in shape.
  lemma ExtendTree(layers: seq<(nat, nat)>, labels: seq<nat>, made: seq<seq<nat>>, first: nat,
                   more: seq<nat>, made': seq<seq<nat>>, total: nat)
    requires layers != [] && Summarised(layers, labels, made, first)
    requires var top := layers[|layers| - 1];
             && first <= top.1 && top.0 <= top.1 <= total && |more| == top.1 - top.0
             && made <= made' && first + |made'| == total
             && (total > top.1 ==> LayerMade(made'[|made|..], more, top.0))
             && (total == top.1 ==> |more| == 2)
    ensures Summarised(layers + [(layers[|layers| - 1].1, total)], labels + more, made', first)
  {
    hide LayerMade, StepMade;
    var top := layers[|layers| - 1];
    var all := layers + [(top.1, total)];
    forall k | 1 <= k < |all| ensures StepMadeAt(all, k, labels + more, made', first) {
      if k < |layers| {
        assert StepMadeAt(layers, k, labels, made, first);
        assert all[k - 1] == layers[k - 1] && all[k] == layers[k];
        StepStays(layers[k - 1], layers[k], labels, made, first, labels + more, made');
      } else {
        TopStep(top, labels, more, made, made', first, total);
      }
    }
  }

  lemma TopStep(top: (nat, nat), labels: seq<nat>, more: seq<nat>, made: seq<seq<nat>>, made': seq<seq<nat>>, first: nat, total: nat)
    requires first <= top.1 && top.0 <= top.1 <= total && |more| == top.1 - top.0 && |labels| == top.0
    requires made <= made' && first + |made| == top.1 && first + |made'| == total
    requires total > top.1 ==> LayerMade(made'[|made|..], more, top.0)
    requires total == top.1 ==> |more| == 2
    ensures StepMade(top, (top.1, total), labels + more, made', first)
  {
    hide LayerMade;
    assert made'[top.1 - first..total - first] == made'[|made|..];
    assert (labels + more)[top.0..top.1] == more;
  }

  // The size of the tree once the first layer has been summarised.
  ghost predicate WithinBudget(maxCluster: int, first: nat, m: nat, total: nat)
  {
    maxCluster >= 2 && first >= 2 ==>
      var k := Min(maxCluster, first) - 1;
      m <= k && 2 * total <= Budget(first, k, m)
  }

  lemma SpendBudget(maxCluster: int, first: nat, m: nat, total: nat, next: nat, isFirst: bool)
    requires next < m && (m >= 3 ==> next < Min(maxCluster, m))
    requires if isFirst then total == m == first else WithinBudget(maxCluster, first, m, total)
    ensures WithinBudget(maxCluster, first, next, total + next)
  {
    if maxCluster >= 2 && first >= 2 {
      var k := Min(maxCluster, first) - 1;
      if isFirst {
        FirstBudget(first, k, next);
      } else {
        BudgetCovers(first, k, m, next, total);
      }
    }
  }

  lemma BudgetMeans(maxCluster: int, first: nat, m: nat, total: nat)
    requires WithinBudget(maxCluster, first, m, total) && maxCluster >= 2 && first >= 2 && m <= 1
    ensures var k := Min(maxCluster, first) - 1; 2 * total <= 2 * first + k * (k + 1)
  {
  }

  /* ---------- the tree as a whole ---------- */

  lemma {:induction false} LayersAreOrdered(layers: seq<(nat, nat)>, first: nat, total: nat, j: nat, k: nat)
    requires Tiled(layers, first, total) && j < k < |layers|
    ensures layers[j].1 <= layers[k].0 && layers[k].1 <= total
    decreases |layers| - j
  {
    assert NarrowsAt(layers, j + 1);
    if j + 1 < k {
      LayersAreOrdered(layers, first, total, j + 1, k);
    } else if k < |layers| - 1 {
      LayersAreOrdered(layers, first, total, k, |layers| - 1);
    }
  }

  lemma {:induction false} WhichLayer(layers: seq<(nat, nat)>, first: nat, total: nat, x: nat, last: nat) returns (k: nat)
    requires Tiled(layers, first, total) && last < |layers| && x < layers[last].1
    ensures k <= last && layers[k].0 <= x < layers[k].1
    decreases last
  {
    if layers[last].0 <= x {
      k := last;
    } else {
      assert NarrowsAt(layers, last);
      k := WhichLayer(layers, first, total, x, last - 1);
    }
  }

  // Summary j was written from chunk i.
  ghost predicate Parent(made: seq<seq<nat>>, j: nat, i: nat)
  {
    j < |made| && i in made[j]
  }

  // Some summary of the layer `above` was written from chunk i.
  ghost predicate HasParent(made: seq<seq<nat>>, above: (nat, nat), first: nat, i: nat)
  {
    exists q: nat :: above.0 <= q + first < above.1 && Parent(made, q, i)
  }

  lemma StepParents(below: (nat, nat), above: (nat, nat), labels: seq<nat>, made: seq<seq<nat>>, first: nat)
    requires StepMade(below, above, labels, made, first) && above.1 > above.0
    ensures forall q: nat, i: nat :: above.0 <= q + first < above.1 && Parent(made, q, i) ==> below.0 <= i < below.1
    ensures forall q: nat, r: nat, i: nat ::
              (above.0 <= q + first < above.1 && above.0 <= r + first < above.1 && Parent(made, q, i) && Parent(made, r, i)) ==> q == r
    ensures forall i: nat :: below.0 <= i < below.1 ==> HasParent(made, above, first, i)
  {
    hide LayerMade;
    var lo := above.0 - first;
    var part := made[lo..above.1 - first];
    LayerIsPartitioned(part, labels[below.0..below.1], below.0);
    forall q: nat, i: nat | above.0 <= q + first < above.1 && Parent(made, q, i) ensures below.0 <= i < below.1 && i in part[q - lo] {
      assert made[q] == part[q - lo];
    }
    forall q: nat, r: nat, i: nat | above.0 <= q + first < above.1 && above.0 <= r + first < above.1 && Parent(made, q, i) && Parent(made, r, i)
      ensures q == r
    {
      assert i in part[q - lo] && i in part[r - lo];
    }
    forall i: nat | below.0 <= i < below.1 ensures HasParent(made, above, first, i) {
      assert CoveredBy(part, i);
      var j :| 0 <= j < |part| && i in part[j];
      assert Parent(made, lo + j, i);
    }
  }

  // In a finished tree with a summary on top, every chunk below the top layer went into exactly one
  // summary.
  lemma EveryChunkHasOneParent(layers: seq<(nat, nat)>, labels: seq<nat>, made: seq<seq<nat>>, first: nat, total: nat, i: nat)
    requires Tiled(layers, first, total) && Summarised(layers, labels, made, first)
    requires var top := layers[|layers| - 1]; top.0 < top.1 && i < top.0
    ensures exists j :: Parent(made, j, i) && forall k :: Parent(made, k, i) ==> k == j
  {
    hide StepMade;
    var last := |layers| - 1;
    var b := WhichLayer(layers, first, total, i, last);
    assert b != last;
    LayerIsNotEmpty(layers, first, total, b + 1);
    assert StepMadeAt(layers, b + 1, labels, made, first) && NarrowsAt(layers, b + 1);
    var below, above := layers[b], layers[b + 1];
    StepParents(below, above, labels, made, first);
    StepBounds(below, above, labels, made, first);
    assert HasParent(made, above, first, i);
    var j: nat :| above.0 <= j + first < above.1 && Parent(made, j, i);
    forall k: nat | Parent(made, k, i) ensures k == j {
      OneLayerPerParent(layers, labels, made, first, total, i, b, k);
    }
  }

  lemma StepBounds(below: (nat, nat), above: (nat, nat), labels: seq<nat>, made: seq<seq<nat>>, first: nat)
    requires StepMade(below, above, labels, made, first)
    ensures first <= above.0 <= above.1 <= first + |made|
  {
  }

  lemma LayerIsNotEmpty(layers: seq<(nat, nat)>, first: nat, total: nat, k: nat)
    requires Tiled(layers, first, total) && k < |layers| && layers[|layers| - 1].0 < layers[|layers| - 1].1
    ensures layers[k].0 < layers[k].1
  {
    if k < |layers| - 1 {
      assert NarrowsAt(layers, k + 1);
      assert layers[k + 1].0 <= layers[k + 1].1;
    }
  }

  // A parent of a chunk of layer b is a summary of layer b + 1.
  lemma OneLayerPerParent(layers: seq<(nat, nat)>, labels: seq<nat>, made: seq<seq<nat>>, first: nat, total: nat, i: nat, b: nat, k: nat)
    requires Tiled(layers, first, total) && Summarised(layers, labels, made, first)
    requires layers[|layers| - 1].0 < layers[|layers| - 1].1
    requires b + 1 < |layers| && layers[b].0 <= i < layers[b].1 && Parent(made, k, i)
    ensures layers[b + 1].0 <= k + first < layers[b + 1].1
  {
    hide StepMade;
    var a := WhichLayer(layers, first, total, k + first, |layers| - 1);
    assert layers[0].1 == first && a >= 1;
    assert StepMadeAt(layers, a, labels, made, first) && NarrowsAt(layers, a);
    StepParents(layers[a - 1], layers[a], labels, made, first);
    assert layers[a - 1].0 <= i < layers[a - 1].1;
    if a - 1 < b {
      LayersAreOrdered(layers, first, total, a - 1, b);
    } else if b < a - 1 {
      LayersAreOrdered(layers, first, total, b, a - 1);
    }
  }
}
