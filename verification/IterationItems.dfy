/** An IterationItem walks its parent's list and collects the children's outputs after every pass. */
module IterationItems {
  import opened Common
  import opened Options

  // One output of the iteration: `key` collects variable `variable` of component `child`.
  datatype OutputRef = OutputRef(key: string, child: string, variable: string)

  // The output `variable` of component `child`.
  type ChildOutputs<!V> = (string, string) -> V

  ghost predicate DistinctKeys(refs: seq<OutputRef>)
  {
    forall i, j :: 0 <= i < j < |refs| ==> refs[i].key != refs[j].key
  }

  function Collected<V>(outputs: map<string, seq<V>>, key: string): seq<V>
  {
    if key in outputs then outputs[key] else []
  }

  // Every output whose ref is in `taken` has grown by its child's current output; the rest are as before.
  ghost predicate Grown<V>(before: map<string, seq<V>>, after: map<string, seq<V>>, taken: set<OutputRef>, out: ChildOutputs<V>)
  {
    && (forall r :: r in taken ==> r.key in after && after[r.key] == Collected(before, r.key) + [out(r.child, r.variable)])
    && Untouched(before, after, taken)
  }

  // The outputs whose key no ref in `taken` names.
  ghost predicate Untouched<V>(before: map<string, seq<V>>, after: map<string, seq<V>>, taken: set<OutputRef>)
  {
    forall k :: k !in Keys(taken) ==> (k in after <==> k in before) && (k in before ==> after[k] == before[k])
  }

  ghost function Keys(taken: set<OutputRef>): set<string> { set r | r in taken :: r.key }

  // The refs that name one of `ids`.
  ghost function RefsTo(refs: seq<OutputRef>, ids: seq<string>): set<OutputRef> { set r | r in refs && r.child in ids }

  class IterationItem<V(==)> {
    const children: seq<string>      // the components whose parent is the iteration, in canvas order
    const refs: seq<OutputRef>       // the iteration's outputs that hold a ref
    var outputs: map<string, seq<V>> // the values of the iteration's outputs
    var idx: int
    var item: Option<V>
    var index: int

    constructor (children: seq<string>, refs: seq<OutputRef>)
      ensures this.children == children && this.refs == refs && outputs == map[] && idx == 0
    {
      this.children, this.refs, outputs, idx, item, index := children, refs, map[], 0, None, 0;
    }

    ghost predicate Valid()
      reads this
    {
      idx >= -1 && DistinctKeys(refs) && NoDuplicates(children)
    }

    method Take(r: OutputRef, ghost before: map<string, seq<V>>, ghost taken: set<OutputRef>, out: ChildOutputs<V>)
      requires Grown(before, outputs, taken, out) && r.key !in Keys(taken)
      modifies `outputs
      ensures Grown(before, outputs, taken + {r}, out)
    {
      var collected := Collected(outputs, r.key);
      outputs := outputs[r.key := collected + [out(r.child, r.variable)]];
      assert Keys(taken + {r}) == Keys(taken) + {r.key};
    }

    method OutputCollation(out: ChildOutputs<V>)
      requires Valid()
      modifies `outputs
      ensures Grown(old(outputs), outputs, RefsTo(refs, children), out)
    {
      hide Grown, Keys;
      NothingGrown(outputs, out);
      ghost var before := outputs;
      ghost var taken := {};
      var i := 0;
      while i < |children|
        invariant i <= |children|
        invariant taken == RefsTo(refs, children[..i])
        invariant Grown(before, outputs, taken, out)
      {
        var cid := children[i];
        var j := 0;
        while j < |refs|
          invariant j <= |refs|
          invariant taken == RefsTo(refs, children[..i]) + RefsTo(refs[..j], [cid])
          invariant Grown(before, outputs, taken, out)
        {
          var r := refs[j];
          if r.child == cid {
            NotTaken(children, refs, i, j);
            Take(r, before, taken, out);
            taken := taken + {r};
          }
          assert refs[..j + 1] == refs[..j] + [r];
          j := j + 1;
        }
        assert refs[..|refs|] == refs && children[..i + 1] == children[..i] + [cid];
        i := i + 1;
      }
      assert children[..|children|] == children;
    }

    // One visit; `raised` when the list is not a list, or is empty when the counter stands at -1.
    method Invoke(list: Option<seq<V>>, out: ChildOutputs<V>) returns (raised: bool)
      requires Valid()
      modifies this
      ensures Valid()
      ensures raised <==> list == None || (old(idx) == -1 && list.value == [])
      ensures raised ==> idx == -1 && item == old(item) && index == old(index) && outputs == old(outputs)
      ensures old(idx) > 0 && list.Some? ==> Grown(old(outputs), outputs, RefsTo(refs, children), out)
      ensures old(idx) <= 0 ==> outputs == old(outputs)
      ensures list.Some? && old(idx) >= |list.value| ==> idx == -1 && item == old(item) && index == old(index)
      ensures list.Some? && 0 <= old(idx) < |list.value| ==>
                idx == old(idx) + 1 && item == Some(list.value[old(idx)]) && index == old(idx)
      ensures list.Some? && old(idx) == -1 && list.value != [] ==>
                idx == 0 && item == Some(list.value[|list.value| - 1]) && index == -1
    {
      if list == None {
        idx := -1;
        return true;
      }
      var arr := list.value;
      if idx > 0 {
        OutputCollation(out);
      }
      if idx >= |arr| {
        idx := -1;
        return false;
      }
      // arr[-1] is the last element, and an error on an empty list
      if idx == -1 && arr == [] {
        return true;
      }
      item := Some(if idx == -1 then arr[|arr| - 1] else arr[idx]);
      index := idx;
      idx := idx + 1;
      return false;
    }

    method End() returns (ended: bool)
      ensures ended == (idx == -1)
    {
      return idx == -1;
    }
  }

  lemma NothingGrown<V>(outputs: map<string, seq<V>>, out: ChildOutputs<V>)
    ensures Grown(outputs, outputs, {}, out)
  {
  }

  lemma NotTaken(children: seq<string>, refs: seq<OutputRef>, i: nat, j: nat)
    requires DistinctKeys(refs) && NoDuplicates(children) && i < |children| && j < |refs| && refs[j].child == children[i]
    ensures refs[j].key !in Keys(RefsTo(refs, children[..i]) + RefsTo(refs[..j], [children[i]]))
  {
  }

  // The output behind ref `r` after each of the first n passes.
  function Column<V>(passes: nat -> ChildOutputs<V>, r: OutputRef, n: nat): (col: seq<V>)
    ensures |col| == n && forall p :: 0 <= p < n ==> col[p] == passes(p)(r.child, r.variable)
  {
    if n == 0 then [] else Column(passes, r, n - 1) + [passes(n - 1)(r.child, r.variable)]
  }

  lemma ColumnGrows<V>(passes: nat -> ChildOutputs<V>, r: OutputRef, n: nat)
    ensures Column(passes, r, n + 1) == Column(passes, r, n) + [passes(n)(r.child, r.variable)]
  {
  }

  // What the outputs look like after `n` passes, pass p having left the child outputs passes(p).
  ghost predicate CollectedPasses<V(!new)>(before: map<string, seq<V>>, after: map<string, seq<V>>, taken: set<OutputRef>,
                                           passes: nat -> ChildOutputs<V>, n: nat)
  {
    && (forall r :: r in taken ==>
          Collected(after, r.key) == Collected(before, r.key) + Column(passes, r, n))
    && Untouched(before, after, taken)
  }

  lemma UntouchedTwice<V>(before: map<string, seq<V>>, middle: map<string, seq<V>>, after: map<string, seq<V>>, taken: set<OutputRef>)
    requires Untouched(before, middle, taken) && Untouched(middle, after, taken)
    ensures Untouched(before, after, taken)
  {
    hide Keys;
  }

  lemma GrownAt<V>(before: map<string, seq<V>>, after: map<string, seq<V>>, taken: set<OutputRef>, out: ChildOutputs<V>, r: OutputRef)
    requires Grown(before, after, taken, out) && r in taken
    ensures Collected(after, r.key) == Collected(before, r.key) + [out(r.child, r.variable)]
  {
    hide Untouched;
  }

  lemma OneMorePass<V(!new)>(before: map<string, seq<V>>, middle: map<string, seq<V>>, after: map<string, seq<V>>, taken: set<OutputRef>,
                             passes: nat -> ChildOutputs<V>, n: nat)
    requires CollectedPasses(before, middle, taken, passes, n) && Grown(middle, after, taken, passes(n))
    ensures CollectedPasses(before, after, taken, passes, n + 1)
  {
    hide Column, Collected, Untouched;
    forall r | r in taken ensures Collected(after, r.key) == Collected(before, r.key) + Column(passes, r, n + 1) {
      ColumnGrows(passes, r, n);
      GrownAt(middle, after, taken, passes(n), r);
      assert Collected(middle, r.key) == Collected(before, r.key) + Column(passes, r, n);
    }
    UntouchedTwice(before, middle, after, taken);
  }

  // `shown` is what the first |shown| visits showed: index and element, in order.
  ghost predicate Showed<V>(shown: seq<(int, Option<V>)>, list: seq<V>)
  {
    |shown| <= |list| && forall p :: 0 <= p < |shown| ==> shown[p] == (p, Some(list[p]))
  }

  // The item has shown its last element, or stands at the next one.
  ghost predicate AtElement<V>(it: IterationItem<V>, list: seq<V>, p: nat)
    reads it
  {
    && it.Valid()
    && if p < |list| then it.idx == p + 1 && it.index == p && it.item == Some(list[p]) else p == |list| && it.idx == -1
  }

  lemma ShowedOneMore<V>(shown: seq<(int, Option<V>)>, list: seq<V>)
    requires Showed(shown, list) && |shown| < |list|
    ensures Showed(shown + [(|shown|, Some(list[|shown|]))], list)
  {
  }

  lemma NothingCollected<V(!new)>(outputs: map<string, seq<V>>, taken: set<OutputRef>, passes: nat -> ChildOutputs<V>)
    ensures CollectedPasses(outputs, outputs, taken, passes, 0)
  {
    hide Keys;
  }

  // The visit after pass p, which collects the outputs of that pass.
  method VisitAgain<V(!new, ==)>(it: IterationItem<V>, list: seq<V>, passes: nat -> ChildOutputs<V>,
                                 ghost before: map<string, seq<V>>, ghost taken: set<OutputRef>, p: nat)
    requires p < |list| && AtElement(it, list, p)
    requires taken == RefsTo(it.refs, it.children) && CollectedPasses(before, it.outputs, taken, passes, p)
    modifies it
    ensures AtElement(it, list, p + 1) && CollectedPasses(before, it.outputs, taken, passes, p + 1)
  {
    hide Grown, CollectedPasses, RefsTo;
    ghost var middle := it.outputs;
    var raised := it.Invoke(Some(list), passes(p));
    OneMorePass(before, middle, it.outputs, taken, passes, p);
  }

  // An iteration over an unchanged list, from a fresh counter: the item is visited once more than the
  // list is long, shows the elements in order, and each output whose ref names a child has grown by
  // that child's output after every pass, in order.
  method RunIteration<V(!new, ==)>(it: IterationItem<V>, list: seq<V>, passes: nat -> ChildOutputs<V>)
      returns (visits: nat, shown: seq<(int, Option<V>)>)
    requires it.Valid() && it.idx == 0
    modifies it
    ensures it.idx == -1 && visits == |list| + 1
    ensures |shown| == |list| && forall p :: 0 <= p < |list| ==> shown[p] == (p, Some(list[p]))
    ensures CollectedPasses(old(it.outputs), it.outputs, RefsTo(it.refs, it.children), passes, |list|)
  {
    hide Grown, CollectedPasses, RefsTo;
    ghost var taken, before := RefsTo(it.refs, it.children), it.outputs;
    var raised := it.Invoke(Some(list), passes(0));
    visits, shown := 1, [];
    NothingCollected(before, taken, passes);
    while it.idx != -1
      invariant visits == |shown| + 1 && Showed(shown, list) && AtElement(it, list, |shown|)
      invariant CollectedPasses(before, it.outputs, taken, passes, |shown|)
      decreases |list| - |shown|
    {
      ShowedOneMore(shown, list);
      var now := (it.index, it.item);
      VisitAgain(it, list, passes, before, taken, |shown|);
      shown := shown + [now];
      visits := visits + 1;
    }
  }
}
