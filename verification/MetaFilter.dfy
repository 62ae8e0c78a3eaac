/**
 * Filtering documents by their metadata: the walk of `meta_filter` over an
 * inverted index, key by key and filter by filter, with its early return.
 *
 * Reading one indexed value is abstract: `read(input, op, value)` gives the
 * verdict and the filter value as that reading leaves it, since the loop over
 * the values of a key rewrites the filter value it started from.
 */
module MetaFilter {
  type Doc = string

  datatype Logic = And | Or
  datatype Entry<V> = Entry(input: V, docs: seq<Doc>)
  datatype Meta<V> = Meta(key: string, entries: seq<Entry<V>>)
  datatype Filter<V> = Filter(key: string, op: string, value: V)

  /** The documents one filter finds among the values of one key. */
  function Hits<V>(read: (V, string, V) -> (bool, V), entries: seq<Entry<V>>, op: string, value: V): set<Doc>
    decreases |entries|
  {
    if entries == [] then {}
    else
      var (matched, rewritten) := read(entries[0].input, op, value);
      (if matched then set d | d in entries[0].docs else {}) + Hits(read, entries[1..], op, rewritten)
  }

  /** The inner walk over the values of one key. */
  method FilterOut<V>(read: (V, string, V) -> (bool, V), entries: seq<Entry<V>>, op: string, value: V)
    returns (ids: seq<Doc>)
    ensures (set d | d in ids) == Hits(read, entries, op, value)
  {
    ids := [];
    var current := value;
    for i := 0 to |entries|
      invariant (set d | d in ids) + Hits(read, entries[i..], op, current) == Hits(read, entries, op, value)
    {
      assert entries[i..][0] == entries[i] && entries[i..][1..] == entries[i + 1..];
      var (matched, rewritten) := read(entries[i].input, op, current);
      current := rewritten;
      if matched {
        ids := ids + entries[i].docs;
      }
    }
  }

  /** The filter value when the walk comes to value i: what the readings before it have made of it. */
  function ValueAt<V>(read: (V, string, V) -> (bool, V), entries: seq<Entry<V>>, op: string, value: V, i: nat): V
    requires i <= |entries|
  {
    if i == 0 then value else read(entries[i - 1].input, op, ValueAt(read, entries, op, value, i - 1)).1
  }

  lemma {:induction false} ValueAtTail<V>(read: (V, string, V) -> (bool, V), entries: seq<Entry<V>>, op: string, value: V, i: nat)
    requires 1 <= i <= |entries|
    ensures ValueAt(read, entries, op, value, i)
         == ValueAt(read, entries[1..], op, read(entries[0].input, op, value).1, i - 1)
    decreases i
  {
    if i > 1 {
      ValueAtTail(read, entries, op, value, i - 1);
      assert entries[1..][i - 2] == entries[i - 1];
    }
  }

  ghost predicate MatchesAt<V>(read: (V, string, V) -> (bool, V), entries: seq<Entry<V>>, op: string, value: V, d: Doc, i: nat)
    requires i < |entries|
  {
    d in entries[i].docs && read(entries[i].input, op, ValueAt(read, entries, op, value, i)).0
  }

  /** A document is found if and only if it is listed under some value that matches, the filter value being what it is by then. */
  lemma {:induction false} HitsMean<V>(read: (V, string, V) -> (bool, V), entries: seq<Entry<V>>, op: string, value: V, d: Doc)
    ensures d in Hits(read, entries, op, value) <==> exists i :: 0 <= i < |entries| && MatchesAt(read, entries, op, value, d, i)
    decreases |entries|
  {
    if entries != [] {
      var rest, next := entries[1..], read(entries[0].input, op, value).1;
      HitsMean(read, rest, op, next, d);
      assert MatchesAt(read, entries, op, value, d, 0) <==> d in entries[0].docs && read(entries[0].input, op, value).0;
      forall i | 1 <= i < |entries|
        ensures MatchesAt(read, entries, op, value, d, i) <==> MatchesAt(read, rest, op, next, d, i - 1)
      {
        ValueAtTail(read, entries, op, value, i);
      }
      if i :| 0 <= i < |rest| && MatchesAt(read, rest, op, next, d, i) {
        assert MatchesAt(read, entries, op, value, d, i + 1);
      }
      if i :| 1 <= i < |entries| && MatchesAt(read, entries, op, value, d, i) {
        assert MatchesAt(read, rest, op, next, d, i - 1);
      }
    }
  }

  /** What each filter finds, in the order the walk meets the filters that speak of a key. */
  function Column<V>(read: (V, string, V) -> (bool, V), m: Meta<V>, filters: seq<Filter<V>>): seq<set<Doc>> {
    if filters == [] then []
    else
      var f := filters[|filters| - 1];
      Column(read, m, filters[..|filters| - 1])
      + if m.key == f.key then [Hits(read, m.entries, f.op, f.value)] else []
  }

  function Columns<V>(read: (V, string, V) -> (bool, V), metas: seq<Meta<V>>, filters: seq<Filter<V>>)
    : seq<set<Doc>>
  {
    if metas == [] then []
    else Columns(read, metas[..|metas| - 1], filters) + Column(read, metas[|metas| - 1], filters)
  }

  ghost predicate InAll(columns: seq<set<Doc>>, d: Doc) {
    columns != [] && forall s :: s in columns ==> d in s
  }

  ghost predicate InSome(columns: seq<set<Doc>>, d: Doc) {
    exists s :: s in columns && d in s
  }

  ghost predicate FirstIsEmpty(columns: seq<set<Doc>>) {
    columns != [] && columns[0] == {}
  }

  /** The documents the walk holds once it has met these columns. */
  ghost predicate Holds(columns: seq<set<Doc>>, logic: Logic, docs: set<Doc>) {
    forall d :: d in docs <==>
      if logic == And then InAll(columns, d) else InSome(columns, d) && !FirstIsEmpty(columns)
  }

  /** The branches that take up one more column. */
  function Combined(docs: set<Doc>, ids: set<Doc>, logic: Logic): set<Doc> {
    if docs == {} then ids
    else if logic == And then docs * ids
    else docs + ids
  }

  lemma HoldsOneMore(columns: seq<set<Doc>>, logic: Logic, docs: set<Doc>, ids: set<Doc>)
    requires Holds(columns, logic, docs)
    requires docs == {} <==> columns == []
    ensures Holds(columns + [ids], logic, Combined(docs, ids, logic))
  {
    var more := columns + [ids];
    assert more[|columns|] == ids;
    forall d
      ensures InAll(more, d) <==> (columns == [] || InAll(columns, d)) && d in ids
      ensures InSome(more, d) <==> InSome(columns, d) || d in ids
    {
      forall s ensures s in more <==> s in columns || s == ids {
        if s in columns {
          var k :| 0 <= k < |columns| && columns[k] == s;
          assert more[k] == s;
        }
      }
    }
    assert columns != [] ==> more[0] == columns[0];
    if columns != [] && logic == Or {
      var d :| d in docs;
      assert !FirstIsEmpty(columns);
    }
  }

  lemma FirstElementFound(columns: seq<set<Doc>>)
    requires columns != []
    ensures FirstIsEmpty(columns) || exists d :: InSome(columns, d)
  {
    if columns[0] != {} {
      var d :| d in columns[0];
      assert columns[0] in columns;
      assert InSome(columns, d);
    }
  }

  /** An empty result stays empty, whatever the walk has not met yet. */
  lemma EmptyIsFinal(columns: seq<set<Doc>>, rest: seq<set<Doc>>, logic: Logic)
    requires columns != []
    requires Holds(columns, logic, {})
    ensures Holds(columns + rest, logic, {})
  {
    var all := columns + rest;
    FirstElementFound(columns);
    assert all[0] == columns[0];
    forall d ensures logic == And ==> !InAll(all, d) {
      if logic == And {
        assert !InAll(columns, d);
        var s :| s in columns && d !in s;
        assert s in all;
      }
    }
  }

  lemma ColumnStep<V>(read: (V, string, V) -> (bool, V), m: Meta<V>, filters: seq<Filter<V>>, j: nat)
    requires j < |filters|
    ensures Column(read, m, filters[..j + 1])
         == Column(read, m, filters[..j])
          + if m.key == filters[j].key then [Hits(read, m.entries, filters[j].op, filters[j].value)] else []
  {
    assert filters[..j + 1][..j] == filters[..j];
  }

  lemma ColumnsStep<V>(read: (V, string, V) -> (bool, V), metas: seq<Meta<V>>, filters: seq<Filter<V>>, i: nat)
    requires i < |metas|
    ensures Columns(read, metas[..i + 1], filters)
         == Columns(read, metas[..i], filters) + Column(read, metas[i], filters[..|filters|])
  {
    assert metas[..i + 1][..i] == metas[..i];
    assert filters[..|filters|] == filters;
  }

  /** The columns met so far are the first columns of the whole walk. */
  lemma RestOfWalk<V>(read: (V, string, V) -> (bool, V), metas: seq<Meta<V>>, filters: seq<Filter<V>>, i: nat)
    returns (rest: seq<set<Doc>>)
    requires i <= |metas|
    ensures Columns(read, metas, filters) == Columns(read, metas[..i], filters) + rest
    decreases |metas| - i
  {
    hide Columns, Column;
    if i == |metas| {
      rest := [];
      assert metas[..i] == metas;
    } else {
      rest := RestOfWalk(read, metas, filters, i + 1);
      ColumnsStep(read, metas, filters, i);
      rest := Column(read, metas[i], filters[..|filters|]) + rest;
    }
  }

  lemma RestOfColumn<V>(read: (V, string, V) -> (bool, V), m: Meta<V>, filters: seq<Filter<V>>, j: nat)
    returns (rest: seq<set<Doc>>)
    requires j <= |filters|
    ensures Column(read, m, filters[..|filters|]) == Column(read, m, filters[..j]) + rest
    decreases |filters| - j
  {
    hide Column;
    if j == |filters| {
      rest := [];
    } else {
      rest := RestOfColumn(read, m, filters, j + 1);
      ColumnStep(read, m, filters, j);
      rest := (if m.key == filters[j].key then [Hits(read, m.entries, filters[j].op, filters[j].value)] else [])
              + rest;
    }
  }

  lemma Regroup<T>(a: seq<T>, b: seq<T>, c: seq<T>, d: seq<T>)
    ensures a + (b + c) + d == a + b + (c + d)
  {
  }

  /** Nothing is left after these filters of this key, so nothing is left at the end. */
  lemma StopsEmpty<V>(read: (V, string, V) -> (bool, V), metas: seq<Meta<V>>, filters: seq<Filter<V>>,
                      logic: Logic, i: nat, j: nat)
    requires i < |metas| && j <= |filters|
    requires Columns(read, metas[..i], filters) + Column(read, metas[i], filters[..j]) != []
    requires Holds(Columns(read, metas[..i], filters) + Column(read, metas[i], filters[..j]), logic, {})
    ensures Holds(Columns(read, metas, filters), logic, {})
  {
    hide Columns, Column, Holds, Hits;
    var before := Columns(read, metas[..i], filters);
    var ofColumn := RestOfColumn(read, metas[i], filters, j);
    ColumnsStep(read, metas, filters, i);
    var ofWalk := RestOfWalk(read, metas, filters, i + 1);
    Regroup(before, Column(read, metas[i], filters[..j]), ofColumn, ofWalk);
    EmptyIsFinal(before + Column(read, metas[i], filters[..j]), ofColumn + ofWalk, logic);
  }

  lemma NothingMet<V>(read: (V, string, V) -> (bool, V), m: Meta<V>, filters: seq<Filter<V>>)
    ensures Column(read, m, filters[..0]) == []
  {
  }

  lemma NoKeyMet<V>(read: (V, string, V) -> (bool, V), metas: seq<Meta<V>>, filters: seq<Filter<V>>, logic: Logic)
    ensures Columns(read, metas[..0], filters) == []
    ensures Holds([], logic, {})
  {
  }

  /** `meta_filter`: the walk itself. The source returns the set as a list, in no particular order. */
  method Run<V>(read: (V, string, V) -> (bool, V), metas: seq<Meta<V>>, filters: seq<Filter<V>>, logic: Logic)
    returns (docs: set<Doc>)
    ensures Holds(Columns(read, metas, filters), logic, docs)
  {
    hide Columns, Column, Holds, Combined, Hits;
    docs := {};
    NoKeyMet(read, metas, filters, logic);
    for i := 0 to |metas|
      invariant Holds(Columns(read, metas[..i], filters), logic, docs)
      invariant docs == {} <==> Columns(read, metas[..i], filters) == []
    {
      ghost var before := Columns(read, metas[..i], filters);
      NothingMet(read, metas[i], filters);
      assert before + Column(read, metas[i], filters[..0]) == before;
      for j := 0 to |filters|
        invariant Holds(before + Column(read, metas[i], filters[..j]), logic, docs)
        invariant docs == {} <==> before + Column(read, metas[i], filters[..j]) == []
      {
        ghost var met := before + Column(read, metas[i], filters[..j]);
        ColumnStep(read, metas[i], filters, j);
        if metas[i].key != filters[j].key {
          assert before + Column(read, metas[i], filters[..j + 1]) == met;
          continue;
        }
        var found := FilterOut(read, metas[i].entries, filters[j].op, filters[j].value);
        var ids := set d | d in found;
        HoldsOneMore(met, logic, docs, ids);
        docs := Combined(docs, ids, logic);
        assert before + Column(read, metas[i], filters[..j + 1]) == met + [ids];
        if docs == {} {
          StopsEmpty(read, metas, filters, logic, i, j + 1);
          return;
        }
      }
      ColumnsStep(read, metas, filters, i);
    }
    assert metas[..|metas|] == metas;
  }

  /** The columns are what the filters that speak of a key of the index find, pair by pair. */
  ghost predicate IsColumn<V>(read: (V, string, V) -> (bool, V), m: Meta<V>, f: Filter<V>, s: set<Doc>) {
    m.key == f.key && s == Hits(read, m.entries, f.op, f.value)
  }

  lemma {:induction false} ColumnIs<V>(read: (V, string, V) -> (bool, V), m: Meta<V>, filters: seq<Filter<V>>,
                                       s: set<Doc>)
    ensures s in Column(read, m, filters) <==> ColumnOf(read, m, filters, s)
  {
    if filters != [] {
      var last := |filters| - 1;
      ColumnIs(read, m, filters[..last], s);
      assert filters == filters[..last] + [filters[last]];
      assert s in Column(read, m, filters)
        <==> s in Column(read, m, filters[..last]) || IsColumn(read, m, filters[last], s);
    }
  }

  ghost predicate ColumnOf<V>(read: (V, string, V) -> (bool, V), m: Meta<V>, filters: seq<Filter<V>>, s: set<Doc>) {
    exists f :: f in filters && IsColumn(read, m, f, s)
  }

  ghost predicate ColumnOfSome<V>(read: (V, string, V) -> (bool, V), metas: seq<Meta<V>>, filters: seq<Filter<V>>,
                                  s: set<Doc>) {
    exists m :: m in metas && ColumnOf(read, m, filters, s)
  }

  lemma ColumnOfLast<V>(read: (V, string, V) -> (bool, V), metas: seq<Meta<V>>, last: Meta<V>,
                        filters: seq<Filter<V>>, s: set<Doc>)
    ensures ColumnOfSome(read, metas + [last], filters, s)
       <==> ColumnOfSome(read, metas, filters, s) || ColumnOf(read, last, filters, s)
  {
    hide ColumnOf;
    assert last in metas + [last];
  }

  lemma {:induction false} ColumnsAre<V>(read: (V, string, V) -> (bool, V), metas: seq<Meta<V>>,
                                         filters: seq<Filter<V>>, s: set<Doc>)
    ensures s in Columns(read, metas, filters) <==> ColumnOfSome(read, metas, filters, s)
  {
    hide ColumnOf, Column;
    if metas == [] {
      assert Columns(read, metas, filters) == [];
    } else {
      var front, last := metas[..|metas| - 1], metas[|metas| - 1];
      assert Columns(read, metas, filters) == Columns(read, front, filters) + Column(read, last, filters);
      assert metas == front + [last];
      hide Columns, ColumnOfSome;
      ColumnsAre(read, front, filters, s);
      ColumnIs(read, last, filters, s);
      ColumnOfLast(read, front, last, filters, s);
    }
  }

  ghost predicate SomeFilterApplies<V>(metas: seq<Meta<V>>, filters: seq<Filter<V>>) {
    exists m, f :: m in metas && f in filters && m.key == f.key
  }

  ghost predicate FoundByAll<V>(read: (V, string, V) -> (bool, V), metas: seq<Meta<V>>,
                                filters: seq<Filter<V>>, d: Doc) {
    forall m, f :: m in metas && f in filters && m.key == f.key ==> d in Hits(read, m.entries, f.op, f.value)
  }

  ghost predicate FoundBySome<V>(read: (V, string, V) -> (bool, V), metas: seq<Meta<V>>,
                                 filters: seq<Filter<V>>, d: Doc) {
    exists m, f :: m in metas && f in filters && m.key == f.key && d in Hits(read, m.entries, f.op, f.value)
  }

  lemma ColumnsSay<V>(read: (V, string, V) -> (bool, V), metas: seq<Meta<V>>, filters: seq<Filter<V>>, d: Doc)
    ensures Columns(read, metas, filters) != [] <==> SomeFilterApplies(metas, filters)
    ensures InAll(Columns(read, metas, filters), d)
       <==> SomeFilterApplies(metas, filters) && FoundByAll(read, metas, filters, d)
    ensures InSome(Columns(read, metas, filters), d) <==> FoundBySome(read, metas, filters, d)
  {
    hide Columns, Hits;
    var columns := Columns(read, metas, filters);
    forall m, f | m in metas && f in filters && m.key == f.key
      ensures Hits(read, m.entries, f.op, f.value) in columns
    {
      var s := Hits(read, m.entries, f.op, f.value);
      assert IsColumn(read, m, f, s);
      assert ColumnOf(read, m, filters, s);
      ColumnsAre(read, metas, filters, s);
    }
    forall s | s in columns
      ensures exists m, f :: m in metas && f in filters && IsColumn(read, m, f, s)
    {
      ColumnsAre(read, metas, filters, s);
      var m :| m in metas && ColumnOf(read, m, filters, s);
      var f :| f in filters && IsColumn(read, m, f, s);
    }
    if columns != [] {
      assert columns[0] in columns;
    }
  }

  /**
   * "and": the result is the intersection over the filters whose key exists, in whatever order keys and
   * filters come; it is empty when no filter applies.
   */
  lemma AndIsIntersection<V>(read: (V, string, V) -> (bool, V), metas: seq<Meta<V>>, filters: seq<Filter<V>>,
                             docs: set<Doc>)
    requires Holds(Columns(read, metas, filters), And, docs)
    ensures forall d :: d in docs <==>
      SomeFilterApplies(metas, filters) && FoundByAll(read, metas, filters, d)
  {
    hide Columns, SomeFilterApplies, FoundByAll, InAll;
    forall d ensures d in docs <==> SomeFilterApplies(metas, filters) && FoundByAll(read, metas, filters, d) {
      ColumnsSay(read, metas, filters, d);
    }
  }

  lemma AndIgnoresOrder<V>(read: (V, string, V) -> (bool, V), metas: seq<Meta<V>>, filters: seq<Filter<V>>,
                           docs: set<Doc>, metas': seq<Meta<V>>, filters': seq<Filter<V>>, docs': set<Doc>)
    requires Holds(Columns(read, metas, filters), And, docs)
    requires Holds(Columns(read, metas', filters'), And, docs')
    requires forall m :: m in metas <==> m in metas'
    requires forall f :: f in filters <==> f in filters'
    ensures docs == docs'
  {
    hide Columns, Holds, Hits;
    AndIsIntersection(read, metas, filters, docs);
    AndIsIntersection(read, metas', filters', docs');
  }

  /**
   * "or": the result is the union over the filters whose key exists, or nothing at all. It is the union
   * if and only if no filter applies, or the first one that applies finds something, or none finds
   * anything.
   */
  lemma OrIsUnionUnlessFirstFails<V>(read: (V, string, V) -> (bool, V), metas: seq<Meta<V>>,
                                     filters: seq<Filter<V>>, docs: set<Doc>)
    requires Holds(Columns(read, metas, filters), Or, docs)
    ensures (forall d :: d in docs <==> FoundBySome(read, metas, filters, d))
       <==> !FirstIsEmpty(Columns(read, metas, filters)) || !exists d :: FoundBySome(read, metas, filters, d)
    ensures FirstIsEmpty(Columns(read, metas, filters)) ==> docs == {}
  {
    hide Columns, FirstIsEmpty, FoundBySome, InSome;
    forall d ensures InSome(Columns(read, metas, filters), d) <==> FoundBySome(read, metas, filters, d) {
      ColumnsSay(read, metas, filters, d);
    }
  }

  function SameText(input: string, op: string, value: string): (bool, string) {
    (input == value, value)
  }

  /** The early return under "or": swapping two filters loses the document one of them finds. */
  lemma OrDependsOnOrder(index: seq<Meta<string>>, hit: Filter<string>, miss: Filter<string>)
    requires index == [Meta("year", [Entry("2024", ["d"])])]
    requires hit == Filter("year", "=", "2024") && miss == Filter("year", "=", "1999")
    ensures Holds(Columns(SameText, index, [hit, miss]), Or, {"d"})
    ensures Holds(Columns(SameText, index, [miss, hit]), Or, {})
  {
    var entries := index[0].entries;
    assert entries[1..] == [];
    assert Hits(SameText, entries, "=", "2024") == {"d"};
    assert Hits(SameText, entries, "=", "1999") == {};
    var one, other := [hit, miss], [miss, hit];
    assert one[..1] == [hit] && other[..1] == [miss];
    assert index[..0] == [];
    assert Column(SameText, index[0], [hit]) == [{"d"}] by {
      assert [hit][..0] == [];
    }
    assert Column(SameText, index[0], [miss]) == [{}] by {
      assert [miss][..0] == [];
    }
    assert Columns(SameText, index, one) == [{"d"}, {}];
    assert Columns(SameText, index, other) == [{}, {"d"}];
    var columns: seq<set<Doc>> := [{"d"}, {}];
    forall d ensures InSome(columns, d) <==> d == "d" {
      assert columns[0] in columns;
    }
  }
}
