/**
 * The termination conditions of a loop: evaluating one condition on a variable, and LoopItem.end with
 * everything that can go wrong on the way.
 */
module LoopConditions {
  import opened Options
  import opened VariableStore
  import opened LoopItems

  datatype Operator =
    | Contains | NotContains | StartWith | EndWith | Is | IsNot | Empty | NotEmpty
    | Equal | Unequal | Greater | Less | AtLeast | AtMost | Unknown

  datatype Input = FromVariable(reference: string) | Constant(value: Value) | Invalid

  // `operator` is None and `variable` is "" where the condition leaves them out.
  datatype Condition = Condition(variable: string, operator: Option<Operator>, input: Input)

  datatype Failure = Incomplete | Unreadable(error: Error) | BadMode | BadOperator | BadType | BadLogic

  /* ---------- Python's comparisons ---------- */

  // A bool is an int.
  function Number(v: Value): Option<real>
  {
    match v
    case Num(n) => Some(n)
    case Bool(b) => Some(if b then 1.0 else 0.0)
    case _ => None
  }

  predicate Same(a: Value, b: Value)
    decreases a
  {
    if Number(a).Some? && Number(b).Some? then Number(a) == Number(b)
    else
      match (a, b)
      case (List(xs), List(ys)) => |xs| == |ys| && forall i :: 0 <= i < |xs| ==> Same(xs[i], ys[i])
      case (Dict(f), Dict(g)) => f.Keys == g.Keys && forall k :: k in f ==> k in g && Same(f[k], g[k])
      case _ => a == b
  }

  predicate Holds(items: seq<Value>, v: Value)
  {
    exists i :: 0 <= i < |items| && Same(items[i], v)
  }

  predicate PartOf(part: string, whole: string)
  {
    exists i :: 0 <= i <= |whole| && PartAt(part, whole, i)
  }

  predicate PartAt(part: string, whole: string, i: nat)
    requires i <= |whole|
  {
    i + |part| <= |whole| && whole[i..i + |part|] == part
  }

  /* ---------- evaluate_condition ---------- */

  function OnText(text: string, op: Operator, value: Value): Result<bool, Failure>
  {
    match op
    case Contains => if value.Text? then Ok(PartOf(value.text, text)) else Err(BadType)
    case NotContains => if value.Text? then Ok(!PartOf(value.text, text)) else Err(BadType)
    case StartWith => if value.Text? then Ok(value.text <= text) else Err(BadType)
    case EndWith =>
      if value.Text? then Ok(|value.text| <= |text| && text[|text| - |value.text|..] == value.text) else Err(BadType)
    case Is => Ok(value == Text(text))
    case IsNot => Ok(value != Text(text))
    case Empty => Ok(text == "")
    case NotEmpty => Ok(text != "")
    case _ => Err(BadOperator)
  }

  // Numbers, and bools too: the branch for bools comes after this one and is never reached.
  function OnNumber(n: real, op: Operator, value: Value): Result<bool, Failure>
  {
    var m := Number(value);
    match op
    case Equal => Ok(m == Some(n))
    case Unequal => Ok(m != Some(n))
    case Greater => if m.Some? then Ok(n > m.value) else Err(BadType)
    case Less => if m.Some? then Ok(n < m.value) else Err(BadType)
    case AtLeast => if m.Some? then Ok(n >= m.value) else Err(BadType)
    case AtMost => if m.Some? then Ok(n <= m.value) else Err(BadType)
    case Empty => Ok(false)
    case NotEmpty => Ok(true)
    case _ => Err(BadOperator)
  }

  function OnDict(fields: map<string, Value>, op: Operator): Result<bool, Failure>
  {
    match op
    case Empty => Ok(fields == map[])
    case NotEmpty => Ok(fields != map[])
    case _ => Err(BadOperator)
  }

  function OnList(items: seq<Value>, op: Operator, value: Value): Result<bool, Failure>
  {
    match op
    case Contains => Ok(Holds(items, value))
    case NotContains => Ok(!Holds(items, value))
    case Is => Ok(Same(List(items), value))
    case IsNot => Ok(!Same(List(items), value))
    case Empty => Ok(items == [])
    case NotEmpty => Ok(items != [])
    case _ => Err(BadOperator)
  }

  function Evaluated(v: Value, op: Operator, value: Value): Result<bool, Failure>
  {
    match v
    case Text(text) => OnText(text, op, value)
    case Num(n) => OnNumber(n, op, value)
    case Bool(b) => OnNumber(if b then 1.0 else 0.0, op, value)
    case Dict(fields) => OnDict(fields, op)
    case List(items) => OnList(items, op, value)
    case Null => Ok(op == Empty)
    case Thing(_) => Err(BadOperator)
  }

  // Operators that are meant to say the opposite of each other.
  predicate Opposite(p: Operator, q: Operator)
  {
    match p
    case Contains => q == NotContains
    case Is => q == IsNot
    case Empty => q == NotEmpty
    case Equal => q == Unequal
    case Greater => q == AtMost
    case Less => q == AtLeast
    case _ => false
  }

  // Both are defined, and then they differ; or neither is.
  predicate Disagree(r: Result<bool, Failure>, s: Result<bool, Failure>)
  {
    (r.Ok? <==> s.Ok?) && (r.Ok? ==> r.value != s.value)
  }

  lemma TextsDisagree(text: string, p: Operator, q: Operator, value: Value)
    requires Opposite(p, q)
    ensures Disagree(OnText(text, p, value), OnText(text, q, value))
  {
    hide PartOf;
  }

  lemma NumbersDisagree(n: real, p: Operator, q: Operator, value: Value)
    requires Opposite(p, q)
    ensures Disagree(OnNumber(n, p, value), OnNumber(n, q, value))
  {
    hide Number;
  }

  lemma CollectionsDisagree(items: seq<Value>, fields: map<string, Value>, p: Operator, q: Operator, value: Value)
    requires Opposite(p, q)
    ensures Disagree(OnList(items, p, value), OnList(items, q, value)) && Disagree(OnDict(fields, p), OnDict(fields, q))
  {
    hide Holds, Same;
  }

  // They do, on everything they can be applied to but a missing value: that is only ever "empty".
  lemma OppositesDisagree(v: Value, p: Operator, q: Operator, value: Value)
    requires Opposite(p, q)
    ensures Disagree(Evaluated(v, p, value), Evaluated(v, q, value)) <==> !v.Null? || p == Empty
  {
    assert q != Empty;
    hide OnText, OnNumber, OnList, OnDict, Opposite;
    match v
    case Text(text) => TextsDisagree(text, p, q, value);
    case Num(n) => NumbersDisagree(n, p, q, value);
    case Bool(b) => NumbersDisagree(if b then 1.0 else 0.0, p, q, value);
    case Dict(fields) => CollectionsDisagree([], fields, p, q, value);
    case List(items) => CollectionsDisagree(items, map[], p, q, value);
    case _ =>
  }

  // Which operators a kind of value knows.
  predicate Knows(v: Value, op: Operator)
  {
    match v
    case Text(_) => op in {Contains, NotContains, StartWith, EndWith, Is, IsNot, Empty, NotEmpty}
    case Num(_) => op in {Equal, Unequal, Greater, Less, AtLeast, AtMost, Empty, NotEmpty}
    case Bool(_) => op in {Equal, Unequal, Greater, Less, AtLeast, AtMost, Empty, NotEmpty}
    case Dict(_) => op in {Empty, NotEmpty}
    case List(_) => op in {Contains, NotContains, Is, IsNot, Empty, NotEmpty}
    case Null => true
    case Thing(_) => false
  }

  // Which comparisons also ask something of the other value.
  predicate Fits(v: Value, op: Operator, value: Value)
  {
    && (v.Text? && op in {Contains, NotContains, StartWith, EndWith} ==> value.Text?)
    && ((v.Num? || v.Bool?) && op in {Greater, Less, AtLeast, AtMost} ==> value.Num? || value.Bool?)
  }

  lemma WhatIsEvaluated(v: Value, op: Operator, value: Value)
    ensures Evaluated(v, op, value).Ok? <==> Knows(v, op) && Fits(v, op, value)
    ensures Evaluated(v, op, value) == Err(BadOperator) <==> !Knows(v, op)
    ensures v.Bool? && op in {Is, IsNot} ==> Evaluated(v, op, value) == Err(BadOperator)
    ensures v.Bool? && op == Equal && value == Num(1.0) ==> Evaluated(v, op, value) == Ok(v.flag)
  {
  }

  ghost predicate StandsIn(part: string, whole: string)
  {
    exists i, j :: 0 <= i <= j <= |whole| && whole[i..j] == part
  }

  ghost predicate Begins(part: string, whole: string)
  {
    exists j :: 0 <= j <= |whole| && whole[..j] == part
  }

  ghost predicate Closes(part: string, whole: string)
  {
    exists i :: 0 <= i <= |whole| && whole[i..] == part
  }

  lemma PartOfMeans(part: string, whole: string)
    ensures PartOf(part, whole) <==> StandsIn(part, whole)
  {
    if PartOf(part, whole) {
      var i :| 0 <= i <= |whole| && PartAt(part, whole, i);
      assert whole[i..i + |part|] == part;
    }
    if i, j :| 0 <= i <= j <= |whole| && whole[i..j] == part {
      assert PartAt(part, whole, i);
    }
  }

  lemma EndsMean(part: string, whole: string)
    ensures part <= whole <==> Begins(part, whole)
    ensures |part| <= |whole| && whole[|whole| - |part|..] == part <==> Closes(part, whole)
  {
    if part <= whole {
      assert whole[..|part|] == part;
    }
    if |part| <= |whole| && whole[|whole| - |part|..] == part {
      assert Closes(part, whole);
    }
    if i :| 0 <= i <= |whole| && whole[i..] == part {
      assert i == |whole| - |part|;
    }
  }

  // What the operators on texts ask.
  lemma TextOperators(text: string, other: string)
    ensures Evaluated(Text(text), Contains, Text(other)) == Ok(StandsIn(other, text))
    ensures Evaluated(Text(text), StartWith, Text(other)) == Ok(Begins(other, text))
    ensures Evaluated(Text(text), EndWith, Text(other)) == Ok(Closes(other, text))
    ensures forall v: Value :: Evaluated(Text(text), Is, v) == Ok(v == Text(text))
    ensures forall v: Value :: Evaluated(Text(text), Empty, v) == Ok(|text| == 0)
  {
    hide PartOf, StandsIn, Begins, Closes;
    PartOfMeans(other, text);
    EndsMean(other, text);
  }

  // A bool counts as one or zero.
  predicate Counts(v: Value, n: real)
  {
    v == Num(n) || (v == Bool(true) && n == 1.0) || (v == Bool(false) && n == 0.0)
  }

  // What the operators on numbers ask; a number is never empty.
  lemma NumberOperators(v: Value, n: real, w: Value, m: real)
    requires Counts(v, n) && Counts(w, m)
    ensures Evaluated(v, Equal, w) == Ok(n == m)
    ensures Evaluated(v, Greater, w) == Ok(n > m) && Evaluated(v, Less, w) == Ok(n < m)
    ensures forall x: Value :: !x.Num? && !x.Bool? ==> Evaluated(v, Equal, x) == Ok(false)
    ensures forall x :: Evaluated(v, Empty, x) == Ok(false)
  {
  }

  // What the operators on collections ask.
  lemma CollectionOperators(items: seq<Value>, fields: map<string, Value>, v: Value)
    ensures Evaluated(List(items), Contains, v) == Ok(exists i :: 0 <= i < |items| && Same(items[i], v))
    ensures Evaluated(List(items), Is, v) == Ok(Same(List(items), v))
    ensures Evaluated(List(items), Empty, v) == Ok(|items| == 0)
    ensures Evaluated(Dict(fields), Empty, v) == Ok(|fields| == 0)
  {
  }

  // Sameness is an equality: of numbers by what they count, of lists item by item, of dictionaries key by key, and of
  // other values as they are.
  lemma SameMeans(v: Value, w: Value)
    ensures forall n, m :: Counts(v, n) && Counts(w, m) ==> (Same(v, w) <==> n == m)
    ensures v.List? && w.List? ==>
      (Same(v, w) <==> |v.items| == |w.items| && forall i :: 0 <= i < |v.items| ==> Same(v.items[i], w.items[i]))
    ensures v.Dict? && w.Dict? ==>
      (Same(v, w) <==> v.fields.Keys == w.fields.Keys && forall k :: k in v.fields && k in w.fields ==> Same(v.fields[k], w.fields[k]))
    ensures v.Text? || v.Null? || v.Thing? ==> (Same(v, w) <==> v == w)
  {
  }

  lemma {:induction false} SameIsEquality(a: Value, b: Value, c: Value)
    ensures Same(a, a) && (Same(a, b) ==> Same(b, a)) && (Same(a, b) && Same(b, c) ==> Same(a, c))
    decreases a
  {
    match a
    case List(xs) =>
      forall i | 0 <= i < |xs| ensures Same(xs[i], xs[i]) {
        SameIsEquality(xs[i], b, c);
      }
      if b.List? && Same(a, b) {
        forall i | 0 <= i < |xs| ensures Same(b.items[i], xs[i]) && (c.List? && Same(b, c) ==> Same(xs[i], c.items[i])) {
          SameIsEquality(xs[i], b.items[i], if c.List? && Same(b, c) then c.items[i] else b);
        }
      }
    case Dict(f) =>
      forall k | k in f ensures Same(f[k], f[k]) {
        SameIsEquality(f[k], b, c);
      }
      if b.Dict? && Same(a, b) {
        forall k | k in f ensures Same(b.fields[k], f[k]) && (c.Dict? && Same(b, c) ==> Same(f[k], c.fields[k])) {
          SameIsEquality(f[k], b.fields[k], if c.Dict? && Same(b, c) then c.fields[k] else b);
        }
      }
    case _ =>
  }

  /* ---------- end ---------- */

  function Judged(python: Python, store: Store, c: Condition): Result<bool, Failure>
  {
    if c.variable == "" || c.operator.None? then Err(Incomplete)
    else
      match Got(python, store, Parsed(c.variable))
      case Err(e) => Err(Unreadable(e))
      case Ok(v) =>
        match c.input
        case Invalid => Err(BadMode)
        case Constant(value) => Evaluated(v, c.operator.value, value)
        case FromVariable(reference) =>
          match Got(python, store, Parsed(reference))
          case Err(e) => Err(Unreadable(e))
          case Ok(value) => Evaluated(v, c.operator.value, value)
  }

  // A complete condition evaluates what its variable reads against its constant, or against what its other reference
  // reads; it is incomplete without a variable or an operator.
  lemma WhatIsJudged(python: Python, store: Store, c: Condition, v: Value, w: Value)
    ensures c.variable == "" || c.operator == None ==> Judged(python, store, c) == Err(Incomplete)
    ensures c.variable != "" && c.operator.Some? && Got(python, store, Parsed(c.variable)) == Ok(v) ==>
      match c.input
      case Constant(value) => Judged(python, store, c) == Evaluated(v, c.operator.value, value)
      case FromVariable(reference) =>
        Got(python, store, Parsed(reference)) == Ok(w) ==> Judged(python, store, c) == Evaluated(v, c.operator.value, w)
      case Invalid => Judged(python, store, c) == Err(BadMode)
  {
    hide Got, Parsed, Evaluated;
  }

  // The verdicts, in order, or the first thing that goes wrong.
  function Verdicts(python: Python, store: Store, conditions: seq<Condition>): Result<seq<bool>, Failure>
  {
    if conditions == [] then Ok([])
    else
      var last := |conditions| - 1;
      match Verdicts(python, store, conditions[..last])
      case Err(e) => Err(e)
      case Ok(verdicts) =>
        match Judged(python, store, conditions[last])
        case Err(e) => Err(e)
        case Ok(verdict) => Ok(verdicts + [verdict])
  }

  lemma {:induction false} FirstErrorWins(python: Python, store: Store, conditions: seq<Condition>, k: nat)
    requires k <= |conditions| && Verdicts(python, store, conditions[..k]).Err?
    ensures Verdicts(python, store, conditions) == Err(Verdicts(python, store, conditions[..k]).error)
    decreases |conditions|
  {
    if k == |conditions| {
      assert conditions[..k] == conditions;
    } else {
      var front := conditions[..|conditions| - 1];
      assert front[..k] == conditions[..k];
      FirstErrorWins(python, store, front, k);
    }
  }

  method Judge(variables: Variables, python: Python, c: Condition) returns (verdict: Result<bool, Failure>)
    ensures verdict == Judged(python, variables.View(), c)
  {
    hide Evaluated, Got, Parsed;
    if c.variable == "" || c.operator.None? {
      return Err(Incomplete);
    }
    var v := variables.GetVariable(python, c.variable);
    if v.Err? {
      return Err(Unreadable(v.error));
    }
    match c.input {
      case Invalid =>
        return Err(BadMode);
      case Constant(value) =>
        return Evaluated(v.value, c.operator.value, value);
      case FromVariable(reference) =>
        var value := variables.GetVariable(python, reference);
        if value.Err? {
          return Err(Unreadable(value.error));
        }
        return Evaluated(v.value, c.operator.value, value.value);
    }
  }

  // LoopItem.end; `logic` is None for an operator that is neither "and" nor "or", which is noticed only
  // after all the conditions have been judged. Whatever goes wrong, the counter stays as it is.
  method End(item: LoopItem, variables: Variables, python: Python, conditions: seq<Condition>, logic: Option<Logic>)
      returns (ended: Result<bool, Failure>)
    modifies item
    ensures ended ==
      if old(item.idx) == -1 then Ok(true)
      else
        match Verdicts(python, variables.View(), conditions)
        case Err(e) => Err(e)
        case Ok(verdicts) => if logic.None? then Err(BadLogic) else Ok(ShouldEnd(verdicts, logic.value))
    ensures item.idx == if ended == Ok(true) then -1 else old(item.idx)
  {
    hide Judged;
    if item.idx == -1 {
      return Ok(true);
    }
    var verdicts: seq<bool> := [];
    for k := 0 to |conditions|
      invariant item.idx == old(item.idx)
      invariant Verdicts(python, variables.View(), conditions[..k]) == Ok(verdicts)
    {
      assert conditions[..k + 1][..k] == conditions[..k];
      var verdict := Judge(variables, python, conditions[k]);
      if verdict.Err? {
        FirstErrorWins(python, variables.View(), conditions, k + 1);
        return Err(verdict.error);
      }
      verdicts := verdicts + [verdict.value];
    }
    assert conditions[..|conditions|] == conditions;
    if logic.None? {
      return Err(BadLogic);
    }
    var over := item.End(verdicts, logic.value);
    return Ok(over);
  }
}
