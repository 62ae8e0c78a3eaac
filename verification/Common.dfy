/** Small notions that several models share. */
module Common {
  ghost predicate NoDuplicates<T>(s: seq<T>)
  {
    forall i, j :: 0 <= i < j < |s| ==> s[i] != s[j]
  }

  lemma Uncons<T>(a: seq<T>, b: seq<T>)
    requires a != []
    ensures a == [a[0]] + a[1..] && a + b == [a[0]] + (a[1..] + b)
  {
  }

  lemma Associates<T>(a: seq<T>, b: seq<T>, c: seq<T>)
    ensures a + (b + c) == a + b + c
  {
  }

  // Different members of a set are at most as many as the set has.
  lemma {:induction false} Pigeonhole<T>(s: seq<T>, pool: set<T>)
    requires (forall i :: 0 <= i < |s| ==> s[i] in pool) && NoDuplicates(s)
    ensures |s| <= |pool|
    decreases |s|
  {
    if s != [] {
      Pigeonhole(s[..|s| - 1], pool - {s[|s| - 1]});
    }
  }

  lemma {:induction false} ListTheSet<T>(s: set<T>) returns (q: seq<T>)
    ensures NoDuplicates(q) && forall x :: x in q <==> x in s
    decreases |s|
  {
    if s == {} {
      q := [];
    } else {
      var x :| x in s;
      var r := ListTheSet(s - {x});
      q := [x] + r;
    }
  }

  function Min(a: int, b: int): int { if a < b then a else b }

  function Max(a: int, b: int): int { if a < b then b else a }

  // Python's lower() on the letters A to Z.
  function Lower(c: char): char
  {
    if 'A' <= c <= 'Z' then (c as int + 32) as char else c
  }
}
