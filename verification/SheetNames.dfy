/** Unique names for the sheets of an Excel file. */
module SheetNames {
  import opened Common

  // A sheet name has at most this many characters.
  const LIMIT := 31

  function Decimal(n: nat): (s: string)
    ensures |s| > 0 && '_' !in s
  {
    var digit := [('0' as int + n % 10) as char];
    if n < 10 then digit else Decimal(n / 10) + digit
  }

  lemma {:induction false} DecimalIsInjective(m: nat, n: nat)
    requires Decimal(m) == Decimal(n)
    ensures m == n
  {
    assert Decimal(m)[|Decimal(m)| - 1] == Decimal(n)[|Decimal(n)| - 1];
    if m >= 10 && n >= 10 {
      assert Decimal(m)[..|Decimal(m)| - 1] == Decimal(m / 10);
      assert Decimal(n)[..|Decimal(n)| - 1] == Decimal(n / 10);
      DecimalIsInjective(m / 10, n / 10);
    }
  }

  // original[:end], where a negative end counts from the back.
  function Slice(original: string, end: int): string
  {
    if end >= |original| then original
    else if end >= 0 then original[..end]
    else if |original| + end >= 0 then original[..|original| + end]
    else ""
  }

  function Suffix(counter: nat): string
  {
    "_" + Decimal(counter)
  }

  function Candidate(original: string, counter: nat): string
  {
    Slice(original, LIMIT - |Suffix(counter)|) + Suffix(counter)
  }

  // The number after the last underscore tells the candidates apart, however much of the name is cut.
  lemma CandidatesDiffer(original: string, m: nat, n: nat)
    requires Candidate(original, m) == Candidate(original, n)
    ensures m == n
  {
    var name, short, long := Candidate(original, m), Decimal(m), Decimal(n);
    if |short| == |long| {
      assert name[|name| - |short|..] == short;
      assert name[|name| - |long|..] == long;
      DecimalIsInjective(m, n);
    } else if |short| < |long| {
      UnderscoreInside(name, short, long);
    } else {
      UnderscoreInside(name, long, short);
    }
  }

  lemma UnderscoreInside(name: string, short: string, long: string)
    requires |name| > |long| > |short|
    requires name[|name| - |short| - 1] == '_'
    requires name[|name| - |long|..] == long
    ensures '_' in long
  {
    assert long[|long| - |short| - 1] == '_';
  }

  // A set that holds the first n candidates has n names.
  lemma {:induction false} CandidatesFill(original: string, used: set<string>, n: nat)
    requires forall k :: 1 <= k <= n ==> Candidate(original, k) in used
    ensures n <= |used|
  {
    if n > 0 {
      var last := Candidate(original, n);
      forall k | 1 <= k < n ensures Candidate(original, k) in used - {last} {
        if Candidate(original, k) == last {
          CandidatesDiffer(original, k, n);
        }
      }
      CandidatesFill(original, used - {last}, n - 1);
    }
  }

  // The name a table gets when it was tried `tries` times: its own, or the candidate of that number.
  function Tried(original: string, tries: nat): string
  {
    if tries == 0 then original else Candidate(original, tries)
  }

  /**
   * The inner loop. It ends for every set of used names: the name found is the first free one, and at
   * most one candidate more than there are used names was tried.
   */
  method Unique(original: string, used: set<string>) returns (name: string, tries: nat)
    ensures name == Tried(original, tries) && name !in used
    ensures forall k :: 0 <= k < tries ==> Tried(original, k) in used
    ensures tries <= |used| + 1
  {
    name := original;
    var counter := 1;
    while name in used
      invariant counter >= 1
      invariant name == Tried(original, counter - 1)
      invariant forall k :: 0 <= k < counter - 1 ==> Tried(original, k) in used
      decreases |used| + 1 - counter
    {
      CandidatesHeld(original, used, counter - 1);
      var suffix := Suffix(counter);
      name := Slice(original, LIMIT - |suffix|) + suffix;
      counter := counter + 1;
    }
    tries := counter - 1;
    if tries > 0 {
      CandidatesHeld(original, used, tries - 1);
    }
  }

  lemma CandidatesHeld(original: string, used: set<string>, n: nat)
    requires forall k :: 0 <= k <= n ==> Tried(original, k) in used
    ensures n <= |used|
  {
    forall k | 1 <= k <= n ensures Candidate(original, k) in used {
      assert Tried(original, k) in used;
    }
    CandidatesFill(original, used, n);
  }

  // A candidate fits if and only if its suffix does.
  lemma CandidateFits(original: string, counter: nat)
    ensures |Candidate(original, counter)| <= LIMIT <==> |Suffix(counter)| <= LIMIT
  {
  }

  function Power(n: nat): (p: nat)
    ensures p > 0
  {
    if n == 0 then 1 else 10 * Power(n - 1)
  }

  lemma {:induction false} DecimalLength(n: nat, digits: nat)
    requires digits > 0
    ensures |Decimal(n)| <= digits <==> n < Power(digits)
  {
    assert Power(1) == 10 * Power(0);
    if digits > 1 && n >= 10 {
      DecimalLength(n / 10, digits - 1);
      assert n < 10 * Power(digits - 1) <==> n / 10 < Power(digits - 1);
    }
  }

  lemma FreeNameFits(original: string, name: string, tries: nat, earlier: seq<string>)
    requires name == Tried(original, tries) && name !in earlier
    requires forall k :: 0 <= k < tries ==> Tried(original, k) in earlier
    ensures IsFirstFree(original, name, earlier)
    ensures |original| <= LIMIT && tries < Power(LIMIT - 1) ==> |name| <= LIMIT
  {
    if tries > 0 {
      DecimalLength(tries, LIMIT - 1);
      CandidateFits(original, tries);
    }
  }

  /**
   * The names of all sheets, in the order of the tables. They differ pairwise, and fit the limit when
   * the originals do, as long as there are fewer than 10^30 tables.
   */
  method NameSheets(originals: seq<string>) returns (names: seq<string>)
    ensures |names| == |originals| && NoDuplicates(names)
    ensures forall i :: 0 <= i < |names| ==> IsFirstFree(originals[i], names[i], names[..i])
    ensures (forall i :: 0 <= i < |originals| ==> |originals[i]| <= LIMIT) && |originals| < Power(LIMIT - 1)
        ==> forall i :: 0 <= i < |names| ==> |names[i]| <= LIMIT
  {
    hide IsFirstFree, Tried, Candidate, Power;
    names := [];
    var used: set<string> := {};
    for i := 0 to |originals|
      invariant |names| == i && NoDuplicates(names)
      invariant forall name :: name in used <==> name in names
      invariant |used| <= i
      invariant forall k :: 0 <= k < i ==> IsFirstFree(originals[k], names[k], names[..k])
      invariant (forall k :: 0 <= k < i ==> |originals[k]| <= LIMIT) && |originals| < Power(LIMIT - 1)
            ==> forall k :: 0 <= k < i ==> |names[k]| <= LIMIT
    {
      var name, tries := Unique(originals[i], used);
      FreeNameFits(originals[i], name, tries, names);
      used := used + {name};
      ghost var before := names;
      names := names + [name];
      assert forall k :: 0 <= k < i ==> names[..k] == before[..k];
      assert names[..i] == before;
    }
  }

  ghost predicate IsFirstFree(original: string, name: string, earlier: seq<string>)
  {
    exists tries: nat :: name == Tried(original, tries) && name !in earlier
      && forall k :: 0 <= k < tries ==> Tried(original, k) in earlier
  }

  // The bound on the candidates is reached: a full-length name that ends in _1 is its own first
  // candidate, so when it is used, whatever Unique returns took two.
  lemma BoundIsReached(original: string, used: set<string>, name: string, tries: nat)
    requires |original| == LIMIT && original[LIMIT - 2..] == "_1" && used == {original}
    requires name == Tried(original, tries) && name !in used
    requires forall k :: 0 <= k < tries ==> Tried(original, k) in used
    ensures tries == 2 == |used| + 1
  {
    assert Decimal(1) == "1" && Decimal(2) == "2";
    assert original == original[..LIMIT - 2] + original[LIMIT - 2..];
    assert Tried(original, 0) == original && Tried(original, 1) == original;
    if Candidate(original, 2) == original {
      CandidatesDiffer(original, 1, 2);
    }
    assert Tried(original, 2) !in used;
  }
}
