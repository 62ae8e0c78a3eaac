/** is_similarity: which two entity names may be put to the model as the same entity. */
module Similarity {
  import opened Common

  // What comes from outside: which characters are digits, which names count as English, and the edit
  // distance.
  datatype Language = Language(isDigit: char -> bool, isEnglish: string -> bool, distance: (string, string) -> nat)

  ghost predicate IsDistance(distance: (string, string) -> nat)
  {
    forall a, b :: distance(a, b) == distance(b, a) && (distance(a, b) == 0 <==> a == b)
  }

  function GramAt(s: string, i: nat): string
    requires i + 1 < |s|
  {
    s[i..i + 2]
  }

  function Grams(s: string): set<string>
  {
    set i | 0 <= i < |s| - 1 :: GramAt(s, i)
  }

  predicate HasDigit(lang: Language, s: string)
  {
    exists c :: c in s && lang.isDigit(c)
  }

  // _has_digit_in_2gram_diff
  predicate DigitsDiffer(lang: Language, a: string, b: string)
  {
    exists g :: g in (Grams(a) - Grams(b)) + (Grams(b) - Grams(a)) && HasDigit(lang, g)
  }

  function Chars(s: string): set<char>
  {
    set c | c in s
  }

  // The source compares a float quotient with 0.8; two quotients of such small numbers round to the same
  // float only when they are equal, so that is a comparison of fractions.
  predicate ShareEnough(common: nat, most: nat)
  {
    if most < 4 then common > 1 else 10 * common >= 8 * most
  }

  predicate IsSimilar(lang: Language, a: string, b: string)
  {
    if DigitsDiffer(lang, a, b) then false
    else if lang.isEnglish(a) && lang.isEnglish(b) then lang.distance(a, b) <= Min(|a|, |b|) / 2
    else ShareEnough(|Chars(a) * Chars(b)|, Max(|Chars(a)|, |Chars(b)|))
  }

  // The order of a pair does not matter, so it does not matter in which order nodes are paired.
  lemma SimilarIsSymmetric(lang: Language, a: string, b: string)
    requires IsDistance(lang.distance)
    ensures IsSimilar(lang, a, b) <==> IsSimilar(lang, b, a)
  {
    hide Grams, HasDigit, Chars;
    assert (Grams(a) - Grams(b)) + (Grams(b) - Grams(a)) == (Grams(b) - Grams(a)) + (Grams(a) - Grams(b));
    assert Chars(a) * Chars(b) == Chars(b) * Chars(a);
    assert lang.distance(a, b) == lang.distance(b, a);
  }

  // Similar names have the same digits in the same surroundings.
  lemma SimilarKeepsDigits(lang: Language, a: string, b: string, g: string)
    requires IsSimilar(lang, a, b) && HasDigit(lang, g)
    ensures g in Grams(a) <==> g in Grams(b)
  {
    hide Grams, HasDigit;
    assert g in (Grams(a) - Grams(b)) + (Grams(b) - Grams(a)) <==> !(g in Grams(a) <==> g in Grams(b));
    assert !DigitsDiffer(lang, a, b);
  }

  // A name is similar to itself, unless it is not English and repeats a single character.
  lemma SimilarToItself(lang: Language, a: string)
    requires IsDistance(lang.distance)
    ensures IsSimilar(lang, a, a) <==> lang.isEnglish(a) || |Chars(a)| >= 2
  {
    hide Grams, HasDigit, Chars;
    assert (Grams(a) - Grams(a)) + (Grams(a) - Grams(a)) == {};
    assert Chars(a) * Chars(a) == Chars(a);
    assert lang.distance(a, a) == 0;
  }

  // Every two neighbouring characters of a with a digit among them stand next to each other in b too.
  ghost predicate KeepsDigits(lang: Language, a: string, b: string)
  {
    forall i :: 0 <= i < |a| - 1 && (lang.isDigit(a[i]) || lang.isDigit(a[i + 1])) ==> StandsIn(a[i], a[i + 1], b)
  }

  ghost predicate StandsIn(c: char, d: char, s: string)
  {
    exists j :: 0 <= j < |s| - 1 && s[j] == c && s[j + 1] == d
  }

  lemma InGrams(c: char, d: char, s: string)
    ensures [c, d] in Grams(s) <==> StandsIn(c, d, s)
  {
    if j :| 0 <= j < |s| - 1 && s[j] == c && s[j + 1] == d {
      assert GramAt(s, j) == [c, d];
    }
    if i :| 0 <= i < |s| - 1 && GramAt(s, i) == [c, d] {
      assert s[i] == GramAt(s, i)[0] && s[i + 1] == GramAt(s, i)[1];
    }
  }

  lemma GramIs(lang: Language, a: string, b: string, i: nat)
    requires i + 1 < |a|
    ensures HasDigit(lang, GramAt(a, i)) <==> lang.isDigit(a[i]) || lang.isDigit(a[i + 1])
    ensures GramAt(a, i) in Grams(b) <==> StandsIn(a[i], a[i + 1], b)
  {
    assert GramAt(a, i) == [a[i], a[i + 1]] && a[i] in GramAt(a, i) && a[i + 1] in GramAt(a, i);
    InGrams(a[i], a[i + 1], b);
  }

  lemma KeepsDigitsMeans(lang: Language, a: string, b: string)
    ensures KeepsDigits(lang, a, b) <==> forall g :: g in Grams(a) && HasDigit(lang, g) ==> g in Grams(b)
  {
    hide HasDigit, StandsIn;
    if KeepsDigits(lang, a, b) {
      forall g | g in Grams(a) && HasDigit(lang, g) ensures g in Grams(b) {
        var i :| 0 <= i < |a| - 1 && g == GramAt(a, i);
        GramIs(lang, a, b, i);
      }
    } else {
      var i :| 0 <= i < |a| - 1 && (lang.isDigit(a[i]) || lang.isDigit(a[i + 1])) && !StandsIn(a[i], a[i + 1], b);
      GramIs(lang, a, b, i);
      assert GramAt(a, i) in Grams(a);
    }
  }

  // The whole condition: no digit in other surroundings, and then for English names at most half as many edits as the
  // shorter one has characters, for others two characters in common, or four fifths of four and more.
  lemma WhatIsSimilar(lang: Language, a: string, b: string)
    ensures IsSimilar(lang, a, b) <==>
      && KeepsDigits(lang, a, b) && KeepsDigits(lang, b, a)
      && if lang.isEnglish(a) && lang.isEnglish(b) then 2 * lang.distance(a, b) <= |a| && 2 * lang.distance(a, b) <= |b|
         else
           var common, most := |set c | c in a && c in b|, Max(|set c | c in a|, |set c | c in b|);
           if most < 4 then common >= 2 else 5 * common >= 4 * most
  {
    KeepsDigitsMeans(lang, a, b);
    KeepsDigitsMeans(lang, b, a);
    hide KeepsDigits, HasDigit, Grams;
    assert Chars(a) * Chars(b) == set c | c in a && c in b;
    forall g ensures g in (Grams(a) - Grams(b)) + (Grams(b) - Grams(a)) <==> !(g in Grams(a) <==> g in Grams(b)) {
    }
  }
}
