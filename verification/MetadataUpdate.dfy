/** Merging new metadata into a document's metadata: `dedupe_list` and `update_metadata_to`. */
module MetadataUpdate {
  import opened Options

  // A list item: a string, or another value with the text that `str` gives it.
  datatype Item = Word(text: string) | Thing(text: string)

  datatype Field = Text(text: string) | Many(items: seq<Item>) | Other(text: string)

  predicate Mentions(items: seq<Item>, text: string)
  {
    exists i :: 0 <= i < |items| && items[i].text == text
  }

  // The first item of every text, in order.
  function Deduped(items: seq<Item>): seq<Item>
  {
    if items == [] then []
    else
      var last := |items| - 1;
      Deduped(items[..last]) + if Mentions(items[..last], items[last].text) then [] else [items[last]]
  }

  method DedupeList(values: seq<Item>) returns (deduped: seq<Item>)
    ensures deduped == Deduped(values)
  {
    var seen: set<string> := {};
    deduped := [];
    for i := 0 to |values|
      invariant deduped == Deduped(values[..i])
      invariant forall text :: text in seen <==> Mentions(values[..i], text)
    {
      assert values[..i + 1][..i] == values[..i];
      assert forall text :: Mentions(values[..i + 1], text) <==> Mentions(values[..i], text) || text == values[i].text by {
        forall text | Mentions(values[..i], text) || text == values[i].text
          ensures Mentions(values[..i + 1], text)
        {
          var j :| 0 <= j <= i && values[j].text == text;
          assert values[..i + 1][j].text == text;
        }
      }
      if values[i].text in seen {
        continue;
      }
      seen := seen + {values[i].text};
      deduped := deduped + [values[i]];
    }
    assert values[..|values|] == values;
  }

  lemma MentionsOneMore(items: seq<Item>, item: Item, text: string)
    ensures Mentions(items + [item], text) <==> Mentions(items, text) || text == item.text
  {
    var more := items + [item];
    if Mentions(items, text) {
      var i :| 0 <= i < |items| && items[i].text == text;
      assert more[i].text == text;
    }
    assert more[|items|] == item;
  }

  predicate AllDiffer(items: seq<Item>)
  {
    forall i, j :: 0 <= i < j < |items| ==> items[i].text != items[j].text
  }

  // Every text is kept, once, by the first item that has it.
  lemma {:induction false} DedupedKeepsTexts(items: seq<Item>)
    ensures AllDiffer(Deduped(items))
    ensures forall text :: Mentions(Deduped(items), text) <==> Mentions(items, text)
    ensures forall item :: item in Deduped(items) ==> item in items
    ensures forall i :: 0 <= i < |items| && !Mentions(items[..i], items[i].text) ==> items[i] in Deduped(items)
  {
    if items == [] {
      assert Deduped(items) == [];
    } else {
      var front, item := items[..|items| - 1], items[|items| - 1];
      DedupedKeepsTexts(front);
      assert items == front + [item];
      DedupedOneMore(front, item);
      KeepOneMore(front, Deduped(front), item);
    }
  }

  lemma DedupedOneMore(items: seq<Item>, item: Item)
    ensures Deduped(items + [item]) == Deduped(items) + if Mentions(items, item.text) then [] else [item]
  {
    hide Mentions;
    assert (items + [item])[..|items|] == items;
  }

  lemma DifferOneMore(kept: seq<Item>, item: Item)
    requires AllDiffer(kept) && !Mentions(kept, item.text)
    ensures AllDiffer(kept + [item])
  {
  }

  lemma KeepOneMore(front: seq<Item>, kept: seq<Item>, item: Item)
    requires AllDiffer(kept) && forall text :: Mentions(kept, text) <==> Mentions(front, text)
    requires forall x :: x in kept ==> x in front
    requires forall i :: 0 <= i < |front| && !Mentions(front[..i], front[i].text) ==> front[i] in kept
    ensures var items, now := front + [item], kept + if Mentions(front, item.text) then [] else [item];
            && AllDiffer(now) && (forall text :: Mentions(now, text) <==> Mentions(items, text))
            && (forall x :: x in now ==> x in items)
            && forall i :: 0 <= i < |items| && !Mentions(items[..i], items[i].text) ==> items[i] in now
  {
    hide Mentions, AllDiffer;
    var items := front + [item];
    if !Mentions(front, item.text) {
      DifferOneMore(kept, item);
    }
    forall text ensures Mentions(kept + if Mentions(front, item.text) then [] else [item], text) <==> Mentions(items, text) {
      MentionsOneMore(front, item, text);
      MentionsOneMore(kept, item, text);
      assert kept + [] == kept;
    }
    forall i | 0 <= i < |items| && !Mentions(items[..i], items[i].text)
      ensures items[i] in kept + if Mentions(front, item.text) then [] else [item]
    {
      assert items[..i] == front[..i];
      assert front[..|front|] == front;
    }
  }

  // Nothing is removed from a list whose texts differ already.
  lemma {:induction false} DedupedOfDiffering(items: seq<Item>)
    requires AllDiffer(items)
    ensures Deduped(items) == items
  {
    if items != [] {
      var last := |items| - 1;
      assert AllDiffer(items[..last]) by {
        assert forall i :: 0 <= i < last ==> items[..last][i] == items[i];
      }
      DedupedOfDiffering(items[..last]);
      assert !Mentions(items[..last], items[last].text);
    }
  }

  // Appending texts that are there already changes nothing.
  lemma {:induction false} DedupedOfRepeats(items: seq<Item>, more: seq<Item>)
    requires forall i :: 0 <= i < |more| ==> Mentions(items, more[i].text)
    ensures Deduped(items + more) == Deduped(items)
  {
    if more == [] {
      assert items + more == items;
    } else {
      var last := |more| - 1;
      DedupedOfRepeats(items, more[..last]);
      RepeatIsDropped(items, more[..last], more[last]);
      assert items + more == items + more[..last] + [more[last]];
    }
  }

  lemma RepeatIsDropped(items: seq<Item>, more: seq<Item>, item: Item)
    requires Mentions(items, item.text)
    ensures Deduped(items + more + [item]) == Deduped(items + more)
  {
    var all := items + more + [item];
    assert all[..|all| - 1] == items + more;
    var i :| 0 <= i < |items| && items[i].text == item.text;
    assert (items + more)[i] == items[i];
  }

  function Words(items: seq<Item>): seq<Item>
  {
    if items == [] then []
    else
      var last := |items| - 1;
      Words(items[..last]) + if items[last].Word? then [items[last]] else []
  }

  // What is left of a new value before it is merged; None when it is skipped.
  function Cleaned(value: Field): Option<Field>
  {
    match value
    case Text(_) => Some(value)
    case Many(items) =>
      var words := Words(items);
      if words == [] then None else Some(Many(Deduped(words)))
    case Other(_) => None
  }

  // The field after a new value came in.
  function Joined(field: Option<Field>, value: Field): Option<Field>
  {
    match Cleaned(value)
    case None => field
    case Some(clean) =>
      if field.None? || !field.value.Many? then Some(clean)
      else Some(Many(Deduped(field.value.items + if clean.Many? then clean.items else [Word(clean.text)])))
  }

  type Fields = map<string, Field>

  function Lookup(fields: Fields, name: string): Option<Field>
  {
    if name in fields then Some(fields[name]) else None
  }

  function Updated(fields: Fields, meta: seq<(string, Field)>): Fields
  {
    if meta == [] then fields
    else
      var last := |meta| - 1;
      var before := Updated(fields, meta[..last]);
      match Joined(Lookup(before, meta[last].0), meta[last].1)
      case None => before
      case Some(field) => before[meta[last].0 := field]
  }

  class Metadata {
    var fields: Fields

    constructor ()
      ensures fields == map[]
    {
      fields := map[];
    }

    // `meta` is None when it is empty, no dictionary, or a string that does not parse to one.
    method Update(meta: Option<seq<(string, Field)>>)
      modifies this
      ensures fields == if meta.None? then old(fields) else Updated(old(fields), meta.value)
    {
      if meta.None? {
        return;
      }
      var entries := meta.value;
      for i := 0 to |entries|
        invariant fields == Updated(old(fields), entries[..i])
      {
        assert entries[..i + 1][..i] == entries[..i];
        var k, v := entries[i].0, entries[i].1;
        if v.Many? {
          var words := TakeWords(v.items);
          if words == [] {
            continue;
          }
          var deduped := DedupeList(words);
          v := Many(deduped);
        }
        if !v.Many? && !v.Text? {
          continue;
        }
        if k !in fields {
          fields := fields[k := v];
          continue;
        }
        if fields[k].Many? {
          var joined := fields[k].items + if v.Many? then v.items else [Word(v.text)];
          var deduped := DedupeList(joined);
          fields := fields[k := Many(deduped)];
        } else {
          fields := fields[k := v];
        }
      }
      assert entries[..|entries|] == entries;
    }
  }

  method TakeWords(items: seq<Item>) returns (words: seq<Item>)
    ensures words == Words(items)
  {
    words := [];
    for i := 0 to |items|
      invariant words == Words(items[..i])
    {
      assert items[..i + 1][..i] == items[..i];
      if items[i].Word? {
        words := words + [items[i]];
      }
    }
    assert items[..|items|] == items;
  }

  // Bringing the same value in again changes nothing.
  lemma JoinedTwice(field: Option<Field>, value: Field)
    ensures Joined(Joined(field, value), value) == Joined(field, value)
  {
    hide Deduped, Words, AllDiffer;
    var clean := Cleaned(value);
    if clean.Some? {
      if clean.value.Many? {
        DedupedKeepsTexts(Words(value.items));
      }
      var added := if clean.value.Many? then clean.value.items else [Word(clean.value.text)];
      if field.Some? && field.value.Many? {
        RepeatsAfterJoin(field.value.items, added);
      } else if clean.value.Many? {
        RepeatsAfterJoin([], added);
        assert [] + added == added;
        DedupedOfDiffering(added);
      }
    }
  }

  lemma RepeatsAfterJoin(items: seq<Item>, added: seq<Item>)
    ensures Deduped(Deduped(items + added) + added) == Deduped(items + added)
  {
    hide Deduped, AllDiffer;
    var joined := Deduped(items + added);
    DedupedKeepsTexts(items + added);
    forall i | 0 <= i < |added| ensures Mentions(joined, added[i].text) {
      assert (items + added)[|items| + i] == added[i];
    }
    DedupedOfRepeats(joined, added);
    DedupedOfDiffering(joined);
  }

  // Some string of the list is this text.
  predicate HasWord(items: seq<Item>, text: string)
  {
    exists i :: 0 <= i < |items| && items[i] == Word(text)
  }

  lemma {:induction false} WordsMean(items: seq<Item>)
    ensures forall text :: Mentions(Words(items), text) <==> HasWord(items, text)
    ensures forall item :: item in Words(items) ==> item.Word?
    ensures Words(items) == [] <==> forall i :: 0 <= i < |items| ==> !items[i].Word?
  {
    if items != [] {
      var front, item := items[..|items| - 1], items[|items| - 1];
      WordsMean(front);
      assert items == front + [item];
      assert Words(items) == Words(front) + if item.Word? then [item] else [];
      hide Words;
      forall text ensures Mentions(Words(items), text) <==> HasWord(items, text) {
        MentionsOneMore(Words(front), item, text);
        HasWordOneMore(front, item, text);
        assert Words(front) + [] == Words(front);
      }
    }
  }

  lemma HasWordOneMore(items: seq<Item>, item: Item, text: string)
    ensures HasWord(items + [item], text) <==> HasWord(items, text) || item == Word(text)
  {
    var more := items + [item];
    assert more[|items|] == item && forall i :: 0 <= i < |items| ==> more[i] == items[i];
  }

  // Nothing comes of a value that is neither a string nor a list with a string in it.
  predicate Brings(value: Field)
  {
    value.Text? || (value.Many? && exists i :: 0 <= i < |value.items| && value.items[i].Word?)
  }

  // The texts that a new value brings: its own, or those of its strings.
  predicate BringsText(value: Field, text: string)
  {
    (value.Text? && value.text == text) || (value.Many? && HasWord(value.items, text))
  }

  // A list takes in the new texts and keeps its own, each once; anything else is replaced, by a text as it is and by a
  // list with the texts of its strings, each once; and a value that brings nothing changes nothing.
  lemma JoinedMeans(field: Option<Field>, value: Field)
    ensures !Brings(value) ==> Joined(field, value) == field
    ensures Brings(value) && field.Some? && field.value.Many? ==>
      var r := Joined(field, value);
      && r.Some? && r.value.Many? && AllDiffer(r.value.items)
      && forall text :: Mentions(r.value.items, text) <==> Mentions(field.value.items, text) || BringsText(value, text)
    ensures value.Text? && (field.None? || !field.value.Many?) ==> Joined(field, value) == Some(value)
    ensures value.Many? && Brings(value) && (field.None? || !field.value.Many?) ==>
      var r := Joined(field, value);
      && r.Some? && r.value.Many? && AllDiffer(r.value.items)
      && forall text :: Mentions(r.value.items, text) <==> BringsText(value, text)
  {
    hide Deduped, Words, AllDiffer, HasWord, Mentions;
    if value.Many? {
      WordsMean(value.items);
      DedupedKeepsTexts(Words(value.items));
    }
    if Brings(value) && field.Some? && field.value.Many? {
      var clean := Cleaned(value).value;
      var added := if clean.Many? then clean.items else [Word(clean.text)];
      DedupedKeepsTexts(field.value.items + added);
      forall text ensures Mentions(field.value.items + added, text) <==> Mentions(field.value.items, text) || BringsText(value, text) {
        MentionsBoth(field.value.items, added, text);
        if clean.Text? {
          MentionsOne(Word(clean.text), text);
        }
      }
    }
  }

  lemma MentionsOne(item: Item, text: string)
    ensures Mentions([item], text) <==> item.text == text
  {
    assert [item][0] == item;
  }

  lemma MentionsBoth(a: seq<Item>, b: seq<Item>, text: string)
    ensures Mentions(a + b, text) <==> Mentions(a, text) || Mentions(b, text)
  {
    var all := a + b;
    assert forall i :: 0 <= i < |a| ==> all[i] == a[i];
    assert forall i :: 0 <= i < |b| ==> all[|a| + i] == b[i];
    if i :| 0 <= i < |all| && all[i].text == text {
      assert i < |a| || b[i - |a|].text == text;
    }
  }

  // The keys of a dictionary differ.
  predicate IsDictionary(meta: seq<(string, Field)>)
  {
    forall i, j :: 0 <= i < j < |meta| ==> meta[i].0 != meta[j].0
  }

  // Every key of `meta` is merged with its own value, every other key is left alone.
  lemma {:induction false} UpdatedFields(fields: Fields, meta: seq<(string, Field)>)
    requires IsDictionary(meta)
    ensures forall i :: 0 <= i < |meta| ==>
      Lookup(Updated(fields, meta), meta[i].0) == Joined(Lookup(fields, meta[i].0), meta[i].1)
    ensures forall name :: (forall i :: 0 <= i < |meta| ==> meta[i].0 != name) ==>
      Lookup(Updated(fields, meta), name) == Lookup(fields, name)
  {
    hide Joined;
    if meta != [] {
      var last := |meta| - 1;
      assert forall i :: 0 <= i < last ==> meta[..last][i] == meta[i];
      UpdatedFields(fields, meta[..last]);
      JoinedKeepsFields(Lookup(Updated(fields, meta[..last]), meta[last].0), meta[last].1);
    }
  }

  lemma JoinedKeepsFields(field: Option<Field>, value: Field)
    ensures field.Some? ==> Joined(field, value).Some?
  {
  }

  // Updating twice with the same dictionary is updating once.
  lemma UpdateTwice(fields: Fields, meta: seq<(string, Field)>)
    requires IsDictionary(meta)
    ensures Updated(Updated(fields, meta), meta) == Updated(fields, meta)
  {
    hide Updated, Joined;
    var once := Updated(fields, meta);
    var twice := Updated(once, meta);
    UpdatedFields(fields, meta);
    UpdatedFields(once, meta);
    forall name ensures Lookup(twice, name) == Lookup(once, name) {
      if i :| 0 <= i < |meta| && meta[i].0 == name {
        JoinedTwice(Lookup(fields, name), meta[i].1);
      }
    }
    forall name ensures name in twice <==> name in once {
      assert Lookup(twice, name) == Lookup(once, name);
    }
    forall name | name in once ensures twice[name] == once[name] {
      assert Lookup(twice, name) == Lookup(once, name);
    }
  }
}
