/**
 * The variables of a canvas: reading and writing outputs of components by references such as
 * `component@name.key.key`, through nested dictionaries.
 */
module VariableStore {
  import opened Options

  datatype Value =
    | Null
    | Bool(flag: bool)
    | Num(number: real)
    | Text(text: string)
    | List(items: seq<Value>)
    | Dict(fields: map<string, Value>)
    | Thing(id: int)

  predicate Truthy(value: Value)
  {
    match value
    case Null => false
    case Bool(flag) => flag
    case Num(number) => number != 0.0
    case Text(text) => text != ""
    case List(items) => items != []
    case Dict(fields) => fields != map[]
    case Thing(_) => true
  }

  // Python's part: reading JSON, reading an index, and reading an attribute of anything else.
  datatype Python = Python(
    loads: string -> Option<Value>,
    index: string -> Option<int>,
    attribute: (Value, string) -> Value)

  // items[i], where a negative index counts from the back.
  function Item(items: seq<Value>, i: Option<int>): Value
  {
    if i.None? then Null
    else if 0 <= i.value < |items| then items[i.value]
    else if -|items| <= i.value < 0 then items[|items| + i.value]
    else Null
  }

  function StepInto(python: Python, value: Value, key: string): Value
  {
    match value
    case Dict(fields) => if key in fields then fields[key] else Null
    case List(items) => Item(items, python.index(key))
    case _ => python.attribute(value, key)
  }

  // One key further; a string is read as JSON first.
  function Step(python: Python, value: Value, key: string): Value
  {
    match value
    case Null => Null
    case Text(text) =>
      var loaded := python.loads(text);
      if loaded.None? then Null else StepInto(python, loaded.value, key)
    case _ => StepInto(python, value, key)
  }

  function Read(python: Python, value: Value, keys: seq<string>): Value
    decreases |keys|
  {
    if keys == [] then value else Read(python, Step(python, value, keys[0]), keys[1..])
  }

  // The loop of `get_variable_param_value`.
  method GetParam(python: Python, obj: Value, keys: seq<string>) returns (value: Value)
    ensures value == Read(python, obj, keys)
  {
    value := obj;
    for i := 0 to |keys|
      invariant Read(python, value, keys[i..]) == Read(python, obj, keys)
    {
      assert keys[i..][0] == keys[i] && keys[i..][1..] == keys[i + 1..];
      if value.Null? {
        NothingBelowNull(python, keys[i..]);
        return Null;
      }
      if value.Text? {
        var loaded := python.loads(value.text);
        if loaded.None? {
          NothingBelowNull(python, keys[i + 1..]);
          return Null;
        }
        value := loaded.value;
      }
      match value {
        case Dict(fields) =>
          value := if keys[i] in fields then fields[keys[i]] else Null;
        case List(items) =>
          value := Item(items, python.index(keys[i]));
        case _ =>
          value := python.attribute(value, keys[i]);
      }
    }
  }

  lemma {:induction false} NothingBelowNull(python: Python, keys: seq<string>)
    ensures Read(python, Null, keys) == Null
  {
    if keys != [] {
      NothingBelowNull(python, keys[1..]);
    }
  }

  // What one more key reads: a field that is there, an item counted from the front or from the back, what JSON text says,
  // an attribute, and nothing where there is nothing.
  lemma ReadsAre(python: Python, value: Value, key: string, rest: seq<string>)
    ensures Read(python, value, []) == value
    ensures value.Null? ==> Read(python, value, [key] + rest) == Null
    ensures value.Dict? && key in value.fields ==> Read(python, value, [key] + rest) == Read(python, value.fields[key], rest)
    ensures value.Dict? && key !in value.fields ==> Read(python, value, [key] + rest) == Null
    ensures value.List? ==>
      match python.index(key)
      case None => Read(python, value, [key] + rest) == Null
      case Some(i) =>
        && (0 <= i < |value.items| ==> Read(python, value, [key] + rest) == Read(python, value.items[i], rest))
        && (-|value.items| <= i < 0 ==> Read(python, value, [key] + rest) == Read(python, value.items[|value.items| + i], rest))
        && (i < -|value.items| || i >= |value.items| ==> Read(python, value, [key] + rest) == Null)
    ensures value.Text? ==>
      match python.loads(value.text)
      case None => Read(python, value, [key] + rest) == Null
      case Some(loaded) =>
        !loaded.Text? && !loaded.Null? ==> Read(python, value, [key] + rest) == Read(python, loaded, [key] + rest)
    ensures value.Bool? || value.Num? || value.Thing? ==>
      Read(python, value, [key] + rest) == Read(python, python.attribute(value, key), rest)
  {
    assert ([key] + rest)[0] == key && ([key] + rest)[1..] == rest;
    NothingBelowNull(python, rest);
  }

  // The dictionary a write finds below a key, or the new one it puts there.
  function Below(fields: map<string, Value>, key: string): map<string, Value>
  {
    if key in fields && fields[key].Dict? then fields[key].fields else map[]
  }

  // The fields of the dictionary after the descent through every key and the assignment below the last.
  function Written(fields: map<string, Value>, keys: seq<string>, value: Value): map<string, Value>
    requires keys != []
    decreases |keys|
  {
    var inner := Below(fields, keys[0]);
    fields[keys[0] := Dict(if |keys| == 1 then inner[keys[0] := value] else Written(inner, keys[1..], value))]
  }

  // Where a write to these keys puts its value: the last key occurs twice.
  function Target(keys: seq<string>): seq<string>
    requires keys != []
  {
    keys + [keys[|keys| - 1]]
  }

  lemma {:induction false} WriteReadsBackDoubled(python: Python, fields: map<string, Value>, keys: seq<string>,
                                                 value: Value)
    requires keys != []
    ensures Read(python, Dict(Written(fields, keys, value)), Target(keys)) == value
    decreases |keys|
  {
    assert Target(keys)[1..] == if |keys| == 1 then [keys[0]] else Target(keys[1..]);
    if |keys| > 1 {
      WriteReadsBackDoubled(python, Below(fields, keys[0]), keys[1..], value);
    } else {
      assert [keys[0]][1..] == [];
      assert Read(python, Dict(Below(fields, keys[0])[keys[0] := value]), [keys[0]]) == value;
    }
  }

  // Reading the keys of the write itself gives a dictionary around the value, so never the value.
  lemma {:induction false} WriteDoesNotReadBack(python: Python, fields: map<string, Value>, keys: seq<string>,
                                                value: Value)
    requires keys != []
    ensures var found := Read(python, Dict(Written(fields, keys, value)), keys);
      found.Dict? && keys[|keys| - 1] in found.fields && found.fields[keys[|keys| - 1]] == value && found != value
    decreases |keys|
  {
    var inner := Below(fields, keys[0]);
    if |keys| == 1 {
      assert keys[1..] == [];
      NoDictInItself(inner[keys[0] := value], keys[0]);
    } else {
      WriteDoesNotReadBack(python, inner, keys[1..], value);
    }
  }

  lemma NoDictInItself(fields: map<string, Value>, key: string)
    requires key in fields
    ensures fields[key] != Dict(fields)
  {
  }

  // Along the first n keys every value that is there is a dictionary.
  predicate InDicts(fields: map<string, Value>, keys: seq<string>, n: nat)
    requires n <= |keys|
    decreases n
  {
    n == 0 || keys[0] !in fields || (fields[keys[0]].Dict? && InDicts(fields[keys[0]].fields, keys[1..], n - 1))
  }

  /**
   * A path that leaves the target of the write after j keys reads what it read before if those keys led
   * through dictionaries only. Otherwise the write has replaced what was there, and nothing is read.
   */
  lemma {:induction false} WriteKeepsOthers(python: Python, fields: map<string, Value>, keys: seq<string>,
                                            value: Value, path: seq<string>, j: nat)
    requires keys != [] && j <= |keys| && j < |path|
    requires path[..j] == Target(keys)[..j] && path[j] != Target(keys)[j]
    ensures Read(python, Dict(Written(fields, keys, value)), path)
         == if InDicts(fields, Target(keys), j) then Read(python, Dict(fields), path) else Null
    decreases j
  {
    if j > 0 {
      var inner := Below(fields, keys[0]);
      assert path[0] == path[..j][0] == keys[0];
      assert path[1..][..j - 1] == path[..j][1..];
      NothingBelowNull(python, path[1..]);
      if |keys| == 1 {
        assert path[1..][0] != keys[0];
        OtherKey(python, inner, keys[0], value, path[1..]);
        ReadEmpty(python, path[1..]);
      } else {
        assert Target(keys)[1..] == Target(keys[1..]);
        assert path[..j][1..] == Target(keys)[..j][1..] == Target(keys[1..])[..j - 1];
        WriteKeepsOthers(python, inner, keys[1..], value, path[1..], j - 1);
        ReadEmpty(python, path[1..]);
      }
    }
  }

  lemma OtherKey(python: Python, fields: map<string, Value>, key: string, value: Value, path: seq<string>)
    requires path != [] && path[0] != key
    ensures Read(python, Dict(fields[key := value]), path) == Read(python, Dict(fields), path)
  {
  }

  lemma ReadEmpty(python: Python, path: seq<string>)
    requires path != []
    ensures Read(python, Dict(map[]), path) == Null
  {
    NothingBelowNull(python, path[1..]);
  }

  // str.split with a separator of one character.
  function Split(s: string, c: char): (parts: seq<string>)
    ensures parts != []
  {
    if s == "" then [""]
    else if s[0] == c then [""] + Split(s[1..], c)
    else
      var rest := Split(s[1..], c);
      [[s[0]] + rest[0]] + rest[1..]
  }

  function Joined(parts: seq<string>, c: char): string
  {
    if parts == [] then ""
    else if |parts| == 1 then parts[0]
    else parts[0] + [c] + Joined(parts[1..], c)
  }

  lemma {:induction false} SplitOne(s: string, c: char)
    requires c !in s
    ensures Split(s, c) == [s]
  {
    if s != "" {
      assert s == [s[0]] + s[1..];
      SplitOne(s[1..], c);
    }
  }

  lemma {:induction false} SplitFirst(s: string, c: char, rest: string)
    requires c !in s
    ensures Split(s + [c] + rest, c) == [s] + Split(rest, c)
  {
    var all := s + [c] + rest;
    if s == "" {
      assert all[1..] == rest;
    } else {
      assert s == [s[0]] + s[1..];
      assert all[0] == s[0] && all[1..] == s[1..] + [c] + rest;
      SplitFirst(s[1..], c, rest);
    }
  }

  lemma {:induction false} SplitJoined(parts: seq<string>, c: char)
    requires parts != [] && forall part :: part in parts ==> c !in part
    ensures Split(Joined(parts, c), c) == parts
  {
    assert parts[0] in parts;
    if |parts| == 1 {
      SplitOne(parts[0], c);
    } else {
      assert forall part :: part in parts[1..] ==> part in parts;
      SplitFirst(parts[0], c, Joined(parts[1..], c));
      SplitJoined(parts[1..], c);
    }
  }

  // str.strip with one character.
  function StripFront(s: string, c: char): string
  {
    if s != "" && s[0] == c then StripFront(s[1..], c) else s
  }

  function StripBack(s: string, c: char): string
  {
    if s != "" && s[|s| - 1] == c then StripBack(s[..|s| - 1], c) else s
  }

  function Strip(s: string, c: char): string
  {
    StripBack(StripFront(s, c), c)
  }

  function Unbraced(s: string): string
  {
    Strip(Strip(Strip(Strip(Strip(s, '{'), '}'), ' '), '{'), '}')
  }

  // `keys` is empty for a whole output; Bad is a reference with two @.
  datatype Reference = Global(name: string) | Output(component: string, root: string, keys: seq<string>) | Bad

  function Parsed(s: string): Reference
  {
    Named(Unbraced(s))
  }

  function Named(exp: string): Reference
  {
    if '@' !in exp then Global(exp)
    else
      var parts := Split(exp, '@');
      if |parts| != 2 then Bad
      else
        var names := Split(parts[1], '.');
        var rest := Joined(names[1..], '.');
        Output(parts[0], names[0], if rest == "" then [] else Split(rest, '.'))
  }

  function Braces(n: nat, c: char): string
  {
    seq(n, _ => c)
  }

  function Formatted(reference: Reference): string
    requires !reference.Bad?
  {
    match reference
    case Global(name) => name
    case Output(component, root, keys) => component + "@" + Joined([root] + keys, '.')
  }

  predicate Plain(name: string)
  {
    forall c :: c in name ==> c !in "{} @."
  }

  // A reference whose text stands for it: no name has a mark of the syntax, and no key is empty.
  predicate IsPlain(reference: Reference)
  {
    match reference
    case Global(name) => '@' !in name && forall c :: c in name ==> c !in "{} "
    case Output(component, root, keys) =>
      Plain(component) && Plain(root) && forall key :: key in keys ==> key != "" && Plain(key)
    case Bad => false
  }

  lemma {:induction false} StripFrontOfBraces(n: nat, c: char, s: string)
    requires s == "" || s[0] != c
    ensures StripFront(Braces(n, c) + s, c) == s
  {
    if n == 0 {
      assert Braces(n, c) + s == s;
    } else {
      assert (Braces(n, c) + s)[1..] == Braces(n - 1, c) + s;
      StripFrontOfBraces(n - 1, c, s);
    }
  }

  lemma {:induction false} StripBackOfBraces(n: nat, c: char, s: string)
    requires s == "" || s[|s| - 1] != c
    ensures StripBack(s + Braces(n, c), c) == s
  {
    if n == 0 {
      assert s + Braces(n, c) == s;
    } else {
      var all := s + Braces(n, c);
      assert all[..|all| - 1] == s + Braces(n - 1, c);
      StripBackOfBraces(n - 1, c, s);
    }
  }

  lemma Unbrace(s: string, opening: nat, closing: nat)
    requires forall c :: c in s ==> c !in "{} "
    requires s != ""
    ensures Unbraced(Braces(opening, '{') + s + Braces(closing, '}')) == s
  {
    hide StripFront, StripBack;
    assert s[0] in s && s[|s| - 1] in s;
    var tail := s + Braces(closing, '}');
    assert tail[0] == s[0];
    assert Braces(opening, '{') + s + Braces(closing, '}') == Braces(opening, '{') + tail;
    assert Braces(0, '{') == "" && Braces(0, '}') == "" && Braces(0, ' ') == "";
    StripFrontOfBraces(opening, '{', tail);
    assert tail[|tail| - 1] == if closing == 0 then s[|s| - 1] else '}';
    StripBackOfBraces(0, '{', tail);
    assert tail + "" == tail;
    assert Strip(Braces(opening, '{') + s + Braces(closing, '}'), '{') == tail;
    StripFrontOfBraces(0, '}', tail);
    assert "" + tail == tail && "" + s == s && s + "" == s;
    StripBackOfBraces(closing, '}', s);
    forall c | c in "{} " ensures Strip(s, c) == s {
      assert Braces(0, c) == "";
      StripFrontOfBraces(0, c, s);
      StripBackOfBraces(0, c, s);
    }
  }

  lemma {:induction false} JoinedHas(parts: seq<string>, c: char, d: char)
    requires d in Joined(parts, c)
    ensures d == c || exists part :: part in parts && d in part
  {
    if |parts| > 1 {
      if d in Joined(parts[1..], c) {
        JoinedHas(parts[1..], c, d);
        if d != c {
          var part :| part in parts[1..] && d in part;
          assert part in parts;
        }
      }
    }
  }

  lemma FormattedHas(reference: Reference, c: char)
    requires IsPlain(reference) && c in Formatted(reference)
    ensures c !in "{} "
  {
    if reference.Output? {
      if c in Joined([reference.root] + reference.keys, '.') {
        JoinedHas([reference.root] + reference.keys, '.', c);
      }
    }
  }

  lemma NamedFormatted(reference: Reference)
    requires IsPlain(reference)
    ensures Named(Formatted(reference)) == reference
  {
    hide Split, Joined;
    if reference.Output? {
      var names := [reference.root] + reference.keys;
      var last := Joined(names, '.');
      forall name | name in names ensures '.' !in name && '@' !in name {
      }
      if '@' in last {
        JoinedHas(names, '.', '@');
      }
      assert Formatted(reference) == reference.component + ['@'] + last;
      SplitFirst(reference.component, '@', last);
      SplitOne(last, '@');
      assert Split(Formatted(reference), '@') == [reference.component, last];
      SplitJoined(names, '.');
      assert names[1..] == reference.keys;
      KeysRead(reference.keys);
    }
  }

  lemma KeysRead(keys: seq<string>)
    requires forall key :: key in keys ==> key != "" && '.' !in key
    ensures (if Joined(keys, '.') == "" then [] else Split(Joined(keys, '.'), '.')) == keys
  {
    if keys != [] {
      assert keys[0] in keys;
      SplitJoined(keys, '.');
    }
  }

  // Reading the text of a reference gives it back, inside any number of braces.
  lemma ParsedFormatted(reference: Reference, opening: nat, closing: nat)
    requires IsPlain(reference) && Formatted(reference) != ""
    ensures Parsed(Braces(opening, '{') + Formatted(reference) + Braces(closing, '}')) == reference
  {
    assert !reference.Bad?;
    hide Unbraced, Braces, Named, Formatted, IsPlain;
    forall c | c in Formatted(reference) ensures c !in "{} " {
      FormattedHas(reference, c);
    }
    Unbrace(Formatted(reference), opening, closing);
    NamedFormatted(reference);
  }

  type Outputs = map<string, Value>

  datatype Error = NoSuchGlobal | NoSuchComponent | BadReference | NotADictionary

  datatype Store = Store(globals: map<string, Value>, components: map<string, Outputs>)

  // The output of a component; all of them as a dictionary when the name is empty.
  function OutputOf(outputs: Outputs, root: string): Value
  {
    if root == "" then Dict(outputs)
    else if root in outputs then outputs[root] else Text("")
  }

  function Got(python: Python, store: Store, reference: Reference): Result<Value, Error>
  {
    match reference
    case Global(name) => if name in store.globals then Ok(store.globals[name]) else Err(NoSuchGlobal)
    case Output(component, root, keys) =>
      if component !in store.components then Err(NoSuchComponent)
      else Ok(Read(python, OutputOf(store.components[component], root), keys))
    case Bad => Err(BadReference)
  }

  // What a reference reads before its keys: a global that is there, an output that is there, an empty text for one that is
  // not, and all outputs for the empty name.
  lemma GotMeans(python: Python, store: Store, name: string, component: string, root: string)
    ensures Got(python, store, Global(name)) == if name in store.globals then Ok(store.globals[name]) else Err(NoSuchGlobal)
    ensures component !in store.components ==> Got(python, store, Output(component, root, [])) == Err(NoSuchComponent)
    ensures component in store.components ==>
      var outputs := store.components[component];
      Got(python, store, Output(component, root, []))
      == Ok(if root == "" then Dict(outputs) else if root in outputs then outputs[root] else Text(""))
  {
  }

  // The fields a dotted write starts from; an error when the output is a value without keys.
  function RootFields(value: Value): Result<map<string, Value>, Error>
  {
    if !Truthy(value) then Ok(map[])
    else if value.Dict? then Ok(value.fields)
    else Err(NotADictionary)
  }

  function PutRoot(outputs: Outputs, root: string, keys: seq<string>, value: Value): Result<Outputs, Error>
  {
    if keys == [] then Ok(outputs[root := value])
    else
      match RootFields(OutputOf(outputs, root))
      case Err(e) => Err(e)
      case Ok(fields) => Ok(outputs[root := Dict(Written(fields, keys, value))])
  }

  function Put(store: Store, reference: Reference, value: Value): Result<Store, Error>
  {
    match reference
    case Global(name) => Ok(store.(globals := store.globals[name := value]))
    case Output(component, root, keys) =>
      if component !in store.components then Err(NoSuchComponent)
      else
        (match PutRoot(store.components[component], root, keys, value)
         case Err(e) => Err(e)
         case Ok(outputs) => Ok(store.(components := store.components[component := outputs])))
    case Bad => Err(BadReference)
  }

  class Variables {
    var globals: map<string, Value>
    var components: map<string, Outputs>

    constructor (globals: map<string, Value>, components: map<string, Outputs>)
      ensures View() == Store(globals, components)
    {
      this.globals := globals;
      this.components := components;
    }

    ghost function View(): Store
      reads this
    {
      Store(globals, components)
    }

    method GetVariable(python: Python, exp: string) returns (value: Result<Value, Error>)
      ensures value == Got(python, View(), Parsed(exp))
    {
      match Parsed(exp) {
        case Global(name) =>
          return if name in globals then Ok(globals[name]) else Err(NoSuchGlobal);
        case Bad =>
          return Err(BadReference);
        case Output(component, root, keys) =>
          if component !in components {
            return Err(NoSuchComponent);
          }
          var rootValue := OutputOf(components[component], root);
          if keys == [] {
            return Ok(rootValue);
          }
          var found := GetParam(python, rootValue, keys);
          return Ok(found);
      }
    }

    method SetVariable(exp: string, value: Value) returns (outcome: Option<Error>)
      modifies this
      ensures match Put(old(View()), Parsed(exp), value)
        case Ok(store) => outcome == None && View() == store
        case Err(e) => outcome == Some(e) && View() == old(View())
    {
      match Parsed(exp) {
        case Global(name) =>
          globals := globals[name := value];
        case Bad =>
          return Some(BadReference);
        case Output(component, root, keys) =>
          if component !in components {
            return Some(NoSuchComponent);
          }
          var outputs := components[component];
          if keys == [] {
            components := components[component := outputs[root := value]];
            return None;
          }
          var rootValue := OutputOf(outputs, root);
          if !Truthy(rootValue) {
            rootValue := Dict(map[]);
          }
          if !rootValue.Dict? {
            return Some(NotADictionary);
          }
          components := components[component := outputs[root := Dict(Written(rootValue.fields, keys, value))]];
      }
      return None;
    }
  }

  // A write fails exactly for a reference with two @, an unknown component, and a dotted path into a
  // value that has no keys.
  lemma WriteFails(store: Store, reference: Reference, value: Value)
    ensures Put(store, reference, value).Err? <==>
      || reference.Bad?
      || (reference.Output? && reference.component !in store.components)
      || (reference.Output? && reference.keys != []
          && var root := OutputOf(store.components[reference.component], reference.root);
             !root.Dict? && root !in {Null, Bool(false), Num(0.0), Text(""), List([])})
  {
  }

  // A write to a whole output or a global reads back, if and only if the output has a name.
  lemma RootReadsBack(python: Python, store: Store, reference: Reference, value: Value)
    requires Put(store, reference, value).Ok?
    requires reference.Output? ==> reference.keys == []
    ensures Got(python, Put(store, reference, value).value, reference) == Ok(value)
       <==> (reference.Output? ==> reference.root != "")
  {
    if reference.Output? && reference.root == "" {
      NoDictInItself(store.components[reference.component]["" := value], "");
    }
  }

  // A dotted write is read at its path with the last key doubled, never at the path itself.
  lemma DottedReadsBackDoubled(python: Python, store: Store, reference: Reference, value: Value)
    requires Put(store, reference, value).Ok?
    requires reference.Output? && reference.keys != [] && reference.root != ""
    ensures var after := Put(store, reference, value).value;
      Got(python, after, reference.(keys := Target(reference.keys))) == Ok(value)
      && Got(python, after, reference) != Ok(value)
  {
    hide Read, Written;
    var fields := RootFields(OutputOf(store.components[reference.component], reference.root)).value;
    WriteReadsBackDoubled(python, fields, reference.keys, value);
    WriteDoesNotReadBack(python, fields, reference.keys, value);
  }

  // Other outputs, other components and the globals read as before.
  lemma WriteKeepsOtherOutputs(python: Python, store: Store, reference: Reference, value: Value, other: Reference)
    requires Put(store, reference, value).Ok?
    requires match (reference, other)
      case (Global(name), Global(name')) => name != name'
      case (Output(component, root, _), Output(component', root', _)) =>
        component != component' || (root != root' && root' != "")
      case _ => true
    ensures Got(python, Put(store, reference, value).value, other) == Got(python, store, other)
  {
    hide Read, Written;
  }

  // A dotted path of the same output that leaves the target of the write below dictionaries reads as before.
  lemma DottedKeepsOthers(python: Python, store: Store, reference: Reference, value: Value, path: seq<string>, j: nat)
    requires Put(store, reference, value).Ok?
    requires reference.Output? && reference.keys != [] && reference.root != ""
    requires j <= |reference.keys| && j < |path|
    requires path[..j] == Target(reference.keys)[..j] && path[j] != Target(reference.keys)[j]
    requires OutputOf(store.components[reference.component], reference.root).Dict?
    ensures var before := OutputOf(store.components[reference.component], reference.root);
      Got(python, Put(store, reference, value).value, reference.(keys := path))
      == if InDicts(before.fields, Target(reference.keys), j) then Got(python, store, reference.(keys := path))
         else Ok(Null)
  {
    hide Read, Written, InDicts, Target;
    var before := OutputOf(store.components[reference.component], reference.root);
    assert RootFields(before) == Ok(before.fields);
    WriteKeepsOthers(python, before.fields, reference.keys, value, path, j);
  }
}
