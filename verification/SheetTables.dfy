/** Finding the Markdown tables of a text: the line scan that precedes the naming of the sheets. */
module SheetTables {
  import opened Common
  import opened Options
  import SheetNames

  // The lines are stripped already; a table row has a second bar.
  predicate Barred(line: string)
  {
    line != "" && line[0] == '|'
  }

  predicate IsSeparator(line: string)
  {
    forall c :: c in line ==> c == ' ' || c == '|' || c == '-' || c == ':'
  }

  predicate IsRow(line: string)
  {
    Barred(line) && '|' in line[1..] && !IsSeparator(line)
  }

  predicate StartsWithTable(line: string)
  {
    |line| >= 5 && [Lower(line[0]), Lower(line[1]), Lower(line[2]), Lower(line[3]), Lower(line[4])] == "table"
  }

  predicate IsTitle(line: string)
  {
    line != "" && !Barred(line) && (StartsWithTable(line) || line[0] == '#' || ':' in line)
  }

  // The title that waits for the next table after a line outside every table.
  function Pending(line: string, pending: Option<string>, title: string -> string): Option<string>
  {
    if IsTitle(line) then Some(title(line)) else pending
  }

  function Row(line: string): seq<string>
  {
    if IsRow(line) then [line] else []
  }

  function Rows(lines: seq<string>): seq<string>
  {
    if lines == [] then [] else Row(lines[0]) + Rows(lines[1..])
  }

  // How many lines at the front have a bar: the length of a table.
  function Height(lines: seq<string>): (n: nat)
    ensures n <= |lines|
    ensures forall k :: 0 <= k < n ==> Barred(lines[k])
    ensures n < |lines| ==> !Barred(lines[n])
  {
    if lines == [] || !Barred(lines[0]) then 0 else 1 + Height(lines[1..])
  }

  datatype Block = Block(title: Option<string>, rows: seq<string>)

  /**
   * The tables of a text, block by block: a table starts at a row, goes on to the next line without a
   * bar, and is called by the last title between the start of the table before and its own.
   */
  function Blocks(lines: seq<string>, pending: Option<string>, title: string -> string): seq<Block>
    decreases |lines|
  {
    if lines == [] then []
    else if IsRow(lines[0]) then
      var n := Height(lines);
      [Block(pending, Rows(lines[..n]))] + Blocks(lines[n..], None, title)
    else
      Blocks(lines[1..], Pending(lines[0], pending, title), title)
  }

  function Flattened(blocks: seq<Block>): seq<string>
  {
    if blocks == [] then [] else blocks[0].rows + Flattened(blocks[1..])
  }

  lemma {:induction false} RowsOfBoth(first: seq<string>, second: seq<string>)
    ensures Rows(first + second) == Rows(first) + Rows(second)
  {
    hide Row;
    if first == [] {
      assert first + second == second;
    } else {
      RowsOfBoth(first[1..], second);
      var all := first + second;
      assert all[0] == first[0] && all[1..] == first[1..] + second;
      Associates(Row(first[0]), Rows(first[1..]), Rows(second));
    }
  }

  lemma RowHasHeight(lines: seq<string>)
    requires lines != [] && IsRow(lines[0])
    ensures Height(lines) > 0 && Rows(lines[..Height(lines)]) != []
  {
  }

  // No row is lost, repeated or moved, and every block has a row.
  lemma {:induction false} BlocksKeepRows(lines: seq<string>, pending: Option<string>, title: string -> string)
    ensures Flattened(Blocks(lines, pending, title)) == Rows(lines)
    ensures forall block :: block in Blocks(lines, pending, title) ==> block.rows != []
    decreases |lines|
  {
    hide IsTitle, IsSeparator, Pending, Barred;
    if lines != [] {
      if IsRow(lines[0]) {
        var n := Height(lines);
        RowHasHeight(lines);
        BlocksKeepRows(lines[n..], None, title);
        RowsOfBoth(lines[..n], lines[n..]);
        assert lines[..n] + lines[n..] == lines;
        assert Blocks(lines, pending, title) == [Block(pending, Rows(lines[..n]))] + Blocks(lines[n..], None, title);
        assert Blocks(lines, pending, title)[1..] == Blocks(lines[n..], None, title);
      } else {
        BlocksKeepRows(lines[1..], Pending(lines[0], pending, title), title);
      }
    }
  }

  // The blocks still to come, when the scan stands in the middle of a text.
  function Rest(inTable: bool, rows: seq<string>, name: Option<string>, pending: Option<string>,
                lines: seq<string>, title: string -> string): seq<Block>
  {
    if inTable then
      var n := Height(lines);
      [Block(name, rows + Rows(lines[..n]))] + Blocks(lines[n..], pending, title)
    else
      Blocks(lines, pending, title)
  }

  lemma RestAfterBar(rows: seq<string>, name: Option<string>, pending: Option<string>, lines: seq<string>,
                     title: string -> string)
    requires lines != [] && Barred(lines[0])
    ensures Rest(true, rows, name, pending, lines, title)
         == Rest(true, rows + Row(lines[0]), name, pending, lines[1..], title)
  {
    var n := Height(lines);
    assert lines[1..][..n - 1] == lines[..n][1..];
    assert lines[1..][n - 1..] == lines[n..];
    assert rows + Rows(lines[..n])
      == rows + Row(lines[0]) + Rows(lines[..n][1..]);
  }

  lemma RestFromRow(pending: Option<string>, lines: seq<string>, title: string -> string)
    requires lines != [] && IsRow(lines[0])
    ensures Rest(false, [], None, pending, lines, title) == Rest(true, [], pending, None, lines, title)
  {
    assert [] + Rows(lines[..Height(lines)]) == Rows(lines[..Height(lines)]);
  }

  lemma RestAtBreak(rows: seq<string>, name: Option<string>, lines: seq<string>, title: string -> string)
    requires lines != [] && !Barred(lines[0])
    ensures Rest(true, rows, name, None, lines, title)
         == [Block(name, rows)]
          + Rest(false, [], None, Pending(lines[0], None, title), lines[1..], title)
  {
    hide IsTitle, IsSeparator;
    assert Height(lines) == 0 && lines[0..] == lines;
    assert rows + Rows(lines[..0]) == rows;
    assert Blocks(lines, None, title) == Blocks(lines[1..], Pending(lines[0], None, title), title);
  }

  // A line of a table that holds something: a second bar, and a character that is no part of a ruler.
  predicate HoldsCells(line: string)
  {
    |line| >= 2 && line[0] == '|' && (exists k :: 1 <= k < |line| && line[k] == '|') && exists k :: 0 <= k < |line| && line[k] !in " |-:"
  }

  // A line that may name the next table: it begins with "table" in any case or with '#', or has a colon.
  predicate MayName(line: string)
  {
    line != "" && line[0] != '|'
    && ((|line| >= 5 && Lower(line[0]) == 't' && Lower(line[1]) == 'a' && Lower(line[2]) == 'b' && Lower(line[3]) == 'l' && Lower(line[4]) == 'e')
        || line[0] == '#' || exists k :: 0 <= k < |line| && line[k] == ':')
  }

  lemma CellsAreRow(line: string)
    ensures IsRow(line) <==> HoldsCells(line)
  {
    if Barred(line) {
      SecondBar(line);
      NoRuler(line);
    }
  }

  lemma SecondBar(line: string)
    requires line != ""
    ensures '|' in line[1..] <==> exists k :: 1 <= k < |line| && line[k] == '|'
  {
    if '|' in line[1..] {
      var k :| 0 <= k < |line[1..]| && line[1..][k] == '|';
      assert line[k + 1] == '|';
    }
    if k :| 1 <= k < |line| && line[k] == '|' {
      assert line[1..][k - 1] == '|';
    }
  }

  lemma NoRuler(line: string)
    ensures !IsSeparator(line) <==> exists k :: 0 <= k < |line| && line[k] !in " |-:"
  {
    if k :| 0 <= k < |line| && line[k] !in " |-:" {
      assert line[k] in line;
    }
    if !IsSeparator(line) {
      var c :| c in line && !(c == ' ' || c == '|' || c == '-' || c == ':');
      var k :| 0 <= k < |line| && line[k] == c;
      assert line[k] !in " |-:";
    }
  }

  lemma MayNameIsTitle(line: string)
    ensures IsTitle(line) <==> MayName(line)
  {
    if ':' in line {
      var k :| 0 <= k < |line| && line[k] == ':';
    }
  }

  lemma {:induction false} AllRows(rows: seq<string>)
    requires forall k :: 0 <= k < |rows| ==> IsRow(rows[k])
    ensures Height(rows) == |rows| && Rows(rows) == rows
  {
    hide IsSeparator;
    if rows != [] {
      AllRows(rows[1..]);
      assert rows == [rows[0]] + rows[1..];
    }
  }

  // A table is called by the last line before it that may name it, whatever other lines come between, and a table without
  // such a line has no title.
  lemma TitledTable(line: string, between: seq<string>, rows: seq<string>, title: string -> string)
    requires rows != [] && (forall k :: 0 <= k < |rows| ==> HoldsCells(rows[k])) && (line == "" || line[0] != '|')
    requires forall k :: 0 <= k < |between| ==> (between[k] == "" || between[k][0] != '|') && !MayName(between[k])
    ensures Blocks([line] + between + rows, None, title) == [Block(if MayName(line) then Some(title(line)) else None, rows)]
  {
    hide HoldsCells, MayName, IsRow, IsTitle;
    MayNameIsTitle(line);
    NoBarNoRow(line);
    var pending := Pending(line, None, title);
    assert [line] + between + rows == [line] + (between + rows);
    PassOver(line, between + rows, None, title);
    WaitingTitle(between, rows, pending, title);
  }

  lemma {:induction false} WaitingTitle(between: seq<string>, rows: seq<string>, pending: Option<string>, title: string -> string)
    requires rows != [] && forall k :: 0 <= k < |rows| ==> HoldsCells(rows[k])
    requires forall k :: 0 <= k < |between| ==> (between[k] == "" || between[k][0] != '|') && !MayName(between[k])
    ensures Blocks(between + rows, pending, title) == [Block(pending, rows)]
    decreases |between|
  {
    hide HoldsCells, MayName, IsRow, IsTitle, Blocks;
    if between == [] {
      assert between + rows == rows;
      OneTable(rows, pending, title);
    } else {
      MayNameIsTitle(between[0]);
      NoBarNoRow(between[0]);
      WaitingTitle(between[1..], rows, pending, title);
      assert between == [between[0]] + between[1..] && between + rows == [between[0]] + (between[1..] + rows);
      PassOver(between[0], between[1..] + rows, pending, title);
    }
  }

  lemma OneTable(rows: seq<string>, pending: Option<string>, title: string -> string)
    requires rows != [] && forall k :: 0 <= k < |rows| ==> HoldsCells(rows[k])
    ensures Blocks(rows, pending, title) == [Block(pending, rows)]
  {
    hide HoldsCells, IsRow;
    forall k | 0 <= k < |rows| ensures IsRow(rows[k]) {
      CellsAreRow(rows[k]);
    }
    AllRows(rows);
    assert rows[..|rows|] == rows && rows[|rows|..] == [];
    hide Height, Rows;
    assert Blocks(rows, pending, title) == [Block(pending, rows)] + Blocks([], None, title);
  }

  lemma PassOver(line: string, lines: seq<string>, pending: Option<string>, title: string -> string)
    requires !IsRow(line)
    ensures Blocks([line] + lines, pending, title) == Blocks(lines, Pending(line, pending, title), title)
  {
    hide IsRow, Pending;
    assert ([line] + lines)[1..] == lines;
  }

  lemma NoBarNoRow(line: string)
    requires line == "" || line[0] != '|'
    ensures !IsRow(line)
  {
  }

  datatype Sheet = Sheet(name: string, rows: seq<string>)

  predicate IsRemoved(c: char)
  {
    c in "*?[]:"
  }

  // The name of a sheet before it is made unique.
  function Cleaned(s: string): string
  {
    if s == "" then ""
    else
      (if s[0] == '/' || s[0] == '\\' then "_" else if IsRemoved(s[0]) then "" else [s[0]]) + Cleaned(s[1..])
  }

  function SheetName(name: Option<string>, count: nat): string
  {
    if name.Some? && name.value != "" then Cleaned(SheetNames.Slice(name.value, SheetNames.LIMIT))
    else "Table_" + SheetNames.Decimal(count)
  }

  // The blocks that parse to a table with data, numbered from 1.
  function Sheets(blocks: seq<Block>, parses: seq<string> -> bool): seq<Sheet>
  {
    if blocks == [] then []
    else
      var last := |blocks| - 1;
      var before := Sheets(blocks[..last], parses);
      before
      + if parses(blocks[last].rows)
      then [Sheet(SheetName(blocks[last].title, |before| + 1), blocks[last].rows)] else []
  }

  lemma SheetsOneMore(blocks: seq<Block>, block: Block, parses: seq<string> -> bool)
    ensures Sheets(blocks + [block], parses)
         == Sheets(blocks, parses)
          + if parses(block.rows)
            then [Sheet(SheetName(block.title, |Sheets(blocks, parses)| + 1), block.rows)] else []
  {
    assert (blocks + [block])[..|blocks|] == blocks;
  }

  /**
   * The scan with its flags: one line after the other, a table is saved when it ends, and the last one
   * after the loop. What it finds are the blocks.
   */
  method Scan(lines: seq<string>, title: string -> string, parses: seq<string> -> bool)
    returns (tables: seq<Sheet>)
    ensures tables == Sheets(Blocks(lines, None, title), parses)
  {
    hide Blocks, Sheets, Rest, IsRow, IsTitle, IsSeparator, SheetName;
    tables := [];
    var current: seq<string> := [];
    var currentTitle: Option<string> := None;
    var pending: Option<string> := None;
    var inTable := false;
    var count := 0;
    ghost var saved: seq<Block> := [];
    ScanStarts(lines, title, parses);
    for i := 0 to |lines|
      invariant saved + Rest(inTable, current, currentTitle, pending, lines[i..], title) == Blocks(lines, None, title)
      invariant tables == Sheets(saved, parses) && count == |tables|
      invariant inTable ==> current != [] && pending == None
      invariant !inTable ==> current == [] && currentTitle == None
    {
      var stripped := lines[i];
      ghost var here := lines[i..];
      assert here[0] == stripped && here[1..] == lines[i + 1..];
      if !inTable && IsTitle(stripped) {
        NoTitleIsRow(stripped);
        LineOutside(pending, here, title);
        pending := Some(title(stripped));
      } else if Barred(stripped) && '|' in stripped[1..] {
        if IsSeparator(stripped) {
          NoRow(stripped);
          if inTable {
            RestAfterBar(current, currentTitle, pending, here, title);
            assert current + [] == current;
          } else {
            LineOutside(pending, here, title);
          }
          continue;
        }
        ARow(stripped);
        if !inTable {
          RestFromRow(pending, here, title);
          inTable := true;
          current := [];
          currentTitle := pending;
          pending := None;
        }
        RestAfterBar(current, currentTitle, pending, here, title);
        current := current + [stripped];
      } else if inTable && !Barred(stripped) {
        RestAtBreak(current, currentTitle, here, title);
        SheetsOneMore(saved, Block(currentTitle, current), parses);
        if parses(current) {
          count := count + 1;
          tables := tables + [Sheet(SheetName(currentTitle, count), current)];
        }
        saved := saved + [Block(currentTitle, current)];
        inTable := false;
        current := [];
        currentTitle := None;
        pending := Pending(stripped, None, title);
      } else {
        NoRow(stripped);
        if inTable {
          RestAfterBar(current, currentTitle, pending, here, title);
          assert current + [] == current;
        } else {
          LineOutside(pending, here, title);
        }
      }
    }
    ScanEnds(inTable, current, currentTitle, pending, title);
    assert lines[|lines|..] == [];
    if inTable && current != [] {
      SheetsOneMore(saved, Block(currentTitle, current), parses);
      if parses(current) {
        count := count + 1;
        tables := tables + [Sheet(SheetName(currentTitle, count), current)];
      }
      saved := saved + [Block(currentTitle, current)];
    } else {
      assert saved + [] == saved;
    }
    assert saved == Blocks(lines, None, title);
  }

  lemma ScanStarts(lines: seq<string>, title: string -> string, parses: seq<string> -> bool)
    ensures [] + Rest(false, [], None, None, lines[0..], title) == Blocks(lines, None, title)
    ensures Sheets([], parses) == []
  {
    assert lines[0..] == lines;
  }

  lemma ScanEnds(inTable: bool, rows: seq<string>, name: Option<string>, pending: Option<string>,
                 title: string -> string)
    ensures Rest(inTable, rows, name, pending, [], title) == if inTable then [Block(name, rows)] else []
  {
    var none: seq<string> := [];
    assert none[..0] == none && none[0..] == none;
    assert rows + Rows(none) == rows;
  }

  lemma NoTitleIsRow(line: string)
    requires IsTitle(line)
    ensures !IsRow(line)
  {
  }

  lemma LineOutside(pending: Option<string>, lines: seq<string>, title: string -> string)
    requires lines != [] && !IsRow(lines[0])
    ensures Rest(false, [], None, pending, lines, title)
         == Rest(false, [], None, Pending(lines[0], pending, title), lines[1..], title)
  {
  }

  lemma NoRow(line: string)
    requires !Barred(line) || '|' !in line[1..] || IsSeparator(line)
    ensures !IsRow(line)
  {
  }

  lemma ARow(line: string)
    requires Barred(line) && '|' in line[1..] && !IsSeparator(line)
    ensures IsRow(line)
  {
  }

  const FORBIDDEN := "/\\*?[]:"

  predicate Clean(name: string)
  {
    forall c :: c in name ==> c !in FORBIDDEN
  }

  // A table without a title, or with an empty one, is called by its number among the tables that parse.
  lemma UntitledIsNumbered(blocks: seq<Block>, rows: seq<string>, title: Option<string>, parses: seq<string> -> bool)
    requires parses(rows) && (title == None || title == Some(""))
    ensures Sheets(blocks + [Block(title, rows)], parses)
         == Sheets(blocks, parses) + [Sheet("Table_" + SheetNames.Decimal(|Sheets(blocks, parses)| + 1), rows)]
  {
    SheetsOneMore(blocks, Block(title, rows), parses);
  }

  function FirstOf(s: string, n: nat): string
  {
    if |s| <= n then s else s[..n]
  }

  // A table that does not parse gets no sheet and no number; a titled one is called by what cleaning leaves of its title's
  // first 31 characters.
  lemma TitledIsCalled(blocks: seq<Block>, block: Block, parses: seq<string> -> bool)
    ensures !parses(block.rows) ==> Sheets(blocks + [block], parses) == Sheets(blocks, parses)
    ensures parses(block.rows) && block.title.Some? && block.title.value != "" ==>
      Sheets(blocks + [block], parses) == Sheets(blocks, parses) + [Sheet(Cleaned(FirstOf(block.title.value, 31)), block.rows)]
  {
    SheetsOneMore(blocks, block, parses);
    assert Sheets(blocks, parses) + [] == Sheets(blocks, parses);
    if block.title.Some? {
      assert SheetNames.Slice(block.title.value, SheetNames.LIMIT) == FirstOf(block.title.value, 31);
    }
  }

  lemma {:induction false} CleanedIsClean(s: string)
    ensures Clean(Cleaned(s)) && |Cleaned(s)| <= |s|
    ensures Cleaned(s) == "" <==> forall c :: c in s ==> IsRemoved(c)
  {
    if s != "" {
      CleanedIsClean(s[1..]);
      assert s == [s[0]] + s[1..];
      assert Cleaned(s) == "" <==> IsRemoved(s[0]) && Cleaned(s[1..]) == "";
    }
  }

  // Cleaning goes character by character: slashes become underscores, other marks a sheet name must not have go, and the
  // rest stays.
  lemma CleanedOne(c: char)
    ensures Cleaned([c]) == if c in "/\\" then "_" else if c in "*?[]:" then "" else [c]
  {
    assert [c][1..] == "" && Cleaned("") == "";
  }

  lemma {:induction false} CleanedByCharacter(a: string, b: string)
    ensures Cleaned(a + b) == Cleaned(a) + Cleaned(b)
    decreases |a|
  {
    if a == "" {
      assert a + b == b;
    } else {
      CleanedByCharacter(a[1..], b);
      assert (a + b)[1..] == a[1..] + b && (a + b)[0] == a[0];
      hide IsRemoved;
    }
  }

  lemma {:induction false} DecimalIsClean(n: nat)
    ensures Clean(SheetNames.Decimal(n))
  {
    if n >= 10 {
      DecimalIsClean(n / 10);
    }
  }

  // A title of which nothing is left within the limit.
  predicate IsCleanedAway(name: Option<string>)
  {
    name.Some? && name.value != "" && forall c :: c in SheetNames.Slice(name.value, SheetNames.LIMIT) ==> IsRemoved(c)
  }

  // A name is empty if and only if the title is not and its first 31 characters are all removed.
  lemma SheetNameIsEmpty(name: Option<string>, count: nat)
    ensures SheetName(name, count) == "" <==> IsCleanedAway(name)
  {
    if name.Some? {
      CleanedIsClean(SheetNames.Slice(name.value, SheetNames.LIMIT));
    }
  }

  predicate HasEmptyName(tables: seq<Sheet>)
  {
    exists i :: 0 <= i < |tables| && tables[i].name == ""
  }

  predicate LosesTitle(block: Block, parses: seq<string> -> bool)
  {
    parses(block.rows) && IsCleanedAway(block.title)
  }

  lemma HasEmptyNameLast(tables: seq<Sheet>, last: Sheet)
    ensures HasEmptyName(tables + [last]) <==> HasEmptyName(tables) || last.name == ""
  {
    var all := tables + [last];
    assert all[|tables|] == last && forall i :: 0 <= i < |tables| ==> all[i] == tables[i];
  }

  lemma {:induction false} EmptyNamesOf(blocks: seq<Block>, parses: seq<string> -> bool)
    ensures HasEmptyName(Sheets(blocks, parses)) <==> exists block :: block in blocks && LosesTitle(block, parses)
  {
    hide SheetName, IsCleanedAway;
    if blocks != [] {
      var front, block := blocks[..|blocks| - 1], blocks[|blocks| - 1];
      assert blocks == front + [block];
      EmptyNamesOf(front, parses);
      SheetsOneMore(front, block, parses);
      SheetNameIsEmpty(block.title, |Sheets(front, parses)| + 1);
      HasEmptyNameLast(Sheets(front, parses), Sheet(SheetName(block.title, |Sheets(front, parses)| + 1), block.rows));
      assert Sheets(front, parses) + [] == Sheets(front, parses);
      hide HasEmptyName, LosesTitle, Sheets;
      assert block in blocks && forall b :: b in blocks <==> b in front || b == block;
    }
  }

  // Making the names different leaves the first empty one as it is, and makes no other empty.
  lemma EmptyNameStays(tables: seq<Sheet>, names: seq<string>)
    requires |names| == |tables| && forall i :: 0 <= i < |names| ==> SheetNames.IsFirstFree(tables[i].name, names[i], names[..i])
    ensures "" in names <==> HasEmptyName(tables)
  {
    forall i | 0 <= i < |names| ensures names[i] == "" ==> tables[i].name == ""
      ensures tables[i].name == "" && "" !in names[..i] ==> names[i] == ""
    {
      EmptyIsFirst(tables[i].name, names[i], names[..i]);
    }
    if i :| 0 <= i < |tables| && tables[i].name == "" {
      assert "" in names[..i] ==> "" in names;
      assert names[i] == "" ==> "" in names;
    }
  }

  lemma EmptyIsFirst(original: string, name: string, earlier: seq<string>)
    requires SheetNames.IsFirstFree(original, name, earlier)
    ensures name == "" <==> original == "" && "" !in earlier
  {
    var tries: nat :| name == SheetNames.Tried(original, tries) && name !in earlier
      && forall k :: 0 <= k < tries ==> SheetNames.Tried(original, k) in earlier;
    assert SheetNames.Tried(original, 0) == original;
    assert tries > 0 ==> |SheetNames.Tried(original, tries)| >= |SheetNames.Suffix(tries)| > 0;
  }

  // A table under the title ":".
  lemma ColonIsCleanedAway(title: string -> string, parses: seq<string> -> bool)
    requires title(":") == ":" && parses(["|a|", "|b|"])
    ensures Blocks([":", "|a|", "|b|"], None, title) == [Block(Some(":"), ["|a|", "|b|"])]
    ensures Sheets(Blocks([":", "|a|", "|b|"], None, title), parses) == [Sheet("", ["|a|", "|b|"])]
  {
    hide Blocks, Sheets, SheetName;
    var blocks := [Block(Some(":"), ["|a|", "|b|"])];
    ColonBlock(title);
    SheetNameIsEmpty(Some(":"), 1);
    NoSheets(parses);
    SheetsOneMore([], blocks[0], parses);
    assert [] + blocks == blocks;
  }

  lemma NoSheets(parses: seq<string> -> bool)
    ensures Sheets([], parses) == []
  {
  }

  lemma ColonBlock(title: string -> string)
    requires title(":") == ":"
    ensures Blocks([":", "|a|", "|b|"], None, title) == [Block(Some(":"), ["|a|", "|b|"])]
  {
    var rows := ["|a|", "|b|"];
    TwoRows();
    assert Pending(":", None, title) == Some(":") && !IsRow(":");
    hide Rows, Height, IsRow, Pending;
    assert ([":"] + rows)[1..] == rows && rows[..2] == rows && rows[2..] == [];
    assert Blocks(rows, Some(":"), title) == [Block(Some(":"), rows)] + Blocks([], None, title);
  }

  lemma TwoRows()
    ensures IsRow("|a|") && IsRow("|b|") && Height(["|a|", "|b|"]) == 2 && Rows(["|a|", "|b|"]) == ["|a|", "|b|"]
  {
    var rows := ["|a|", "|b|"];
    assert 'a' in "|a|" && 'b' in "|b|";
    assert "|a|"[1..] == "a|" && "|b|"[1..] == "b|";
    assert rows[1..] == ["|b|"] && rows[1..][1..] == [];
  }

  lemma SheetNameFits(name: Option<string>, count: nat)
    requires count < SheetNames.Power(SheetNames.LIMIT - 6)
    ensures Fits(SheetName(name, count))
  {
    SheetNames.DecimalLength(count, SheetNames.LIMIT - 6);
    DecimalIsClean(count);
    if name.Some? {
      CleanedIsClean(SheetNames.Slice(name.value, SheetNames.LIMIT));
    }
  }

  lemma {:induction false} FewBlocks(lines: seq<string>, pending: Option<string>, title: string -> string)
    ensures |Blocks(lines, pending, title)| <= |lines|
    decreases |lines|
  {
    if lines != [] {
      if IsRow(lines[0]) {
        FewBlocks(lines[Height(lines)..], None, title);
      } else {
        FewBlocks(lines[1..], Pending(lines[0], pending, title), title);
      }
    }
  }

  predicate Fits(name: string)
  {
    |name| <= 31 && Clean(name)
  }

  lemma {:induction false} SheetsFit(blocks: seq<Block>, parses: seq<string> -> bool)
    requires |blocks| < SheetNames.Power(SheetNames.LIMIT - 6)
    ensures |Sheets(blocks, parses)| <= |blocks|
    ensures forall i :: 0 <= i < |Sheets(blocks, parses)| ==> Fits(Sheets(blocks, parses)[i].name)
  {
    hide Fits, SheetName, SheetNames.Power;
    if blocks != [] {
      var last := |blocks| - 1;
      SheetsFit(blocks[..last], parses);
      SheetNameFits(blocks[last].title, |Sheets(blocks[..last], parses)| + 1);
    }
  }

  lemma TriedFits(original: string, tries: nat)
    requires Fits(original) && tries < SheetNames.Power(SheetNames.LIMIT - 1)
    ensures Fits(SheetNames.Tried(original, tries))
  {
    if tries > 0 {
      SheetNames.DecimalLength(tries, SheetNames.LIMIT - 1);
      SheetNames.CandidateFits(original, tries);
      DecimalIsClean(tries);
    }
  }

  lemma {:induction false} DistinctAtMostLength(names: seq<string>)
    ensures |set name | name in names| <= |names|
  {
    if names != [] {
      var last := |names| - 1;
      DistinctAtMostLength(names[..last]);
      assert (set name | name in names) == (set name | name in names[..last]) + {names[last]};
    }
  }

  lemma FirstFreeFits(original: string, name: string, earlier: seq<string>)
    requires SheetNames.IsFirstFree(original, name, earlier)
    requires Fits(original) && |earlier| + 1 < SheetNames.Power(SheetNames.LIMIT - 1)
    ensures Fits(name)
  {
    hide Fits, SheetNames.Power, SheetNames.Tried;
    var tries: nat :| name == SheetNames.Tried(original, tries)
      && forall k :: 0 <= k < tries ==> SheetNames.Tried(original, k) in earlier;
    if tries > 0 {
      SheetNames.CandidatesHeld(original, (set used | used in earlier), tries - 1);
      DistinctAtMostLength(earlier);
    }
    TriedFits(original, tries);
  }

  lemma {:induction false} PowerGrows(m: nat, n: nat)
    requires m < n
    ensures 10 * SheetNames.Power(m) <= SheetNames.Power(n)
  {
    if m + 1 < n {
      PowerGrows(m, n - 1);
    }
  }

  lemma DataFits()
    ensures Fits("Data")
  {
  }

  /**
   * The whole export: every table that parses gets its own sheet, a text without tables a single one.
   * For a text with fewer than 10^25 lines all names are different, at most 31 characters long and free
   * of the characters that a sheet name must not have.
   */
  method Export(content: string, lines: seq<string>, title: string -> string, parses: seq<string> -> bool)
    returns (names: seq<string>, tables: seq<Sheet>)
    ensures tables ==
      var found := Sheets(Blocks(lines, None, title), parses);
      if found == [] then [Sheet("Data", [content])] else found
    ensures |names| == |tables| && NoDuplicates(names)
    ensures forall i :: 0 <= i < |names| ==> SheetNames.IsFirstFree(tables[i].name, names[i], names[..i])
    ensures "" in names <==> exists block :: block in Blocks(lines, None, title) && LosesTitle(block, parses)
    ensures |lines| < SheetNames.Power(SheetNames.LIMIT - 6) ==> forall i :: 0 <= i < |names| ==> Fits(names[i])
  {
    hide Sheets, Blocks, Fits, SheetNames.Power, SheetNames.IsFirstFree, LosesTitle;
    tables := Scan(lines, title, parses);
    EmptyNamesOf(Blocks(lines, None, title), parses);
    if tables == [] {
      tables := [Sheet("Data", [content])];
    }
    var originals := seq(|tables|, i requires 0 <= i < |tables| => tables[i].name);
    names := SheetNames.NameSheets(originals);
    EmptyNameStays(tables, names);
    if |lines| < SheetNames.Power(SheetNames.LIMIT - 6) {
      FewBlocks(lines, None, title);
      SheetsFit(Blocks(lines, None, title), parses);
      PowerGrows(SheetNames.LIMIT - 6, SheetNames.LIMIT - 1);
      DataFits();
      forall i | 0 <= i < |names| ensures Fits(names[i]) {
        FirstFreeFits(originals[i], names[i], names[..i]);
      }
    }
  }
}
