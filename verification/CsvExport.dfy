/** The CSV branch of `saveResponseToFile` (src/models/request_manager.cpp). */
module CsvExport {
  import opened Strings

  /** One entry that `items()` yields: its key, and its value as `dump()` writes it. */
  datatype Cell = Cell(key: string, dump: string)

  type Item = seq<Cell>

  /** The parsed response body, as far as the export looks at it. */
  datatype Json = Unparsable | NotArray | Items(firstIsObject: bool, items: seq<Item>)

  function Keys(item: Item): (keys: seq<string>)
    ensures |keys| == |item|
    ensures forall i | 0 <= i < |item| :: keys[i] == item[i].key
  {
    seq(|item|, i requires 0 <= i < |item| => item[i].key)
  }

  function Dumps(item: Item): (dumps: seq<string>)
    ensures |dumps| == |item|
    ensures forall i | 0 <= i < |item| :: dumps[i] == item[i].dump
  {
    seq(|item|, i requires 0 <= i < |item| => item[i].dump)
  }

  /** The keys of the first item, then the values of every item. */
  function Table(items: seq<Item>): (rows: seq<seq<string>>)
    requires items != []
    ensures |rows| == |items| + 1 && rows[0] == Keys(items[0])
    ensures forall i | 0 <= i < |items| :: rows[i + 1] == Dumps(items[i])
  {
    [Keys(items[0])] + seq(|items|, i requires 0 <= i < |items| => Dumps(items[i]))
  }

  function Rows(rows: seq<seq<string>>): (lines: seq<string>)
    ensures |lines| == |rows|
    ensures forall i | 0 <= i < |rows| :: lines[i] == Join(rows[i], ',')
  {
    seq(|rows|, i requires 0 <= i < |rows| => Join(rows[i], ','))
  }

  /** The text of a table. */
  function Csv(rows: seq<seq<string>>): string {
    Lines(Rows(rows), '\n')
  }

  lemma {:induction false} JoinAppend(cells: seq<string>, last: string)
    ensures Join(cells + [last], ',') == if cells == [] then last else Join(cells, ',') + "," + last
  {
    if |cells| == 0 {
      assert cells + [last] == [last];
    } else {
      JoinAppend(cells[1..], last);
      assert (cells + [last])[1..] == cells[1..] + [last];
      if |cells| == 1 {
        assert cells[1..] == [];
      } else {
        assert cells[0] + "," + (Join(cells[1..], ',') + "," + last) == Join(cells, ',') + "," + last;
      }
    }
  }

  lemma {:induction false} LinesAppend(lines: seq<string>, last: string)
    ensures Lines(lines + [last], '\n') == Lines(lines, '\n') + last + "\n"
  {
    if lines == [] {
      assert lines + [last] == [last] && [last][1..] == [];
      assert Lines([last], '\n') == last + "\n" + Lines([], '\n');
    } else {
      LinesAppend(lines[1..], last);
      assert (lines + [last])[1..] == lines[1..] + [last];
      var head := lines[0] + "\n";
      assert head + (Lines(lines[1..], '\n') + last + "\n") == head + Lines(lines[1..], '\n') + last + "\n";
    }
  }

  /** One line: the cells with commas between them. */
  method WriteLine(cells: seq<string>) returns (line: string)
    ensures line == Join(cells, ',') + "\n"
  {
    line := "";
    var first := true;
    for i := 0 to |cells|
      invariant first == (i == 0) && line == Join(cells[..i], ',')
    {
      JoinAppend(cells[..i], cells[i]);
      assert cells[..i] + [cells[i]] == cells[..i + 1];
      if !first {
        line := line + ",";
      }
      line := line + cells[i];
      first := false;
    }
    assert cells[..|cells|] == cells;
    line := line + "\n";
  }

  lemma LinesStep(lines: seq<string>, k: nat)
    requires k < |lines|
    ensures Lines(lines[..k + 1], '\n') == Lines(lines[..k], '\n') + (lines[k] + "\n")
  {
    LinesAppend(lines[..k], lines[k]);
    assert lines[..k] + [lines[k]] == lines[..k + 1];
    assert Lines(lines[..k], '\n') + lines[k] + "\n" == Lines(lines[..k], '\n') + (lines[k] + "\n");
  }

  /** The header line, then one line for each item. */
  method WriteTable(items: seq<Item>) returns (out: string)
    requires items != []
    ensures out == Csv(Table(items))
  {
    ghost var lines := Rows(Table(items));
    out := WriteLine(Keys(items[0]));
    LinesStep(lines, 0);
    for i := 0 to |items|
      invariant out == Lines(lines[..i + 1], '\n')
    {
      var line := WriteLine(Dumps(items[i]));
      LinesStep(lines, i + 1);
      out := out + line;
    }
    assert lines[..|items| + 1] == lines;
  }

  /** Writes the file; a body that does not parse is reported, and one that is not an array that
      starts with an object leaves the file empty. */
  method SaveAsCsv(json: Json) returns (out: string, failed: bool)
    ensures failed <==> json.Unparsable?
    ensures json.Items? && json.items != [] && json.firstIsObject ==> out == Csv(Table(json.items))
    ensures !(json.Items? && json.items != [] && json.firstIsObject) ==> out == ""
  {
    out, failed := "", json.Unparsable?;
    if json.Items? && json.items != [] && json.firstIsObject {
      out := WriteTable(json.items);
    }
  }

  // ----- reading the text back

  function SplitCells(lines: seq<string>): (rows: seq<seq<string>>)
    ensures |rows| == |lines|
    ensures forall i | 0 <= i < |lines| :: rows[i] == Split(lines[i], ',')
  {
    seq(|lines|, i requires 0 <= i < |lines| => Split(lines[i], ','))
  }

  /** Splits on newlines, drops the empty piece after the last one, and splits on commas. */
  function ReadBack(text: string): seq<seq<string>> {
    var lines := Split(text, '\n');
    SplitCells(lines[..|lines| - 1])
  }

  predicate PlainText(s: string) {
    ',' !in s && '\n' !in s
  }

  /** No cell of the table holds a comma or a newline. */
  predicate Plain(rows: seq<seq<string>>) {
    forall i, j | 0 <= i < |rows| && 0 <= j < |rows[i]| :: PlainText(rows[i][j])
  }

  lemma {:induction false} JoinHasNoNewline(cells: seq<string>)
    requires forall j | 0 <= j < |cells| :: '\n' !in cells[j]
    ensures '\n' !in Join(cells, ',')
  {
    if |cells| <= 1 {
    } else {
      JoinHasNoNewline(cells[1..]);
    }
  }

  lemma {:induction false} PiecesHaveNoNewline(s: string)
    requires '\n' !in s
    ensures forall p | p in Split(s, ',') :: '\n' !in p
    decreases |s|
  {
    var comma := FindChar(s, ',', 0);
    if comma.None? {
    } else {
      PiecesHaveNoNewline(s[comma.value + 1..]);
    }
  }

  lemma PlainReadsBack(rows: seq<seq<string>>)
    requires Plain(rows) && forall i | 0 <= i < |rows| :: rows[i] != []
    ensures ReadBack(Csv(rows)) == rows
  {
    var lines := Rows(rows);
    forall i | 0 <= i < |rows|
      ensures '\n' !in lines[i] && Split(lines[i], ',') == rows[i]
    {
      assert forall j | 0 <= j < |rows[i]| :: PlainText(rows[i][j]);
      JoinHasNoNewline(rows[i]);
      SplitJoin(rows[i], ',');
    }
    SplitLines(lines, '\n');
    assert (lines + [""])[..|lines|] == lines;
  }

  lemma ReadBackIsPlain(text: string)
    ensures Plain(ReadBack(text))
  {
    var lines := Split(text, '\n');
    var rows := ReadBack(text);
    forall i, j | 0 <= i < |rows| && 0 <= j < |rows[i]|
      ensures PlainText(rows[i][j])
    {
      assert lines[i] in lines;
      PiecesHaveNoNewline(lines[i]);
      assert rows[i][j] in Split(lines[i], ',');
    }
  }

  lemma NoEmptyRow(text: string)
    ensures forall i | 0 <= i < |ReadBack(text)| :: ReadBack(text)[i] != []
  {
  }

  /** The exported table can be read back exactly when no item is empty and no key and no value
      holds a comma or a newline. */
  lemma CsvRoundTrip(items: seq<Item>)
    requires items != []
    ensures ReadBack(Csv(Table(items))) == Table(items) <==>
            Plain(Table(items)) && forall i | 0 <= i < |items| :: items[i] != []
  {
    var rows := Table(items);
    assert forall i | 0 <= i < |items| :: rows[i + 1] == [] <==> items[i] == [];
    ReadBackIsPlain(Csv(rows));
    if Plain(rows) && forall i | 0 <= i < |items| :: items[i] != [] {
      assert forall i | 0 < i < |rows| :: rows[i] == Dumps(items[i - 1]);
      PlainReadsBack(rows);
    }
    if ReadBack(Csv(rows)) == rows {
      NoEmptyRow(Csv(rows));
    }
  }

  /** A table that does not survive: values are not quoted, so a list of two is read as two cells. */
  lemma CommaIsLost()
    ensures var items := [[Cell("k", "[1,2]")]];
            ReadBack(Csv(Table(items))) != Table(items)
  {
    var items := [[Cell("k", "[1,2]")]];
    CsvRoundTrip(items);
    assert Table(items)[1][0][2] == ',';
  }

  // ----- columns

  /** The order of `std::string`, in which `items()` walks an object. */
  predicate Before(a: string, b: string) {
    if b == "" then false
    else if a == "" then true
    else a[0] < b[0] || (a[0] == b[0] && Before(a[1..], b[1..]))
  }

  /** One text is before the other exactly if, where they first differ, it has the smaller character or
      ends. */
  lemma {:induction false} BeforeIsLexicographic(a: string, b: string)
    ensures Before(a, b) <==>
            exists k: nat | k <= |a| && k < |b| && a[..k] == b[..k] :: k == |a| || a[k] < b[k]
  {
    if a == "" || b == "" {
      assert a == "" ==> a[..0] == b[..0];
    } else {
      BeforeIsLexicographic(a[1..], b[1..]);
      if Before(a, b) && a[0] == b[0] {
        var k: nat :|
          k <= |a[1..]| && k < |b[1..]| && a[1..][..k] == b[1..][..k] && (k == |a[1..]| || a[1..][k] < b[1..][k]);
        assert a[..k + 1] == [a[0]] + a[1..][..k] && b[..k + 1] == [b[0]] + b[1..][..k];
      } else if a[0] < b[0] {
        assert a[..0] == b[..0];
      }
      forall k: nat | k <= |a| && k < |b| && a[..k] == b[..k] && (k == |a| || a[k] < b[k])
        ensures Before(a, b)
      {
        if k > 0 {
          assert a[0] == a[..k][0] == b[..k][0] == b[0];
          assert a[1..][..k - 1] == a[..k][1..] == b[..k][1..] == b[1..][..k - 1];
        }
      }
    }
  }

  /** The keys of a JSON object, in order and without repetition. */
  predicate SortedKeys(keys: seq<string>) {
    forall i, j | 0 <= i < j < |keys| :: Before(keys[i], keys[j])
  }

  lemma {:induction false} BeforeIsStrict(a: string, b: string)
    ensures !(Before(a, b) && Before(b, a)) && (a == b ==> !Before(a, b))
  {
    if a == "" || b == "" {
    } else {
      BeforeIsStrict(a[1..], b[1..]);
    }
  }

  lemma HeadIsFirst(a: seq<string>, k: string)
    requires SortedKeys(a) && k in a
    ensures a != [] && (k == a[0] || Before(a[0], k))
  {
  }

  lemma HeadIsMember(a: seq<string>)
    ensures a == [] || a[0] in a
  {
  }

  lemma TailMembers(a: seq<string>, k: string)
    requires a != [] && SortedKeys(a)
    ensures k in a[1..] <==> k in a && k != a[0]
  {
    if k in a[1..] {
      var i :| 0 <= i < |a[1..]| && a[1..][i] == k;
      assert a[i + 1] == k && Before(a[0], a[i + 1]);
      BeforeIsStrict(a[0], k);
    }
  }

  /** Two sorted key lists with the same keys are the same list. */
  lemma {:induction false} SameKeysSameOrder(a: seq<string>, b: seq<string>)
    requires SortedKeys(a) && SortedKeys(b)
    requires forall k :: k in a <==> k in b
    ensures a == b
  {
    HeadIsMember(a);
    HeadIsMember(b);
    if a == [] {
    } else {
      HeadIsFirst(b, a[0]);
      HeadIsFirst(a, b[0]);
      BeforeIsStrict(a[0], b[0]);
      forall k
        ensures k in a[1..] <==> k in b[1..]
      {
        TailMembers(a, k);
        TailMembers(b, k);
      }
      SameKeysSameOrder(a[1..], b[1..]);
      assert a == [a[0]] + a[1..] && b == [b[0]] + b[1..];
    }
  }

  /** Every value of an exported object stands under its own key exactly when the object has the
      keys of the first one. */
  lemma ColumnsMatch(items: seq<Item>, i: nat)
    requires i < |items| && SortedKeys(Keys(items[0])) && SortedKeys(Keys(items[i]))
    ensures (forall k :: k in Keys(items[0]) <==> k in Keys(items[i])) <==>
            (|Table(items)[i + 1]| == |Table(items)[0]| &&
             forall j | 0 <= j < |items[i]| :: items[i][j] == Cell(Table(items)[0][j], Table(items)[i + 1][j]))
  {
    var aligned := |items[i]| == |items[0]| &&
                   forall j | 0 <= j < |items[i]| :: items[i][j].key == items[0][j].key;
    if forall k :: k in Keys(items[0]) <==> k in Keys(items[i]) {
      SameKeysSameOrder(Keys(items[0]), Keys(items[i]));
      assert forall j | 0 <= j < |items[i]| :: Keys(items[i])[j] == Keys(items[0])[j];
    }
    if aligned {
      assert Keys(items[0]) == Keys(items[i]);
    }
  }
}
