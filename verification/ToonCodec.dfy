/**
The line structure of a TOON document: the lines written for each value, a
decoder for those lines, and the proofs that headers and table rows read back.
*/
module ToonCodec {
  import opened Options
  import opened Sequences
  import opened Decimal
  import opened ToonText
  import opened ToonTable

  /** One line: its nesting depth (two spaces each) and its text. */
  datatype Line = Line(depth: nat, text: string)

  /** What is written for a value that starts in the middle of a line. */
  datatype Block = Block(head: string, rest: seq<Line>)

  function Prefixed(prefix: string, b: Block): Block {
    Block(prefix + b.head, b.rest)
  }

  // ------------------------------------------------------------------ headers

  /** An array or table header; no columns means a plain array. */
  datatype Header = Header(count: nat, keyed: bool, columns: seq<Column>)

  function ColumnsText(columns: seq<Column>): string
    decreases columns, 1
  {
    if columns == [] then "" else
    KeyText(columns[0].name) + BracedText(columns[0].children) +
    (if |columns| == 1 then "" else "," + ColumnsText(columns[1..]))
  }

  function BracedText(columns: seq<Column>): string
    decreases columns, 2
  {
    if columns == [] then "" else "{" + ColumnsText(columns) + "}"
  }

  function HeaderText(h: Header): string {
    "[" + (Digits(h.count) + ((if h.keyed then ":" else "") + ("]" + (BracedText(h.columns) + ":"))))
  }

  function CellsText(cells: seq<Value>): string
    requires forall i :: 0 <= i < |cells| ==> Primitive(cells[i])
  {
    if cells == [] then ""
    else if |cells| == 1 then PrimitiveText(cells[0])
    else PrimitiveText(cells[0]) + "," + CellsText(cells[1..])
  }

  // ------------------------------------------------------------------- blocks

  function ValuesOf(fields: seq<Field>): seq<Value> {
    seq(|fields|, i requires 0 <= i < |fields| => fields[i].value)
  }

  ghost predicate AllWellFormed(values: seq<Value>) {
    forall i :: 0 <= i < |values| ==> WellFormed(values[i])
  }

  ghost predicate FieldsWellFormed(fields: seq<Field>) {
    forall i :: 0 <= i < |fields| ==> WellFormed(fields[i].value)
  }

  predicate Fits(values: seq<Value>, columns: seq<Column>) {
    forall i :: 0 <= i < |values| ==> Matches(values[i], columns)
  }

  function RowText(v: Value, columns: seq<Column>): string
    requires Matches(v, columns)
  {
    CellsPerLeaf(v.fields, columns);
    CellsText(CellsOf(v.fields, columns))
  }

  function RowLines(values: seq<Value>, columns: seq<Column>, depth: nat): seq<Line>
    requires Fits(values, columns)
  {
    if values == [] then [] else
    [Line(depth, RowText(values[0], columns))] + RowLines(values[1..], columns, depth)
  }

  function KeyedRowLines(fields: seq<Field>, columns: seq<Column>, depth: nat): seq<Line>
    requires Fits(ValuesOf(fields), columns)
  {
    if fields == [] then [] else
    assert Matches(ValuesOf(fields)[0], columns);
    assert forall i :: 0 <= i < |fields| - 1 ==> ValuesOf(fields[1..])[i] == ValuesOf(fields)[i + 1];
    [Line(depth, KeyText(fields[0].key) + ": " + RowText(fields[0].value, columns))] +
    KeyedRowLines(fields[1..], columns, depth)
  }

  /** The keyed-table shape of an object with at least two fields. */
  function ObjectTable(fields: seq<Field>): Option<seq<Column>> {
    if |fields| >= 2 then TableColumns(ValuesOf(fields)) else None
  }

  predicate AllPrimitive(items: seq<Value>) {
    forall i :: 0 <= i < |items| ==> Primitive(items[i])
  }

  function ArrayBlock(items: seq<Value>, depth: nat, allowTable: bool): Block
    requires AllWellFormed(items)
    decreases items, 1
  {
    if AllPrimitive(items) then
      Block(HeaderText(Header(|items|, false, [])) + (if items == [] then "" else " " + CellsText(items)), [])
    else if allowTable && TableColumns(items).Some? then
      var columns := TableColumns(items).value;
      TableRowsFit(items);
      Block(HeaderText(Header(|items|, false, columns)), RowLines(items, columns, depth + 1))
    else
      Block(HeaderText(Header(|items|, false, [])), ItemsLines(items, depth + 1))
  }

  function ItemsLines(items: seq<Value>, depth: nat): seq<Line>
    requires AllWellFormed(items)
    decreases items, 0
  {
    if items == [] then [] else
    var b := ItemBlock(items[0], depth);
    [Line(depth, b.head)] + b.rest + ItemsLines(items[1..], depth)
  }

  function ItemBlock(v: Value, depth: nat): Block
    requires WellFormed(v)
    decreases v, 2
  {
    match v
    case Object(fields) =>
      if fields == [] then Block("-", []) else
      var first := FieldBlock(fields[0].key, fields[0].value, depth + 1);
      Block("- " + first.head, first.rest + FieldsLines(fields[1..], depth + 1))
    case Array(items) => Prefixed("- ", ArrayBlock(items, depth, false))
    case _ => Block("- " + PrimitiveText(v), [])
  }

  function FieldBlock(key: string, v: Value, depth: nat): Block
    requires WellFormed(v)
    decreases v, 2
  {
    match v
    case Object(fields) =>
      if ObjectTable(fields).Some? then
        var columns := ObjectTable(fields).value;
        TableRowsFit(ValuesOf(fields));
        Block(KeyText(key) + HeaderText(Header(|fields|, true, columns)), KeyedRowLines(fields, columns, depth + 1))
      else
        Block(KeyText(key) + ":", FieldsLines(fields, depth + 1))
    case Array(items) =>
      if items == [] then Block(KeyText(key) + ": []", [])
      else Prefixed(KeyText(key), ArrayBlock(items, depth, true))
    case _ => Block(KeyText(key) + ": " + PrimitiveText(v), [])
  }

  function FieldsLines(fields: seq<Field>, depth: nat): seq<Line>
    requires FieldsWellFormed(fields)
    decreases fields, 0
  {
    if fields == [] then [] else
    var b := FieldBlock(fields[0].key, fields[0].value, depth);
    [Line(depth, b.head)] + b.rest + FieldsLines(fields[1..], depth)
  }

  /** All lines of a document. */
  function DocumentLines(v: Value): seq<Line>
    requires WellFormed(v)
  {
    match v
    case Object(fields) =>
      if ObjectTable(fields).Some? then
        var columns := ObjectTable(fields).value;
        TableRowsFit(ValuesOf(fields));
        [Line(0, HeaderText(Header(|fields|, true, columns)))] + KeyedRowLines(fields, columns, 1)
      else FieldsLines(fields, 0)
    case Array(items) =>
      if items == [] then [Line(0, "[]")] else
      var b := ArrayBlock(items, 0, true);
      [Line(0, b.head)] + b.rest
    case _ => [Line(0, PrimitiveText(v))]
  }

  // ---------------------------------------------------------- reading headers

  function DigitEnd(s: string): (i: nat)
    ensures i <= |s| && (i < |s| ==> !IsDigit(s[i])) && AllDigits(s[..i])
  {
    if s == "" || !IsDigit(s[0]) then 0 else
    var n := DigitEnd(s[1..]);
    assert s[..1 + n] == [s[0]] + s[1..][..n];
    1 + n
  }

  function ReadColumns(s: string): (r: Option<(seq<Column>, string)>)
    ensures r.Some? ==> |r.value.1| < |s|
    decreases |s|, 1
  {
    var (name, t) :- ReadKey(s);
    var (children, u) :- ReadNested(t);
    if u != "" && u[0] == ',' then
      var (others, w) :- ReadColumns(u[1..]);
      Some(([Column(name, children)] + others, w))
    else Some(([Column(name, children)], u))
  }

  /** Reads a column list in braces, if there is one. */
  function ReadNested(t: string): (r: Option<(seq<Column>, string)>)
    ensures r.Some? ==> |r.value.1| <= |t|
    decreases |t|, 0
  {
    if t != "" && t[0] == '{' then
      var (inner, w) :- ReadColumns(t[1..]);
      if w != "" && w[0] == '}' then Some((inner, w[1..])) else None
    else Some(([], t))
  }

  /** The rest of a header once its count has been read. */
  function AfterCount(count: nat, keyed: bool, u: string): Option<(Header, string)> {
    if u == "" || u[0] != ']' then None else
    var (columns, w) :- ReadNested(u[1..]);
    if w == "" || w[0] != ':' then None else Some((Header(count, keyed, columns), w[1..]))
  }

  /** Reads `[count]` or `[count:]`, an optional column list and the colon. */
  function ReadHeader(s: string): Option<(Header, string)> {
    if s == "" || s[0] != '[' then None else
    var n := DigitEnd(s[1..]);
    var t := s[1 + n..];
    var keyed := t != "" && t[0] == ':';
    AfterCount(NatOf(s[1..][..n]), keyed, if keyed then t[1..] else t)
  }

  function ReadCells(s: string): Option<seq<Value>>
    decreases |s|
  {
    var (v, t) :- ReadPrimitive(s);
    if t == "" then Some([v])
    else if t[0] != ',' || |t| > |s| then None else
    var more :- ReadCells(t[1..]);
    Some([v] + more)
  }

  function ReadRow(columns: seq<Column>, text: string): Option<Value> {
    var cells :- ReadCells(text);
    var (fields, left) :- Rebuild(columns, cells);
    if left == [] then Some(Object(fields)) else None
  }

  function ReadRows(count: nat, columns: seq<Column>, lines: seq<Line>, depth: nat): (r: Option<(seq<Value>, seq<Line>)>)
    ensures r.Some? ==> |r.value.1| <= |lines|
  {
    if count == 0 then Some(([], lines))
    else if lines == [] || lines[0].depth != depth then None else
    var row :- ReadRow(columns, lines[0].text);
    var (more, rest) :- ReadRows(count - 1, columns, lines[1..], depth);
    Some(([row] + more, rest))
  }

  function ReadKeyedRows(count: nat, columns: seq<Column>, lines: seq<Line>, depth: nat): (r: Option<(seq<Field>, seq<Line>)>)
    ensures r.Some? ==> |r.value.1| <= |lines|
  {
    if count == 0 then Some(([], lines))
    else if lines == [] || lines[0].depth != depth then None else
    var (key, t) :- ReadKey(lines[0].text);
    if !(": " <= t) then None else
    var row :- ReadRow(columns, t[2..]);
    var (more, rest) :- ReadKeyedRows(count - 1, columns, lines[1..], depth);
    Some(([Field(key, row)] + more, rest))
  }

  // ----------------------------------------------------------- reading values

  /** Reads what a header introduces: inline cells, list items or table rows. */
  function ReadArray(text: string, depth: nat, lines: seq<Line>): (r: Option<(Value, seq<Line>)>)
    ensures r.Some? ==> |r.value.1| <= |lines|
    decreases |lines|, 2
  {
    var (h, t) :- ReadHeader(text);
    if h.columns != [] then
      if t != "" then None
      else if h.keyed then
        var (fields, rest) :- ReadKeyedRows(h.count, h.columns, lines, depth + 1);
        Some((Object(fields), rest))
      else
        var (rows, rest) :- ReadRows(h.count, h.columns, lines, depth + 1);
        Some((Array(rows), rest))
    else if t == "" then
      var (items, rest) :- ReadItems(h.count, lines, depth + 1);
      Some((Array(items), rest))
    else if t[0] == ' ' then
      var cells :- ReadCells(t[1..]);
      Some((Array(cells), lines))
    else None
  }

  function ReadItems(count: nat, lines: seq<Line>, depth: nat): (r: Option<(seq<Value>, seq<Line>)>)
    ensures r.Some? ==> |r.value.1| <= |lines|
    decreases |lines|, 1
  {
    if count == 0 then Some(([], lines))
    else if lines == [] || lines[0].depth != depth then None else
    var (item, rest) :- ReadItem(lines[0].text, depth, lines[1..]);
    var (more, rest') :- ReadItems(count - 1, rest, depth);
    Some(([item] + more, rest'))
  }

  function ReadItem(text: string, depth: nat, lines: seq<Line>): (r: Option<(Value, seq<Line>)>)
    ensures r.Some? ==> |r.value.1| <= |lines|
    decreases |lines|, 4
  {
    if text == "-" then Some((Object([]), lines))
    else if !("- " <= text) then None else
    var t := text[2..];
    if t != "" && t[0] == '[' then ReadArray(t, depth, lines)
    else if FieldHead(t) then
      var (first, rest) :- ReadField(t, depth + 1, lines);
      var (more, rest') :- ReadFields(rest, depth + 1);
      Some((Object([first] + more), rest'))
    else
      var (v, u) :- ReadPrimitive(t);
      if u == "" then Some((v, lines)) else None
  }

  function ReadField(text: string, depth: nat, lines: seq<Line>): (r: Option<(Field, seq<Line>)>)
    ensures r.Some? ==> |r.value.1| <= |lines|
    decreases |lines|, 3
  {
    var (key, t) :- ReadKey(text);
    if t != "" && t[0] == '[' then
      var (v, rest) :- ReadArray(t, depth, lines);
      Some((Field(key, v), rest))
    else if t == ":" then
      var (fields, rest) :- ReadFields(lines, depth + 1);
      Some((Field(key, Object(fields)), rest))
    else if t == ": []" then Some((Field(key, Array([])), lines))
    else if ": " <= t then
      var (v, u) :- ReadPrimitive(t[2..]);
      if u == "" then Some((Field(key, v), lines)) else None
    else None
  }

  function ReadFields(lines: seq<Line>, depth: nat): (r: Option<(seq<Field>, seq<Line>)>)
    ensures r.Some? ==> |r.value.1| <= |lines|
    decreases |lines|, 1
  {
    if lines == [] || lines[0].depth != depth then Some(([], lines)) else
    var (field, rest) :- ReadField(lines[0].text, depth, lines[1..]);
    var (more, rest') :- ReadFields(rest, depth);
    Some(([field] + more, rest'))
  }

  function ReadDocument(lines: seq<Line>): Option<Value> {
    if lines == [] then Some(Object([])) else
    var head := lines[0].text;
    if head == "[]" then Some(Array([]))
    else if head != "" && head[0] == '[' then
      var (v, rest) :- ReadArray(head, 0, lines[1..]);
      if rest == [] then Some(v) else None
    else if FieldHead(head) then
      var (fields, rest) :- ReadFields(lines, 0);
      if rest == [] then Some(Object(fields)) else None
    else
      var (v, u) :- ReadPrimitive(head);
      if u == "" && |lines| == 1 then Some(v) else None
  }

  // ------------------------------------------------------- headers round trip

  lemma {:induction false} DigitEndAppend(s: string, rest: string)
    requires AllDigits(s) && (rest == "" || !IsDigit(rest[0]))
    ensures DigitEnd(s + rest) == |s|
  {
    if s == "" {
      assert s + rest == rest;
    } else {
      DigitEndAppend(s[1..], rest);
      assert (s + rest)[1..] == s[1..] + rest;
    }
  }

  lemma {:induction false} BracedStarts(columns: seq<Column>, tail: string)
    requires tail != ""
    ensures var s := BracedText(columns) + tail;
      s != "" && s[0] == (if columns == [] then tail[0] else '{')
      && (columns == [] ==> s == tail) && (columns != [] ==> s[1..] == ColumnsText(columns) + ("}" + tail))
  {
    if columns == [] {
      assert BracedText(columns) + tail == tail;
    } else {
      assert BracedText(columns) + tail == "{" + (ColumnsText(columns) + ("}" + tail));
    }
  }

  lemma {:induction false} BracedReads(columns: seq<Column>, tail: string)
    requires tail != "" && tail[0] != '{'
    requires columns != [] ==> ReadColumns(ColumnsText(columns) + ("}" + tail)) == Some((columns, "}" + tail))
    ensures ReadNested(BracedText(columns) + tail) == Some((columns, tail))
  {
    BracedStarts(columns, tail);
    assert ("}" + tail)[1..] == tail;
  }

  lemma {:induction false} ColumnReads(column: Column, tail: string)
    requires tail != "" && tail[0] in {',', '}'}
    requires column.children != [] ==>
      ReadColumns(ColumnsText(column.children) + ("}" + tail)) == Some((column.children, "}" + tail))
    ensures var t := BracedText(column.children) + tail;
      ReadKey(KeyText(column.name) + t) == Some((column.name, t)) && ReadNested(t) == Some((column.children, tail))
  {
    BracedStarts(column.children, tail);
    BracedReads(column.children, tail);
    KeyReads(column.name, BracedText(column.children) + tail);
  }

  /** The text of the columns after the first, with the comma before them. */
  function OtherColumns(columns: seq<Column>): string
    requires columns != []
  {
    if |columns| == 1 then "" else "," + ColumnsText(columns[1..])
  }

  lemma {:induction false} ColumnsSplit(columns: seq<Column>, rest: string)
    requires columns != []
    ensures ColumnsText(columns) + rest ==
      KeyText(columns[0].name) + (BracedText(columns[0].children) + (OtherColumns(columns) + rest))
  {
    Regroup(KeyText(columns[0].name), BracedText(columns[0].children), OtherColumns(columns), rest);
  }

  lemma {:induction false} OthersRead(columns: seq<Column>, rest: string)
    requires columns != [] && rest != "" && rest[0] == '}'
    requires |columns| > 1 ==> ReadColumns(ColumnsText(columns[1..]) + rest) == Some((columns[1..], rest))
    ensures var tail := OtherColumns(columns) + rest;
      if |columns| == 1 then tail == rest
      else tail[0] == ',' && ReadColumns(tail[1..]) == Some((columns[1..], rest))
  {
    if |columns| == 1 {
      assert OtherColumns(columns) + rest == rest;
    } else {
      Uncons(',', ColumnsText(columns[1..]), rest);
    }
  }

  lemma {:induction false} ColumnsStep(columns: seq<Column>, rest: string)
    requires columns != [] && rest != "" && rest[0] == '}'
    requires |columns| > 1 ==> ReadColumns(ColumnsText(columns[1..]) + rest) == Some((columns[1..], rest))
    requires var children := columns[0].children; var tail := "}" + (OtherColumns(columns) + rest);
      children != [] ==> ReadColumns(ColumnsText(children) + tail) == Some((children, tail))
    ensures ReadColumns(ColumnsText(columns) + rest) == Some((columns, rest))
  {
    assert columns == [columns[0]] + columns[1..];
    assert |columns| == 1 ==> columns == [columns[0]];
    OthersRead(columns, rest);
    ColumnReads(columns[0], OtherColumns(columns) + rest);
    ColumnsSplit(columns, rest);
  }

  lemma {:induction false} ColumnsRead(columns: seq<Column>, rest: string)
    requires columns != [] && rest != "" && rest[0] == '}'
    ensures ReadColumns(ColumnsText(columns) + rest) == Some((columns, rest))
    decreases columns
  {
    if |columns| > 1 { ColumnsRead(columns[1..], rest); }
    var children := columns[0].children;
    if children != [] { ColumnsRead(children, "}" + (OtherColumns(columns) + rest)); }
    ColumnsStep(columns, rest);
  }

  lemma {:induction false} AfterCountReads(h: Header, rest: string)
    ensures AfterCount(h.count, h.keyed, "]" + (BracedText(h.columns) + (":" + rest))) == Some((h, rest))
  {
    var tail := ":" + rest;
    assert tail[1..] == rest;
    Uncons(']', BracedText(h.columns), tail);
    if h.columns != [] { ColumnsRead(h.columns, "}" + tail); }
    BracedReads(h.columns, tail);
  }

  lemma {:induction false} HeaderSplits(count: string, colon: string, braced: string, rest: string)
    ensures ("[" + (count + (colon + ("]" + (braced + ":"))))) + rest == "[" + (count + (colon + ("]" + (braced + (":" + rest)))))
  {
    Assoc("[", count + (colon + ("]" + (braced + ":"))), rest);
    Assoc(count, colon + ("]" + (braced + ":")), rest);
    Assoc(colon, "]" + (braced + ":"), rest);
    Assoc("]", braced + ":", rest);
    Assoc(braced, ":", rest);
  }

  /** The optional colon after the count. */
  lemma {:induction false} ColonReads(keyed: bool, u: string)
    requires u != "" && u[0] == ']'
    ensures var t := (if keyed then ":" else "") + u;
      t != "" && !IsDigit(t[0]) && (t[0] == ':' <==> keyed) && (if keyed then t[1..] else t) == u
  {
    if !keyed { assert "" + u == u; }
  }

  lemma {:induction false} HeaderReads(h: Header, rest: string)
    ensures ReadHeader(HeaderText(h) + rest) == Some((h, rest))
  {
    var colon := if h.keyed then ":" else "";
    var u := "]" + (BracedText(h.columns) + (":" + rest));
    HeaderSplits(Digits(h.count), colon, BracedText(h.columns), rest);
    ColonReads(h.keyed, u);
    CountReads(h.count, colon + u);
    AfterCountReads(h, rest);
  }

  lemma {:induction false} CountReads(count: nat, t: string)
    requires t != "" && !IsDigit(t[0])
    ensures var s := "[" + (Digits(count) + t); var n := DigitEnd(s[1..]);
      NatOf(s[1..][..n]) == count && s[1 + n..] == t
  {
    var digits := Digits(count);
    var s := "[" + (digits + t);
    assert s[1..] == digits + t;
    DigitEndAppend(digits, t);
    assert (digits + t)[..|digits|] == digits && s[1 + |digits|..] == t;
    DigitsRoundTrip(count);
  }

  lemma {:induction false} CellsRead(cells: seq<Value>)
    requires cells != [] && AllPrimitive(cells)
    ensures ReadCells(CellsText(cells)) == Some(cells)
  {
    var v := cells[0];
    if |cells| == 1 {
      assert cells == [v];
      assert PrimitiveText(v) + "" == CellsText(cells);
      PrimitiveReads(v, "");
    } else {
      assert cells == [v] + cells[1..];
      var tail := "," + CellsText(cells[1..]);
      assert tail[1..] == CellsText(cells[1..]);
      assert CellsText(cells) == PrimitiveText(v) + tail;
      CellsRead(cells[1..]);
      PrimitiveReads(v, tail);
    }
  }

  lemma {:induction false} LeavesExist(columns: seq<Column>)
    requires columns != []
    ensures LeafCount(columns) > 0
  {
    if columns[0].children != [] { LeavesExist(columns[0].children); }
  }

  lemma {:induction false} RowReads(v: Value, columns: seq<Column>)
    requires WellFormed(v) && Orderly(columns) && columns != [] && Matches(v, columns)
    ensures ReadRow(columns, RowText(v, columns)) == Some(v)
  {
    var cells := CellsOf(v.fields, columns);
    CellsPerLeaf(v.fields, columns);
    LeavesExist(columns);
    CellsRead(cells);
    RebuildRow(v.fields, columns, []);
    assert cells + [] == cells;
  }

  lemma {:induction false} RowsRead(values: seq<Value>, columns: seq<Column>, depth: nat, rest: seq<Line>)
    requires AllWellFormed(values) && Orderly(columns) && columns != [] && Fits(values, columns)
    ensures ReadRows(|values|, columns, RowLines(values, columns, depth) + rest, depth) == Some((values, rest))
  {
    if values == [] {
      assert RowLines(values, columns, depth) + rest == rest;
    } else {
      assert values == [values[0]] + values[1..];
      Uncons(Line(depth, RowText(values[0], columns)), RowLines(values[1..], columns, depth), rest);
      RowReads(values[0], columns);
      RowsRead(values[1..], columns, depth, rest);
    }
  }

  lemma {:induction false} KeyedRowReads(field: Field, columns: seq<Column>)
    requires WellFormed(field.value) && Orderly(columns) && columns != [] && Matches(field.value, columns)
    ensures var t := ": " + RowText(field.value, columns);
      ReadKey(KeyText(field.key) + ": " + RowText(field.value, columns)) == Some((field.key, t)) &&
      ": " <= t && ReadRow(columns, t[2..]) == Some(field.value)
  {
    var row := RowText(field.value, columns);
    assert KeyText(field.key) + ": " + row == KeyText(field.key) + (": " + row);
    KeyReads(field.key, ": " + row);
    assert (": " + row)[2..] == row;
    RowReads(field.value, columns);
  }

  lemma {:induction false} KeyedRowsRead(fields: seq<Field>, columns: seq<Column>, depth: nat, rest: seq<Line>)
    requires FieldsWellFormed(fields) && Orderly(columns) && columns != [] && Fits(ValuesOf(fields), columns)
    ensures ReadKeyedRows(|fields|, columns, KeyedRowLines(fields, columns, depth) + rest, depth) == Some((fields, rest))
  {
    if fields == [] {
      assert KeyedRowLines(fields, columns, depth) + rest == rest;
    } else {
      var field := fields[0];
      assert fields == [field] + fields[1..];
      assert Matches(ValuesOf(fields)[0], columns);
      assert forall i :: 0 <= i < |fields| - 1 ==> ValuesOf(fields[1..])[i] == ValuesOf(fields)[i + 1];
      var row := RowText(field.value, columns);
      Uncons(Line(depth, KeyText(field.key) + ": " + row), KeyedRowLines(fields[1..], columns, depth), rest);
      KeyedRowReads(field, columns);
      KeyedRowsRead(fields[1..], columns, depth, rest);
    }
  }
}
