/**
The text of a TOON document: lines with two spaces of indentation per level,
separated by line breaks, none at the end.
*/
module ToonDocument {
  import opened Options
  import opened Sequences
  import opened Decimal
  import opened ToonText
  import opened ToonTable
  import opened ToonCodec
  import opened ToonRoundTrip

  function Indentation(depth: nat): string {
    if depth == 0 then "" else "  " + Indentation(depth - 1)
  }

  /** Every line with the line break that ends it. */
  function Render(lines: seq<Line>): string {
    if lines == [] then "" else
    Indentation(lines[0].depth) + lines[0].text + "\n" + Render(lines[1..])
  }

  function WithoutLast(s: string): string {
    if s == "" then "" else s[..|s| - 1]
  }

  /** The text the encoder produces. */
  function Encode(v: Value): string
    requires WellFormed(v)
  {
    WithoutLast(Render(DocumentLines(v)))
  }

  function ReadLine(s: string): Line {
    if "  " <= s then var line := ReadLine(s[2..]); line.(depth := line.depth + 1) else Line(0, s)
  }

  function ReadLines(s: string): seq<Line> {
    if s == "" then [] else
    var n := FirstOf(s, {'\n'});
    [ReadLine(s[..n])] + (if n == |s| then [] else ReadLines(s[n + 1..]))
  }

  function Decode(text: string): Option<Value> {
    ReadDocument(if text == "" then [] else ReadLines(text + "\n"))
  }

  // --------------------------------------------------------------- line breaks

  ghost predicate AllInline(lines: seq<Line>) {
    forall i :: 0 <= i < |lines| ==> Inline(lines[i].text)
  }

  lemma {:induction false} IndentationUnbroken(depth: nat)
    ensures Unbroken(Indentation(depth))
  {
    if depth > 0 { IndentationUnbroken(depth - 1); }
  }

  lemma {:induction false} LineReads(depth: nat, text: string)
    requires Inline(text)
    ensures ReadLine(Indentation(depth) + text) == Line(depth, text)
  {
    if depth == 0 {
      assert Indentation(depth) + text == text;
    } else {
      LineReads(depth - 1, text);
      var inner := Indentation(depth - 1) + text;
      assert Indentation(depth) + text == "  " + inner;
      assert ("  " + inner)[2..] == inner;
    }
  }

  lemma {:induction false} FirstLineReads(line: string, more: string)
    requires Unbroken(line)
    ensures ReadLines(line + ("\n" + more)) == [ReadLine(line)] + ReadLines(more)
  {
    FirstOfAppend(line, "\n" + more, {'\n'});
    Uncons('\n', "", more);
    assert (line + ("\n" + more))[|line| + 1..] == more;
  }

  lemma {:induction false} LinesRead(lines: seq<Line>)
    requires AllInline(lines)
    ensures ReadLines(Render(lines)) == lines
  {
    if lines != [] {
      var line := Indentation(lines[0].depth) + lines[0].text;
      var more := Render(lines[1..]);
      IndentationUnbroken(lines[0].depth);
      LineReads(lines[0].depth, lines[0].text);
      FirstLineReads(line, more);
      Assoc(line, "\n", more);
      HeadTail(lines);
      LinesRead(lines[1..]);
    }
  }

  lemma {:induction false} RenderEnds(lines: seq<Line>)
    requires lines != [] && AllInline(lines)
    ensures |Render(lines)| >= 2 && Render(lines) == WithoutLast(Render(lines)) + "\n"
    ensures WithoutLast(Render(lines))[|Render(lines)| - 2] != '\n'
  {
    var line := Indentation(lines[0].depth) + lines[0].text;
    if |lines| == 1 {
      assert Render(lines) == line + "\n";
    } else {
      RenderEnds(lines[1..]);
      assert Render(lines) == (line + "\n") + Render(lines[1..]);
    }
  }

  // ----------------------------------------------- every encoded line is inline

  lemma {:induction false} ColumnsUnbroken(columns: seq<Column>)
    ensures Unbroken(ColumnsText(columns)) && Unbroken(BracedText(columns))
    decreases columns
  {
    if columns != [] {
      KeyTextIsInline(columns[0].name);
      ColumnsUnbroken(columns[0].children);
      if |columns| > 1 { ColumnsUnbroken(columns[1..]); }
    }
  }

  lemma {:induction false} HeaderIsInline(h: Header, rest: string)
    requires Unbroken(rest)
    ensures Inline(HeaderText(h)) && Inline(HeaderText(h) + rest)
  {
    ColumnsUnbroken(h.columns);
    DigitsUnbroken(h.count);
    HeaderPiecesUnbroken(Digits(h.count), if h.keyed then ":" else "", BracedText(h.columns));
  }

  lemma {:induction false} DigitsUnbroken(n: nat)
    ensures Unbroken(Digits(n))
  {
    assert forall i :: 0 <= i < |Digits(n)| ==> IsDigit(Digits(n)[i]);
  }

  lemma {:induction false} HeaderPiecesUnbroken(count: string, colon: string, braced: string)
    requires Unbroken(count) && Unbroken(colon) && Unbroken(braced)
    ensures Unbroken("[" + (count + (colon + ("]" + (braced + ":")))))
  {
    assert Unbroken("]" + (braced + ":"));
  }

  lemma {:induction false} RowIsInline(v: Value, columns: seq<Column>)
    requires columns != [] && Matches(v, columns)
    ensures Inline(RowText(v, columns))
  {
    CellsPerLeaf(v.fields, columns);
    LeavesExist(columns);
    CellsAreInline(CellsOf(v.fields, columns));
  }

  lemma {:induction false} RowsAreInline(values: seq<Value>, columns: seq<Column>, depth: nat)
    requires columns != [] && Fits(values, columns)
    ensures AllInline(RowLines(values, columns, depth))
  {
    if values != [] {
      RowIsInline(values[0], columns);
      RowsAreInline(values[1..], columns, depth);
    }
  }

  lemma {:induction false} KeyedRowIsInline(field: Field, columns: seq<Column>)
    requires columns != [] && Matches(field.value, columns)
    ensures Inline(KeyText(field.key) + ": " + RowText(field.value, columns))
  {
    KeyTextIsInline(field.key);
    RowIsInline(field.value, columns);
  }

  lemma {:induction false} FitsRest(fields: seq<Field>, columns: seq<Column>)
    requires fields != [] && Fits(ValuesOf(fields), columns)
    ensures Matches(fields[0].value, columns) && Fits(ValuesOf(fields[1..]), columns)
  {
    assert Matches(ValuesOf(fields)[0], columns);
    assert forall i :: 0 <= i < |fields| - 1 ==> ValuesOf(fields[1..])[i] == ValuesOf(fields)[i + 1];
  }

  lemma {:induction false} KeyedRowsAreInline(fields: seq<Field>, columns: seq<Column>, depth: nat)
    requires columns != [] && Fits(ValuesOf(fields), columns)
    ensures AllInline(KeyedRowLines(fields, columns, depth))
  {
    if fields != [] {
      FitsRest(fields, columns);
      KeyedRowIsInline(fields[0], columns);
      KeyedRowsAreInline(fields[1..], columns, depth);
    }
  }

  ghost predicate BlockInline(b: Block) {
    Inline(b.head) && AllInline(b.rest)
  }

  lemma {:induction false} ArrayInline(items: seq<Value>, depth: nat, allowTable: bool)
    requires AllWellFormed(items)
    ensures BlockInline(ArrayBlock(items, depth, allowTable))
    decreases items, 1
  {
    var plain := Header(|items|, false, []);
    if items == [] {
      HeaderIsInline(plain, "");
    } else if AllPrimitive(items) {
      CellsAreInline(items);
      HeaderIsInline(plain, " " + CellsText(items));
    } else if allowTable && TableColumns(items).Some? {
      TableRowsFit(items);
      HeaderIsInline(Header(|items|, false, TableColumns(items).value), "");
      RowsAreInline(items, TableColumns(items).value, depth + 1);
    } else {
      HeaderIsInline(plain, "");
      ItemsInline(items, depth + 1);
    }
  }

  lemma {:induction false} ItemsInline(items: seq<Value>, depth: nat)
    requires AllWellFormed(items)
    ensures AllInline(ItemsLines(items, depth))
    decreases items, 0
  {
    if items != [] {
      ItemInline(items[0], depth);
      ItemsInline(items[1..], depth);
    }
  }

  lemma {:induction false} ItemInline(v: Value, depth: nat)
    requires WellFormed(v)
    ensures BlockInline(ItemBlock(v, depth))
    decreases v, 2
  {
    match v
    case Object(fields) =>
      if fields != [] {
        FieldInline(fields[0].key, fields[0].value, depth + 1);
        FieldsInline(fields[1..], depth + 1);
      }
    case Array(items) => ArrayInline(items, depth, false);
    case _ => PrimitiveIsInline(v);
  }

  lemma {:induction false} FieldInline(key: string, v: Value, depth: nat)
    requires WellFormed(v)
    ensures BlockInline(FieldBlock(key, v, depth))
    decreases v, 2
  {
    KeyTextIsInline(key);
    match v
    case Object(fields) =>
      if ObjectTable(fields).Some? {
        TableRowsFit(ValuesOf(fields));
        HeaderIsInline(Header(|fields|, true, ObjectTable(fields).value), "");
        KeyedRowsAreInline(fields, ObjectTable(fields).value, depth + 1);
      } else {
        FieldsInline(fields, depth + 1);
      }
    case Array(items) => ArrayInline(items, depth, true);
    case _ => PrimitiveIsInline(v);
  }

  lemma {:induction false} FieldsInline(fields: seq<Field>, depth: nat)
    requires FieldsWellFormed(fields)
    ensures AllInline(FieldsLines(fields, depth))
    decreases fields, 0
  {
    if fields != [] {
      FieldInline(fields[0].key, fields[0].value, depth);
      FieldsInline(fields[1..], depth);
    }
  }

  lemma {:induction false} DocumentInline(v: Value)
    requires WellFormed(v)
    ensures AllInline(DocumentLines(v))
  {
    match v
    case Object(fields) =>
      if ObjectTable(fields).Some? {
        TableRowsFit(ValuesOf(fields));
        HeaderIsInline(Header(|fields|, true, ObjectTable(fields).value), "");
        KeyedRowsAreInline(fields, ObjectTable(fields).value, 1);
      } else {
        FieldsInline(fields, 0);
      }
    case Array(items) => if items != [] { ArrayInline(items, 0, true); }
    case _ => PrimitiveIsInline(v);
  }

  // ------------------------------------------------------------- main results

  /** Every well-formed value is recovered from its encoded text. */
  lemma {:induction false} DecodeInvertsEncode(v: Value)
    requires WellFormed(v)
    ensures Decode(Encode(v)) == Some(v)
  {
    var lines := DocumentLines(v);
    DocumentInline(v);
    DocumentRT(v);
    if lines != [] {
      RenderEnds(lines);
      LinesRead(lines);
    }
  }

  /** Different values never share an encoding. */
  lemma {:induction false} EncodeInjective(v: Value, w: Value)
    requires WellFormed(v) && WellFormed(w) && Encode(v) == Encode(w)
    ensures v == w
  {
    DecodeInvertsEncode(v);
    DecodeInvertsEncode(w);
  }

  /** A document is empty only for the empty object and never ends in a line break. */
  lemma {:induction false} NoTrailingBreak(v: Value)
    requires WellFormed(v)
    ensures Encode(v) == "" <==> v == Object([])
    ensures Encode(v) != "" ==> Encode(v)[|Encode(v)| - 1] != '\n'
  {
    DocumentInline(v);
    DecodeInvertsEncode(v);
    if DocumentLines(v) != [] { RenderEnds(DocumentLines(v)); }
  }
}
