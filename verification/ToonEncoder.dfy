/**
The encoder itself: it appends to one output string, value by value, and is
proved to write exactly the text of the document.
*/
module ToonEncoder {
  import opened Options
  import opened Sequences
  import opened Decimal
  import opened ToonText
  import opened ToonTable
  import opened ToonCodec
  import opened ToonDocument
  import opened ToonForms

  /** A block's text: the rest of the current line, then whole lines. */
  function BlockText(b: Block): string {
    b.head + "\n" + Render(b.rest)
  }

  lemma {:induction false} RenderAppend(a: seq<Line>, b: seq<Line>)
    ensures Render(a + b) == Render(a) + Render(b)
  {
    if a == [] {
      assert a + b == b;
    } else {
      RenderAppend(a[1..], b);
      assert (a + b)[1..] == a[1..] + b;
      Assoc(Indentation(a[0].depth) + a[0].text + "\n", Render(a[1..]), Render(b));
    }
  }

  /** A block's first line at its own depth, and what follows the block. */
  lemma {:induction false} RenderBlock(depth: nat, b: Block, more: seq<Line>)
    ensures Render([Line(depth, b.head)] + b.rest + more) == Indentation(depth) + BlockText(b) + Render(more)
  {
    var lines := b.rest + more;
    Assoc([Line(depth, b.head)], b.rest, more);
    assert ([Line(depth, b.head)] + lines)[1..] == lines;
    RenderAppend(b.rest, more);
    assert Indentation(depth) + b.head + "\n" + (Render(b.rest) + Render(more))
        == Indentation(depth) + BlockText(b) + Render(more);
  }

  /** Moving a piece from what is left to what is written. */
  lemma {:induction false} Written(out: string, piece: string, left: string, all: string)
    requires out + left == all
    ensures forall more | left == piece + more :: (out + piece) + more == all
  {
    forall more | left == piece + more ensures (out + piece) + more == all {
      Assoc(out, piece, more);
    }
  }

  lemma {:induction false} Braced(out: string, columns: seq<Column>)
    requires columns != []
    ensures out + "{" + ColumnsText(columns) + "}" == out + BracedText(columns)
  {
    Regroup(out, "{", ColumnsText(columns), "}");
    Assoc("{", ColumnsText(columns), "}");
  }

  // What each loop still has to write once it has dealt with the first i.

  function FieldsLeft(fields: seq<Field>, i: nat, depth: nat): string
    requires i <= |fields| && FieldsWellFormed(fields)
  {
    Render(FieldsLines(fields[i..], depth))
  }

  lemma {:induction false} FieldsLeftStep(fields: seq<Field>, i: nat, depth: nat)
    requires i < |fields| && FieldsWellFormed(fields)
    ensures FieldsLeft(fields, i, depth) == Indentation(depth) +
      BlockText(FieldBlock(fields[i].key, fields[i].value, depth)) + FieldsLeft(fields, i + 1, depth)
  {
    assert fields[i..][1..] == fields[i + 1..];
    RenderBlock(depth, FieldBlock(fields[i].key, fields[i].value, depth), FieldsLines(fields[i + 1..], depth));
  }

  function ItemsLeft(items: seq<Value>, i: nat, depth: nat): string
    requires i <= |items| && AllWellFormed(items)
  {
    Render(ItemsLines(items[i..], depth))
  }

  lemma {:induction false} ItemsLeftStep(items: seq<Value>, i: nat, depth: nat)
    requires i < |items| && AllWellFormed(items)
    ensures ItemsLeft(items, i, depth) ==
      Indentation(depth) + BlockText(ItemBlock(items[i], depth)) + ItemsLeft(items, i + 1, depth)
  {
    assert items[i..][1..] == items[i + 1..];
    RenderBlock(depth, ItemBlock(items[i], depth), ItemsLines(items[i + 1..], depth));
  }

  function RowsLeft(items: seq<Value>, columns: seq<Column>, i: nat, depth: nat): string
    requires i <= |items| && Fits(items, columns)
  {
    Render(RowLines(items[i..], columns, depth))
  }

  lemma {:induction false} RowsLeftStep(items: seq<Value>, columns: seq<Column>, i: nat, depth: nat)
    requires i < |items| && Fits(items, columns)
    ensures RowsLeft(items, columns, i, depth) ==
      (Indentation(depth) + (RowText(items[i], columns) + "\n")) + RowsLeft(items, columns, i + 1, depth)
  {
    assert items[i..][1..] == items[i + 1..];
    Assoc(Indentation(depth), RowText(items[i], columns), "\n");
  }

  function KeyedRowsLeft(fields: seq<Field>, columns: seq<Column>, i: nat, depth: nat): string
    requires i <= |fields| && Fits(ValuesOf(fields), columns)
  {
    assert forall j :: 0 <= j < |fields| - i ==> ValuesOf(fields[i..])[j] == ValuesOf(fields)[i + j];
    Render(KeyedRowLines(fields[i..], columns, depth))
  }

  lemma {:induction false} KeyedRowsLeftStep(fields: seq<Field>, columns: seq<Column>, i: nat, depth: nat)
    requires i < |fields| && Fits(ValuesOf(fields), columns)
    ensures Matches(fields[i].value, columns)
    ensures KeyedRowsLeft(fields, columns, i, depth) == (Indentation(depth) +
      (KeyText(fields[i].key) + (": " + (RowText(fields[i].value, columns) + "\n")))) + KeyedRowsLeft(fields, columns, i + 1, depth)
  {
    assert Matches(ValuesOf(fields)[i], columns);
    Regroup(KeyText(fields[i].key), ": ", RowText(fields[i].value, columns), "\n");
    Assoc(Indentation(depth), KeyText(fields[i].key) + ": " + RowText(fields[i].value, columns), "\n");
    assert fields[i..][1..] == fields[i + 1..];
    assert forall j :: 0 <= j < |fields| - i ==> ValuesOf(fields[i..])[j] == ValuesOf(fields)[i + j];
  }

  function Comma(i: nat): string {
    if i == 0 then "" else ","
  }

  function CellsLeft(cells: seq<Value>, i: nat): string
    requires i <= |cells| && AllPrimitive(cells)
  {
    if i == |cells| then "" else Comma(i) + CellsText(cells[i..])
  }

  lemma {:induction false} CellsLeftStep(cells: seq<Value>, i: nat)
    requires i < |cells| && AllPrimitive(cells)
    ensures CellsLeft(cells, i) == (Comma(i) + PrimitiveText(cells[i])) + CellsLeft(cells, i + 1)
  {
    assert cells[i..] == [cells[i]] + cells[i + 1..];
    CellsCons(cells[i], cells[i + 1..]);
    Assoc(Comma(i), PrimitiveText(cells[i]), MoreCells(cells[i + 1..]));
  }

  function ColumnsLeft(columns: seq<Column>, i: nat): string
    requires i <= |columns|
  {
    if i == |columns| then "" else Comma(i) + ColumnsText(columns[i..])
  }

  lemma {:induction false} ColumnsLeftStep(columns: seq<Column>, i: nat)
    requires i < |columns|
    ensures ColumnsLeft(columns, i) ==
      (Comma(i) + (KeyText(columns[i].name) + BracedText(columns[i].children))) + ColumnsLeft(columns, i + 1)
  {
    assert columns[i..][1..] == columns[i + 1..];
    Assoc(Comma(i), KeyText(columns[i].name) + BracedText(columns[i].children), ColumnsLeft(columns, i + 1));
  }

  /** Cells of one column of a row. */
  function ColumnCells(fields: seq<Field>, column: Column): seq<Value>
    requires ColumnMatches(fields, column)
  {
    var value := Lookup(fields, column.name).value;
    if column.children == [] then [value] else
    assert Matches(value, column.children);
    CellsOf(value.fields, column.children)
  }

  function RowLeft(fields: seq<Field>, columns: seq<Column>, i: nat): string
    requires i <= |columns| && Covers(fields, columns)
  {
    if i == |columns| then "" else
    CellsPerLeaf(fields, columns[i..]);
    Comma(i) + CellsText(CellsOf(fields, columns[i..]))
  }

  function MoreCells(cells: seq<Value>): string
    requires AllPrimitive(cells)
  {
    if cells == [] then "" else "," + CellsText(cells)
  }

  lemma {:induction false} CellsCons(v: Value, cells: seq<Value>)
    requires Primitive(v) && AllPrimitive(cells)
    ensures CellsText([v] + cells) == PrimitiveText(v) + MoreCells(cells)
  {
    assert ([v] + cells)[1..] == cells;
    if cells == [] {
      assert PrimitiveText(v) + "" == PrimitiveText(v);
    } else {
      Assoc(PrimitiveText(v), ",", CellsText(cells));
    }
  }

  lemma {:induction false} CellsAppend(a: seq<Value>, b: seq<Value>)
    requires a != [] && AllPrimitive(a) && AllPrimitive(b)
    ensures CellsText(a + b) == CellsText(a) + MoreCells(b)
  {
    HeadTail(a);
    CellsCons(a[0], a[1..]);
    CellsCons(a[0], a[1..] + b);
    Assoc([a[0]], a[1..], b);
    if |a| == 1 {
      assert a[1..] + b == b && PrimitiveText(a[0]) + "" == PrimitiveText(a[0]);
    } else {
      CellsAppend(a[1..], b);
      Assoc(",", CellsText(a[1..]), MoreCells(b));
      Assoc(PrimitiveText(a[0]), "," + CellsText(a[1..]), MoreCells(b));
    }
  }

  lemma {:induction false} ColumnHasCells(fields: seq<Field>, column: Column)
    requires ColumnMatches(fields, column)
    ensures ColumnCells(fields, column) != [] && AllPrimitive(ColumnCells(fields, column))
  {
    if column.children != [] {
      CellsPerLeaf(Lookup(fields, column.name).value.fields, column.children);
      LeavesExist(column.children);
    }
  }

  lemma {:induction false} RowLeftStep(fields: seq<Field>, columns: seq<Column>, i: nat)
    requires i < |columns| && Covers(fields, columns)
    ensures ColumnMatches(fields, columns[i]) && AllPrimitive(ColumnCells(fields, columns[i]))
    ensures RowLeft(fields, columns, i) == (Comma(i) + CellsText(ColumnCells(fields, columns[i]))) + RowLeft(fields, columns, i + 1)
  {
    ColumnHasCells(fields, columns[i]);
    assert columns[i..][1..] == columns[i + 1..];
    var first, others := ColumnCells(fields, columns[i]), CellsOf(fields, columns[i + 1..]);
    assert CellsOf(fields, columns[i..]) == first + others;
    CellsPerLeaf(fields, columns[i + 1..]);
    if i + 1 < |columns| { LeavesExist(columns[i + 1..]); }
    CellsAppend(first, others);
  }

  lemma {:induction false} TableHeaderText(count: nat, keyed: bool, columns: seq<Column>, opening: string)
    requires columns != [] && opening == "[" + (Digits(count) + ((if keyed then ":" else "") + "]{"))
    ensures HeaderText(Header(count, keyed, columns)) + "\n" == opening + (ColumnsText(columns) + "}:\n")
  {
    HeaderPieces(Digits(count), if keyed then ":" else "", ColumnsText(columns));
  }

  lemma {:induction false} HeaderPieces(count: string, colon: string, columns: string)
    ensures ("[" + (count + (colon + ("]" + (("{" + columns + "}") + ":"))))) + "\n"
      == ("[" + (count + (colon + "]{"))) + (columns + "}:\n")
  {
  }

  /** What an object becomes after its key, or at the root. */
  function ObjectText(fields: seq<Field>, depth: nat, key: Option<string>): string
    requires WellFormed(Object(fields))
  {
    if key.Some? then BlockText(FieldBlock(key.value, Object(fields), depth))
    else if ObjectTable(fields).Some? then
      TableRowsFit(ValuesOf(fields));
      var columns := ObjectTable(fields).value;
      BlockText(Block(HeaderText(Header(|fields|, true, columns)), KeyedRowLines(fields, columns, depth + 1)))
    else FieldsLeft(fields, 0, depth)
  }

  lemma {:induction false} KeyedPiece(out: string, key: string, head: string, rest: string)
    ensures out + KeyText(key) + (head + "\n" + rest) == out + (KeyText(key) + head + "\n" + rest)
  {
    Assoc(out, KeyText(key), head + "\n" + rest);
    Assoc(KeyText(key), head, "\n");
    Assoc(KeyText(key), head + "\n", rest);
  }

  lemma {:induction false} PrimitivePiece(out: string, key: string, text: string)
    ensures out + KeyText(key) + ": " + text + "\n" == out + (KeyText(key) + ": " + text + "\n" + "")
  {
    Assoc(out, KeyText(key), ": ");
    Assoc(out, KeyText(key) + ": ", text);
    Assoc(out, KeyText(key) + ": " + text, "\n");
    assert KeyText(key) + ": " + text + "\n" + "" == KeyText(key) + ": " + text + "\n";
  }

  lemma {:induction false} KeyedBlock(out: string, before: string, key: Option<string>, head: string, rest: string)
    requires before == if key.Some? then out + KeyText(key.value) else out
    ensures before + (head + "\n") + rest ==
      out + ((if key.Some? then KeyText(key.value) + head else head) + "\n" + rest)
  {
    Assoc(before, head + "\n", rest);
    if key.Some? { KeyedPiece(out, key.value, head, rest); }
  }

  lemma {:induction false} InlinePiece(out: string, plain: string, items: seq<Value>)
    requires AllPrimitive(items)
    ensures (if items == [] then out + plain else out + plain + " " + CellsText(items)) + "\n"
      == out + (plain + (if items == [] then "" else " " + CellsText(items)) + "\n" + "")
  {
    var tail := if items == [] then "" else " " + CellsText(items);
    Assoc(out + plain, " ", CellsText(items));
    Assoc(out, plain, tail);
    Assoc(out, plain + tail, "\n");
    assert plain + tail + "\n" + "" == plain + tail + "\n";
    assert items == [] ==> out + plain + "" == out + plain;
  }

  lemma {:induction false} DashPiece(out: string, b: Block)
    ensures out + "-" + " " + BlockText(b) == out + BlockText(Prefixed("- ", b))
  {
    assert "-" + " " == "- ";
    Assoc(out, "-", " ");
    Assoc(out, "- ", BlockText(b));
    Assoc("- ", b.head, "\n");
    Assoc("- ", b.head + "\n", Render(b.rest));
  }

  lemma {:induction false} PrimitiveDash(out: string, text: string)
    ensures out + "-" + " " + text + "\n" == out + BlockText(Block("- " + text, []))
  {
    DashPiece(out, Block(text, []));
    assert BlockText(Block(text, [])) == text + "\n" + "" == text + "\n";
    Assoc(out + "-" + " ", text, "\n");
  }

  function ItemFieldsText(fields: seq<Field>, depth: nat): string
    requires WellFormed(Object(fields))
  {
    if fields == [] then "\n" else
    " " + (BlockText(FieldBlock(fields[0].key, fields[0].value, depth + 1)) + FieldsLeft(fields, 1, depth + 1))
  }

  lemma {:induction false} ObjectPiece(out: string, fields: seq<Field>, depth: nat)
    requires WellFormed(Object(fields))
    ensures out + "-" + ItemFieldsText(fields, depth) == out + BlockText(ItemBlock(Object(fields), depth))
  {
    if fields == [] {
      assert BlockText(ItemBlock(Object(fields), depth)) == "-" + "\n" + "" == "-" + "\n";
      Assoc(out, "-", "\n");
    } else {
      var first := FieldBlock(fields[0].key, fields[0].value, depth + 1);
      var more := FieldsLines(fields[1..], depth + 1);
      Regroup(out, "-", " ", BlockText(first) + Render(more));
      Assoc(out + "-", " ", BlockText(first) + Render(more));
      Assoc(out + "-" + " ", BlockText(first), Render(more));
      DashPiece(out, first);
      RenderAppend(first.rest, more);
      Assoc(out, BlockText(Prefixed("- ", first)), Render(more));
      Assoc("- " + first.head + "\n", Render(first.rest), Render(more));
    }
  }

  lemma {:induction false} RootBlock(b: Block)
    ensures Render([Line(0, b.head)] + b.rest) == "" + BlockText(b)
  {
    assert [Line(0, b.head)] + b.rest + [] == [Line(0, b.head)] + b.rest;
    RenderBlock(0, b, []);
    assert "" + BlockText(b) + "" == "" + BlockText(b);
  }

  lemma {:induction false} RootPrimitive(text: string)
    ensures Render([Line(0, text)]) == "" + text + "\n"
  {
    assert "" + text + "\n" + "" == "" + text + "\n";
  }

  lemma {:induction false} RootObject(fields: seq<Field>)
    requires WellFormed(Object(fields))
    ensures Render(DocumentLines(Object(fields))) == "" + ObjectText(fields, 0, None)
  {
    if ObjectTable(fields).Some? {
      TableRowsFit(ValuesOf(fields));
      var columns := ObjectTable(fields).value;
      RootBlock(Block(HeaderText(Header(|fields|, true, columns)), KeyedRowLines(fields, columns, 1)));
    } else {
      assert fields[0..] == fields;
    }
  }

  class Encoder {
    var out: string

    constructor ()
      ensures out == ""
    {
      out := "";
    }

    method WriteIndent(depth: nat)
      modifies this
      ensures out == old(out) + Indentation(depth)
    {
      for i := 0 to depth
        invariant out + Indentation(depth - i) == old(out) + Indentation(depth)
      {
        Assoc(out, "  ", Indentation(depth - i - 1));
        out := out + "  ";
      }
      assert out + "" == out;
    }

    method WriteQuoted(value: string)
      modifies this
      ensures out == old(out) + Quoted(value)
    {
      out := out + "\"";
      for i := 0 to |value|
        invariant out + Escape(value[i..]) == old(out) + "\"" + Escape(value)
      {
        assert value[i..][1..] == value[i + 1..];
        Assoc(out, EscapeChar(value[i]), Escape(value[i + 1..]));
        out := out + EscapeChar(value[i]);
      }
      assert out + Escape(value[|value|..]) == out;
      out := out + "\"";
    }

    method WriteKey(key: string)
      modifies this
      ensures out == old(out) + KeyText(key)
    {
      if PlainKey(key) {
        out := out + key;
      } else {
        WriteQuoted(key);
      }
    }

    method WritePrimitive(value: Value)
      requires Primitive(value)
      modifies this
      ensures out == old(out) + PrimitiveText(value)
    {
      match value
      case Null => out := out + "null";
      case Bool(b) => out := out + (if b then "true" else "false");
      case Number(n) => out := out + NumberText(n);
      case Fractional(_, _, _) => out := out + PrimitiveText(value);
      case Str(s) =>
        if NeedsQuotes(s) { WriteQuoted(s); } else { out := out + s; }
    }

    /** The comma before every element but the first. */
    method WriteComma(i: nat)
      modifies this
      ensures out == old(out) + Comma(i)
    {
      if i != 0 {
        out := out + ",";
      }
    }

    method WriteColumn(column: Column)
      modifies this
      ensures out == old(out) + (KeyText(column.name) + BracedText(column.children))
      decreases column
    {
      WriteKey(column.name);
      Assoc(old(out), KeyText(column.name), BracedText(column.children));
      if column.children != [] {
        Braced(out, column.children);
        out := out + "{";
        WriteColumns(column.children);
        out := out + "}";
      }
    }

    method WriteColumns(columns: seq<Column>)
      modifies this
      ensures out == old(out) + ColumnsText(columns)
      decreases columns
    {
      assert columns[0..] == columns;
      for i := 0 to |columns|
        invariant out + ColumnsLeft(columns, i) == old(out) + ColumnsText(columns)
      {
        ColumnsLeftStep(columns, i);
        var text := KeyText(columns[i].name) + BracedText(columns[i].children);
        Written(out, Comma(i) + text, ColumnsLeft(columns, i), old(out) + ColumnsText(columns));
        Assoc(out, Comma(i), text);
        WriteComma(i);
        WriteColumn(columns[i]);
      }
    }

    method WriteTableHeader(count: nat, keyed: bool, columns: seq<Column>)
      requires columns != []
      modifies this
      ensures out == old(out) + (HeaderText(Header(count, keyed, columns)) + "\n")
    {
      var opening := "[" + (Digits(count) + ((if keyed then ":" else "") + "]{"));
      TableHeaderText(count, keyed, columns, opening);
      Regroup(old(out), opening, ColumnsText(columns), "}:\n");
      out := out + opening;
      WriteColumns(columns);
      out := out + "}:\n";
    }

    method WriteCells(value: Value, columns: seq<Column>)
      requires Matches(value, columns)
      modifies this
      ensures out == old(out) + RowText(value, columns)
      decreases columns
    {
      var fields := value.fields;
      assert columns[0..] == columns;
      for i := 0 to |columns|
        invariant out + RowLeft(fields, columns, i) == old(out) + RowText(value, columns)
      {
        RowLeftStep(fields, columns, i);
        var text := CellsText(ColumnCells(fields, columns[i]));
        Written(out, Comma(i) + text, RowLeft(fields, columns, i), old(out) + RowText(value, columns));
        Assoc(out, Comma(i), text);
        WriteComma(i);
        var cell := Lookup(fields, columns[i].name).value;
        if columns[i].children == [] {
          WritePrimitive(cell);
        } else {
          WriteCells(cell, columns[i].children);
        }
      }
    }

    method WriteInline(items: seq<Value>)
      requires AllPrimitive(items)
      modifies this
      ensures out == old(out) + CellsText(items)
    {
      assert items[0..] == items;
      for i := 0 to |items|
        invariant out + CellsLeft(items, i) == old(out) + CellsText(items)
      {
        CellsLeftStep(items, i);
        Written(out, Comma(i) + PrimitiveText(items[i]), CellsLeft(items, i), old(out) + CellsText(items));
        Assoc(out, Comma(i), PrimitiveText(items[i]));
        WriteComma(i);
        WritePrimitive(items[i]);
      }
    }

    method WriteRows(items: seq<Value>, columns: seq<Column>, depth: nat)
      requires Fits(items, columns)
      modifies this
      ensures out == old(out) + Render(RowLines(items, columns, depth))
    {
      assert items[0..] == items;
      for i := 0 to |items|
        invariant out + RowsLeft(items, columns, i, depth) == old(out) + Render(RowLines(items, columns, depth))
      {
        var row := RowText(items[i], columns) + "\n";
        RowsLeftStep(items, columns, i, depth);
        Written(out, Indentation(depth) + row, RowsLeft(items, columns, i, depth),
          old(out) + Render(RowLines(items, columns, depth)));
        Assoc(out, Indentation(depth), row);
        WriteIndent(depth);
        Assoc(out, RowText(items[i], columns), "\n");
        WriteCells(items[i], columns);
        out := out + "\n";
      }
    }

    method WriteKeyedRow(key: string, value: Value, columns: seq<Column>)
      requires Matches(value, columns)
      modifies this
      ensures out == old(out) + (KeyText(key) + (": " + (RowText(value, columns) + "\n")))
    {
      WriteKey(key);
      out := out + ": ";
      WriteCells(value, columns);
      out := out + "\n";
      ghost var row := RowText(value, columns);
      Assoc(old(out) + KeyText(key), ": ", row);
      Assoc(old(out) + KeyText(key), ": " + row, "\n");
      Assoc(": ", row, "\n");
      Assoc(old(out), KeyText(key), ": " + (row + "\n"));
    }

    method WriteKeyedRows(fields: seq<Field>, columns: seq<Column>, depth: nat)
      requires Fits(ValuesOf(fields), columns)
      modifies this
      ensures out == old(out) + Render(KeyedRowLines(fields, columns, depth))
    {
      assert fields[0..] == fields;
      for i := 0 to |fields|
        invariant out + KeyedRowsLeft(fields, columns, i, depth) == old(out) + Render(KeyedRowLines(fields, columns, depth))
      {
        KeyedRowsLeftStep(fields, columns, i, depth);
        var row := KeyText(fields[i].key) + (": " + (RowText(fields[i].value, columns) + "\n"));
        Written(out, Indentation(depth) + row, KeyedRowsLeft(fields, columns, i, depth),
          old(out) + Render(KeyedRowLines(fields, columns, depth)));
        Assoc(out, Indentation(depth), row);
        WriteIndent(depth);
        WriteKeyedRow(fields[i].key, fields[i].value, columns);
      }
    }

    method WriteFields(fields: seq<Field>, start: nat, depth: nat)
      requires start <= |fields| && FieldsWellFormed(fields)
      modifies this
      ensures out == old(out) + FieldsLeft(fields, start, depth)
      decreases fields, 0
    {
      for i := start to |fields|
        invariant out + FieldsLeft(fields, i, depth) == old(out) + FieldsLeft(fields, start, depth)
      {
        FieldsLeftStep(fields, i, depth);
        var text := BlockText(FieldBlock(fields[i].key, fields[i].value, depth));
        Written(out, Indentation(depth) + text, FieldsLeft(fields, i, depth), old(out) + FieldsLeft(fields, start, depth));
        Assoc(out, Indentation(depth), text);
        WriteIndent(depth);
        WriteField(fields[i].key, fields[i].value, depth);
      }
    }

    method WriteObject(fields: seq<Field>, depth: nat, key: Option<string>)
      requires WellFormed(Object(fields))
      modifies this
      ensures out == old(out) + ObjectText(fields, depth, key)
      decreases fields, 1
    {
      assert fields[0..] == fields;
      if key.Some? {
        WriteKey(key.value);
      }
      if ObjectTable(fields).Some? {
        TableRowsFit(ValuesOf(fields));
        var columns := ObjectTable(fields).value;
        ghost var before := out;
        WriteTableHeader(|fields|, true, columns);
        WriteKeyedRows(fields, columns, depth + 1);
        KeyedBlock(old(out), before, key, HeaderText(Header(|fields|, true, columns)), Render(KeyedRowLines(fields, columns, depth + 1)));
      } else if key.Some? {
        out := out + ":\n";
        WriteFields(fields, 0, depth + 1);
        Regroup(old(out), KeyText(key.value), ":\n", FieldsLeft(fields, 0, depth + 1));
        assert BlockText(FieldBlock(key.value, Object(fields), depth))
            == KeyText(key.value) + (":\n" + FieldsLeft(fields, 0, depth + 1));
      } else {
        WriteFields(fields, 0, depth);
      }
    }

    method WriteField(key: string, value: Value, depth: nat)
      requires WellFormed(value)
      modifies this
      ensures out == old(out) + BlockText(FieldBlock(key, value, depth))
      decreases value, 2
    {
      if value.Object? {
        WriteObject(value.fields, depth, Some(key));
        return;
      }
      WriteKey(key);
      if value == Array([]) {
        out := out + ": []\n";
        KeyedPiece(old(out), key, ": []", "");
      } else if value.Array? {
        WriteArray(value.items, depth, true);
        var b := ArrayBlock(value.items, depth, true);
        KeyedPiece(old(out), key, b.head, Render(b.rest));
      } else {
        out := out + ": ";
        WritePrimitive(value);
        out := out + "\n";
        PrimitivePiece(old(out), key, PrimitiveText(value));
      }
    }

    method WriteArray(items: seq<Value>, depth: nat, allowTable: bool)
      requires AllWellFormed(items)
      modifies this
      ensures out == old(out) + BlockText(ArrayBlock(items, depth, allowTable))
      decreases items, 1
    {
      var plain := HeaderText(Header(|items|, false, []));
      if AllPrimitive(items) {
        out := out + plain;
        if items != [] {
          out := out + " ";
          WriteInline(items);
        }
        out := out + "\n";
        InlinePiece(old(out), plain, items);
        return;
      }
      if allowTable && TableColumns(items).Some? {
        TableRowsFit(items);
        var columns := TableColumns(items).value;
        WriteTableHeader(|items|, false, columns);
        WriteRows(items, columns, depth + 1);
        Assoc(old(out), HeaderText(Header(|items|, false, columns)) + "\n", Render(RowLines(items, columns, depth + 1)));
        return;
      }
      out := out + (plain + "\n");
      assert items[0..] == items;
      WriteItems(items, depth + 1);
      Assoc(old(out), plain + "\n", ItemsLeft(items, 0, depth + 1));
    }

    method WriteItems(items: seq<Value>, depth: nat)
      requires AllWellFormed(items)
      modifies this
      ensures out == old(out) + ItemsLeft(items, 0, depth)
      decreases items, 0
    {
      for i := 0 to |items|
        invariant out + ItemsLeft(items, i, depth) == old(out) + ItemsLeft(items, 0, depth)
      {
        ItemsLeftStep(items, i, depth);
        Written(out, Indentation(depth) + BlockText(ItemBlock(items[i], depth)), ItemsLeft(items, i, depth),
          old(out) + ItemsLeft(items, 0, depth));
        WriteItem(items[i], depth);
      }
    }

    /** The fields of an object in a list, after its dash. */
    method WriteItemFields(fields: seq<Field>, depth: nat)
      requires WellFormed(Object(fields))
      modifies this
      ensures out == old(out) + ItemFieldsText(fields, depth)
      decreases fields, 1
    {
      if fields != [] {
        out := out + " ";
        WriteField(fields[0].key, fields[0].value, depth + 1);
        WriteFields(fields, 1, depth + 1);
        Regroup(old(out), " ", BlockText(FieldBlock(fields[0].key, fields[0].value, depth + 1)), FieldsLeft(fields, 1, depth + 1));
      } else {
        out := out + "\n";
      }
    }

    method WriteItem(value: Value, depth: nat)
      requires WellFormed(value)
      modifies this
      ensures out == old(out) + (Indentation(depth) + BlockText(ItemBlock(value, depth)))
      decreases value, 2
    {
      WriteIndent(depth);
      Assoc(old(out), Indentation(depth), BlockText(ItemBlock(value, depth)));
      ghost var start := out;
      out := out + "-";
      match value
      case Object(fields) =>
        WriteItemFields(fields, depth);
        ObjectPiece(start, fields, depth);
      case Array(items) =>
        out := out + " ";
        WriteArray(items, depth, false);
        DashPiece(start, ArrayBlock(items, depth, false));
      case _ =>
        out := out + " ";
        WritePrimitive(value);
        out := out + "\n";
        PrimitiveDash(start, PrimitiveText(value));
    }
  }

  /** The whole encoding: written, then the final line break taken off. */
  method EncodeDocument(value: Value) returns (text: string)
    requires WellFormed(value)
    ensures text == Encode(value)
    ensures Decode(text) == Some(value)
    ensures value.Array? ==> (OpensTable(text, Counted(|value.items|, false)) <==> Alike(value.items))
    ensures value.Object? ==>
      (OpensTable(text, Counted(|value.fields|, true)) <==> |value.fields| >= 2 && Alike(ValuesOf(value.fields)))
  {
    var encoder := new Encoder();
    match value {
      case Object(fields) =>
        encoder.WriteObject(fields, 0, None);
        RootObject(fields);
      case Array(items) =>
        if items == [] {
          encoder.out := encoder.out + "[]\n";
          assert Render(DocumentLines(value)) == "[]\n";
        } else {
          encoder.WriteArray(items, 0, true);
          RootBlock(ArrayBlock(items, 0, true));
        }
      case _ =>
        encoder.WritePrimitive(value);
        encoder.out := encoder.out + "\n";
        RootPrimitive(PrimitiveText(value));
    }
    text := WithoutLast(encoder.out);
    DecodeInvertsEncode(value);
    DocumentFormDecided(value);
  }
}
