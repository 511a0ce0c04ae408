/**
Decoding undoes encoding for the lines of every value, down to whole documents.
*/
module ToonRoundTrip {
  import opened Options
  import opened Sequences
  import opened Decimal
  import opened ToonText
  import opened ToonTable
  import opened ToonCodec

  /** The lines that follow a block at this depth do not continue it. */
  ghost predicate Ends(rest: seq<Line>, depth: nat) {
    rest == [] || rest[0].depth <= depth
  }

  lemma {:induction false} FieldsEnd(fields: seq<Field>, depth: nat, rest: seq<Line>)
    requires FieldsWellFormed(fields) && Ends(rest, depth)
    ensures Ends(FieldsLines(fields, depth) + rest, depth)
  {
    if fields == [] { assert FieldsLines(fields, depth) + rest == rest; }
  }

  lemma {:induction false} ItemsEnd(items: seq<Value>, depth: nat, rest: seq<Line>)
    requires AllWellFormed(items) && Ends(rest, depth)
    ensures Ends(ItemsLines(items, depth) + rest, depth)
  {
    if items == [] { assert ItemsLines(items, depth) + rest == rest; }
  }

  // ------------------------------------------------------------- leaf shapes

  lemma {:induction false} HeaderStarts(h: Header, rest: string)
    ensures HeaderText(h) + rest != "" && (HeaderText(h) + rest)[0] == '['
    ensures HeaderText(h) + "" == HeaderText(h)
  {
  }

  lemma {:induction false} CellsAreInline(cells: seq<Value>)
    requires cells != [] && AllPrimitive(cells)
    ensures Inline(CellsText(cells)) && CellsText(cells)[0] != '['
  {
    PrimitiveIsInline(cells[0]);
    if |cells| > 1 { CellsAreInline(cells[1..]); }
  }

  lemma {:induction false} InlineArrayRT(items: seq<Value>, depth: nat, rest: seq<Line>)
    requires items != [] && AllPrimitive(items)
    ensures ReadArray(HeaderText(Header(|items|, false, [])) + (" " + CellsText(items)), depth, rest) == Some((Array(items), rest))
  {
    var t := " " + CellsText(items);
    HeaderReads(Header(|items|, false, []), t);
    assert t[1..] == CellsText(items);
    CellsRead(items);
  }

  lemma {:induction false} TableRT(items: seq<Value>, columns: seq<Column>, depth: nat, rest: seq<Line>)
    requires AllWellFormed(items) && Orderly(columns) && columns != [] && Fits(items, columns)
    ensures ReadArray(HeaderText(Header(|items|, false, columns)), depth, RowLines(items, columns, depth + 1) + rest)
      == Some((Array(items), rest))
  {
    var h := Header(|items|, false, columns);
    HeaderStarts(h, "");
    HeaderReads(h, "");
    RowsRead(items, columns, depth + 1, rest);
  }

  lemma {:induction false} KeyedTableRT(fields: seq<Field>, columns: seq<Column>, depth: nat, lines: seq<Line>, rest: seq<Line>)
    requires FieldsWellFormed(fields) && Orderly(columns) && columns != [] && Fits(ValuesOf(fields), columns)
    requires lines == KeyedRowLines(fields, columns, depth + 1) + rest
    ensures ReadArray(HeaderText(Header(|fields|, true, columns)), depth, lines) == Some((Object(fields), rest))
  {
    KeyedRowsRead(fields, columns, depth + 1, rest);
    KeyedLinesRT(fields, columns, depth, lines, rest);
  }

  lemma {:induction false} KeyedLinesRT(fields: seq<Field>, columns: seq<Column>, depth: nat, lines: seq<Line>, rest: seq<Line>)
    requires columns != [] && ReadKeyedRows(|fields|, columns, lines, depth + 1) == Some((fields, rest))
    ensures ReadArray(HeaderText(Header(|fields|, true, columns)), depth, lines) == Some((Object(fields), rest))
  {
    var h := Header(|fields|, true, columns);
    HeaderStarts(h, "");
    HeaderReads(h, "");
  }

  lemma {:induction false} ListRT(items: seq<Value>, lines: seq<Line>, depth: nat, rest: seq<Line>)
    requires ReadItems(|items|, lines, depth + 1) == Some((items, rest))
    ensures ReadArray(HeaderText(Header(|items|, false, [])), depth, lines) == Some((Array(items), rest))
  {
    var h := Header(|items|, false, []);
    HeaderStarts(h, "");
    HeaderReads(h, "");
  }

  lemma {:induction false} PrimitiveFieldRT(key: string, v: Value, depth: nat, rest: seq<Line>)
    requires Primitive(v)
    ensures ReadField(KeyText(key) + ": " + PrimitiveText(v), depth, rest) == Some((Field(key, v), rest))
  {
    var p := PrimitiveText(v);
    var t := ": " + p;
    assert KeyText(key) + ": " + p == KeyText(key) + t;
    KeyReads(key, t);
    PrimitiveIsInline(v);
    assert t[2] == p[0] && t[2..] == p && p + "" == p;
    PrimitiveReads(v, "");
  }

  lemma {:induction false} EmptyArrayFieldRT(key: string, depth: nat, rest: seq<Line>)
    ensures ReadField(KeyText(key) + ": []", depth, rest) == Some((Field(key, Array([])), rest))
  {
    KeyReads(key, ": []");
  }

  lemma {:induction false} HeaderFieldRT(key: string, text: string, v: Value, depth: nat, lines: seq<Line>, rest: seq<Line>)
    requires text != "" && text[0] == '[' && ReadArray(text, depth, lines) == Some((v, rest))
    ensures ReadField(KeyText(key) + text, depth, lines) == Some((Field(key, v), rest))
  {
    KeyReads(key, text);
  }

  lemma {:induction false} ObjectFieldRT(key: string, fields: seq<Field>, depth: nat, lines: seq<Line>, rest: seq<Line>)
    requires ReadFields(lines, depth + 1) == Some((fields, rest))
    ensures ReadField(KeyText(key) + ":", depth, lines) == Some((Field(key, Object(fields)), rest))
  {
    KeyReads(key, ":");
  }

  lemma {:induction false} KeyedHead(key: string, t: string)
    requires t != "" && t[0] in {':', '['}
    ensures var h := KeyText(key) + t; h != "" && h[0] != '[' && FieldHead(h)
  {
    KeyReads(key, t);
    KeyTextIsInline(key);
  }

  lemma {:induction false} ArrayHead(items: seq<Value>, depth: nat, allowTable: bool)
    requires AllWellFormed(items)
    ensures ArrayBlock(items, depth, allowTable).head != "" && ArrayBlock(items, depth, allowTable).head[0] == '['
  {
  }

  lemma {:induction false} FieldBlockHead(key: string, v: Value, depth: nat)
    requires WellFormed(v)
    ensures var h := FieldBlock(key, v, depth).head; h != "" && h[0] != '[' && FieldHead(h)
  {
    match v
    case Object(fields) =>
      if ObjectTable(fields).Some? {
        var h := Header(|fields|, true, ObjectTable(fields).value);
        HeaderStarts(h, "");
        KeyedHead(key, HeaderText(h));
      } else {
        KeyedHead(key, ":");
      }
    case Array(items) =>
      if items == [] {
        KeyedHead(key, ": []");
      } else {
        ArrayHead(items, depth, true);
        KeyedHead(key, ArrayBlock(items, depth, true).head);
      }
    case _ =>
      Assoc(KeyText(key), ": ", PrimitiveText(v));
      KeyedHead(key, ": " + PrimitiveText(v));
  }

  /** An object in a list: its first field shares the line with the dash. */
  lemma {:induction false} ObjectItemRT(head: string, field: Field, fields: seq<Field>, depth: nat,
      lines: seq<Line>, tail: seq<Line>, rest: seq<Line>)
    requires head != "" && head[0] != '[' && FieldHead(head)
    requires ReadField(head, depth + 1, lines) == Some((field, tail))
    requires ReadFields(tail, depth + 1) == Some((fields, rest))
    ensures ReadItem("- " + head, depth, lines) == Some((Object([field] + fields), rest))
  {
    assert ("- " + head)[2..] == head;
  }

  lemma {:induction false} ArrayItemRT(head: string, v: Value, depth: nat, lines: seq<Line>, rest: seq<Line>)
    requires head != "" && head[0] == '[' && ReadArray(head, depth, lines) == Some((v, rest))
    ensures ReadItem("- " + head, depth, lines) == Some((v, rest))
  {
    assert ("- " + head)[2..] == head;
  }

  lemma {:induction false} FieldsStep(head: string, depth: nat, lines: seq<Line>, tail: seq<Line>,
      field: Field, more: seq<Field>, rest: seq<Line>)
    requires ReadField(head, depth, lines) == Some((field, tail)) && ReadFields(tail, depth) == Some((more, rest))
    ensures ReadFields([Line(depth, head)] + lines, depth) == Some(([field] + more, rest))
  {
    assert ([Line(depth, head)] + lines)[1..] == lines;
  }

  lemma {:induction false} ItemsStep(head: string, depth: nat, lines: seq<Line>, tail: seq<Line>,
      item: Value, more: seq<Value>, rest: seq<Line>)
    requires ReadItem(head, depth, lines) == Some((item, tail)) && ReadItems(|more|, tail, depth) == Some((more, rest))
    ensures ReadItems(|more| + 1, [Line(depth, head)] + lines, depth) == Some(([item] + more, rest))
  {
    assert ([Line(depth, head)] + lines)[1..] == lines;
  }

  // ---------------------------------------------------------- every value

  lemma {:induction false} ArrayRT(items: seq<Value>, depth: nat, allowTable: bool, rest: seq<Line>)
    requires AllWellFormed(items) && Ends(rest, depth + 1)
    ensures var b := ArrayBlock(items, depth, allowTable);
      b.head != "" && b.head[0] == '[' && ReadArray(b.head, depth, b.rest + rest) == Some((Array(items), rest))
    decreases items, 1
  {
    if items == [] {
      assert [] + rest == rest;
      assert HeaderText(Header(0, false, [])) + "" == HeaderText(Header(0, false, []));
      ListRT(items, rest, depth, rest);
    } else if AllPrimitive(items) {
      assert [] + rest == rest;
      InlineArrayRT(items, depth, rest);
    } else if allowTable && TableColumns(items).Some? {
      TableRowsFit(items);
      TableRT(items, TableColumns(items).value, depth, rest);
    } else {
      ItemsRT(items, depth + 1, rest);
      ListRT(items, ItemsLines(items, depth + 1) + rest, depth, rest);
    }
  }

  lemma {:induction false} ItemsRT(items: seq<Value>, depth: nat, rest: seq<Line>)
    requires AllWellFormed(items) && Ends(rest, depth)
    ensures ReadItems(|items|, ItemsLines(items, depth) + rest, depth) == Some((items, rest))
    decreases items, 0
  {
    if items == [] {
      assert ItemsLines(items, depth) + rest == rest;
    } else {
      var b := ItemBlock(items[0], depth);
      var tail := ItemsLines(items[1..], depth) + rest;
      Regroup([Line(depth, b.head)], b.rest, ItemsLines(items[1..], depth), rest);
      ItemsEnd(items[1..], depth, rest);
      ItemRT(items[0], depth, tail);
      ItemsRT(items[1..], depth, rest);
      HeadTail(items);
      ItemsStep(b.head, depth, b.rest + tail, tail, items[0], items[1..], rest);
    }
  }

  lemma {:induction false} ItemRT(v: Value, depth: nat, rest: seq<Line>)
    requires WellFormed(v) && Ends(rest, depth)
    ensures var b := ItemBlock(v, depth); ReadItem(b.head, depth, b.rest + rest) == Some((v, rest))
    decreases v, 2
  {
    match v
    case Object(fields) =>
      if fields == [] {
        assert [] + rest == rest;
      } else {
        ObjectRT(fields, depth, rest);
      }
    case Array(items) =>
      ArrayRT(items, depth, false, rest);
      var b := ArrayBlock(items, depth, false);
      ArrayItemRT(b.head, v, depth, b.rest + rest, rest);
    case _ =>
      PrimitiveItemRT(v, depth, rest);
      assert [] + rest == rest;
  }

  lemma {:induction false} ObjectRT(fields: seq<Field>, depth: nat, rest: seq<Line>)
    requires fields != [] && FieldsWellFormed(fields) && Ends(rest, depth)
    ensures var first := FieldBlock(fields[0].key, fields[0].value, depth + 1);
      ReadItem("- " + first.head, depth, first.rest + FieldsLines(fields[1..], depth + 1) + rest)
      == Some((Object(fields), rest))
    decreases fields, 1
  {
    var first := FieldBlock(fields[0].key, fields[0].value, depth + 1);
    var more := FieldsLines(fields[1..], depth + 1);
    Assoc(first.rest, more, rest);
    HeadTail(fields);
    FieldsEnd(fields[1..], depth + 1, rest);
    FieldRT(fields[0].key, fields[0].value, depth + 1, more + rest);
    FieldsRT(fields[1..], depth + 1, rest);
    FieldBlockHead(fields[0].key, fields[0].value, depth + 1);
    ObjectItemRT(first.head, fields[0], fields[1..], depth, first.rest + (more + rest), more + rest, rest);
  }

  lemma {:induction false} FieldRT(key: string, v: Value, depth: nat, rest: seq<Line>)
    requires WellFormed(v) && Ends(rest, depth)
    ensures var b := FieldBlock(key, v, depth); ReadField(b.head, depth, b.rest + rest) == Some((Field(key, v), rest))
    decreases v, 2
  {
    match v
    case Object(fields) =>
      if ObjectTable(fields).Some? {
        TableRowsFit(ValuesOf(fields));
        var columns := ObjectTable(fields).value;
        KeyedTableRT(fields, columns, depth, KeyedRowLines(fields, columns, depth + 1) + rest, rest);
        HeaderStarts(Header(|fields|, true, columns), "");
        HeaderFieldRT(key, HeaderText(Header(|fields|, true, columns)), v, depth,
          KeyedRowLines(fields, columns, depth + 1) + rest, rest);
      } else {
        FieldsRT(fields, depth + 1, rest);
        ObjectFieldRT(key, fields, depth, FieldsLines(fields, depth + 1) + rest, rest);
      }
    case Array(items) =>
      if items == [] {
        assert [] + rest == rest;
        EmptyArrayFieldRT(key, depth, rest);
      } else {
        ArrayRT(items, depth, true, rest);
        var b := ArrayBlock(items, depth, true);
        HeaderFieldRT(key, b.head, v, depth, b.rest + rest, rest);
      }
    case _ =>
      PrimitiveFieldRT(key, v, depth, rest);
      assert [] + rest == rest;
  }

  lemma {:induction false} FieldsRT(fields: seq<Field>, depth: nat, rest: seq<Line>)
    requires FieldsWellFormed(fields) && (rest == [] || rest[0].depth < depth)
    ensures ReadFields(FieldsLines(fields, depth) + rest, depth) == Some((fields, rest))
    decreases fields, 0
  {
    if fields == [] {
      assert FieldsLines(fields, depth) + rest == rest;
    } else {
      var b := FieldBlock(fields[0].key, fields[0].value, depth);
      var tail := FieldsLines(fields[1..], depth) + rest;
      Regroup([Line(depth, b.head)], b.rest, FieldsLines(fields[1..], depth), rest);
      FieldsEnd(fields[1..], depth, rest);
      FieldRT(fields[0].key, fields[0].value, depth, tail);
      FieldsRT(fields[1..], depth, rest);
      HeadTail(fields);
      FieldsStep(b.head, depth, b.rest + tail, tail, fields[0], fields[1..], rest);
    }
  }

  lemma {:induction false} PrimitiveItemRT(v: Value, depth: nat, rest: seq<Line>)
    requires Primitive(v)
    ensures ReadItem("- " + PrimitiveText(v), depth, rest) == Some((v, rest))
  {
    var p := PrimitiveText(v);
    assert ("- " + p)[2..] == p && p + "" == p;
    PrimitiveIsInline(v);
    PrimitiveIsNoField(v);
    PrimitiveReads(v, "");
  }

  lemma {:induction false} DocumentRT(v: Value)
    requires WellFormed(v)
    ensures ReadDocument(DocumentLines(v)) == Some(v)
  {
    match v
    case Object(fields) => ObjectDocumentRT(fields);
    case Array(items) => if items != [] { ArrayDocumentRT(items); }
    case _ => PrimitiveDocumentRT(v);
  }

  lemma {:induction false} PrimitiveDocumentRT(v: Value)
    requires Primitive(v)
    ensures ReadDocument([Line(0, PrimitiveText(v))]) == Some(v)
  {
    PrimitiveIsInline(v);
    PrimitiveIsNoField(v);
    assert PrimitiveText(v) + "" == PrimitiveText(v);
    PrimitiveReads(v, "");
  }

  lemma {:induction false} HeaderDocumentRT(head: string, lines: seq<Line>, v: Value)
    requires head != "" && head[0] == '[' && head != "[]" && ReadArray(head, 0, lines + []) == Some((v, []))
    ensures ReadDocument([Line(0, head)] + lines) == Some(v)
  {
    assert lines + [] == lines && ([Line(0, head)] + lines)[1..] == lines;
  }

  lemma {:induction false} FieldsDocumentRT(fields: seq<Field>)
    requires fields != [] && FieldsWellFormed(fields)
    ensures ReadDocument(FieldsLines(fields, 0)) == Some(Object(fields))
  {
    FieldBlockHead(fields[0].key, fields[0].value, 0);
    FieldsRT(fields, 0, []);
    assert FieldsLines(fields, 0) + [] == FieldsLines(fields, 0);
  }

  lemma {:induction false} HeaderIsNoEmptyArray(h: Header, rest: string)
    ensures HeaderText(h) + rest != "[]"
  {
    assert (HeaderText(h) + rest)[1] == Digits(h.count)[0];
  }

  lemma {:induction false} HeaderOpens(h: Header)
    ensures HeaderText(h) != "" && HeaderText(h)[0] == '[' && HeaderText(h) != "[]"
  {
    HeaderStarts(h, "");
    HeaderIsNoEmptyArray(h, "");
  }

  lemma {:induction false} TableDocumentRT(fields: seq<Field>, columns: seq<Column>)
    requires FieldsWellFormed(fields) && Orderly(columns) && columns != [] && Fits(ValuesOf(fields), columns)
    ensures ReadDocument([Line(0, HeaderText(Header(|fields|, true, columns)))] + KeyedRowLines(fields, columns, 1))
      == Some(Object(fields))
  {
    var rows := KeyedRowLines(fields, columns, 1);
    var head := HeaderText(Header(|fields|, true, columns));
    KeyedTableRT(fields, columns, 0, rows + [], []);
    assert head != "" && head[0] == '[' && head != "[]" by {
      HeaderOpens(Header(|fields|, true, columns));
    }
    HeaderDocumentRT(head, rows, Object(fields));
  }

  lemma {:induction false} ObjectDocumentRT(fields: seq<Field>)
    requires WellFormed(Object(fields))
    ensures ReadDocument(DocumentLines(Object(fields))) == Some(Object(fields))
  {
    if ObjectTable(fields).Some? {
      TableRowsFit(ValuesOf(fields));
      TableDocumentRT(fields, ObjectTable(fields).value);
    } else if fields != [] {
      FieldsDocumentRT(fields);
    }
  }

  lemma {:induction false} ArrayDocumentRT(items: seq<Value>)
    requires items != [] && AllWellFormed(items)
    ensures ReadDocument(DocumentLines(Array(items))) == Some(Array(items))
  {
    var b := ArrayBlock(items, 0, true);
    ArrayRT(items, 0, true, []);
    ArrayHeadIsHeader(items);
    HeaderDocumentRT(b.head, b.rest, Array(items));
  }

  lemma {:induction false} ArrayHeadIsHeader(items: seq<Value>)
    requires items != [] && AllWellFormed(items)
    ensures ArrayBlock(items, 0, true).head != "[]"
  {
    var plain := Header(|items|, false, []);
    if AllPrimitive(items) {
      HeaderIsNoEmptyArray(plain, " " + CellsText(items));
    } else if TableColumns(items).Some? {
      HeaderStarts(Header(|items|, false, TableColumns(items).value), "");
      HeaderIsNoEmptyArray(Header(|items|, false, TableColumns(items).value), "");
    } else {
      HeaderStarts(plain, "");
      HeaderIsNoEmptyArray(plain, "");
    }
  }
}
