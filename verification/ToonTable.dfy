/**
Tables: when a sequence of objects has one column shape, how a row's cells are
taken from an object, and how the object is put together again from them.
*/
module ToonTable {
  import opened Options
  import opened ToonText

  // -------------------------------------------------------------- key order

  /** The order of a map with string keys. */
  predicate KeyLess(a: string, b: string) {
    b != "" && (a == "" || a[0] < b[0] || (a[0] == b[0] && KeyLess(a[1..], b[1..])))
  }

  lemma {:induction false} KeyLessOrder(a: string, b: string, c: string)
    ensures !KeyLess(a, a)
    ensures KeyLess(a, b) && KeyLess(b, c) ==> KeyLess(a, c)
  {
    if a != "" {
      KeyLessOrder(a[1..], if b == "" then "" else b[1..], if c == "" then "" else c[1..]);
    }
  }

  /** Key order by the first place where two keys differ: there the smaller character
      comes first, and a key comes before all that it begins. */
  lemma {:induction false} KeyOrder(a: string, b: string)
    ensures KeyLess(a, b) <==> a < b || exists i :: 0 <= i < |a| && i < |b| && a[..i] == b[..i] && a[i] < b[i]
    ensures a == b || KeyLess(a, b) || KeyLess(b, a)
  {
    if a != "" && b != "" && a[0] == b[0] {
      KeyOrder(a[1..], b[1..]);
      assert a == [a[0]] + a[1..] && b == [b[0]] + b[1..];
      FirstDifference(a, b);
    } else if a != "" && b != "" && a[0] < b[0] {
      assert a[..0] == b[..0];
    }
  }

  lemma {:induction false} FirstDifference(a: string, b: string)
    requires a != "" && b != "" && a[0] == b[0]
    ensures (exists i :: 0 <= i < |a| && i < |b| && a[..i] == b[..i] && a[i] < b[i]) <==>
      exists i :: 0 <= i < |a| - 1 && i < |b| - 1 && a[1..][..i] == b[1..][..i] && a[1..][i] < b[1..][i]
    ensures a < b <==> a[1..] < b[1..]
  {
    forall i | 0 <= i < |a| - 1 && i < |b| - 1 ensures a[..i + 1] == b[..i + 1] <==> a[1..][..i] == b[1..][..i] {
      assert a[..i + 1] == [a[0]] + a[1..][..i] && b[..i + 1] == [b[0]] + b[1..][..i];
    }
    if i :| 0 <= i < |a| && i < |b| && a[..i] == b[..i] && a[i] < b[i] {
      assert a[1..][i - 1] == a[i] && b[1..][i - 1] == b[i];
      assert a[..i - 1 + 1] == b[..i - 1 + 1];
    }
    if i :| 0 <= i < |a| - 1 && i < |b| - 1 && a[1..][..i] == b[1..][..i] && a[1..][i] < b[1..][i] {
      assert a[i + 1] < b[i + 1] && a[..i + 1] == b[..i + 1];
    }
    assert a == [a[0]] + a[1..] && b == [b[0]] + b[1..];
  }

  ghost predicate Ascending(keys: seq<string>) {
    forall i, j :: 0 <= i < j < |keys| ==> KeyLess(keys[i], keys[j])
  }

  function KeysOf(fields: seq<Field>): seq<string> {
    seq(|fields|, i requires 0 <= i < |fields| => fields[i].key)
  }

  /** Every object of the value has its fields in strictly ascending key order. */
  ghost predicate WellFormed(v: Value) {
    match v
    case Array(items) => forall i :: 0 <= i < |items| ==> WellFormed(items[i])
    case Object(fields) => Ascending(KeysOf(fields)) && forall i :: 0 <= i < |fields| ==> WellFormed(fields[i].value)
    case _ => true
  }

  lemma {:induction false} IndicesAdvance(a: seq<string>, b: seq<string>, i: nat, j: nat)
    requires Ascending(a) && Ascending(b) && |a| == |b|
    requires forall k :: 0 <= k < |a| ==> a[k] in b
    requires i < |a| && j < |b| && a[i] == b[j]
    ensures i <= j
    decreases i
  {
    if i > 0 {
      var k :| 0 <= k < |b| && b[k] == a[i - 1];
      IndicesAdvance(a, b, i - 1, k);
      KeyLessOrder(b[k], b[j], b[k]);
    }
  }

  lemma {:induction false} IndicesBounded(a: seq<string>, b: seq<string>, i: nat, j: nat)
    requires Ascending(a) && Ascending(b) && |a| == |b|
    requires forall k :: 0 <= k < |a| ==> a[k] in b
    requires i < |a| && j < |b| && a[i] == b[j]
    ensures j <= i
    decreases |a| - i
  {
    if i + 1 < |a| {
      var k :| 0 <= k < |b| && b[k] == a[i + 1];
      IndicesBounded(a, b, i + 1, k);
      KeyLessOrder(b[j], b[k], b[j]);
    }
  }

  /** Ascending sequences of equal length, one contained in the other, are equal. */
  lemma {:induction false} AscendingUnique(a: seq<string>, b: seq<string>)
    requires Ascending(a) && Ascending(b) && |a| == |b|
    requires forall k :: 0 <= k < |a| ==> a[k] in b
    ensures a == b
  {
    forall i | 0 <= i < |a| ensures a[i] == b[i] {
      var j :| 0 <= j < |b| && b[j] == a[i];
      IndicesAdvance(a, b, i, j);
      IndicesBounded(a, b, i, j);
    }
  }

  // ----------------------------------------------------------------- lookup

  function Lookup(fields: seq<Field>, key: string): Option<Value> {
    if fields == [] then None
    else if fields[0].key == key then Some(fields[0].value)
    else Lookup(fields[1..], key)
  }

  lemma {:induction false} LookupFinds(fields: seq<Field>, key: string) returns (i: nat)
    requires Lookup(fields, key).Some?
    ensures i < |fields| && fields[i].key == key && Lookup(fields, key) == Some(fields[i].value)
  {
    if fields[0].key == key {
      i := 0;
    } else {
      i := LookupFinds(fields[1..], key);
      i := i + 1;
    }
  }

  lemma {:induction false} LookupAt(fields: seq<Field>, i: nat)
    requires i < |fields| && forall j :: 0 <= j < i ==> fields[j].key != fields[i].key
    ensures Lookup(fields, fields[i].key) == Some(fields[i].value)
  {
    if i > 0 {
      LookupAt(fields[1..], i - 1);
    }
  }

  // ---------------------------------------------------------------- columns

  datatype Column = Column(name: string, children: seq<Column>)

  function NamesOf(columns: seq<Column>): seq<string> {
    seq(|columns|, i requires 0 <= i < |columns| => columns[i].name)
  }

  ghost predicate Orderly(columns: seq<Column>) {
    Ascending(NamesOf(columns)) && forall i :: 0 <= i < |columns| ==> Orderly(columns[i].children)
  }

  /** The column shape of one object, or None when it cannot be a row. */
  function ObjectColumns(fields: seq<Field>): Option<seq<Column>>
    decreases fields, 1
  {
    if fields == [] then None else ColumnsOf(fields)
  }

  function ColumnsOf(fields: seq<Field>): (r: Option<seq<Column>>)
    ensures r.Some? ==> |r.value| == |fields|
    decreases fields, 0
  {
    if fields == [] then Some([]) else
    var children := match fields[0].value
      case Object(inner) => ObjectColumns(inner)
      case Array(_) => None
      case _ => Some([]);
    var others := ColumnsOf(fields[1..]);
    if children.None? || others.None? then None
    else Some([Column(fields[0].key, children.value)] + others.value)
  }

  predicate ColumnMatches(fields: seq<Field>, column: Column)
    decreases column
  {
    var value := Lookup(fields, column.name);
    value.Some? && if column.children == [] then Primitive(value.value) else Matches(value.value, column.children)
  }

  predicate Matches(v: Value, columns: seq<Column>)
    decreases columns
  {
    v.Object? && |v.fields| == |columns| && forall i :: 0 <= i < |columns| ==> ColumnMatches(v.fields, columns[i])
  }

  /** The shared shape of all values, or None when they are not a table. */
  function TableColumns(values: seq<Value>): Option<seq<Column>> {
    if values == [] || !values[0].Object? then None else
    var columns := ObjectColumns(values[0].fields);
    if columns.Some? && forall i :: 1 <= i < |values| ==> Matches(values[i], columns.value) then columns else None
  }

  function LeafCount(columns: seq<Column>): nat {
    if columns == [] then 0
    else (if columns[0].children == [] then 1 else LeafCount(columns[0].children)) + LeafCount(columns[1..])
  }

  // ------------------------------------------------------------------ cells

  predicate Covers(fields: seq<Field>, columns: seq<Column>) {
    forall i :: 0 <= i < |columns| ==> ColumnMatches(fields, columns[i])
  }

  /** The cells of a row, in column order. */
  function CellsOf(fields: seq<Field>, columns: seq<Column>): seq<Value>
    requires Covers(fields, columns)
    decreases columns
  {
    if columns == [] then [] else
    assert ColumnMatches(fields, columns[0]);
    var value := Lookup(fields, columns[0].name).value;
    (if columns[0].children == [] then [value]
     else assert Matches(value, columns[0].children); CellsOf(value.fields, columns[0].children)) +
    CellsOf(fields, columns[1..])
  }

  /** Puts a row together again: its fields, and the cells that are left over. */
  function Rebuild(columns: seq<Column>, cells: seq<Value>): Option<(seq<Field>, seq<Value>)>
    decreases columns
  {
    if columns == [] then Some(([], cells)) else
    var first := if columns[0].children == [] then
        (if cells == [] then None else Some((cells[0], cells[1..])))
      else match Rebuild(columns[0].children, cells)
        case None => None
        case Some((fields, rest)) => Some((Object(fields), rest));
    if first.None? then None else
    match Rebuild(columns[1..], first.value.1)
    case None => None
    case Some((fields, rest)) => Some(([Field(columns[0].name, first.value.0)] + fields, rest))
  }

  /** A row has exactly one cell per leaf column, and every cell is a primitive. */
  lemma {:induction false} CellsPerLeaf(fields: seq<Field>, columns: seq<Column>)
    requires Covers(fields, columns)
    ensures |CellsOf(fields, columns)| == LeafCount(columns)
    ensures forall i :: 0 <= i < |CellsOf(fields, columns)| ==> Primitive(CellsOf(fields, columns)[i])
    decreases columns
  {
    if columns != [] {
      assert ColumnMatches(fields, columns[0]);
      if columns[0].children != [] {
        assert Matches(Lookup(fields, columns[0].name).value, columns[0].children);
        CellsPerLeaf(Lookup(fields, columns[0].name).value.fields, columns[0].children);
      }
      CellsPerLeaf(fields, columns[1..]);
    }
  }

  lemma {:induction false} RowAligns(fields: seq<Field>, columns: seq<Column>)
    requires Ascending(KeysOf(fields)) && Ascending(NamesOf(columns)) && Matches(Object(fields), columns)
    ensures KeysOf(fields) == NamesOf(columns)
    ensures forall i :: 0 <= i < |columns| ==>
      fields[i].key == columns[i].name && Lookup(fields, columns[i].name) == Some(fields[i].value)
  {
    var keys, names := KeysOf(fields), NamesOf(columns);
    forall k | 0 <= k < |names| ensures names[k] in keys {
      assert ColumnMatches(fields, columns[k]);
      var i := LookupFinds(fields, columns[k].name);
      assert keys[i] == names[k];
    }
    AscendingUnique(names, keys);
    forall i | 0 <= i < |columns|
      ensures fields[i].key == columns[i].name && Lookup(fields, columns[i].name) == Some(fields[i].value)
    {
      assert keys[i] == names[i];
      forall j | 0 <= j < i ensures fields[j].key != fields[i].key {
        assert KeyLess(keys[j], keys[i]);
        KeyLessOrder(keys[i], keys[i], keys[i]);
      }
      LookupAt(fields, i);
    }
  }

  lemma {:induction false} RebuildSuffix(all: seq<Field>, fields: seq<Field>, columns: seq<Column>, more: seq<Value>)
    requires |fields| == |columns| && Covers(all, columns)
    requires forall i :: 0 <= i < |columns| ==>
      fields[i].key == columns[i].name && Lookup(all, columns[i].name) == Some(fields[i].value) &&
      WellFormed(fields[i].value) && Orderly(columns[i].children)
    ensures Rebuild(columns, CellsOf(all, columns) + more) == Some((fields, more))
    decreases columns, 0
  {
    if columns == [] {
      assert CellsOf(all, columns) + more == more;
    } else {
      var column, value := columns[0], fields[0].value;
      assert ColumnMatches(all, column);
      var others := CellsOf(all, columns[1..]);
      if column.children == [] {
        assert CellsOf(all, columns) + more == [value] + (others + more);
      } else {
        assert Matches(value, column.children);
        var inner := CellsOf(value.fields, column.children);
        assert CellsOf(all, columns) + more == inner + (others + more);
        RebuildRow(value.fields, column.children, others + more);
      }
      RebuildSuffix(all, fields[1..], columns[1..], more);
      assert [fields[0]] + fields[1..] == fields;
    }
  }

  /** Rebuilding a row from its columns and cells returns the original object. */
  lemma {:induction false} RebuildRow(fields: seq<Field>, columns: seq<Column>, more: seq<Value>)
    requires WellFormed(Object(fields)) && Orderly(columns) && Matches(Object(fields), columns)
    ensures Rebuild(columns, CellsOf(fields, columns) + more) == Some((fields, more))
    decreases columns, 1
  {
    RowAligns(fields, columns);
    RebuildSuffix(fields, fields, columns, more);
  }

  // ------------------------------------------- the first row fits its columns

  lemma {:induction false} ColumnsOfShape(fields: seq<Field>)
    requires ColumnsOf(fields).Some?
    ensures forall i :: 0 <= i < |fields| ==> ColumnsOf(fields).value[i].name == fields[i].key
    ensures forall i :: 0 <= i < |fields| ==>
      match fields[i].value
      case Object(inner) => inner != [] && ColumnsOf(inner) == Some(ColumnsOf(fields).value[i].children)
      case Array(_) => false
      case _ => ColumnsOf(fields).value[i].children == []
  {
    if fields != [] {
      ColumnsOfShape(fields[1..]);
      forall i | 0 <= i < |fields|
        ensures ColumnsOf(fields).value[i].name == fields[i].key
        ensures match fields[i].value
          case Object(inner) => inner != [] && ColumnsOf(inner) == Some(ColumnsOf(fields).value[i].children)
          case Array(_) => false
          case _ => ColumnsOf(fields).value[i].children == []
      {
        if i > 0 { assert fields[i] == fields[1..][i - 1]; }
      }
    }
  }

  /** The columns of a well-formed object are in order and fit the object itself. */
  lemma {:induction false} OwnColumnsFit(fields: seq<Field>)
    requires WellFormed(Object(fields)) && ColumnsOf(fields).Some?
    ensures Orderly(ColumnsOf(fields).value) && Matches(Object(fields), ColumnsOf(fields).value)
    decreases fields
  {
    var columns := ColumnsOf(fields).value;
    ColumnsOfShape(fields);
    assert NamesOf(columns) == KeysOf(fields);
    var keys := KeysOf(fields);
    forall i | 0 <= i < |columns|
      ensures Orderly(columns[i].children) && ColumnMatches(fields, columns[i])
    {
      forall j | 0 <= j < i ensures fields[j].key != fields[i].key {
        assert KeyLess(keys[j], keys[i]);
        KeyLessOrder(keys[i], keys[i], keys[i]);
      }
      LookupAt(fields, i);
      if fields[i].value.Object? {
        OwnColumnsFit(fields[i].value.fields);
      }
    }
  }

  /** Every row of an accepted table fits the columns. */
  lemma {:induction false} TableRowsFit(values: seq<Value>)
    requires TableColumns(values).Some? && forall i :: 0 <= i < |values| ==> WellFormed(values[i])
    ensures Orderly(TableColumns(values).value) && TableColumns(values).value != []
    ensures forall i :: 0 <= i < |values| ==> Matches(values[i], TableColumns(values).value)
  {
    OwnColumnsFit(values[0].fields);
  }

  // ----------------------------------------------------- when there is a table

  /** Two objects that can be rows of one table: the same keys, and under each key
      two primitives, or two objects that again can be rows of one table. */
  predicate SameShape(a: Value, b: Value)
    decreases a, 0
  {
    && a.Object? && b.Object? && a.fields != [] && KeysOf(a.fields) == KeysOf(b.fields)
    && forall k :: 0 <= k < |a.fields| ==> |a.fields| == |b.fields| && SameCell(a.fields[k].value, b.fields[k].value)
  }

  predicate SameCell(a: Value, b: Value)
    decreases a, 1
  {
    if Primitive(a) then Primitive(b) else SameShape(a, b)
  }

  /** All values can be rows of one table. */
  predicate Alike(values: seq<Value>) {
    values != [] && forall i, j :: 0 <= i < |values| && 0 <= j < |values| ==> SameShape(values[i], values[j])
  }

  lemma {:induction false} ShapesAgree(a: Value, b: Value, c: Value)
    requires SameShape(a, b) && SameShape(a, c)
    ensures SameShape(b, c)
    decreases a
  {
    assert |KeysOf(a.fields)| == |KeysOf(b.fields)| == |KeysOf(c.fields)|;
    forall k | 0 <= k < |b.fields| ensures SameCell(b.fields[k].value, c.fields[k].value) {
      var x, y, z := a.fields[k].value, b.fields[k].value, c.fields[k].value;
      assert SameCell(x, y) && SameCell(x, z);
      if !Primitive(x) { ShapesAgree(x, y, z); }
    }
  }

  /** The columns of an object exist exactly when the object has a shape at all. */
  lemma {:induction false} ColumnsExist(fields: seq<Field>)
    ensures ColumnsOf(fields).Some? <==>
      forall k :: 0 <= k < |fields| ==> SameCell(fields[k].value, fields[k].value)
    decreases fields
  {
    if fields != [] {
      ColumnsExist(fields[1..]);
      var first := fields[0].value;
      if first.Object? { ColumnsExist(first.fields); }
      assert first.Object? ==> (SameShape(first, first) <==> ObjectColumns(first.fields).Some?);
      forall k | 0 < k < |fields| ensures fields[k] == fields[1..][k - 1] {}
    }
  }

  /** A row that fits the columns of an object has the shape of that object. */
  lemma {:induction false} FittingIsSameShape(a: Value, b: Value)
    requires WellFormed(a) && WellFormed(b) && a.Object? && a.fields != [] && ColumnsOf(a.fields).Some?
    requires Matches(b, ColumnsOf(a.fields).value)
    ensures SameShape(a, b)
    decreases a
  {
    var columns := ColumnsOf(a.fields).value;
    ColumnsOfShape(a.fields);
    assert NamesOf(columns) == KeysOf(a.fields);
    RowAligns(b.fields, columns);
    forall k | 0 <= k < |a.fields| ensures SameCell(a.fields[k].value, b.fields[k].value) {
      assert ColumnMatches(b.fields, columns[k]);
      var inner := a.fields[k].value;
      if inner.Object? { FittingIsSameShape(inner, b.fields[k].value); }
    }
  }

  lemma {:induction false} SameShapeFits(a: Value, b: Value)
    requires WellFormed(a) && WellFormed(b) && SameShape(a, b) && ColumnsOf(a.fields).Some?
    ensures Matches(b, ColumnsOf(a.fields).value)
    decreases a
  {
    var columns := ColumnsOf(a.fields).value;
    var keys := KeysOf(b.fields);
    ColumnsOfShape(a.fields);
    assert |keys| == |KeysOf(a.fields)|;
    forall k | 0 <= k < |columns| ensures ColumnMatches(b.fields, columns[k]) {
      assert KeysOf(a.fields)[k] == keys[k];
      forall j | 0 <= j < k ensures b.fields[j].key != b.fields[k].key {
        assert KeyLess(keys[j], keys[k]);
        KeyLessOrder(keys[k], keys[k], keys[k]);
      }
      LookupAt(b.fields, k);
      assert SameCell(a.fields[k].value, b.fields[k].value);
      var inner := a.fields[k].value;
      if inner.Object? { SameShapeFits(inner, b.fields[k].value); }
    }
  }

  /** A table is chosen exactly for values that are all alike. */
  lemma {:induction false} TableChosenExactly(values: seq<Value>)
    requires forall i :: 0 <= i < |values| ==> WellFormed(values[i])
    ensures TableColumns(values).Some? <==> Alike(values)
  {
    if values != [] && values[0].Object? {
      var first := values[0];
      ColumnsExist(first.fields);
      if TableColumns(values).Some? {
        forall i | 0 <= i < |values| ensures SameShape(first, values[i]) {
          OwnColumnsFit(first.fields);
          FittingIsSameShape(first, values[i]);
        }
        forall i, j | 0 <= i < |values| && 0 <= j < |values| ensures SameShape(values[i], values[j]) {
          ShapesAgree(first, values[i], values[j]);
        }
      }
      if Alike(values) {
        assert SameShape(first, first);
        forall i | 1 <= i < |values| ensures Matches(values[i], ColumnsOf(first.fields).value) {
          assert SameShape(first, values[i]);
          SameShapeFits(first, values[i]);
        }
      }
    }
  }
}
