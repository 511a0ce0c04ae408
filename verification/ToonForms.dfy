/**
Which form a value is written in: tables exactly for rows of one shape, one line
exactly for arrays of primitives, quotes exactly where a plain text would not do.
*/
module ToonForms {
  import opened Options
  import opened Sequences
  import opened Decimal
  import opened ToonText
  import opened ToonTable
  import opened ToonCodec
  import opened ToonDocument

  // ------------------------------------------------------------ tables and lines

  /** The opening of every array or table header. */
  function Counted(count: nat, keyed: bool): string {
    "[" + (Digits(count) + ((if keyed then ":" else "") + "]"))
  }

  /** Right after this opening a text lists columns. */
  predicate OpensTable(text: string, opening: string) {
    opening < text && text[|opening|] == '{'
  }

  lemma {:induction false} HeaderBegins(h: Header)
    ensures HeaderText(h) == Counted(h.count, h.keyed) + (BracedText(h.columns) + ":")
  {
    var colon := if h.keyed then ":" else "";
    Assoc(colon, "]", BracedText(h.columns) + ":");
    Assoc(Digits(h.count), colon + "]", BracedText(h.columns) + ":");
    Assoc("[", Digits(h.count) + (colon + "]"), BracedText(h.columns) + ":");
  }

  /** A header, with anything before and after it, lists columns exactly when it has some. */
  lemma {:induction false} HeaderListsColumns(before: string, h: Header, after: string)
    ensures OpensTable(before + (HeaderText(h) + after), before + Counted(h.count, h.keyed)) <==> h.columns != []
  {
    var opening := Counted(h.count, h.keyed);
    var tail := (BracedText(h.columns) + ":") + after;
    HeaderBegins(h);
    Assoc(opening, BracedText(h.columns) + ":", after);
    Assoc(before, opening, tail);
    var text := (before + opening) + tail;
    assert text[|before + opening|] == tail[0];
    assert tail[0] == (BracedText(h.columns) + ":")[0];
  }

  lemma {:induction false} AlikeAreNotPrimitive(items: seq<Value>)
    requires Alike(items)
    ensures !AllPrimitive(items)
  {
    assert SameShape(items[0], items[0]);
  }

  /** The header a non-empty array is written with. */
  function ArrayHeader(items: seq<Value>, allowTable: bool): Header
  {
    Header(|items|, false, if !AllPrimitive(items) && allowTable && TableColumns(items).Some? then TableColumns(items).value else [])
  }

  lemma {:induction false} ArrayHeadIs(items: seq<Value>, depth: nat, allowTable: bool) returns (after: string)
    requires AllWellFormed(items)
    ensures ArrayBlock(items, depth, allowTable).head == HeaderText(ArrayHeader(items, allowTable)) + after
  {
    after := if AllPrimitive(items) && items != [] then " " + CellsText(items) else "";
    assert HeaderText(ArrayHeader(items, allowTable)) + "" == HeaderText(ArrayHeader(items, allowTable));
  }

  lemma {:induction false} ArrayHeaderDecided(items: seq<Value>, allowTable: bool)
    requires AllWellFormed(items)
    ensures ArrayHeader(items, allowTable).columns != [] <==> allowTable && Alike(items)
  {
    TableChosenExactly(items);
    if Alike(items) { AlikeAreNotPrimitive(items); }
    if TableColumns(items).Some? { TableRowsFit(items); }
  }

  /** An array is written as a table exactly when one is allowed and its items are
      alike, and on one line exactly when they are primitive. */
  lemma {:induction false} ArrayFormDecided(before: string, items: seq<Value>, depth: nat, allowTable: bool)
    requires AllWellFormed(items)
    ensures OpensTable(before + ArrayBlock(items, depth, allowTable).head, before + Counted(|items|, false)) <==>
      allowTable && Alike(items)
    ensures ArrayBlock(items, depth, allowTable).rest == [] <==> AllPrimitive(items)
  {
    var after := ArrayHeadIs(items, depth, allowTable);
    HeaderListsColumns(before, ArrayHeader(items, allowTable), after);
    ArrayHeaderDecided(items, allowTable);
  }

  lemma {:induction false} ObjectTableDecided(fields: seq<Field>)
    requires FieldsWellFormed(fields)
    ensures ObjectTable(fields).Some? <==> |fields| >= 2 && Alike(ValuesOf(fields))
    ensures ObjectTable(fields).Some? ==> ObjectTable(fields).value != []
  {
    TableChosenExactly(ValuesOf(fields));
    if ObjectTable(fields).Some? { TableRowsFit(ValuesOf(fields)); }
  }

  lemma {:induction false} NotAnOpening(before: string, after: string, opening: string)
    requires after != "" && opening != "" && after[0] != opening[0]
    ensures !OpensTable(before + after, before + opening)
  {
    assert (before + after)[|before|] == after[0] && (before + opening)[|before|] == opening[0];
  }

  /** A field holds a keyed table exactly when it has two or more fields that are
      alike, and a table exactly when its items are alike; an empty array is
      written in place. */
  lemma {:induction false} FieldFormDecided(key: string, v: Value, depth: nat)
    requires WellFormed(v)
    ensures v.Object? ==>
      (OpensTable(FieldBlock(key, v, depth).head, KeyText(key) + Counted(|v.fields|, true)) <==>
       |v.fields| >= 2 && Alike(ValuesOf(v.fields)))
    ensures v.Array? ==>
      (OpensTable(FieldBlock(key, v, depth).head, KeyText(key) + Counted(|v.items|, false)) <==> Alike(v.items))
    ensures v == Array([]) ==> FieldBlock(key, v, depth) == Block(KeyText(key) + ": []", [])
  {
    if v.Object? {
      ObjectTableDecided(v.fields);
      if ObjectTable(v.fields).Some? {
        var h := Header(|v.fields|, true, ObjectTable(v.fields).value);
        HeaderListsColumns(KeyText(key), h, "");
        assert HeaderText(h) + "" == HeaderText(h);
      } else {
        NotAnOpening(KeyText(key), ":", Counted(|v.fields|, true));
      }
    } else if v.Array? {
      if v.items == [] {
        NotAnOpening(KeyText(key), ": []", Counted(0, false));
      } else {
        ArrayFormDecided(KeyText(key), v.items, depth, true);
      }
    }
  }

  lemma {:induction false} KeyTextOpens(key: string)
    ensures KeyText(key) != "" && KeyText(key)[0] != '['
  {
  }

  /** What a document begins with is what its first line begins with. */
  lemma {:induction false} FirstLineLeads(lines: seq<Line>, opening: string)
    requires lines != [] && lines[0].depth == 0 && opening != "" && Unbroken(opening)
    ensures OpensTable(WithoutLast(Render(lines)), opening) <==> OpensTable(lines[0].text, opening)
  {
    var text, more := lines[0].text, Render(lines[1..]);
    assert Indentation(0) + text == text;
    assert Render(lines) == text + "\n" + more;
    var all := Render(lines);
    var cut := WithoutLast(all);
    assert cut[..|text|] == text;
    assert |cut| > |text| ==> cut[|text|] == '\n';
    var n := |opening|;
    if n < |text| {
      assert cut[..n] == text[..n] && cut[n] == text[n];
    } else if n > |text| && n < |cut| {
      assert cut[|text|] == '\n' && opening[|text|] != '\n';
    }
  }

  /** A document is a table exactly for an array whose items are alike, and a keyed
      table exactly for an object of two or more fields that are alike. */
  lemma {:induction false} DocumentFormDecided(v: Value)
    requires WellFormed(v)
    ensures v.Array? ==> (OpensTable(Encode(v), Counted(|v.items|, false)) <==> Alike(v.items))
    ensures v.Object? ==>
      (OpensTable(Encode(v), Counted(|v.fields|, true)) <==> |v.fields| >= 2 && Alike(ValuesOf(v.fields)))
  {
    var lines := DocumentLines(v);
    if v.Array? {
      CountedUnbroken(|v.items|, false);
      FirstLineLeads(lines, Counted(|v.items|, false));
      if v.items != [] {
        ArrayFormDecided("", v.items, 0, true);
        assert "" + lines[0].text == lines[0].text && "" + Counted(|v.items|, false) == Counted(|v.items|, false);
      } else {
        EmptyIsNoTable();
      }
    } else if v.Object? {
      CountedUnbroken(|v.fields|, true);
      ObjectTableDecided(v.fields);
      if lines != [] { ObjectOpens(v.fields); }
    }
  }

  lemma {:induction false} EmptyIsNoTable()
    ensures !OpensTable("[]", Counted(0, false)) && !Alike([])
  {
    assert |Digits(0)| >= 1;
    assert |Counted(0, false)| >= 3;
  }

  lemma {:induction false} ObjectOpens(fields: seq<Field>)
    requires WellFormed(Object(fields)) && DocumentLines(Object(fields)) != []
    ensures OpensTable(Encode(Object(fields)), Counted(|fields|, true)) <==> ObjectTable(fields).Some?
  {
    var lines, opening := DocumentLines(Object(fields)), Counted(|fields|, true);
    CountedUnbroken(|fields|, true);
    if ObjectTable(fields).Some? {
      ObjectTableDecided(fields);
      FirstLineLeads(lines, opening);
      var h := Header(|fields|, true, ObjectTable(fields).value);
      HeaderListsColumns("", h, "");
      assert "" + (HeaderText(h) + "") == HeaderText(h) && "" + opening == opening;
    } else {
      FieldOpens(fields[0].key, fields[0].value, 0);
      FirstLineLeads(lines, opening);
    }
  }

  lemma {:induction false} FieldOpens(key: string, v: Value, depth: nat)
    requires WellFormed(v)
    ensures FieldBlock(key, v, depth).head != "" && FieldBlock(key, v, depth).head[0] != '['
  {
    KeyTextOpens(key);
  }

  lemma {:induction false} CountedUnbroken(count: nat, keyed: bool)
    ensures Unbroken(Counted(count, keyed)) && Counted(count, keyed) != "" && Counted(count, keyed)[0] == '['
  {
    DigitsUnbroken(count);
    var colon := if keyed then ":" else "";
    assert Unbroken(Digits(count) + (colon + "]"));
  }

  // --------------------------------------------------------------------- quotes

  predicate Sign(s: string) {
    s == "" || s == "+" || s == "-"
  }

  datatype Exponent = Exponent(mark: char, sign: string, digits: string)

  /** A text that looks like a number, by its parts. */
  datatype Numeral = Numeral(sign: string, whole: string, fraction: Option<string>, exponent: Option<Exponent>) {
    predicate Proper() {
      && Sign(sign) && SomeDigits(whole) && (fraction.Some? ==> SomeDigits(fraction.value))
      && (exponent.Some? ==> exponent.value.mark in {'e', 'E'} && Sign(exponent.value.sign) && SomeDigits(exponent.value.digits))
    }

    function Mantissa(): string {
      whole + (if fraction.Some? then "." + fraction.value else "")
    }

    function Power(): string {
      if exponent.Some? then [exponent.value.mark] + (exponent.value.sign + exponent.value.digits) else ""
    }

    function Text(): string {
      sign + (Mantissa() + Power())
    }
  }

  ghost predicate WritesNumeral(s: string) {
    exists n: Numeral :: n.Proper() && n.Text() == s
  }

  lemma {:induction false} SignStrips(sign: string, digits: string)
    requires Sign(sign) && digits != "" && IsDigit(digits[0])
    ensures StripSign(sign + digits) == digits
  {
    assert sign == "" ==> sign + digits == digits;
    assert sign != "" ==> (sign + digits)[1..] == digits;
  }

  predicate MantissaLike(m: string) {
    var point := FirstOf(m, {'.'});
    if point == |m| then SomeDigits(m) else SomeDigits(m[..point]) && SomeDigits(m[point + 1..])
  }

  /** A text is numeric by what comes before and after its exponent mark. */
  lemma {:induction false} NumericByParts(s: string, m: string, power: string)
    requires StripSign(s) == m + power && (forall i :: 0 <= i < |m| ==> m[i] !in {'e', 'E'})
    requires power == "" || power[0] in {'e', 'E'}
    ensures NumericLike(s) <==> MantissaLike(m) && (power != "" ==> SomeDigits(StripSign(power[1..])))
  {
    var u := m + power;
    FirstOfAppend(m, power, {'e', 'E'});
    assert power != "" ==> u[|m| + 1..] == power[1..];
  }

  lemma {:induction false} MantissaReads(n: Numeral)
    requires n.Proper()
    ensures var m := n.Mantissa();
      m != "" && IsDigit(m[0]) && (forall i :: 0 <= i < |m| ==> m[i] !in {'e', 'E'}) && MantissaLike(m)
  {
    var tail := if n.fraction.Some? then "." + n.fraction.value else "";
    FirstOfAppend(n.whole, tail, {'.'});
    if n.fraction.Some? {
      assert n.Mantissa()[|n.whole| + 1..] == n.fraction.value;
    } else {
      assert n.Mantissa() == n.whole;
    }
  }

  lemma {:induction false} NumeralsLookNumeric(n: Numeral)
    requires n.Proper()
    ensures NumericLike(n.Text())
  {
    MantissaReads(n);
    assert (n.Mantissa() + n.Power())[0] == n.Mantissa()[0];
    SignStrips(n.sign, n.Mantissa() + n.Power());
    if n.exponent.Some? {
      var e := n.exponent.value;
      assert n.Power()[1..] == e.sign + e.digits;
      SignStrips(e.sign, e.digits);
    }
    NumericByParts(n.Text(), n.Mantissa(), n.Power());
  }

  lemma {:induction false} SignSplits(s: string) returns (sign: string)
    ensures Sign(sign) && s == sign + StripSign(s)
  {
    sign := if s != "" && (s[0] == '+' || s[0] == '-') then [s[0]] else "";
  }

  lemma {:induction false} MantissaSplits(m: string) returns (whole: string, fraction: Option<string>)
    requires MantissaLike(m)
    ensures SomeDigits(whole) && (fraction.Some? ==> SomeDigits(fraction.value))
    ensures whole + (if fraction.Some? then "." + fraction.value else "") == m
  {
    var point := FirstOf(m, {'.'});
    assert m[..|m|] == m;
    whole, fraction := m[..point], if point == |m| then None else Some(m[point + 1..]);
    if point < |m| { assert m == m[..point] + ([m[point]] + m[point + 1..]); }
  }

  lemma {:induction false} ExponentSplits(u: string) returns (m: string, power: string)
    ensures u == m + power && (forall i :: 0 <= i < |m| ==> m[i] !in {'e', 'E'}) && (power == "" || power[0] in {'e', 'E'})
  {
    var e := FirstOf(u, {'e', 'E'});
    m, power := u[..e], u[e..];
  }

  lemma {:induction false} LooksNumericIsNumeral(s: string) returns (n: Numeral)
    requires NumericLike(s)
    ensures n.Proper() && n.Text() == s
  {
    var sign := SignSplits(s);
    var m, power := ExponentSplits(StripSign(s));
    NumericByParts(s, m, power);
    var whole, fraction := MantissaSplits(m);
    n := Numeral(sign, whole, fraction, None);
    if power != "" {
      var esign := SignSplits(power[1..]);
      n := n.(exponent := Some(Exponent(power[0], esign, StripSign(power[1..]))));
      HeadTail(power);
    }
    assert n.Mantissa() == m && n.Power() == power;
  }

  lemma {:induction false} EscapeGrows(s: string)
    ensures |Escape(s)| >= |s|
  {
    if s != "" { EscapeGrows(s[1..]); }
  }

  lemma {:induction false} NumericExactly(s: string)
    ensures NumericLike(s) <==> WritesNumeral(s)
  {
    if NumericLike(s) { var n := LooksNumericIsNumeral(s); }
    if WritesNumeral(s) {
      var n: Numeral :| n.Proper() && n.Text() == s;
      NumeralsLookNumeric(n);
    }
  }

  /** No control character and no character of the line structure. */
  predicate OnlyPlain(s: string) {
    forall c :: c in s ==> c as int > 0x1f && c !in {':', '"', '\\', '[', ']', '{', '}', ','}
  }

  lemma {:induction false} OnlyPlainExactly(s: string)
    ensures OnlyPlain(s) <==> !exists i :: 0 <= i < |s| && (Control(s[i]) || Structural(s[i]))
  {
    if i :| 0 <= i < |s| && (Control(s[i]) || Structural(s[i])) {
      assert s[i] in s;
    }
  }

  lemma {:induction false} QuotesNeeded(s: string)
    ensures !NeedsQuotes(s) <==>
      && s != "" && s[0] !in {' ', '\t', '-', '#'} && s[|s| - 1] !in {' ', '\t'}
      && s !in {"true", "false", "null"} && !NumericLike(s) && OnlyPlain(s)
  {
    OnlyPlainExactly(s);
  }

  /** A string is written as it is exactly when it is not empty, does not begin or end
      with what a line could lose, is no literal and no numeral, and holds no
      control and no structural character. */
  lemma {:induction false} QuotesDecided(s: string)
    ensures PrimitiveText(Str(s)) == s <==>
      && s != "" && s[0] !in {' ', '\t', '-', '#'} && s[|s| - 1] !in {' ', '\t'}
      && s !in {"true", "false", "null"} && !WritesNumeral(s) && OnlyPlain(s)
    ensures PrimitiveText(Str(s)) == s || PrimitiveText(Str(s)) == Quoted(s)
  {
    EscapeGrows(s);
    NumericExactly(s);
    QuotesNeeded(s);
  }

  /** A key is written as it is exactly when it is a dotted word. */
  lemma {:induction false} KeyQuotesDecided(key: string)
    ensures KeyText(key) == key <==>
      && key != "" && ('A' <= key[0] <= 'Z' || 'a' <= key[0] <= 'z' || key[0] == '_')
      && forall c :: c in key ==> 'A' <= c <= 'Z' || 'a' <= c <= 'z' || '0' <= c <= '9' || c in {'_', '.'}
    ensures KeyText(key) == key || KeyText(key) == Quoted(key)
  {
    EscapeGrows(key);
    if key != "" && (Letter(key[0]) || key[0] == '_') && !PlainKey(key) {
      var i :| 0 <= i < |key| && !KeyChar(key[i]);
      assert key[i] in key;
    }
  }

  /** Inside quotes a character is written as it is unless it is a quote, a backslash
      or a control character; only controls without a short form take six characters. */
  lemma {:induction false} EscapesDecided(c: char)
    ensures EscapeChar(c) == [c] <==> c as int > 0x1f && c != '"' && c != '\\'
    ensures |EscapeChar(c)| == 6 <==> c as int <= 0x1f && c !in {'\n', '\r', '\t'}
    ensures |EscapeChar(c)| in {1, 2, 6}
  {
  }

  /** Integers are written in one way: a minus sign exactly for negative ones, and no zero
      before other digits. */
  lemma {:induction false} IntegersPrintPlainly(n: int)
    ensures var text := PrimitiveText(Number(n));
      && (text[0] == '-' <==> n < 0)
      && var digits := if n < 0 then text[1..] else text;
         SomeDigits(digits) && (|digits| > 1 ==> digits[0] != '0')
  {
    DigitsCanonical(if n < 0 then -n else n);
    if n < 0 { assert ("-" + Digits(-n))[1..] == Digits(-n); }
  }
}
