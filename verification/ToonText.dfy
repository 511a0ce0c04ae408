/**
The scalar layer of the TOON encoder: quoting, keys and primitive values, each
with the reader that undoes it.
*/
module ToonText {
  import opened Options
  import opened Sequences
  import opened Decimal

  predicate SomeDigits(s: string) {
    s != "" && AllDigits(s)
  }

  /** The digits after a decimal point. */
  type Fraction = s: string | SomeDigits(s) witness "5"

  /** The canonical JSON data model.  An object's fields are in key order. */
  datatype Value =
    | Null
    | Bool(b: bool)
    | Number(n: int)
    | Fractional(negative: bool, whole: nat, fraction: Fraction)
    | Str(s: string)
    | Array(items: seq<Value>)
    | Object(fields: seq<Field>)

  datatype Field = Field(key: string, value: Value)

  predicate Primitive(v: Value) {
    !v.Array? && !v.Object?
  }

  // ------------------------------------------------------------ quoted text

  predicate Control(c: char) {
    c as int < 0x20
  }

  function HexChar(d: nat): (c: char)
    requires d < 16
  {
    if d < 10 then DigitChar(d) else ('a' as int + (d - 10)) as char
  }

  function HexValue(c: char): Option<nat> {
    if IsDigit(c) then Some(DigitValue(c))
    else if 'a' <= c <= 'f' then Some(c as int - 'a' as int + 10)
    else None
  }

  function EscapeChar(c: char): string {
    if c == '\\' then "\\\\"
    else if c == '"' then "\\\""
    else if c == '\n' then "\\n"
    else if c == '\r' then "\\r"
    else if c == '\t' then "\\t"
    else if Control(c) then "\\u00" + [HexChar(c as int / 16), HexChar(c as int % 16)]
    else [c]
  }

  function Escape(s: string): string {
    if s == "" then "" else EscapeChar(s[0]) + Escape(s[1..])
  }

  function Quoted(s: string): string {
    "\"" + Escape(s) + "\""
  }

  /** Reads one possibly escaped character: the character and how much text it took. */
  function ReadChar(s: string): Option<(char, nat)>
    requires s != ""
  {
    if s[0] != '\\' then Some((s[0], 1))
    else if |s| < 2 then None
    else if s[1] == '\\' then Some(('\\', 2))
    else if s[1] == '"' then Some(('"', 2))
    else if s[1] == 'n' then Some(('\n', 2))
    else if s[1] == 'r' then Some(('\r', 2))
    else if s[1] == 't' then Some(('\t', 2))
    else if s[1] == 'u' && |s| >= 6 && s[2] == '0' && s[3] == '0' && HexValue(s[4]).Some? && HexValue(s[5]).Some?
    then Some(((16 * HexValue(s[4]).value + HexValue(s[5]).value) as char, 6))
    else None
  }

  /** Reads to the closing quote: the text, and what follows the quote. */
  function ReadQuoted(s: string): (r: Option<(string, string)>)
    ensures r.Some? ==> |r.value.1| < |s|
  {
    if s == "" then None
    else if s[0] == '"' then Some(("", s[1..]))
    else match ReadChar(s)
      case None => None
      case Some((c, n)) =>
        if n > |s| then None else
        match ReadQuoted(s[n..])
        case None => None
        case Some((text, rest)) => Some(([c] + text, rest))
  }

  lemma {:induction false} HexRoundTrip(d: nat)
    requires d < 16
    ensures HexValue(HexChar(d)) == Some(d)
  {
  }

  lemma {:induction false} EscapedCharReads(c: char, rest: string)
    ensures EscapeChar(c) != "" && EscapeChar(c)[0] != '"'
    ensures ReadChar(EscapeChar(c) + rest) == Some((c, |EscapeChar(c)|))
  {
    var e := EscapeChar(c);
    assert (e + rest)[0] == e[0];
    if |e| == 2 {
      assert (e + rest)[1] == e[1];
    } else if Control(c) {
      HexRoundTrip(c as int / 16);
      HexRoundTrip(c as int % 16);
      assert forall i :: 0 <= i < 6 ==> (e + rest)[i] == e[i];
      assert e == ['\\', 'u', '0', '0', HexChar(c as int / 16), HexChar(c as int % 16)];
    }
  }

  lemma {:induction false} QuotedReads(s: string, rest: string)
    ensures ReadQuoted(Escape(s) + "\"" + rest) == Some((s, rest))
  {
    var text := Escape(s) + "\"" + rest;
    if s == "" {
      assert text == "\"" + rest && text[1..] == rest;
    } else {
      var e := EscapeChar(s[0]);
      var tail := Escape(s[1..]) + "\"" + rest;
      assert text == e + tail;
      EscapedCharReads(s[0], tail);
      assert text[0] == e[0];
      assert text[|e|..] == tail;
      QuotedReads(s[1..], rest);
      assert [s[0]] + s[1..] == s;
    }
  }

  // -------------------------------------------------------------------- keys

  predicate Letter(c: char) {
    'A' <= c <= 'Z' || 'a' <= c <= 'z'
  }

  predicate KeyChar(c: char) {
    Letter(c) || IsDigit(c) || c == '_' || c == '.'
  }

  predicate PlainKey(key: string) {
    key != "" && (Letter(key[0]) || key[0] == '_') && forall i :: 0 <= i < |key| ==> KeyChar(key[i])
  }

  function KeyText(key: string): string {
    if PlainKey(key) then key else Quoted(key)
  }

  function KeyEnd(s: string): (i: nat)
    ensures i <= |s| && (i < |s| ==> !KeyChar(s[i])) && forall j :: 0 <= j < i ==> KeyChar(s[j])
  {
    if s == "" || !KeyChar(s[0]) then 0 else 1 + KeyEnd(s[1..])
  }

  /** Reads a key: its name and the text after it. */
  function ReadKey(s: string): (r: Option<(string, string)>)
    ensures r.Some? ==> |r.value.1| < |s|
  {
    if s == "" then None
    else if s[0] == '"' then ReadQuoted(s[1..])
    else var n := KeyEnd(s); if n == 0 then None else Some((s[..n], s[n..]))
  }

  lemma {:induction false} KeyEndAppend(key: string, rest: string)
    requires forall i :: 0 <= i < |key| ==> KeyChar(key[i])
    requires rest == "" || !KeyChar(rest[0])
    ensures KeyEnd(key + rest) == |key|
  {
    if key == "" {
      assert key + rest == rest;
    } else {
      KeyEndAppend(key[1..], rest);
      assert (key + rest)[1..] == key[1..] + rest;
    }
  }

  lemma {:induction false} PlainKeyReads(key: string, rest: string)
    requires PlainKey(key) && (rest == "" || !KeyChar(rest[0]))
    ensures ReadKey(key + rest) == Some((key, rest))
  {
    var text := key + rest;
    KeyEndAppend(key, rest);
    assert text[0] == key[0];
    assert text[..|key|] == key && text[|key|..] == rest;
  }

  lemma {:induction false} QuotedKeyReads(key: string, rest: string)
    ensures ReadKey(Quoted(key) + rest) == Some((key, rest))
  {
    var text := Quoted(key) + rest;
    assert text[0] == '"';
    assert text[1..] == Escape(key) + "\"" + rest;
    QuotedReads(key, rest);
  }

  lemma {:induction false} KeyReads(key: string, rest: string)
    requires rest == "" || !KeyChar(rest[0])
    ensures KeyText(key) != "" && ReadKey(KeyText(key) + rest) == Some((key, rest))
  {
    if PlainKey(key) {
      PlainKeyReads(key, rest);
    } else {
      QuotedKeyReads(key, rest);
    }
  }

  // -------------------------------------------------------------- primitives

  function StripSign(s: string): string {
    if s != "" && (s[0] == '+' || s[0] == '-') then s[1..] else s
  }

  predicate NumericLike(s: string) {
    var unsigned := StripSign(s);
    var e := FirstOf(unsigned, {'e', 'E'});
    var mantissa := unsigned[..e];
    var point := FirstOf(mantissa, {'.'});
    && (if point == |mantissa| then SomeDigits(mantissa)
        else SomeDigits(mantissa[..point]) && SomeDigits(mantissa[point + 1..]))
    && (e < |unsigned| ==> SomeDigits(StripSign(unsigned[e + 1..])))
  }

  predicate Structural(c: char) {
    c == ':' || c == '"' || c == '\\' || c == '[' || c == ']' || c == '{' || c == '}' || c == ','
  }

  predicate NeedsQuotes(s: string) {
    || s == ""
    || s[0] in {' ', '\t', '-', '#'}
    || s[|s| - 1] in {' ', '\t'}
    || s == "true" || s == "false" || s == "null"
    || NumericLike(s)
    || exists i :: 0 <= i < |s| && (Control(s[i]) || Structural(s[i]))
  }

  function NumberText(n: int): string {
    if n < 0 then "-" + Digits(-n) else Digits(n)
  }

  function PrimitiveText(v: Value): string
    requires Primitive(v)
  {
    match v
    case Null => "null"
    case Bool(b) => if b then "true" else "false"
    case Number(n) => NumberText(n)
    case Fractional(negative, whole, fraction) => (if negative then "-" else "") + (Digits(whole) + ("." + fraction))
    case Str(s) => if NeedsQuotes(s) then Quoted(s) else s
  }

  predicate IntegerToken(s: string) {
    SomeDigits(s) || (|s| > 1 && s[0] == '-' && AllDigits(s[1..]))
  }

  /** Reads an optional minus sign, digits, a point and digits. */
  function FractionalToken(s: string): Option<Value> {
    var negative := s != "" && s[0] == '-';
    var unsigned := if negative then s[1..] else s;
    var point := FirstOf(unsigned, {'.'});
    if point < |unsigned| && SomeDigits(unsigned[..point]) && SomeDigits(unsigned[point + 1..]) then
      Some(Fractional(negative, NatOf(unsigned[..point]), unsigned[point + 1..]))
    else None
  }

  /** The value an unquoted token stands for. */
  function TokenValue(s: string): Value {
    if s == "null" then Null
    else if s == "true" then Bool(true)
    else if s == "false" then Bool(false)
    else if SomeDigits(s) then Number(NatOf(s))
    else if IntegerToken(s) then Number(-(NatOf(s[1..]) as int))
    else if FractionalToken(s).Some? then FractionalToken(s).value
    else Str(s)
  }

  /** Reads one primitive up to a comma or the end of the line. */
  function ReadPrimitive(s: string): (r: Option<(Value, string)>)
    ensures r.Some? ==> |r.value.1| <= |s| && (s != "" && s[0] != ',' ==> |r.value.1| < |s|)
  {
    if s != "" && s[0] == '"' then
      match ReadQuoted(s[1..])
      case None => None
      case Some((text, rest)) => Some((Str(text), rest))
    else
      var n := FirstOf(s, {','});
      Some((TokenValue(s[..n]), s[n..]))
  }

  /** An integer token looks numeric, so a string that looks like one is quoted. */
  lemma {:induction false} IntegersLookNumeric(s: string)
    requires IntegerToken(s)
    ensures NumericLike(s)
  {
    var unsigned := StripSign(s);
    assert SomeDigits(unsigned) by {
      if s[0] == '-' { assert unsigned == s[1..]; }
    }
    assert forall i :: 0 <= i < |unsigned| ==> IsDigit(unsigned[i]);
    assert FirstOf(unsigned, {'e', 'E'}) == |unsigned|;
    assert unsigned[..|unsigned|] == unsigned;
  }

  lemma {:induction false} NumberTextReads(n: int)
    ensures TokenValue(NumberText(n)) == Number(n)
    ensures forall i :: 0 <= i < |NumberText(n)| ==> IsDigit(NumberText(n)[i]) || NumberText(n)[i] == '-'
  {
    var s := NumberText(n);
    if n < 0 {
      DigitsRoundTrip(-n);
      assert s[1..] == Digits(-n);
      assert s[0] == '-' && !AllDigits(s);
    } else {
      DigitsRoundTrip(n);
    }
  }

  /** The parts of `whole.fraction`. */
  lemma {:induction false} PointSplits(whole: string, fraction: string)
    requires SomeDigits(whole) && SomeDigits(fraction)
    ensures var u := whole + ("." + fraction); var point := |whole|;
      && FirstOf(u, {'.'}) == point && u[point] == '.' && u[..point] == whole && u[point + 1..] == fraction
      && FirstOf(u, {'e', 'E'}) == |u|
      && forall i :: 0 <= i < |u| ==> IsDigit(u[i]) || u[i] == '.'
  {
    FirstOfAppend(whole, "." + fraction, {'.'});
    assert (whole + ("." + fraction))[|whole| + 1..] == fraction;
  }

  lemma {:induction false} NoExponent(s: string)
    requires forall i :: 0 <= i < |s| ==> IsDigit(s[i]) || s[i] == '.'
    ensures FirstOf(s, {'e', 'E'}) == |s| && s[..|s|] == s
  {
  }

  lemma {:induction false} PointedLooksNumeric(s: string, whole: string, fraction: string)
    requires SomeDigits(whole) && SomeDigits(fraction) && StripSign(s) == whole + ("." + fraction)
    ensures NumericLike(s)
  {
    PointSplits(whole, fraction);
    NoExponent(whole + ("." + fraction));
  }

  lemma {:induction false} FractionalsLookNumeric(s: string)
    requires FractionalToken(s).Some?
    ensures NumericLike(s)
  {
    var unsigned := if s[0] == '-' then s[1..] else s;
    var point := FirstOf(unsigned, {'.'});
    var whole, fraction := unsigned[..point], unsigned[point + 1..];
    assert unsigned == whole + ("." + fraction);
    assert IsDigit(whole[0]) && unsigned[0] == whole[0];
    assert StripSign(s) == unsigned;
    PointedLooksNumeric(s, whole, fraction);
  }

  lemma {:induction false} PointIsNoInteger(s: string, i: nat)
    requires 0 < i < |s| && s[i] == '.'
    ensures !IntegerToken(s)
  {
    assert s[1..][i - 1] == '.';
  }

  lemma {:induction false} UnsignedReads(s: string, negative: bool, whole: nat, fraction: Fraction)
    requires negative == (s != "" && s[0] == '-')
    requires (if negative then s[1..] else s) == Digits(whole) + ("." + fraction)
    ensures FractionalToken(s) == Some(Fractional(negative, whole, fraction))
  {
    PointSplits(Digits(whole), fraction);
    DigitsRoundTrip(whole);
  }

  lemma {:induction false} SignedReads(s: string, negative: bool, unsigned: string, whole: nat, fraction: Fraction)
    requires unsigned == Digits(whole) + ("." + fraction) && s == (if negative then "-" else "") + unsigned
    ensures !IntegerToken(s) && FractionalToken(s) == Some(Fractional(negative, whole, fraction))
  {
    var sign := if negative then "-" else "";
    assert s[|sign|..] == unsigned && s[|sign| + |Digits(whole)|] == '.';
    assert !negative ==> s[0] == Digits(whole)[0];
    UnsignedReads(s, negative, whole, fraction);
    PointIsNoInteger(s, |sign| + |Digits(whole)|);
  }

  lemma {:induction false} FractionalTextReads(negative: bool, whole: nat, fraction: Fraction)
    ensures var s := PrimitiveText(Fractional(negative, whole, fraction));
      && TokenValue(s) == Fractional(negative, whole, fraction)
      && forall i :: 0 <= i < |s| ==> IsDigit(s[i]) || s[i] == '-' || s[i] == '.'
  {
    var unsigned := Digits(whole) + ("." + fraction);
    var s := PrimitiveText(Fractional(negative, whole, fraction));
    PointSplits(Digits(whole), fraction);
    SignedReads(s, negative, unsigned, whole, fraction);
  }

  /** Texts a line may start with and hold: not blank, no line break. */
  predicate Inline(s: string) {
    s != "" && s[0] != ' ' && Unbroken(s)
  }

  lemma {:induction false} EscapeIsInline(s: string)
    ensures Unbroken(Escape(s))
  {
    if s != "" {
      EscapeIsInline(s[1..]);
      var e := EscapeChar(s[0]);
      assert forall i :: 0 <= i < |e| ==> e[i] != '\n';
    }
  }

  lemma {:induction false} KeyTextIsInline(key: string)
    ensures Inline(KeyText(key)) && KeyText(key)[0] != '[' && KeyText(key)[0] != '-'
  {
    EscapeIsInline(key);
  }

  lemma {:induction false} PlainString(s: string)
    requires !NeedsQuotes(s)
    ensures TokenValue(s) == Str(s) && s[0] != ' ' && s[0] != '"'
  {
    if IntegerToken(s) { IntegersLookNumeric(s); }
    if FractionalToken(s).Some? { FractionalsLookNumeric(s); }
    assert !Structural(s[0]);
  }

  /** What an unquoted primitive text is made of. */
  lemma {:induction false} PlainPrimitive(v: Value)
    requires Primitive(v) && !(v.Str? && NeedsQuotes(v.s))
    ensures var s := PrimitiveText(v);
      && TokenValue(s) == v && s != "" && s[0] != ' ' && s[0] != '"'
      && forall i :: 0 <= i < |s| ==> !Structural(s[i]) && !Control(s[i])
  {
    match v
    case Null =>
    case Bool(_) =>
    case Number(n) => NumberTextReads(n);
    case Fractional(negative, whole, fraction) => FractionalTextReads(negative, whole, fraction);
    case Str(s) => PlainString(s);
  }

  lemma {:induction false} PrimitiveIsInline(v: Value)
    requires Primitive(v)
    ensures Inline(PrimitiveText(v)) && PrimitiveText(v)[0] != '[' && PrimitiveText(v)[0] != ','
  {
    if v.Str? && NeedsQuotes(v.s) {
      EscapeIsInline(v.s);
    } else {
      PlainPrimitive(v);
      var s := PrimitiveText(v);
      assert !Structural(s[0]);
      assert forall i :: 0 <= i < |s| ==> !Control(s[i]);
    }
  }

  lemma {:induction false} TokenReads(s: string, rest: string)
    requires s != "" && s[0] != '"' && (rest == "" || rest[0] == ',')
    requires forall i :: 0 <= i < |s| ==> !Structural(s[i]) && !Control(s[i])
    ensures ReadPrimitive(s + rest) == Some((TokenValue(s), rest))
  {
    assert (s + rest)[0] == s[0];
    assert forall i :: 0 <= i < |s| ==> !Structural(s[i]);
    FirstOfAppend(s, rest, {','});
  }

  lemma {:induction false} PrimitiveReads(v: Value, rest: string)
    requires Primitive(v) && (rest == "" || rest[0] == ',')
    ensures ReadPrimitive(PrimitiveText(v) + rest) == Some((v, rest))
  {
    var s := PrimitiveText(v);
    if v.Str? && NeedsQuotes(v.s) {
      assert (s + rest)[1..] == Escape(v.s) + "\"" + rest;
      QuotedReads(v.s, rest);
    } else {
      PlainPrimitive(v);
      TokenReads(s, rest);
    }
  }

  /** A line that starts with a key followed by a colon or a bracket is a field. */
  predicate FieldHead(s: string) {
    ReadKey(s).Some? && ReadKey(s).value.1 != "" && ReadKey(s).value.1[0] in {':', '['}
  }

  lemma {:induction false} PrimitiveIsNoField(v: Value)
    requires Primitive(v)
    ensures !FieldHead(PrimitiveText(v))
  {
    var s := PrimitiveText(v);
    if v.Str? && NeedsQuotes(v.s) {
      assert s[1..] == Escape(v.s) + "\"" + "";
      QuotedReads(v.s, "");
    } else {
      PlainPrimitive(v);
      var n := KeyEnd(s);
      if n < |s| { assert s[n..][0] == s[n] && !Structural(s[n]); }
    }
  }
}
