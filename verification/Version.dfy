/** Release versions: the parser and the printer undo each other, and the texts
    accepted are exactly those of Semantic Versioning 2.0.0 without build metadata. */
module Version {
  import opened Options
  import opened Sequences
  import opened Decimal

  const U64_MAX: nat := 0xFFFF_FFFF_FFFF_FFFF

  datatype Version = Version(major: nat, minor: nat, patch: nat, prerelease: Option<string>)

  /** The parts between separators; a text without one is its own only part. */
  function Split(s: string, separator: char): (parts: seq<string>)
    ensures parts != []
    decreases |s|
  {
    var i := FirstOf(s, {separator});
    if i == |s| then [s] else [s[..i]] + Split(s[i + 1..], separator)
  }

  predicate IdentifierChar(c: char) {
    'a' <= c <= 'z' || 'A' <= c <= 'Z' || IsDigit(c) || c == '-'
  }

  predicate Identifier(s: string) {
    && s != "" && (forall i :: 0 <= i < |s| ==> IdentifierChar(s[i]))
    && !(|s| > 1 && s[0] == '0' && AllDigits(s))
  }

  predicate Prerelease(s: string) {
    forall i :: 0 <= i < |Split(s, '.')| ==> Identifier(Split(s, '.')[i])
  }

  function ParseNumber(s: string): Option<nat> {
    if s == "" || (|s| > 1 && s[0] == '0') || !AllDigits(s) || NatOf(s) > U64_MAX then None else Some(NatOf(s))
  }

  /** The three numbers of `major.minor.patch`. */
  function ParseCore(core: string): Option<(nat, nat, nat)> {
    var numbers := Split(core, '.');
    var major :- ParseNumber(numbers[0]);
    if |numbers| < 2 then None else
    var minor :- ParseNumber(numbers[1]);
    if |numbers| < 3 then None else
    var patch :- ParseNumber(numbers[2]);
    if |numbers| > 3 then None else Some((major, minor, patch))
  }

  function Parse(raw: string): Option<Version> {
    var dash := FirstOf(raw, {'-'});
    var prerelease := if dash == |raw| then None else Some(raw[dash + 1..]);
    if FirstOf(raw, {'+'}) < |raw| || (prerelease.Some? && !Prerelease(prerelease.value)) then None else
    var (major, minor, patch) :- ParseCore(raw[..dash]);
    Some(Version(major, minor, patch, prerelease))
  }

  function CoreText(major: nat, minor: nat, patch: nat): string {
    Digits(major) + ("." + (Digits(minor) + ("." + Digits(patch))))
  }

  function Core(v: Version): string {
    CoreText(v.major, v.minor, v.patch)
  }

  function Display(v: Version): string {
    if v.prerelease.None? then Core(v) else Core(v) + ("-" + v.prerelease.value)
  }

  /** The versions a parser can produce. */
  predicate WellFormed(v: Version) {
    v.major <= U64_MAX && v.minor <= U64_MAX && v.patch <= U64_MAX && (v.prerelease.Some? ==> Prerelease(v.prerelease.value))
  }

  // ------------------------------------------------------------------ splitting

  function Join(parts: seq<string>, separator: char): string
    requires parts != []
  {
    if |parts| == 1 then parts[0] else parts[0] + ([separator] + Join(parts[1..], separator))
  }

  lemma {:induction false} CutAt(s: string, i: nat)
    requires i <= |s|
    ensures if i < |s| then s == s[..i] + ([s[i]] + s[i + 1..]) else s == s[..i]
  {
  }

  lemma {:induction false} JoinFirst(first: string, rest: seq<string>, separator: char)
    requires rest != []
    ensures Join([first] + rest, separator) == first + ([separator] + Join(rest, separator))
  {
    assert ([first] + rest)[1..] == rest;
  }

  lemma {:induction false} JoinSplit(s: string, separator: char)
    ensures Join(Split(s, separator), separator) == s
    decreases |s|
  {
    var i := FirstOf(s, {separator});
    if i < |s| {
      JoinSplit(s[i + 1..], separator);
      JoinFirst(s[..i], Split(s[i + 1..], separator), separator);
      CutAt(s, i);
    }
  }

  lemma {:induction false} SplitJoined(first: string, rest: string, separator: char)
    requires separator !in first
    ensures Split(first, separator) == [first]
    ensures Split(first + ([separator] + rest), separator) == [first] + Split(rest, separator)
  {
    assert forall j :: 0 <= j < |first| ==> first[j] !in {separator};
    FirstOfAppend(first, "", {separator});
    assert first + "" == first;
    FirstOfAppend(first, [separator] + rest, {separator});
    assert (first + ([separator] + rest))[|first| + 1..] == rest;
  }

  // ---------------------------------------------------------------- round trips

  lemma {:induction false} NumberRoundTrip(n: nat)
    requires n <= U64_MAX
    ensures ParseNumber(Digits(n)) == Some(n) && '.' !in Digits(n) && '-' !in Digits(n) && '+' !in Digits(n)
  {
    DigitsRoundTrip(n);
    DigitsCanonical(n);
    assert forall c :: c in Digits(n) ==> IsDigit(c);
  }

  lemma {:induction false} NumberCanonical(s: string)
    requires ParseNumber(s).Some?
    ensures Digits(ParseNumber(s).value) == s && ParseNumber(s).value <= U64_MAX
  {
    CanonicalRoundTrip(s);
  }

  lemma {:induction false} CoreChars(major: nat, minor: nat, patch: nat)
    ensures forall c :: c in CoreText(major, minor, patch) ==> IsDigit(c) || c == '.'
  {
    assert forall c :: c in Digits(major) ==> IsDigit(c);
    assert forall c :: c in Digits(minor) ==> IsDigit(c);
    assert forall c :: c in Digits(patch) ==> IsDigit(c);
  }

  lemma {:induction false} CoreSplits(major: nat, minor: nat, patch: nat)
    requires major <= U64_MAX && minor <= U64_MAX && patch <= U64_MAX
    ensures Split(CoreText(major, minor, patch), '.') == [Digits(major), Digits(minor), Digits(patch)]
  {
    NumberRoundTrip(major);
    NumberRoundTrip(minor);
    NumberRoundTrip(patch);
    SplitJoined(Digits(major), Digits(minor) + ("." + Digits(patch)), '.');
    SplitJoined(Digits(minor), Digits(patch), '.');
    SplitJoined(Digits(patch), "", '.');
  }

  lemma {:induction false} CoreRoundTrip(major: nat, minor: nat, patch: nat)
    requires major <= U64_MAX && minor <= U64_MAX && patch <= U64_MAX
    ensures ParseCore(CoreText(major, minor, patch)) == Some((major, minor, patch))
  {
    CoreSplits(major, minor, patch);
    NumberRoundTrip(major);
    NumberRoundTrip(minor);
    NumberRoundTrip(patch);
  }

  lemma {:induction false} ThreeJoined(numbers: seq<string>)
    requires |numbers| == 3
    ensures Join(numbers, '.') == numbers[0] + ("." + (numbers[1] + ("." + numbers[2])))
  {
    assert numbers[1..][1..] == [numbers[2]] && numbers[1..][0] == numbers[1];
    assert Join(numbers[1..], '.') == numbers[1] + ("." + numbers[2]);
  }

  lemma {:induction false} CoreCanonical(core: string)
    requires ParseCore(core).Some?
    ensures var (major, minor, patch) := ParseCore(core).value;
      major <= U64_MAX && minor <= U64_MAX && patch <= U64_MAX && CoreText(major, minor, patch) == core
  {
    var numbers := Split(core, '.');
    NumberCanonical(numbers[0]);
    NumberCanonical(numbers[1]);
    NumberCanonical(numbers[2]);
    JoinSplit(core, '.');
    ThreeJoined(numbers);
  }

  lemma {:induction false} NoPlusInside(s: string)
    requires Prerelease(s)
    ensures '+' !in s
    decreases |s|
  {
    var i := FirstOf(s, {'.'});
    var parts := Split(s, '.');
    assert Identifier(parts[0]);
    if i < |s| {
      var rest := Split(s[i + 1..], '.');
      forall j | 0 <= j < |rest| ensures Identifier(rest[j]) { assert rest[j] == parts[j + 1]; }
      NoPlusInside(s[i + 1..]);
      assert s == parts[0] + "." + s[i + 1..];
    }
  }

  lemma {:induction false} Absent(s: string, c: char)
    requires c !in s
    ensures FirstOf(s, {c}) == |s|
  {
  }

  /** Every well-formed version is recovered from its text. */
  lemma {:induction false} ParseDisplay(v: Version)
    requires WellFormed(v)
    ensures Parse(Display(v)) == Some(v)
  {
    var core := Core(v);
    CoreRoundTrip(v.major, v.minor, v.patch);
    CoreChars(v.major, v.minor, v.patch);
    assert '-' !in core && '+' !in core;
    var tail := if v.prerelease.None? then "" else "-" + v.prerelease.value;
    assert Display(v) == core + tail;
    FirstOfAppend(core, tail, {'-'});
    if v.prerelease.Some? {
      NoPlusInside(v.prerelease.value);
      assert Display(v)[|core| + 1..] == v.prerelease.value;
    }
    Absent(Display(v), '+');
  }

  /** A parsed text is a core and, after the first dash, a prerelease. */
  lemma {:induction false} PartsOfParsed(raw: string, v: Version)
    requires Parse(raw) == Some(v)
    ensures var dash := FirstOf(raw, {'-'});
      && ParseCore(raw[..dash]) == Some((v.major, v.minor, v.patch))
      && v.prerelease == (if dash == |raw| then None else Some(raw[dash + 1..]))
      && (v.prerelease.Some? ==> Prerelease(v.prerelease.value))
  {
  }

  lemma {:induction false} DisplayOfParts(v: Version, raw: string, dash: nat)
    requires dash <= |raw| && Core(v) == raw[..dash] && (dash < |raw| ==> raw[dash] == '-')
    requires v.prerelease == (if dash == |raw| then None else Some(raw[dash + 1..]))
    ensures Display(v) == raw
  {
    CutAt(raw, dash);
  }

  /** Only the text that is printed for a version parses to it. */
  lemma {:induction false} DisplayParse(raw: string)
    requires Parse(raw).Some?
    ensures WellFormed(Parse(raw).value) && Display(Parse(raw).value) == raw
  {
    var dash, v := FirstOf(raw, {'-'}), Parse(raw).value;
    PartsOfParsed(raw, v);
    CoreCanonical(raw[..dash]);
    DisplayOfParts(v, raw, dash);
  }

  /** A text is accepted exactly when it is the canonical text of a well-formed
      version, so comparing a parsed version's text with its source never fails. */
  lemma {:induction false} AcceptedIffCanonical(raw: string)
    ensures Parse(raw).Some? <==> exists v :: WellFormed(v) && Display(v) == raw
  {
    if Parse(raw).Some? {
      DisplayParse(raw);
    }
    forall v | WellFormed(v) && Display(v) == raw ensures Parse(raw).Some? {
      ParseDisplay(v);
    }
  }

  // ------------------------------------------------------------ what is accepted

  /** A character of an identifier, by its ASCII code: a digit, a letter or a hyphen. */
  predicate LabelChar(c: char) {
    var code := c as int;
    48 <= code <= 57 || 65 <= code <= 90 || 97 <= code <= 122 || code == 45
  }

  /** A prerelease identifier: a number as it is printed, or characters that are not all digits. */
  ghost predicate Label(s: string) {
    || (exists n: nat :: s == Digits(n))
    || ((forall c :: c in s ==> LabelChar(c)) && (exists c :: c in s && !(48 <= c as int <= 57)))
  }

  ghost predicate AllLabels(labels: seq<string>) {
    forall i :: 0 <= i < |labels| ==> Label(labels[i])
  }

  /** Labels with a dot between each two. */
  ghost predicate Dotted(s: string) {
    exists labels: seq<string> :: labels != [] && AllLabels(labels) && Join(labels, '.') == s
  }

  lemma {:induction false} IdentifierIsLabel(s: string)
    ensures Identifier(s) <==> Label(s)
    ensures Label(s) ==> '.' !in s
  {
    forall i | 0 <= i < |s| ensures s[i] in s && (LabelChar(s[i]) <==> IdentifierChar(s[i])) {}
    if AllDigits(s) {
      if s != "" && (|s| == 1 || s[0] != '0') { CanonicalRoundTrip(s); }
      forall c | c in s ensures 48 <= c as int <= 57 {}
      forall n: nat | s == Digits(n) ensures Identifier(s) { DigitsCanonical(n); }
    } else {
      var i :| 0 <= i < |s| && !IsDigit(s[i]);
      assert s[i] in s && !(48 <= s[i] as int <= 57);
    }
  }

  lemma {:induction false} SplitJoin(labels: seq<string>)
    requires labels != [] && forall i :: 0 <= i < |labels| ==> '.' !in labels[i]
    ensures Split(Join(labels, '.'), '.') == labels
  {
    if |labels| == 1 {
      SplitJoined(labels[0], "", '.');
    } else {
      SplitJoin(labels[1..]);
      SplitJoined(labels[0], Join(labels[1..], '.'), '.');
    }
  }

  lemma {:induction false} PrereleaseIsDotted(s: string)
    ensures Prerelease(s) <==> Dotted(s)
  {
    var parts := Split(s, '.');
    JoinSplit(s, '.');
    forall i | 0 <= i < |parts| ensures Identifier(parts[i]) <==> Label(parts[i]) {
      IdentifierIsLabel(parts[i]);
    }
    forall labels: seq<string> | labels != [] && AllLabels(labels) && Join(labels, '.') == s ensures Prerelease(s) {
      forall i | 0 <= i < |labels| ensures Identifier(labels[i]) && '.' !in labels[i] { IdentifierIsLabel(labels[i]); }
      SplitJoin(labels);
    }
  }

  /** A text is accepted as this version exactly when it is three printed 64-bit
      numbers with dots between them, then nothing, or a hyphen and dotted identifiers. */
  lemma {:induction false} AcceptedAs(raw: string, v: Version)
    ensures Parse(raw) == Some(v) <==>
      && v.major < 0x1_0000_0000_0000_0000 && v.minor < 0x1_0000_0000_0000_0000 && v.patch < 0x1_0000_0000_0000_0000
      && (v.prerelease.Some? ==> Dotted(v.prerelease.value))
      && raw == Digits(v.major) + ("." + (Digits(v.minor) + ("." + Digits(v.patch)))) +
        (if v.prerelease.None? then "" else "-" + v.prerelease.value)
  {
    if v.prerelease.Some? { PrereleaseIsDotted(v.prerelease.value); }
    if WellFormed(v) { ParseDisplay(v); }
    if Parse(raw) == Some(v) { DisplayParse(raw); }
    assert v.prerelease.None? ==> Core(v) + "" == Core(v);
  }
}
