/**
The one-hunk unified diff of a configuration repair: what it says, that patching
with it works, and that its text can be read back.
*/
module UnifiedDiff {
  import opened Numbers
  import opened Options
  import opened Sequences
  import opened Decimal

  datatype Line = Keep(text: string) | Drop(text: string) | Add(text: string)

  /** A hunk: the number of lines before it, its extent on both sides, its lines. */
  datatype Hunk = Hunk(start: nat, beforeCount: nat, afterCount: nat, lines: seq<Line>)

  const CONTEXT: nat := 3

  // -------------------------------------------------------------- what changed

  /** Length of the longest common prefix. */
  function CommonPrefix(a: seq<string>, b: seq<string>): (n: nat)
    ensures n <= |a| && n <= |b| && a[..n] == b[..n]
    ensures n < |a| && n < |b| ==> a[n] != b[n]
  {
    if a == [] || b == [] || a[0] != b[0] then 0 else
    var n := CommonPrefix(a[1..], b[1..]);
    assert a[..1 + n] == [a[0]] + a[1..][..n] && b[..1 + n] == [b[0]] + b[1..][..n];
    1 + n
  }

  /** Length of the longest common suffix. */
  function CommonSuffix(a: seq<string>, b: seq<string>): (n: nat)
    ensures n <= |a| && n <= |b|
    ensures n < |a| && n < |b| ==> a[|a| - n - 1] != b[|b| - n - 1]
  {
    if a == [] || b == [] || a[|a| - 1] != b[|b| - 1] then 0 else
    CommonSuffix(a[..|a| - 1], b[..|b| - 1]) + 1
  }

  lemma {:induction false} CommonSuffixAgrees(a: seq<string>, b: seq<string>, i: nat)
    requires i < CommonSuffix(a, b)
    ensures a[|a| - 1 - i] == b[|b| - 1 - i]
  {
    if i > 0 { CommonSuffixAgrees(a[..|a| - 1], b[..|b| - 1], i - 1); }
  }

  function Kept(texts: seq<string>): seq<Line> {
    seq(|texts|, i requires 0 <= i < |texts| => Keep(texts[i]))
  }

  function Dropped(texts: seq<string>): seq<Line> {
    seq(|texts|, i requires 0 <= i < |texts| => Drop(texts[i]))
  }

  function Added(texts: seq<string>): seq<Line> {
    seq(|texts|, i requires 0 <= i < |texts| => Add(texts[i]))
  }

  /** Where the change lies: lines before it, lines after it, and the context. */
  datatype Frame = Frame(prefix: nat, suffix: nat, start: nat, beforeEnd: nat, afterEnd: nat)

  function FrameOf(before: seq<string>, after: seq<string>): (f: Frame)
    ensures f.start <= f.prefix <= |before| - f.suffix <= f.beforeEnd <= |before|
    ensures f.prefix <= |after| - f.suffix <= f.afterEnd <= |after|
    ensures f.beforeEnd - (|before| - f.suffix) == f.afterEnd - (|after| - f.suffix) == Min(3, f.suffix)
    ensures f.prefix - f.start == Min(3, f.prefix)
    ensures f.prefix < |before| - f.suffix && f.prefix < |after| - f.suffix ==>
      before[f.prefix] != after[f.prefix] && before[|before| - f.suffix - 1] != after[|after| - f.suffix - 1]
  {
    var prefix := CommonPrefix(before, after);
    var suffix := CommonSuffix(before[prefix..], after[prefix..]);
    Frame(prefix, suffix, if prefix < CONTEXT then 0 else prefix - CONTEXT,
      Min(|before| - suffix + CONTEXT, |before|), Min(|after| - suffix + CONTEXT, |after|))
  }

  /** Both sides are a shared beginning, their own middle, and a shared end. */
  lemma {:induction false} SharedEnds(before: seq<string>, after: seq<string>)
    ensures var f := FrameOf(before, after);
      before[..f.prefix] == after[..f.prefix] && before[|before| - f.suffix..] == after[|after| - f.suffix..]
  {
    var f := FrameOf(before, after);
    var a, b := before[f.prefix..], after[f.prefix..];
    forall j | |before| - f.suffix <= j < |before| ensures before[j] == after[j + |after| - |before|] {
      CommonSuffixAgrees(a, b, |before| - 1 - j);
    }
  }

  /** Old and new lines cut up around the change. */
  datatype Pieces = Pieces(first: seq<string>, head: seq<string>, gone: seq<string>, came: seq<string>,
    tail: seq<string>, rest: seq<string>)

  function PiecesOf(before: seq<string>, after: seq<string>): Pieces {
    var f := FrameOf(before, after);
    Pieces(before[..f.start], before[f.start..f.prefix], before[f.prefix..|before| - f.suffix],
      after[f.prefix..|after| - f.suffix], after[|after| - f.suffix..f.afterEnd], after[f.afterEnd..])
  }

  function HunkLines(p: Pieces): seq<Line> {
    Kept(p.head) + (Dropped(p.gone) + (Added(p.came) + Kept(p.tail)))
  }

  function HunkOf(before: seq<string>, after: seq<string>): Hunk {
    var f := FrameOf(before, after);
    Hunk(f.start, f.beforeEnd - f.start, f.afterEnd - f.start, HunkLines(PiecesOf(before, after)))
  }

  // ------------------------------------------------------------------- patching

  /** Runs the hunk's lines over the old lines: the new lines and what is left. */
  function ApplyLines(old_: seq<string>, lines: seq<Line>): Option<(seq<string>, seq<string>)> {
    if lines == [] then Some(([], old_)) else
    match lines[0]
    case Add(text) =>
      var (new_, rest) :- ApplyLines(old_, lines[1..]);
      Some(([text] + new_, rest))
    case Keep(text) =>
      if old_ == [] || old_[0] != text then None else
      var (new_, rest) :- ApplyLines(old_[1..], lines[1..]);
      Some(([text] + new_, rest))
    case Drop(text) =>
      if old_ == [] || old_[0] != text then None else ApplyLines(old_[1..], lines[1..])
  }

  function BeforeCount(lines: seq<Line>): nat {
    if lines == [] then 0 else (if lines[0].Add? then 0 else 1) + BeforeCount(lines[1..])
  }

  function AfterCount(lines: seq<Line>): nat {
    if lines == [] then 0 else (if lines[0].Drop? then 0 else 1) + AfterCount(lines[1..])
  }

  /** Patches, if the counts are right and every line is where the hunk expects it. */
  function Apply(before: seq<string>, h: Hunk): Option<seq<string>> {
    if h.start > |before| || BeforeCount(h.lines) != h.beforeCount || AfterCount(h.lines) != h.afterCount then None else
    var (new_, rest) :- ApplyLines(before[h.start..], h.lines);
    Some(before[..h.start] + new_ + rest)
  }

  lemma {:induction false} ApplyKept(texts: seq<string>, rest: seq<string>, lines: seq<Line>)
    ensures ApplyLines(texts + rest, Kept(texts) + lines) ==
      match ApplyLines(rest, lines) case None => None case Some((new_, left)) => Some((texts + new_, left))
    ensures BeforeCount(Kept(texts) + lines) == |texts| + BeforeCount(lines)
    ensures AfterCount(Kept(texts) + lines) == |texts| + AfterCount(lines)
  {
    if texts == [] {
      assert texts + rest == rest && Kept(texts) + lines == lines;
      if ApplyLines(rest, lines).Some? { assert [] + ApplyLines(rest, lines).value.0 == ApplyLines(rest, lines).value.0; }
    } else {
      ApplyKept(texts[1..], rest, lines);
      assert (Kept(texts) + lines)[1..] == Kept(texts[1..]) + lines && (texts + rest)[1..] == texts[1..] + rest;
      if ApplyLines(rest, lines).Some? {
        var new_ := ApplyLines(rest, lines).value.0;
        assert [texts[0]] + (texts[1..] + new_) == texts + new_;
      }
    }
  }

  lemma {:induction false} ApplyDropped(texts: seq<string>, rest: seq<string>, lines: seq<Line>)
    ensures ApplyLines(texts + rest, Dropped(texts) + lines) == ApplyLines(rest, lines)
    ensures BeforeCount(Dropped(texts) + lines) == |texts| + BeforeCount(lines)
    ensures AfterCount(Dropped(texts) + lines) == AfterCount(lines)
  {
    if texts == [] {
      assert texts + rest == rest && Dropped(texts) + lines == lines;
    } else {
      ApplyDropped(texts[1..], rest, lines);
      assert (Dropped(texts) + lines)[1..] == Dropped(texts[1..]) + lines && (texts + rest)[1..] == texts[1..] + rest;
    }
  }

  lemma {:induction false} ApplyAdded(texts: seq<string>, rest: seq<string>, lines: seq<Line>)
    ensures ApplyLines(rest, Added(texts) + lines) ==
      match ApplyLines(rest, lines) case None => None case Some((new_, left)) => Some((texts + new_, left))
    ensures BeforeCount(Added(texts) + lines) == BeforeCount(lines)
    ensures AfterCount(Added(texts) + lines) == |texts| + AfterCount(lines)
  {
    if texts == [] {
      assert Added(texts) + lines == lines;
      if ApplyLines(rest, lines).Some? { assert [] + ApplyLines(rest, lines).value.0 == ApplyLines(rest, lines).value.0; }
    } else {
      ApplyAdded(texts[1..], rest, lines);
      assert (Added(texts) + lines)[1..] == Added(texts[1..]) + lines;
      if ApplyLines(rest, lines).Some? {
        var new_ := ApplyLines(rest, lines).value.0;
        assert [texts[0]] + (texts[1..] + new_) == texts + new_;
      }
    }
  }

  lemma {:induction false} SplitAt<T>(s: seq<T>, i: nat, j: nat)
    requires i <= j <= |s|
    ensures s[..j] == s[..i] + s[i..j] && s[i..] == s[i..j] + s[j..]
  {
  }

  lemma {:induction false} DropSlice<T>(s: seq<T>, i: nat, j: nat)
    requires i <= j <= |s|
    ensures s[i..][..j - i] == s[i..j] && s[i..][j - i..] == s[j..]
  {
  }

  lemma {:induction false} SharedSuffix(before: seq<string>, after: seq<string>)
    ensures var suffix := FrameOf(before, after).suffix; before[|before| - suffix..] == after[|after| - suffix..]
  {
    SharedEnds(before, after);
  }

  /** The trailing context and what follows it are the same on both sides. */
  lemma {:induction false} SharedTail(before: seq<string>, after: seq<string>)
    ensures var f := FrameOf(before, after);
      && after[|after| - f.suffix..f.afterEnd] == before[|before| - f.suffix..f.beforeEnd]
      && after[f.afterEnd..] == before[f.beforeEnd..]
  {
    var f := FrameOf(before, after);
    var n := Min(CONTEXT, f.suffix);
    assert f.beforeEnd == |before| - f.suffix + n && f.afterEnd == |after| - f.suffix + n;
    SharedSuffix(before, after);
    SameSlices(before, after, |before| - f.suffix, |after| - f.suffix, n);
  }

  lemma {:induction false} SameSlices<T>(s: seq<T>, t: seq<T>, i: nat, j: nat, n: nat)
    requires i + n <= |s| && j + n <= |t| && s[i..] == t[j..]
    ensures s[i..i + n] == t[j..j + n] && s[i + n..] == t[j + n..]
  {
    DropSlice(s, i, i + n);
    DropSlice(t, j, j + n);
  }

  /** How the hunk's pieces run over the old lines. */
  lemma {:induction false} ApplyPieces(p: Pieces)
    ensures ApplyLines(p.head + (p.gone + (p.tail + p.rest)), HunkLines(p)) == Some((p.head + (p.came + p.tail), p.rest))
    ensures BeforeCount(HunkLines(p)) == |p.head| + |p.gone| + |p.tail|
    ensures AfterCount(HunkLines(p)) == |p.head| + |p.came| + |p.tail|
  {
    assert Kept(p.tail) + [] == Kept(p.tail) && p.tail + [] == p.tail;
    ApplyKept(p.tail, p.rest, []);
    ApplyAdded(p.came, p.tail + p.rest, Kept(p.tail));
    ApplyDropped(p.gone, p.tail + p.rest, Added(p.came) + Kept(p.tail));
    ApplyKept(p.head, p.gone + (p.tail + p.rest), Dropped(p.gone) + (Added(p.came) + Kept(p.tail)));
  }

  lemma {:induction false} CutInFive<T>(s: seq<T>, i: nat, j: nat, k: nat, l: nat)
    requires i <= j <= k <= l <= |s|
    ensures s == s[..i] + (s[i..j] + (s[j..k] + (s[k..l] + s[l..])))
  {
    SplitAt(s, k, l);
    SplitAt(s, j, k);
    SplitAt(s, i, j);
  }

  lemma {:induction false} SharedHead(before: seq<string>, after: seq<string>)
    ensures var f := FrameOf(before, after);
      before[..f.start] == after[..f.start] && before[f.start..f.prefix] == after[f.start..f.prefix]
  {
    var f := FrameOf(before, after);
    SharedEnds(before, after);
    assert before[..f.prefix][..f.start] == before[..f.start] && after[..f.prefix][..f.start] == after[..f.start];
    assert before[..f.prefix][f.start..] == before[f.start..f.prefix] && after[..f.prefix][f.start..] == after[f.start..f.prefix];
  }

  lemma {:induction false} BeforePieces(before: seq<string>, after: seq<string>)
    ensures var p := PiecesOf(before, after); before == p.first + (p.head + (p.gone + (p.tail + p.rest)))
  {
    var f := FrameOf(before, after);
    PiecesShareTail(before, after);
    CutBy(before, f, PiecesOf(before, after));
  }

  lemma {:induction false} CutBy(before: seq<string>, f: Frame, p: Pieces)
    requires f.start <= f.prefix && f.suffix <= |before| && f.prefix <= |before| - f.suffix <= f.beforeEnd <= |before|
    requires p.first == before[..f.start] && p.head == before[f.start..f.prefix] && p.gone == before[f.prefix..|before| - f.suffix]
    requires p.tail == before[|before| - f.suffix..f.beforeEnd] && p.rest == before[f.beforeEnd..]
    ensures before == p.first + (p.head + (p.gone + (p.tail + p.rest)))
  {
    CutInFive(before, f.start, f.prefix, |before| - f.suffix, f.beforeEnd);
  }

  lemma {:induction false} PiecesShareTail(before: seq<string>, after: seq<string>)
    ensures var f, p := FrameOf(before, after), PiecesOf(before, after);
      p.tail == before[|before| - f.suffix..f.beforeEnd] && p.rest == before[f.beforeEnd..]
  {
    SharedTail(before, after);
  }

  lemma {:induction false} AfterPieces(before: seq<string>, after: seq<string>)
    ensures var p := PiecesOf(before, after); after == p.first + (p.head + (p.came + (p.tail + p.rest)))
  {
    var f, p := FrameOf(before, after), PiecesOf(before, after);
    SharedHead(before, after);
    CutBy(after, f.(beforeEnd := f.afterEnd), p.(gone := p.came));
  }

  lemma {:induction false} ApplyHunk(p: Pieces, h: Hunk)
    requires h == Hunk(|p.first|, |p.head| + |p.gone| + |p.tail|, |p.head| + |p.came| + |p.tail|, HunkLines(p))
    ensures Apply(p.first + (p.head + (p.gone + (p.tail + p.rest))), h) == Some(p.first + (p.head + (p.came + (p.tail + p.rest))))
  {
    var old_ := p.head + (p.gone + (p.tail + p.rest));
    assert (p.first + old_)[|p.first|..] == old_ && (p.first + old_)[..|p.first|] == p.first;
    ApplyPieces(p);
    Regrouped(p.first, p.head, p.came, p.tail, p.rest);
  }

  lemma {:induction false} Regrouped<T>(a: seq<T>, b: seq<T>, c: seq<T>, d: seq<T>, e: seq<T>)
    ensures a + (b + (c + d)) + e == a + (b + (c + (d + e)))
  {
  }

  /** Patching the old lines with their hunk gives the new lines, and both counts
      in the hunk's header are the numbers of lines it covers. */
  lemma {:induction false} PatchProducesAfter(before: seq<string>, after: seq<string>)
    ensures Apply(before, HunkOf(before, after)) == Some(after)
  {
    BeforePieces(before, after);
    AfterPieces(before, after);
    ApplyHunk(PiecesOf(before, after), HunkOf(before, after));
  }

  // ----------------------------------------------------------------------- text

  function LineText(line: Line): string {
    match line
    case Keep(text) => " " + text
    case Drop(text) => "-" + text
    case Add(text) => "+" + text
  }

  function LinesText(lines: seq<Line>): string {
    if lines == [] then "" else LineText(lines[0]) + ("\n" + LinesText(lines[1..]))
  }

  /** `first,count`, a blank, and what follows. */
  function PairText(first: nat, count: nat, rest: string): string {
    Digits(first) + ("," + (Digits(count) + (" " + rest)))
  }

  function RangeText(start: nat, beforeCount: nat, afterCount: nat): string {
    "@@ -" + PairText(start + 1, beforeCount, "+" + PairText(start + 1, afterCount, "@@"))
  }

  function ThreeLines(path: string, range: string, body: string): string {
    ("--- " + path) + ("\n" + (("+++ " + path) + ("\n" + (range + ("\n" + body)))))
  }

  function PatchText(path: string, h: Hunk): string {
    ThreeLines(path, RangeText(h.start, h.beforeCount, h.afterCount), LinesText(h.lines))
  }

  /** The lines of a text, each ended by a line break. */
  function BrokenLines(s: string): seq<string> {
    if s == "" then [] else
    var i := FirstOf(s, {'\n'});
    [s[..i]] + if i == |s| then [] else BrokenLines(s[i + 1..])
  }

  function ReadNumber(s: string, stop: char): Option<(nat, string)> {
    var i := FirstOf(s, {stop});
    if i == 0 || i == |s| || !AllDigits(s[..i]) then None else Some((NatOf(s[..i]), s[i + 1..]))
  }

  function ReadPair(s: string): Option<(nat, nat, string)> {
    var (first, t) :- ReadNumber(s, ',');
    var (count, u) :- ReadNumber(t, ' ');
    Some((first, count, u))
  }

  /** The part of a range line after the first extent. */
  function ReadSecond(start: nat, beforeCount: nat, s: string): Option<(nat, nat, nat)> {
    if !("+" <= s) then None else
    var (again, afterCount, rest) :- ReadPair(s[1..]);
    if rest != "@@" || again != start || start == 0 then None else Some((start - 1, beforeCount, afterCount))
  }

  /** The start and the two extents named in a range line. */
  function ReadRange(s: string): Option<(nat, nat, nat)> {
    if !("@@ -" <= s) then None else
    var (start, beforeCount, rest) :- ReadPair(s[4..]);
    ReadSecond(start, beforeCount, rest)
  }

  function ReadBody(lines: seq<string>): Option<seq<Line>> {
    if lines == [] then Some([])
    else if lines[0] == "" || lines[0][0] !in {' ', '-', '+'} then None else
    var mark, text := lines[0][0], lines[0][1..];
    var rest :- ReadBody(lines[1..]);
    Some([if mark == ' ' then Keep(text) else if mark == '-' then Drop(text) else Add(text)] + rest)
  }

  function ReadPatch(text: string): Option<Hunk> {
    var lines := BrokenLines(text);
    if |lines| < 3 || !("--- " <= lines[0]) || !("+++ " <= lines[1]) then None else
    var (start, beforeCount, afterCount) :- ReadRange(lines[2]);
    var body :- ReadBody(lines[3..]);
    Some(Hunk(start, beforeCount, afterCount, body))
  }

  lemma {:induction false} LineBreaks(line: string, rest: string)
    requires Unbroken(line)
    ensures BrokenLines(line + ("\n" + rest)) == [line] + BrokenLines(rest)
  {
    assert forall j :: 0 <= j < |line| ==> line[j] !in {'\n'};
    FirstOfAppend(line, "\n" + rest, {'\n'});
    assert (line + ("\n" + rest))[|line| + 1..] == rest;
  }

  lemma {:induction false} NumberReads(n: nat, stop: char, rest: string)
    requires !IsDigit(stop)
    ensures ReadNumber(Digits(n) + ([stop] + rest), stop) == Some((n, rest))
  {
    var digits := Digits(n);
    assert forall j :: 0 <= j < |digits| ==> IsDigit(digits[j]);
    FirstOfAppend(digits, [stop] + rest, {stop});
    assert (digits + ([stop] + rest))[|digits| + 1..] == rest;
    DigitsRoundTrip(n);
  }

  lemma {:induction false} PairReads(first: nat, count: nat, rest: string)
    ensures ReadPair(PairText(first, count, rest)) == Some((first, count, rest))
  {
    NumberReads(first, ',', Digits(count) + (" " + rest));
    NumberReads(count, ' ', rest);
  }

  lemma {:induction false} Stripped(prefix: string, rest: string)
    ensures prefix <= prefix + rest && (prefix + rest)[|prefix|..] == rest
  {
  }

  lemma {:induction false} SecondReads(start: nat, beforeCount: nat, afterCount: nat)
    ensures ReadSecond(start + 1, beforeCount, "+" + PairText(start + 1, afterCount, "@@")) == Some((start, beforeCount, afterCount))
  {
    Stripped("+", PairText(start + 1, afterCount, "@@"));
    PairReads(start + 1, afterCount, "@@");
  }

  lemma {:induction false} RangeReads(start: nat, beforeCount: nat, afterCount: nat)
    ensures ReadRange(RangeText(start, beforeCount, afterCount)) == Some((start, beforeCount, afterCount))
  {
    var rest := "+" + PairText(start + 1, afterCount, "@@");
    Stripped("@@ -", PairText(start + 1, beforeCount, rest));
    PairReads(start + 1, beforeCount, rest);
    SecondReads(start, beforeCount, afterCount);
  }

  lemma {:induction false} PairUnbroken(first: nat, count: nat, rest: string)
    requires Unbroken(rest)
    ensures Unbroken(PairText(first, count, rest))
  {
    assert forall c :: c in Digits(first) ==> IsDigit(c);
    assert forall c :: c in Digits(count) ==> IsDigit(c);
  }

  lemma {:induction false} RangeUnbroken(start: nat, beforeCount: nat, afterCount: nat)
    ensures Unbroken(RangeText(start, beforeCount, afterCount))
  {
    PairUnbroken(start + 1, afterCount, "@@");
    PairUnbroken(start + 1, beforeCount, "+" + PairText(start + 1, afterCount, "@@"));
  }

  ghost predicate AllUnbroken(lines: seq<Line>) {
    forall i :: 0 <= i < |lines| ==> Unbroken(lines[i].text)
  }

  lemma {:induction false} FirstLineReads(line: Line, rest: seq<string>)
    requires ReadBody(rest).Some?
    ensures ReadBody([LineText(line)] + rest) == Some([line] + ReadBody(rest).value)
  {
    assert ([LineText(line)] + rest)[1..] == rest;
    assert LineText(line)[1..] == line.text;
  }

  lemma {:induction false} BodyReads(lines: seq<Line>)
    requires AllUnbroken(lines)
    ensures ReadBody(BrokenLines(LinesText(lines))) == Some(lines)
  {
    if lines != [] {
      LineBreaks(LineText(lines[0]), LinesText(lines[1..]));
      BodyReads(lines[1..]);
      HeadTail(lines);
      FirstLineReads(lines[0], BrokenLines(LinesText(lines[1..])));
    }
  }

  lemma {:induction false} MarkedBreaks(mark: string, text: string, rest: string)
    requires Unbroken(mark) && Unbroken(text)
    ensures BrokenLines((mark + text) + ("\n" + rest)) == [mark + text] + BrokenLines(rest)
  {
    LineBreaks(mark + text, rest);
  }

  lemma {:induction false} ThreeLinesBreak(path: string, range: string, body: string)
    requires Unbroken(path) && Unbroken(range)
    ensures BrokenLines(ThreeLines(path, range, body)) == ["--- " + path] + (["+++ " + path] + ([range] + BrokenLines(body)))
  {
    LineBreaks(range, body);
    MarkedBreaks("+++ ", path, range + ("\n" + body));
    MarkedBreaks("--- ", path, ("+++ " + path) + ("\n" + (range + ("\n" + body))));
  }

  lemma {:induction false} FourParts(a: string, b: string, c: string, rest: seq<string>)
    ensures var lines := [a] + ([b] + ([c] + rest));
      |lines| >= 3 && lines[0] == a && lines[1] == b && lines[2] == c && lines[3..] == rest
  {
  }

  /** The text of a patch says all of its hunk. */
  lemma {:induction false} PatchReadsBack(path: string, h: Hunk)
    requires Unbroken(path) && AllUnbroken(h.lines)
    ensures ReadPatch(PatchText(path, h)) == Some(h)
  {
    var range := RangeText(h.start, h.beforeCount, h.afterCount);
    RangeUnbroken(h.start, h.beforeCount, h.afterCount);
    ThreeLinesBreak(path, range, LinesText(h.lines));
    FourParts("--- " + path, "+++ " + path, range, BrokenLines(LinesText(h.lines)));
    RangeReads(h.start, h.beforeCount, h.afterCount);
    BodyReads(h.lines);
  }

  // ----------------------------------------------------------------- the builder

  function Marked(mark: char, texts: seq<string>): seq<Line> {
    if mark == ' ' then Kept(texts) else if mark == '-' then Dropped(texts) else Added(texts)
  }

  lemma {:induction false} AfterBreak(line: string, rest: string, more: string)
    ensures line + ("\n" + rest) + more == line + ("\n" + (rest + more))
  {
  }

  lemma {:induction false} LinesTextAppend(a: seq<Line>, b: seq<Line>)
    ensures LinesText(a + b) == LinesText(a) + LinesText(b)
  {
    if a == [] {
      assert a + b == b;
    } else {
      LinesTextAppend(a[1..], b);
      Uncons(a[0], a[1..], b);
      HeadTail(a);
      AfterBreak(LineText(a[0]), LinesText(a[1..]), LinesText(b));
    }
  }

  lemma {:induction false} MarkedStep(mark: char, texts: seq<string>, i: nat)
    requires mark in {' ', '-', '+'} && i < |texts|
    ensures LinesText(Marked(mark, texts[i..])) == ([mark] + texts[i] + "\n") + LinesText(Marked(mark, texts[i + 1..]))
  {
    assert Marked(mark, texts[i..])[1..] == Marked(mark, texts[i + 1..]);
    Assoc([mark] + texts[i], "\n", LinesText(Marked(mark, texts[i + 1..])));
  }

  /** Appends one marked line per text. */
  method PushLines(diff: string, mark: char, texts: seq<string>) returns (out: string)
    requires mark in {' ', '-', '+'}
    ensures out == diff + LinesText(Marked(mark, texts))
  {
    out := diff;
    assert texts[0..] == texts;
    for i := 0 to |texts|
      invariant out + LinesText(Marked(mark, texts[i..])) == diff + LinesText(Marked(mark, texts))
    {
      MarkedStep(mark, texts, i);
      Assoc(out, [mark] + texts[i] + "\n", LinesText(Marked(mark, texts[i + 1..])));
      out := out + ([mark] + texts[i] + "\n");
    }
    assert out + LinesText(Marked(mark, texts[|texts|..])) == out;
  }

  /** Appends the lines of a hunk, group by group. */
  method PushHunk(header: string, p: Pieces) returns (diff: string)
    ensures diff == header + LinesText(HunkLines(p))
  {
    diff := PushLines(header, ' ', p.head);
    diff := PushLines(diff, '-', p.gone);
    diff := PushLines(diff, '+', p.came);
    diff := PushLines(diff, ' ', p.tail);
    BodyText(header, p);
  }

  /** The header and the lines of one hunk. */
  method WriteHunk(path: string, start: nat, beforeCount: nat, afterCount: nat, p: Pieces) returns (diff: string)
    ensures diff == PatchText(path, Hunk(start, beforeCount, afterCount, HunkLines(p)))
  {
    var range := RangeText(start, beforeCount, afterCount);
    diff := PushHunk(ThreeLines(path, range, ""), p);
    HeaderEnds(path, range, LinesText(HunkLines(p)));
  }

  /** Builds the diff text of two line lists. */
  method BuildDiff(before: seq<string>, after: seq<string>, path: string) returns (diff: string)
    ensures diff == PatchText(path, HunkOf(before, after))
  {
    var f := FrameOf(before, after);
    diff := WriteHunk(path, f.start, f.beforeEnd - f.start, f.afterEnd - f.start, PiecesOf(before, after));
  }

  lemma {:induction false} BodyText(header: string, p: Pieces)
    ensures header + LinesText(Kept(p.head)) + LinesText(Dropped(p.gone)) + LinesText(Added(p.came)) + LinesText(Kept(p.tail))
      == header + LinesText(HunkLines(p))
  {
    LinesTextAppend(Added(p.came), Kept(p.tail));
    LinesTextAppend(Dropped(p.gone), Added(p.came) + Kept(p.tail));
    LinesTextAppend(Kept(p.head), Dropped(p.gone) + (Added(p.came) + Kept(p.tail)));
    LeftToRight(header, LinesText(Kept(p.head)), LinesText(Dropped(p.gone)), LinesText(Added(p.came)), LinesText(Kept(p.tail)));
  }

  lemma {:induction false} LeftToRight<T>(a: seq<T>, b: seq<T>, c: seq<T>, d: seq<T>, e: seq<T>)
    ensures a + b + c + d + e == a + (b + (c + (d + e)))
  {
  }

  lemma {:induction false} HeaderEnds(path: string, range: string, body: string)
    ensures ThreeLines(path, range, "") + body == ThreeLines(path, range, body)
  {
  }

  ghost predicate TextsUnbroken(texts: seq<string>) {
    forall i :: 0 <= i < |texts| ==> Unbroken(texts[i])
  }

  lemma {:induction false} HunkUnbroken(p: Pieces)
    requires TextsUnbroken(p.head) && TextsUnbroken(p.gone) && TextsUnbroken(p.came) && TextsUnbroken(p.tail)
    ensures AllUnbroken(HunkLines(p))
  {
    var last := Added(p.came) + Kept(p.tail);
    assert AllUnbroken(last);
    assert AllUnbroken(Dropped(p.gone) + last);
  }

  /** The diff that is shown, read back and applied to the old lines, gives the new ones. */
  lemma {:induction false} ShownDiffProducesAfter(before: seq<string>, after: seq<string>, path: string)
    requires Unbroken(path) && TextsUnbroken(before) && TextsUnbroken(after)
    ensures ReadPatch(PatchText(path, HunkOf(before, after))) == Some(HunkOf(before, after))
    ensures Apply(before, HunkOf(before, after)) == Some(after)
  {
    HunkUnbroken(PiecesOf(before, after));
    PatchReadsBack(path, HunkOf(before, after));
    PatchProducesAfter(before, after);
  }
}
