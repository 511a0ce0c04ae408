/** Regrouping of concatenations, and searching in strings. */
module Sequences {
  lemma {:induction false} Regroup<T>(a: seq<T>, b: seq<T>, c: seq<T>, d: seq<T>)
    ensures a + b + c + d == a + (b + (c + d))
  {
  }

  lemma {:induction false} Assoc<T>(a: seq<T>, b: seq<T>, c: seq<T>)
    ensures a + b + c == a + (b + c)
  {
  }

  lemma {:induction false} HeadTail<T>(a: seq<T>)
    requires a != []
    ensures a == [a[0]] + a[1..]
  {
  }

  /** Taking the first element off a sequence built around it. */
  lemma {:induction false} Uncons<T>(x: T, a: seq<T>, b: seq<T>)
    ensures ([x] + a) + b == [x] + (a + b)
    ensures (([x] + a) + b)[0] == x && (([x] + a) + b)[1..] == a + b
  {
  }

  /** A text on one line. */
  predicate Unbroken(s: string) {
    forall i :: 0 <= i < |s| ==> s[i] != '\n'
  }

  /** Index of the first character of `s` in `chars`, or the length of `s`. */
  function FirstOf(s: string, chars: set<char>): (i: nat)
    ensures i <= |s|
    ensures i < |s| ==> s[i] in chars
    ensures forall j :: 0 <= j < i ==> s[j] !in chars
  {
    if s == "" then 0
    else if s[0] in chars then 0
    else 1 + FirstOf(s[1..], chars)
  }

  /** The reader stops where the writer put a delimiter. */
  lemma {:induction false} FirstOfAppend(s: string, rest: string, chars: set<char>)
    requires forall j :: 0 <= j < |s| ==> s[j] !in chars
    requires rest == "" || rest[0] in chars
    ensures FirstOf(s + rest, chars) == |s|
    ensures (s + rest)[..|s|] == s && (s + rest)[|s|..] == rest
  {
    assert forall j :: 0 <= j < |s| ==> (s + rest)[j] == s[j];
    if rest != "" { assert (s + rest)[|s|] == rest[0]; }
  }
}
