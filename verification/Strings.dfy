/**
 The parts of Go's strings package that the group and policy strings use.
 Case folding covers ASCII letters only.
 */
module Strings {
  import opened Prelude

  /** unicode.IsSpace. */
  predicate IsSpace(c: char) {
    || c in {'\t', '\n', '\U{b}', '\U{c}', '\r', ' ', '\U{85}', '\U{a0}', '\U{1680}'}
    || '\U{2000}' <= c <= '\U{200a}'
    || c in {'\U{2028}', '\U{2029}', '\U{202f}', '\U{205f}', '\U{3000}'}
  }

  predicate IsComma(c: char) { c == ',' }

  predicate IsSemicolon(c: char) { c == ';' }

  function TrimLeft(s: string): string {
    if s != "" && IsSpace(s[0]) then TrimLeft(s[1..]) else s
  }

  function TrimRight(s: string): string {
    if s != "" && IsSpace(s[|s| - 1]) then TrimRight(s[..|s| - 1]) else s
  }

  function Trim(s: string): string { TrimRight(TrimLeft(s)) }

  /** Neither end is a space. */
  predicate Trimmed(s: string) {
    s != "" ==> !IsSpace(s[0]) && !IsSpace(s[|s| - 1])
  }

  function LowerChar(c: char): char {
    if 'A' <= c <= 'Z' then (c as int + 32) as char else c
  }

  function Lower(s: string): string {
    seq(|s|, i requires 0 <= i < |s| => LowerChar(s[i]))
  }

  predicate Lacks(s: string, p: char -> bool) { forall i :: 0 <= i < |s| ==> !p(s[i]) }

  /** Cut at every character satisfying p, keeping empty parts. */
  function Split(s: string, p: char -> bool): (parts: seq<string>)
    ensures parts != []
  {
    if s == "" then [""]
    else
      var rest := Split(s[1..], p);
      if p(s[0]) then [""] + rest else [[s[0]] + rest[0]] + rest[1..]
  }

  function Join(parts: seq<string>, sep: char): string {
    if parts == [] then ""
    else if |parts| == 1 then parts[0]
    else parts[0] + [sep] + Join(parts[1..], sep)
  }

  function NonEmpty(parts: seq<string>): seq<string> {
    if parts == [] then []
    else (if parts[0] == "" then [] else [parts[0]]) + NonEmpty(parts[1..])
  }

  /** The position of the last c, or -1. */
  function LastIndex(s: string, c: char): (i: int)
    ensures -1 <= i < |s|
    ensures 0 <= i ==> s[i] == c
  {
    if s == "" then -1
    else if s[|s| - 1] == c then |s| - 1
    else LastIndex(s[..|s| - 1], c)
  }

  lemma TrimOfTrimmed(s: string)
    requires Trimmed(s)
    ensures Trim(s) == s
  {
  }

  lemma {:induction false} SplitUncut(s: string, p: char -> bool)
    requires Lacks(s, p)
    ensures Split(s, p) == [s]
  {
    if s == "" {
    } else {
      SplitUncut(s[1..], p);
      assert [s[0]] + s[1..] == s;
    }
  }

  lemma {:induction false} SplitAtFirst(a: string, sep: char, b: string, p: char -> bool)
    requires Lacks(a, p) && p(sep)
    ensures Split(a + [sep] + b, p) == [a] + Split(b, p)
  {
    var s := a + [sep] + b;
    if a == "" {
      assert s[1..] == b;
    } else {
      assert s[1..] == a[1..] + [sep] + b;
      SplitAtFirst(a[1..], sep, b, p);
      assert [s[0]] + a[1..] == a;
    }
  }

  /** Splitting undoes joining. */
  lemma {:induction false} SplitJoin(parts: seq<string>, sep: char, p: char -> bool)
    requires parts != [] && p(sep)
    requires forall i :: 0 <= i < |parts| ==> Lacks(parts[i], p)
    ensures Split(Join(parts, sep), p) == parts
    decreases |parts|
  {
    if |parts| == 1 {
      SplitUncut(parts[0], p);
    } else {
      SplitAtFirst(parts[0], sep, Join(parts[1..], sep), p);
      SplitJoin(parts[1..], sep, p);
    }
  }

  lemma {:induction false} NonEmptyKeepsAll(parts: seq<string>)
    requires forall i :: 0 <= i < |parts| ==> parts[i] != ""
    ensures NonEmpty(parts) == parts
  {
    if parts == [] {
    } else {
      NonEmptyKeepsAll(parts[1..]);
    }
  }
}
