/** The small part of Python's optional-value and string behaviour that the
    scorer and the graph service rely on. */
module Wrappers {

  datatype Option<+T> = None | Some(value: T) {
    function GetOr(default: T): T {
      match this
      case Some(v) => v
      case None => default
    }
  }
}

module Text {

  /** Characters for which Python's `str.isspace()` holds, and on which
      `str.split()` with no argument separates words. */
  predicate IsSpace(c: char) {
    || ('\t' <= c <= '\r')
    || ('\U{1C}' <= c <= '\U{1F}')
    || c == ' '
    || c == '\U{85}' || c == '\U{A0}' || c == '\U{1680}'
    || ('\U{2000}' <= c <= '\U{200A}')
    || c == '\U{2028}' || c == '\U{2029}' || c == '\U{202F}' || c == '\U{205F}'
    || c == '\U{3000}'
  }

  predicate NoSpace(w: string) {
    forall i :: 0 <= i < |w| ==> !IsSpace(w[i])
  }

  // ---------------------------------------------------------------------
  // Lower-casing (ASCII only)
  // ---------------------------------------------------------------------

  function LowerChar(c: char): (d: char)
    ensures 'A' <= c <= 'Z' ==> d as int == c as int + 32
    ensures !('A' <= c <= 'Z') ==> d == c
  {
    if 'A' <= c <= 'Z' then (c as int + 32) as char else c
  }

  function Lower(s: string): (r: string)
    ensures |r| == |s|
    ensures forall i :: 0 <= i < |s| ==> r[i] == LowerChar(s[i])
  {
    if s == [] then [] else [LowerChar(s[0])] + Lower(s[1..])
  }

  // ---------------------------------------------------------------------
  // Substring test: Python's `needle in haystack`
  // ---------------------------------------------------------------------

  predicate Contains(haystack: string, needle: string)
    decreases |haystack|
  {
    || needle <= haystack
    || (|haystack| > 0 && Contains(haystack[1..], needle))
  }

  /** `needle` occurs in `haystack` at position `i`. */
  ghost predicate OccursAt(haystack: string, needle: string, i: int) {
    0 <= i && i + |needle| <= |haystack| && haystack[i..i + |needle|] == needle
  }

  /** The recursive test agrees with the definition of an occurrence. */
  lemma {:induction false} ContainsIff(haystack: string, needle: string)
    ensures Contains(haystack, needle) <==> exists i :: OccursAt(haystack, needle, i)
    decreases |haystack|
  {
    if needle <= haystack {
      assert OccursAt(haystack, needle, 0);
    } else if |haystack| > 0 {
      var tail := haystack[1..];
      ContainsIff(tail, needle);
      forall i | OccursAt(haystack, needle, i)
        ensures i >= 1 && OccursAt(tail, needle, i - 1)
      {
        assert haystack[..|needle|] == haystack[0..|needle|];
        assert tail[i - 1..i - 1 + |needle|] == haystack[i..i + |needle|];
      }
      forall j | OccursAt(tail, needle, j)
        ensures OccursAt(haystack, needle, j + 1)
      {
        assert haystack[j + 1..j + 1 + |needle|] == tail[j..j + |needle|];
      }
    }
  }

  // ---------------------------------------------------------------------
  // Python's `str.split()` with no separator
  // ---------------------------------------------------------------------

  /** Length of the run of non-space characters at the start of `s`. */
  function WordLength(s: string): (n: nat)
    ensures n <= |s|
    ensures NoSpace(s[..n])
    ensures n < |s| ==> IsSpace(s[n])
  {
    if s == [] || IsSpace(s[0]) then 0
    else
      var n := 1 + WordLength(s[1..]);
      assert s[..n] == [s[0]] + s[1..][..n - 1];
      n
  }

  /** Splits on runs of whitespace; leading and trailing whitespace give no
      empty words. */
  function Split(s: string): (words: seq<string>)
    ensures forall k :: 0 <= k < |words| ==> words[k] != [] && NoSpace(words[k])
    decreases |s|
  {
    if s == [] then []
    else if IsSpace(s[0]) then Split(s[1..])
    else
      var n := WordLength(s);
      [s[..n]] + Split(s[n..])
  }

  /** Python's `" ".join(words)`. */
  function Join(words: seq<string>): string {
    if |words| == 0 then ""
    else if |words| == 1 then words[0]
    else words[0] + " " + Join(words[1..])
  }

  lemma {:induction false} WordLengthOfWord(w: string, rest: string)
    requires NoSpace(w)
    requires rest == [] || IsSpace(rest[0])
    ensures WordLength(w + rest) == |w|
    decreases |w|
  {
    if w != [] {
      assert (w + rest)[1..] == w[1..] + rest;
      WordLengthOfWord(w[1..], rest);
    }
  }

  /** Splitting undoes joining with single spaces, for non-empty words free
      of whitespace: the word count of a joined text is its number of words. */
  lemma {:induction false} SplitJoin(words: seq<string>)
    requires forall k :: 0 <= k < |words| ==> words[k] != [] && NoSpace(words[k])
    ensures Split(Join(words)) == words
    decreases |words|
  {
    if |words| == 1 {
      var w := words[0];
      WordLengthOfWord(w, []);
      assert w + [] == w;
      assert w[|w|..] == [];
    } else if |words| > 1 {
      var w := words[0];
      var rest := " " + Join(words[1..]);
      var s := w + rest;
      assert Join(words) == s;
      WordLengthOfWord(w, rest);
      assert s[..|w|] == w;
      assert s[|w|..] == rest;
      assert rest[1..] == Join(words[1..]);
      SplitJoin(words[1..]);
    }
  }

  /** The words laid end to end. */
  function Concat(words: seq<string>): string {
    if words == [] then [] else words[0] + Concat(words[1..])
  }

  /** The non-whitespace characters of `s`, in order. */
  function NonSpaceChars(s: string): string {
    if s == [] then [] else (if IsSpace(s[0]) then [] else [s[0]]) + NonSpaceChars(s[1..])
  }

  /** The positions where whitespace is followed by a non-whitespace character. */
  function Transitions(s: string): nat {
    if |s| < 2 then 0
    else (if IsSpace(s[0]) && !IsSpace(s[1]) then 1 else 0) + Transitions(s[1..])
  }

  /** The positions where a word starts: a non-whitespace character that is
      first or follows whitespace. */
  function WordStarts(s: string): nat {
    (if s != [] && !IsSpace(s[0]) then 1 else 0) + Transitions(s)
  }

  lemma {:induction false} NonSpaceCharsAppend(a: string, b: string)
    ensures NonSpaceChars(a + b) == NonSpaceChars(a) + NonSpaceChars(b)
    decreases |a|
  {
    if a == [] {
      assert a + b == b;
    } else {
      assert (a + b)[1..] == a[1..] + b;
      NonSpaceCharsAppend(a[1..], b);
    }
  }

  lemma {:induction false} NonSpaceCharsOfWord(w: string)
    requires NoSpace(w)
    ensures NonSpaceChars(w) == w
    decreases |w|
  {
    if w != [] {
      NonSpaceCharsOfWord(w[1..]);
      assert w == [w[0]] + w[1..];
    }
  }

  /** Inside a word no word starts; counting resumes after it. */
  lemma {:induction false} TransitionsInWord(s: string)
    requires s != [] && !IsSpace(s[0])
    ensures Transitions(s) == WordStarts(s[WordLength(s)..])
    decreases |s|
  {
    if |s| >= 2 && !IsSpace(s[1]) {
      var t := s[1..];
      TransitionsInWord(t);
      assert s[WordLength(s)..] == t[WordLength(t)..];
    }
  }

  /** What `str.split()` means: laid end to end the words are the
      non-whitespace characters of `s` in order, and there is one word per
      word start of `s`, however the words are separated and whether or not
      `s` begins or ends with whitespace. */
  lemma {:induction false} SplitMeaning(s: string)
    ensures Concat(Split(s)) == NonSpaceChars(s)
    ensures |Split(s)| == WordStarts(s)
    decreases |s|
  {
    if s != [] {
      if IsSpace(s[0]) {
        SplitMeaning(s[1..]);
      } else {
        var n := WordLength(s);
        var w := s[..n];
        SplitMeaning(s[n..]);
        TransitionsInWord(s);
        assert Split(s) == [w] + Split(s[n..]);
        assert ([w] + Split(s[n..]))[1..] == Split(s[n..]);
        assert s == w + s[n..];
        NonSpaceCharsAppend(w, s[n..]);
        NonSpaceCharsOfWord(w);
      }
    }
  }

  // ---------------------------------------------------------------------
  // Python's `str(n)` for integers
  // ---------------------------------------------------------------------

  function DigitChar(d: nat): (c: char)
    requires d < 10
    ensures '0' <= c <= '9'
  {
    ('0' as int + d) as char
  }

  function NatToString(n: nat): (s: string)
    ensures |s| >= 1
    ensures forall i :: 0 <= i < |s| ==> '0' <= s[i] <= '9'
  {
    if n < 10 then [DigitChar(n)] else NatToString(n / 10) + [DigitChar(n % 10)]
  }

  function ParseDigits(s: string): int {
    if s == [] then 0 else 10 * ParseDigits(s[..|s| - 1]) + (s[|s| - 1] as int - '0' as int)
  }

  /** Reading the decimal digits back gives the number. */
  lemma {:induction false} NatToStringRoundTrip(n: nat)
    ensures ParseDigits(NatToString(n)) == n
  {
    if n >= 10 {
      NatToStringRoundTrip(n / 10);
      var s := NatToString(n);
      assert s[..|s| - 1] == NatToString(n / 10);
    }
  }

  function IntToString(n: int): (s: string)
    ensures |s| >= 1
    ensures s[0] == '-' || '0' <= s[0] <= '9'
  {
    if n < 0 then "-" + NatToString(-n) else NatToString(n)
  }

  lemma NatToStringInjective(x: nat, y: nat)
    ensures NatToString(x) == NatToString(y) ==> x == y
  {
    NatToStringRoundTrip(x);
    NatToStringRoundTrip(y);
  }

  /** Distinct integers print differently. */
  lemma IntToStringInjective(a: int, b: int)
    ensures IntToString(a) == IntToString(b) <==> a == b
  {
    if IntToString(a) == IntToString(b) {
      var s := IntToString(a);
      assert s[0] == '-' <==> a < 0;
      assert s[0] == '-' <==> b < 0;
      if a < 0 {
        assert NatToString(-a) == s[1..];
        assert NatToString(-b) == s[1..];
        NatToStringInjective(-a, -b);
      } else {
        NatToStringInjective(a, b);
      }
    }
  }
}
