/**
 * The string primitives the note parser is built on, as Python's built-in
 * `str` methods behave on them: whitespace as `str.isspace` defines it,
 * `strip()` and `split()` without arguments, `lower()` on ASCII letters,
 * and `isdigit()` / `int()` on ASCII decimal digits.
 */
module Text {

  /** The characters Python's `str.isspace` accepts; `strip()` and `split()` use them when given no separator. */
  const Whitespace: set<char> := {
    '\t', '\n', '\U{0B}', '\U{0C}', '\r',                    // tab, line feed, vertical tab, form feed, carriage return
    '\U{1C}', '\U{1D}', '\U{1E}', '\U{1F}',                  // file, group, record and unit separators
    ' ', '\U{85}', '\U{A0}', '\U{1680}',                       // space, next line, no-break space, ogham space mark
    '\U{2000}', '\U{2001}', '\U{2002}', '\U{2003}', '\U{2004}', '\U{2005}',
    '\U{2006}', '\U{2007}', '\U{2008}', '\U{2009}', '\U{200A}', // en quad .. hair space
    '\U{2028}', '\U{2029}',                                     // line and paragraph separators
    '\U{202F}', '\U{205F}', '\U{3000}'                          // narrow no-break, medium mathematical, ideographic space
  }

  predicate IsSpace(c: char)
  {
    c in Whitespace
  }

  predicate AllSpace(s: string)
  {
    forall i :: 0 <= i < |s| ==> IsSpace(s[i])
  }

  predicate NoSpace(s: string)
  {
    forall i :: 0 <= i < |s| ==> !IsSpace(s[i])
  }

  /** A word as `split()` produces it: non-empty and free of whitespace. */
  predicate IsWord(w: string)
  {
    |w| > 0 && NoSpace(w)
  }

  // ---------------------------------------------------------------------------
  // strip() and split()
  // ---------------------------------------------------------------------------

  /** Drops the leading whitespace of `s`. */
  function SkipSpace(s: string): (r: string)
    ensures |r| <= |s|
    ensures r == [] || !IsSpace(r[0])
  {
    if s != [] && IsSpace(s[0]) then SkipSpace(s[1..]) else s
  }

  /** Drops the trailing whitespace of `s`. */
  function SkipTrailingSpace(s: string): (r: string)
    ensures |r| <= |s|
    ensures r == [] || !IsSpace(r[|r| - 1])
  {
    if s != [] && IsSpace(s[|s| - 1]) then SkipTrailingSpace(s[..|s| - 1]) else s
  }

  /** Python's `s.strip()`. */
  function Strip(s: string): string
  {
    SkipTrailingSpace(SkipSpace(s))
  }

  /** The length of the longest whitespace-free prefix of `s`. */
  function WordLength(s: string): (n: nat)
    ensures n <= |s|
    ensures n == |s| || IsSpace(s[n])
  {
    if s == [] || IsSpace(s[0]) then 0 else 1 + WordLength(s[1..])
  }

  /** Python's `s.split()`: the maximal runs of non-whitespace characters, in order. */
  function Split(s: string): seq<string>
    decreases |s|
  {
    var t := SkipSpace(s);
    if t == [] then []
    else
      var n := WordLength(t);
      [t[..n]] + Split(t[n..])
  }

  /** Python's `" ".join(words)`. */
  function JoinWithSpaces(words: seq<string>): string
  {
    if words == [] then []
    else if |words| == 1 then words[0]
    else words[0] + " " + JoinWithSpaces(words[1..])
  }

  // ---------------------------------------------------------------------------
  // What strip() and split() do, characterised
  // ---------------------------------------------------------------------------

  /** SkipSpace removes a whitespace prefix and keeps the rest of `s` as it is. */
  lemma {:induction false} SkipSpaceDropsSpace(s: string)
    ensures s == s[..|s| - |SkipSpace(s)|] + SkipSpace(s)
    ensures AllSpace(s[..|s| - |SkipSpace(s)|])
  {
    if s != [] && IsSpace(s[0]) {
      SkipSpaceDropsSpace(s[1..]);
      var k := |s| - |SkipSpace(s)|;
      assert s[..k] == [s[0]] + s[1..][..k - 1];
    }
  }

  /** SkipTrailingSpace removes a whitespace suffix and keeps the rest of `s` as it is. */
  lemma {:induction false} SkipTrailingSpaceDropsSpace(s: string)
    ensures s == SkipTrailingSpace(s) + s[|SkipTrailingSpace(s)|..]
    ensures AllSpace(s[|SkipTrailingSpace(s)|..])
  {
    if s != [] && IsSpace(s[|s| - 1]) {
      var p := s[..|s| - 1];
      SkipTrailingSpaceDropsSpace(p);
      var k := |SkipTrailingSpace(s)|;
      assert s[k..] == p[k..] + [s[|s| - 1]];
    }
  }

  /** Leading whitespace followed by `t` (which does not start with whitespace) skips to `t`. */
  lemma {:induction false} SkipSpaceOfLeadingSpace(lead: string, t: string)
    requires AllSpace(lead)
    requires t == [] || !IsSpace(t[0])
    ensures SkipSpace(lead + t) == t
    decreases |lead|
  {
    if lead != [] {
      assert (lead + t)[1..] == lead[1..] + t;
      SkipSpaceOfLeadingSpace(lead[1..], t);
    }
  }

  lemma {:induction false} WordLengthNoSpace(s: string)
    ensures NoSpace(s[..WordLength(s)])
  {
    if s != [] && !IsSpace(s[0]) {
      WordLengthNoSpace(s[1..]);
      assert s[..WordLength(s)] == [s[0]] + s[1..][..WordLength(s[1..])];
    }
  }

  lemma {:induction false} WordLengthOfWord(w: string, rest: string)
    requires NoSpace(w)
    requires rest == [] || IsSpace(rest[0])
    ensures WordLength(w + rest) == |w|
    decreases |w|
  {
    if w != [] {
      assert (w + rest)[1..] == w[1..] + rest;
      WordLengthOfWord(w[1..], rest);
    }
  }

  /** Every piece `split()` returns is a word: non-empty and without whitespace. */
  lemma {:induction false} SplitGivesWords(s: string)
    ensures forall i :: 0 <= i < |Split(s)| ==> IsWord(Split(s)[i])
    decreases |s|
  {
    var t := SkipSpace(s);
    if t != [] {
      var n := WordLength(t);
      WordLengthNoSpace(t);
      SplitGivesWords(t[n..]);
    }
  }

  /** A string of whitespace only has no words, and only such a string has none. */
  lemma {:induction false} SplitEmptyIffAllSpace(s: string)
    ensures Split(s) == [] <==> AllSpace(s)
  {
    if AllSpace(s) {
      assert s + [] == s;
      SkipSpaceOfLeadingSpace(s, []);
    }
    if Split(s) == [] {
      SkipSpaceDropsSpace(s);
      assert s[..|s|] == s;
    }
  }

  /**
   * Leading whitespace, then a word, then either nothing or a whitespace
   * character: `split()` returns that word first and splits the rest.
   * With SplitEmptyIffAllSpace this determines Split on every string.
   */
  lemma SplitCons(lead: string, w: string, rest: string)
    requires AllSpace(lead) && IsWord(w)
    requires rest == [] || IsSpace(rest[0])
    ensures Split(lead + w + rest) == [w] + Split(rest)
  {
    assert lead + w + rest == lead + (w + rest);
    SkipSpaceOfLeadingSpace(lead, w + rest);
    WordLengthOfWord(w, rest);
    assert (w + rest)[..|w|] == w;
    assert (w + rest)[|w|..] == rest;
  }

  /** One leading whitespace character does not change the words. */
  lemma SplitLeadingSpace(c: char, s: string)
    requires IsSpace(c)
    ensures Split([c] + s) == Split(s)
  {
  }

  /** Joining words with single spaces and splitting again gives the words back. */
  lemma {:induction false} SplitJoinWithSpaces(words: seq<string>)
    requires forall i :: 0 <= i < |words| ==> IsWord(words[i])
    ensures Split(JoinWithSpaces(words)) == words
  {
    if words == [] {
    } else if |words| == 1 {
      SplitCons([], words[0], []);
      assert [] + words[0] + [] == words[0];
    } else {
      var tail := JoinWithSpaces(words[1..]);
      SplitCons([], words[0], " " + tail);
      assert [] + words[0] + (" " + tail) == JoinWithSpaces(words);
      SplitLeadingSpace(' ', tail);
      SplitJoinWithSpaces(words[1..]);
      assert words == [words[0]] + words[1..];
    }
  }

  /** A string with a word in it is leading whitespace, its first word, and a rest that is empty or starts with whitespace. */
  lemma Decompose(s: string) returns (lead: string, w: string, rest: string)
    requires SkipSpace(s) != []
    ensures s == lead + w + rest
    ensures AllSpace(lead) && IsWord(w)
    ensures rest == [] || IsSpace(rest[0])
    ensures |rest| < |s|
  {
    SkipSpaceDropsSpace(s);
    var t := SkipSpace(s);
    var n := WordLength(t);
    WordLengthNoSpace(t);
    lead, w, rest := s[..|s| - |t|], t[..n], t[n..];
    assert t == w + rest;
  }

  /** Whitespace at the end never adds or changes a word. */
  lemma {:induction false} SplitTrailingSpace(s: string, tail: string)
    requires AllSpace(tail)
    ensures Split(s + tail) == Split(s)
    decreases |s|
  {
    if SkipSpace(s) == [] {
      SplitEmptyIffAllSpace(s);
      assert AllSpace(s + tail);
      SplitEmptyIffAllSpace(s + tail);
    } else {
      var lead, w, rest := Decompose(s);
      assert s + tail == lead + w + (rest + tail);
      assert rest == [] ==> rest + tail == tail;
      SplitCons(lead, w, rest + tail);
      SplitCons(lead, w, rest);
      SplitTrailingSpace(rest, tail);
    }
  }

  /** `s.strip().split()` and `s.split()` agree: the strip is redundant. */
  lemma SplitOfStrip(s: string)
    ensures Split(Strip(s)) == Split(s)
  {
    var t := SkipSpace(s);
    var u := SkipTrailingSpace(t);
    SkipTrailingSpaceDropsSpace(t);
    SplitTrailingSpace(u, t[|u|..]);
    assert SkipSpace(t) == t;
  }

  // ---------------------------------------------------------------------------
  // lower()
  // ---------------------------------------------------------------------------

  function LowerChar(c: char): (r: char)
    ensures 'A' <= c <= 'Z' ==> 'a' <= r <= 'z' && r as int - c as int == 32
    ensures !('A' <= c <= 'Z') ==> r == c
  {
    if 'A' <= c <= 'Z' then (c as int + 32) as char else c
  }

  /** Python's `s.lower()` on ASCII letters; other characters are left as they are. */
  function Lower(s: string): (r: string)
    ensures |r| == |s|
    ensures forall i :: 0 <= i < |s| ==> r[i] == LowerChar(s[i])
  {
    seq(|s|, i requires 0 <= i < |s| => LowerChar(s[i]))
  }

  // ---------------------------------------------------------------------------
  // isdigit() and int()
  // ---------------------------------------------------------------------------

  predicate IsDigit(c: char)
  {
    '0' <= c <= '9'
  }

  predicate DigitsOnly(s: string)
  {
    forall i :: 0 <= i < |s| ==> IsDigit(s[i])
  }

  /** Python's `s.isdigit()`: false on the empty string. */
  predicate IsDigits(s: string)
  {
    |s| > 0 && DigitsOnly(s)
  }

  function DigitValue(c: char): (d: nat)
    requires IsDigit(c)
    ensures d < 10
  {
    c as int - '0' as int
  }

  function DigitChar(d: nat): (c: char)
    requires d < 10
    ensures IsDigit(c) && DigitValue(c) == d
  {
    ('0' as int + d) as char
  }

  /** Python's `int(s)` on a string of decimal digits (leading zeros allowed). */
  function DecimalValue(s: string): nat
    requires DigitsOnly(s)
  {
    if s == [] then 0 else 10 * DecimalValue(s[..|s| - 1]) + DigitValue(s[|s| - 1])
  }

  /** Python's `str(n)`: the decimal spelling of `n`, without leading zeros. */
  function DecimalString(n: nat): (s: string)
    ensures IsDigits(s)
    ensures |s| > 1 ==> s[0] != '0'
  {
    if n < 10 then [DigitChar(n)] else DecimalString(n / 10) + [DigitChar(n % 10)]
  }

  /** `int(str(n)) == n`. */
  lemma {:induction false} DecimalValueOfString(n: nat)
    ensures DecimalValue(DecimalString(n)) == n
  {
    if n >= 10 {
      var s := DecimalString(n);
      assert s[..|s| - 1] == DecimalString(n / 10);
      DecimalValueOfString(n / 10);
    }
  }

  /** A leading zero does not change what `int()` reads: `int("060") == int("60")`. */
  lemma {:induction false} DecimalValueLeadingZero(s: string)
    requires DigitsOnly(s)
    ensures DecimalValue(['0'] + s) == DecimalValue(s)
  {
    if s != [] {
      var z := ['0'] + s;
      assert z[..|z| - 1] == ['0'] + s[..|s| - 1];
      DecimalValueLeadingZero(s[..|s| - 1]);
    }
  }

  /** `s` with `zeros` extra '0' characters in front. */
  function ZeroPadded(zeros: nat, s: string): (r: string)
    ensures |r| == zeros + |s|
  {
    if zeros == 0 then s else ['0'] + ZeroPadded(zeros - 1, s)
  }

  /** Any number of leading zeros leaves the value unchanged. */
  lemma {:induction false} DecimalValueLeadingZeros(zeros: nat, s: string)
    requires DigitsOnly(s)
    ensures DigitsOnly(ZeroPadded(zeros, s))
    ensures DecimalValue(ZeroPadded(zeros, s)) == DecimalValue(s)
  {
    if zeros > 0 {
      var z := ZeroPadded(zeros - 1, s);
      DecimalValueLeadingZeros(zeros - 1, s);
      assert ZeroPadded(zeros, s) == ['0'] + z;
      DecimalValueLeadingZero(z);
    }
  }
}
