/**
 * The JavaScript string operations the ctest core relies on: `trim`, `split` on one
 * character, `startsWith`, the character classes `\s`, `\d` and `.` of regular
 * expressions, and `parseInt` on a run of decimal digits.  Strings are sequences of
 * Unicode scalar values.
 */
module JsStrings {

  /** ECMA-262 WhiteSpace and LineTerminator: what `trim` strips and `\s` matches. */
  predicate IsWhiteSpace(c: char) {
    || c == '\t' || c == '\n' || c == '\U{B}' || c == '\U{C}' || c == '\r' || c == ' '
    || c == '\U{A0}' || c == '\U{1680}' || ('\U{2000}' <= c <= '\U{200A}')
    || c == '\U{2028}' || c == '\U{2029}' || c == '\U{202F}' || c == '\U{205F}'
    || c == '\U{3000}' || c == '\U{FEFF}'
  }

  /** ECMA-262 LineTerminator: the characters a regular-expression `.` does not match. */
  predicate IsLineTerminator(c: char) {
    c == '\n' || c == '\r' || c == '\U{2028}' || c == '\U{2029}'
  }

  /** The class `\d`: ASCII digits only. */
  predicate IsDigit(c: char) {
    '0' <= c <= '9'
  }

  /** The class `[a-zA-Z]`. */
  predicate IsAsciiLetter(c: char) {
    ('a' <= c <= 'z') || ('A' <= c <= 'Z')
  }

  predicate StartsWith(s: string, prefix: string) {
    |prefix| <= |s| && s[..|prefix|] == prefix
  }

  predicate AllWhiteSpace(s: string) {
    forall i {:trigger IsWhiteSpace(s[i])} :: 0 <= i < |s| ==> IsWhiteSpace(s[i])
  }

  predicate AllDigits(s: string) {
    forall i :: 0 <= i < |s| ==> IsDigit(s[i])
  }

  /** No character of `s[from..to]` is a line terminator, so `.*` can span it. */
  predicate NoLineTerminator(s: string, from: int, to: int)
    requires 0 <= from <= to <= |s|
  {
    forall i :: from <= i < to ==> !IsLineTerminator(s[i])
  }

  /** A slice is all digits exactly when every position it spans holds a digit. */
  lemma SliceDigits(s: string, i: nat, j: nat)
    requires i <= j <= |s|
    ensures AllDigits(s[i..j]) <==> forall k :: i <= k < j ==> IsDigit(s[k])
  {
    if forall k :: i <= k < j ==> IsDigit(s[k]) {
      forall k | 0 <= k < j - i ensures IsDigit(s[i..j][k]) {
        assert s[i..j][k] == s[i + k];
      }
    }
    if AllDigits(s[i..j]) {
      forall k | i <= k < j ensures IsDigit(s[k]) {
        assert s[k] == s[i..j][k - i];
      }
    }
  }

  /** A slice is all white space exactly when every position it spans holds white space. */
  lemma SliceWhiteSpace(s: string, i: nat, j: nat)
    requires i <= j <= |s|
    ensures AllWhiteSpace(s[i..j]) <==> forall k :: i <= k < j ==> IsWhiteSpace(s[k])
  {
    if forall k :: i <= k < j ==> IsWhiteSpace(s[k]) {
      forall k | 0 <= k < j - i ensures IsWhiteSpace(s[i..j][k]) {
        assert s[i..j][k] == s[i + k];
      }
    }
    if AllWhiteSpace(s[i..j]) {
      forall k | i <= k < j ensures IsWhiteSpace(s[k]) {
        assert s[k] == s[i..j][k - i];
      }
    }
  }

  /** Neither end of `s` is white space: what `trim` returns. */
  predicate IsTrimmed(s: string) {
    s == [] || (!IsWhiteSpace(s[0]) && !IsWhiteSpace(s[|s| - 1]))
  }

  // ---------------------------------------------------------------------------
  // trim

  function LeadingWhiteSpace(s: string): (n: nat)
    ensures n <= |s|
  {
    if s == [] || !IsWhiteSpace(s[0]) then 0 else 1 + LeadingWhiteSpace(s[1..])
  }

  function TrailingWhiteSpace(s: string): (n: nat)
    ensures n <= |s|
  {
    if s == [] || !IsWhiteSpace(s[|s| - 1]) then 0 else 1 + TrailingWhiteSpace(s[..|s| - 1])
  }

  /** `String.prototype.trim`. */
  function Trim(s: string): string {
    var t := s[LeadingWhiteSpace(s)..];
    t[..|t| - TrailingWhiteSpace(t)]
  }

  lemma {:induction false} LeadingWhiteSpaceSpec(s: string)
    ensures var n := LeadingWhiteSpace(s);
            && (forall i :: 0 <= i < n ==> IsWhiteSpace(s[i]))
            && (n < |s| ==> !IsWhiteSpace(s[n]))
  {
    if s != [] && IsWhiteSpace(s[0]) {
      LeadingWhiteSpaceSpec(s[1..]);
    }
  }

  lemma {:induction false} TrailingWhiteSpaceSpec(s: string)
    ensures var n := TrailingWhiteSpace(s);
            && (forall i :: |s| - n <= i < |s| ==> IsWhiteSpace(s[i]))
            && (n < |s| ==> !IsWhiteSpace(s[|s| - n - 1]))
  {
    if s != [] && IsWhiteSpace(s[|s| - 1]) {
      TrailingWhiteSpaceSpec(s[..|s| - 1]);
    }
  }

  /** `trim` leaves no white space at either end, and leaves nothing exactly when the
      string is all white space. */
  lemma TrimSpec(s: string)
    ensures IsTrimmed(Trim(s))
    ensures |Trim(s)| <= |s|
    ensures Trim(s) == [] <==> AllWhiteSpace(s)
  {
    LeadingWhiteSpaceSpec(s);
    var a := LeadingWhiteSpace(s);
    var t := s[a..];
    TrailingWhiteSpaceSpec(t);
    var b := TrailingWhiteSpace(t);
    var r := t[..|t| - b];
    assert Trim(s) == r;
    if r != [] {
      assert r[0] == s[a];
      assert r[|r| - 1] == t[|t| - b - 1];
      assert !AllWhiteSpace(s) by {
        assert !IsWhiteSpace(s[a]);
      }
    } else {
      assert a == |s|;
    }
  }

  /** `trim` removes exactly the white space around a trimmed core, and nothing else. */
  lemma {:induction false} TrimPadded(before: string, core: string, after: string)
    requires AllWhiteSpace(before) && AllWhiteSpace(after)
    requires core != [] && IsTrimmed(core)
    ensures Trim(before + core + after) == core
  {
    var s := before + core + after;
    LeadingOfPadded(before, core + after);
    assert s == before + (core + after);
    var t := s[|before|..];
    assert t == core + after;
    TrailingOfPadded(core, after);
  }

  lemma {:induction false} LeadingOfPadded(before: string, rest: string)
    requires AllWhiteSpace(before)
    requires rest != [] && !IsWhiteSpace(rest[0])
    ensures LeadingWhiteSpace(before + rest) == |before|
  {
    if before != [] {
      assert (before + rest)[1..] == before[1..] + rest;
      LeadingOfPadded(before[1..], rest);
    } else {
      assert before + rest == rest;
    }
  }

  lemma {:induction false} TrailingOfPadded(rest: string, after: string)
    requires AllWhiteSpace(after)
    requires rest != [] && !IsWhiteSpace(rest[|rest| - 1])
    ensures TrailingWhiteSpace(rest + after) == |after|
  {
    if after != [] {
      var s := rest + after;
      assert s[..|s| - 1] == rest + after[..|after| - 1];
      TrailingOfPadded(rest, after[..|after| - 1]);
    } else {
      assert rest + after == rest;
    }
  }

  /** Trimming a trimmed string changes nothing. */
  lemma TrimIdempotent(s: string)
    ensures Trim(Trim(s)) == Trim(s)
  {
    var r := Trim(s);
    TrimSpec(s);
    if r != [] {
      TrimPadded([], r, []);
      assert [] + r + [] == r;
    }
  }

  // ---------------------------------------------------------------------------
  // split on one separator character, and its inverse

  /** `s.split(sep)` for a one-character separator: the pieces between separators. */
  function Split(s: string, sep: char): (parts: seq<string>)
    ensures |parts| >= 1
    ensures forall k :: 0 <= k < |parts| ==> sep !in parts[k]
    ensures |parts| == 1 ==> parts[0] == s
  {
    if s == [] then [[]]
    else
      var rest := Split(s[1..], sep);
      if s[0] == sep then [[]] + rest else [[s[0]] + rest[0]] + rest[1..]
  }

  /** `parts.join(sep)`. */
  function Join(parts: seq<string>, sep: char): string {
    if parts == [] then []
    else if |parts| == 1 then parts[0]
    else parts[0] + [sep] + Join(parts[1..], sep)
  }

  /** Splitting and joining back gives the original text. */
  lemma {:induction false} JoinSplit(s: string, sep: char)
    ensures Join(Split(s, sep), sep) == s
  {
    if s != [] {
      var rest := Split(s[1..], sep);
      JoinSplit(s[1..], sep);
      if s[0] == sep {
        assert Split(s, sep) == [[]] + rest;
        assert ([[]] + rest)[1..] == rest;
      } else {
        var parts := [[s[0]] + rest[0]] + rest[1..];
        assert Split(s, sep) == parts;
        if |rest| == 1 {
          assert s == [s[0]] + s[1..];
        } else {
          assert parts[1..] == rest[1..];
          assert Join(rest, sep) == rest[0] + [sep] + Join(rest[1..], sep);
          assert s == [s[0]] + s[1..];
        }
      }
    }
  }

  lemma {:induction false} SplitNoSeparator(p: string, sep: char)
    requires sep !in p
    ensures Split(p, sep) == [p]
  {
    if p != [] {
      SplitNoSeparator(p[1..], sep);
      assert [p[0]] + p[1..] == p;
    }
  }

  lemma {:induction false} SplitAfterPiece(p: string, sep: char, rest: string)
    requires sep !in p
    ensures Split(p + [sep] + rest, sep) == [p] + Split(rest, sep)
  {
    var s := p + [sep] + rest;
    if p == [] {
      assert s == [sep] + rest;
      assert s[1..] == rest;
    } else {
      assert s[1..] == p[1..] + [sep] + rest;
      SplitAfterPiece(p[1..], sep, rest);
      assert [p[0]] + p[1..] == p;
    }
  }

  /** Joining pieces free of the separator and splitting again gives the pieces back. */
  lemma {:induction false} SplitJoin(parts: seq<string>, sep: char)
    requires |parts| >= 1
    requires forall k :: 0 <= k < |parts| ==> sep !in parts[k]
    ensures Split(Join(parts, sep), sep) == parts
  {
    if |parts| == 1 {
      SplitNoSeparator(parts[0], sep);
    } else {
      SplitJoin(parts[1..], sep);
      SplitAfterPiece(parts[0], sep, Join(parts[1..], sep));
      assert [parts[0]] + parts[1..] == parts;
    }
  }

  // ---------------------------------------------------------------------------
  // runs of characters, as a backtracking-free regular expression sees them

  /** The end of the run of digits starting at `i`: `\d*` from `i`, taken greedily. */
  function DigitRunEnd(s: string, i: nat): (j: nat)
    requires i <= |s|
    ensures i <= j <= |s|
    decreases |s| - i
  {
    if i == |s| || !IsDigit(s[i]) then i else DigitRunEnd(s, i + 1)
  }

  lemma {:induction false} DigitRunEndSpec(s: string, i: nat)
    requires i <= |s|
    ensures var j := DigitRunEnd(s, i);
            && AllDigits(s[i..j])
            && (j < |s| ==> !IsDigit(s[j]))
    decreases |s| - i
  {
    if i < |s| && IsDigit(s[i]) {
      DigitRunEndSpec(s, i + 1);
      var j := DigitRunEnd(s, i);
      assert forall k :: 0 <= k < j - i ==> s[i..j][k] == s[i + k];
    }
  }

  /** The end of the run of white space starting at `i`: `\s*` from `i`, taken greedily. */
  function WhiteSpaceRunEnd(s: string, i: nat): (j: nat)
    requires i <= |s|
    ensures i <= j <= |s|
    decreases |s| - i
  {
    if i == |s| || !IsWhiteSpace(s[i]) then i else WhiteSpaceRunEnd(s, i + 1)
  }

  lemma {:induction false} WhiteSpaceRunEndSpec(s: string, i: nat)
    requires i <= |s|
    ensures var j := WhiteSpaceRunEnd(s, i);
            && (forall k :: i <= k < j ==> IsWhiteSpace(s[k]))
            && (j < |s| ==> !IsWhiteSpace(s[j]))
    decreases |s| - i
  {
    if i < |s| && IsWhiteSpace(s[i]) {
      WhiteSpaceRunEndSpec(s, i + 1);
    }
  }

  /** The end of `.*` from `i`: the first line terminator at or after `i`, or the end. */
  function LineEnd(s: string, i: nat): (j: nat)
    requires i <= |s|
    ensures i <= j <= |s|
    decreases |s| - i
  {
    if i == |s| || IsLineTerminator(s[i]) then i else LineEnd(s, i + 1)
  }

  lemma {:induction false} LineEndSpec(s: string, i: nat)
    requires i <= |s|
    ensures var j := LineEnd(s, i);
            && NoLineTerminator(s, i, j)
            && (j < |s| ==> IsLineTerminator(s[j]))
    decreases |s| - i
  {
    if i < |s| && !IsLineTerminator(s[i]) {
      LineEndSpec(s, i + 1);
    }
  }

  /** A run of digits from `i` that stops at `j` is the run `DigitRunEnd` finds. */
  lemma {:induction false} DigitRunEndAt(s: string, i: nat, j: nat)
    requires i <= j <= |s|
    requires forall k :: i <= k < j ==> IsDigit(s[k])
    requires j < |s| ==> !IsDigit(s[j])
    ensures DigitRunEnd(s, i) == j
    decreases j - i
  {
    if i < j {
      DigitRunEndAt(s, i + 1, j);
    }
  }

  /** A run of white space from `i` that stops at `j` is the run `WhiteSpaceRunEnd` finds. */
  lemma {:induction false} WhiteSpaceRunEndAt(s: string, i: nat, j: nat)
    requires i <= j <= |s|
    requires forall k :: i <= k < j ==> IsWhiteSpace(s[k])
    requires j < |s| ==> !IsWhiteSpace(s[j])
    ensures WhiteSpaceRunEnd(s, i) == j
    decreases j - i
  {
    if i < j {
      WhiteSpaceRunEndAt(s, i + 1, j);
    }
  }

  /** Text without a line terminator from `i` up to a terminator or the end at `j` is
      what `.*` spans. */
  lemma {:induction false} LineEndAt(s: string, i: nat, j: nat)
    requires i <= j <= |s|
    requires NoLineTerminator(s, i, j)
    requires j < |s| ==> IsLineTerminator(s[j])
    ensures LineEnd(s, i) == j
    decreases j - i
  {
    if i < j {
      LineEndAt(s, i + 1, j);
    }
  }

  // ---------------------------------------------------------------------------
  // decimal numbers

  /** The value of a decimal digit; the callers only pass digits. */
  function DigitValue(c: char): nat {
    if IsDigit(c) then c as int - '0' as int else 0
  }

  /** `parseInt(d)` for a non-empty run of decimal digits `d`; the callers only pass
      such runs. */
  function ParseDecimal(d: string): nat {
    if d == [] then 0 else ParseDecimal(d[..|d| - 1]) * 10 + DigitValue(d[|d| - 1])
  }

  /** The decimal rendering of a number, as JavaScript's `${n}` gives it for an integer. */
  function NatToString(n: nat): (s: string)
    ensures |s| >= 1 && AllDigits(s)
  {
    if n < 10 then [('0' as int + n) as char]
    else NatToString(n / 10) + [('0' as int + n % 10) as char]
  }

  /** Parsing a rendered number gives the number back. */
  lemma {:induction false} ParseNatToString(n: nat)
    ensures ParseDecimal(NatToString(n)) == n
  {
    var s := NatToString(n);
    if n >= 10 {
      ParseNatToString(n / 10);
      assert s[..|s| - 1] == NatToString(n / 10);
    }
  }
}
