/**
 * String primitives that the Swift sources take from Foundation and the
 * standard library: ASCII case mapping, prefix and substring search,
 * `components(separatedBy:)`, `joined(separator:)`,
 * `replacingOccurrences(of:with:)`, `trimmingCharacters(in:)`, `Int(String)`
 * and `"\(n)"` for integers.
 */
module Strs {
  import opened Wrappers

  // ---------------------------------------------------------------------------
  // Case mapping (ASCII letters only)
  // ---------------------------------------------------------------------------

  predicate IsUpperChar(c: char) { 'A' <= c <= 'Z' }
  predicate IsLowerChar(c: char) { 'a' <= c <= 'z' }

  function LowerChar(c: char): char {
    if IsUpperChar(c) then (c as int + 32) as char else c
  }

  function UpperChar(c: char): char {
    if IsLowerChar(c) then (c as int - 32) as char else c
  }

  /** `lowercased()`. */
  function Lower(s: string): (r: string)
    ensures |r| == |s|
    ensures forall i :: 0 <= i < |s| ==> r[i] == LowerChar(s[i])
  {
    seq(|s|, i requires 0 <= i < |s| => LowerChar(s[i]))
  }

  /** `uppercased()`. */
  function Upper(s: string): (r: string)
    ensures |r| == |s|
    ensures forall i :: 0 <= i < |s| ==> r[i] == UpperChar(s[i])
  {
    seq(|s|, i requires 0 <= i < |s| => UpperChar(s[i]))
  }

  predicate NoUpper(s: string) {
    forall i :: 0 <= i < |s| ==> !IsUpperChar(s[i])
  }

  lemma LowerHasNoUpper(s: string)
    ensures NoUpper(Lower(s))
  {
  }

  lemma LowerAppend(a: string, b: string)
    ensures Lower(a + b) == Lower(a) + Lower(b)
  {
  }

  // ---------------------------------------------------------------------------
  // Searching
  // ---------------------------------------------------------------------------

  /** `t` occurs in `s` starting at index `i`. */
  predicate OccursAt(s: string, t: string, i: nat) {
    i + |t| <= |s| && forall k :: 0 <= k < |t| ==> s[i + k] == t[k]
  }

  lemma OccursAtSlice(s: string, t: string, i: nat)
    requires OccursAt(s, t, i)
    ensures s[i..i + |t|] == t
  {
  }

  lemma SliceAround(s: string, i: nat, n: nat)
    requires i + n <= |s|
    ensures s == s[..i] + s[i..i + n] + s[i + n..]
  {
  }

  /** The first occurrence of `t` in `s` at or after `from`. */
  function IndexFrom(s: string, t: string, from: nat): (r: Option<nat>)
    requires from <= |s|
    ensures r.Some? ==> from <= r.value && OccursAt(s, t, r.value)
    decreases |s| - from
  {
    if OccursAt(s, t, from) then Some(from)
    else if from == |s| then None
    else IndexFrom(s, t, from + 1)
  }

  /** Every occurrence at or after `from` is found, and none is skipped: the one found comes first. */
  lemma {:induction false} IndexFromFirst(s: string, t: string, from: nat, j: nat)
    requires from <= j <= |s| && OccursAt(s, t, j)
    ensures IndexFrom(s, t, from).Some? && IndexFrom(s, t, from).value <= j
    decreases j - from
  {
    if !OccursAt(s, t, from) {
      IndexFromFirst(s, t, from + 1, j);
    }
  }

  /** `range(of:)?.lowerBound`: the first occurrence of `t` in `s`. */
  function IndexOf(s: string, t: string): Option<nat> {
    IndexFrom(s, t, 0)
  }

  /** `s.contains(t)`. */
  predicate Contains(s: string, t: string) {
    IndexOf(s, t).Some?
  }

  lemma ContainsIff(s: string, t: string)
    ensures Contains(s, t) <==> exists i :: 0 <= i <= |s| && OccursAt(s, t, i)
  {
    if exists i :: 0 <= i <= |s| && OccursAt(s, t, i) {
      var i :| 0 <= i <= |s| && OccursAt(s, t, i);
      IndexFromFirst(s, t, 0, i);
    }
  }

  lemma ContainsChar(s: string, c: char)
    ensures Contains(s, [c]) <==> c in s
  {
    ContainsIff(s, [c]);
    if c in s {
      var i :| 0 <= i < |s| && s[i] == c;
      assert OccursAt(s, [c], i);
    }
    if Contains(s, [c]) {
      var i := IndexOf(s, [c]).value;
      assert s[i..i + 1] == [c];
      assert s[i] == c;
    }
  }

  /** A string without the first character of `t` does not contain `t`. */
  lemma WithoutFirstChar(s: string, t: string)
    requires t != [] && t[0] !in s
    ensures !Contains(s, t)
  {
    ContainsIff(s, t);
    forall i | 0 <= i <= |s| ensures !OccursAt(s, t, i) {
      if i < |s| {
        assert s[i + 0] != t[0];
      }
    }
  }

  // ---------------------------------------------------------------------------
  // Splitting, joining, replacing
  // ---------------------------------------------------------------------------

  /** `joined(separator:)`. */
  function Join(parts: seq<string>, sep: string): string {
    if |parts| == 0 then ""
    else if |parts| == 1 then parts[0]
    else parts[0] + sep + Join(parts[1..], sep)
  }

  /**
   * `components(separatedBy:)`: the pieces between the non-overlapping
   * occurrences of `sep`, found left to right; an empty separator splits
   * nothing.
   */
  function Split(s: string, sep: string): (r: seq<string>)
    ensures |r| >= 1
    decreases |s|
  {
    if sep == [] then [s]
    else match IndexOf(s, sep)
      case None => [s]
      case Some(i) => [s[..i]] + Split(s[i + |sep|..], sep)
  }

  /** Joining the pieces with the separator gives back the string. */
  lemma {:induction false} JoinSplit(s: string, sep: string)
    ensures Join(Split(s, sep), sep) == s
    decreases |s|
  {
    if sep != [] {
      match IndexOf(s, sep)
      case None =>
      case Some(i) =>
        var rest := s[i + |sep|..];
        var tail := Split(rest, sep);
        var parts := [s[..i]] + tail;
        assert Split(s, sep) == parts;
        assert parts[1..] == tail;
        assert Join(parts, sep) == s[..i] + sep + Join(tail, sep);
        JoinSplit(rest, sep);
        OccursAtSlice(s, sep, i);
        SliceAround(s, i, |sep|);
    }
  }

  /** No piece contains the (non-empty) separator. */
  lemma {:induction false} SplitPiecesAvoidSeparator(s: string, sep: string)
    requires sep != []
    ensures forall k :: 0 <= k < |Split(s, sep)| ==> !Contains(Split(s, sep)[k], sep)
    decreases |s|
  {
    match IndexOf(s, sep)
    case None =>
    case Some(i) =>
      var rest := s[i + |sep|..];
      SplitPiecesAvoidSeparator(rest, sep);
      var head := s[..i];
      if Contains(head, sep) {
        var j := IndexOf(head, sep).value;
        assert OccursAt(head, sep, j);
        assert OccursAt(s, sep, j) by {
          forall k | 0 <= k < |sep|
            ensures s[j + k] == sep[k]
          {
            assert head[j + k] == s[j + k];
          }
        }
        IndexFromFirst(s, sep, 0, j);
      }
  }

  /** A string without the separator is its own single piece. */
  lemma SplitWithoutSeparator(s: string, sep: string)
    requires !Contains(s, sep)
    ensures Split(s, sep) == [s]
  {
  }

  /** `replacingOccurrences(of:with:)`; an empty target replaces nothing. */
  function ReplaceAll(s: string, target: string, replacement: string): string {
    if target == [] then s else Join(Split(s, target), replacement)
  }

  lemma ReplaceAbsent(s: string, target: string, replacement: string)
    requires !Contains(s, target)
    ensures ReplaceAll(s, target, replacement) == s
  {
  }

  /** A separator-free join of pieces that all lack `c` lacks `c`. */
  lemma {:induction false} JoinAvoids(parts: seq<string>, sep: string, c: char)
    requires forall k :: 0 <= k < |parts| ==> c !in parts[k]
    requires c !in sep
    ensures c !in Join(parts, sep)
  {
    if |parts| > 1 {
      JoinAvoids(parts[1..], sep, c);
    }
  }

  /** Replacing every `c` by nothing leaves no `c`. */
  lemma RemoveChar(s: string, c: char)
    ensures c !in ReplaceAll(s, [c], "")
  {
    var parts := Split(s, [c]);
    SplitPiecesAvoidSeparator(s, [c]);
    forall k | 0 <= k < |parts| ensures c !in parts[k] {
      ContainsChar(parts[k], c);
    }
    JoinAvoids(parts, "", c);
  }

  // ---------------------------------------------------------------------------
  // Ordering
  // ---------------------------------------------------------------------------

  /** `a <= b` for strings: character by character, a prefix first. */
  predicate LexLe(a: string, b: string) {
    a == [] || (b != [] && (a[0] < b[0] || (a[0] == b[0] && LexLe(a[1..], b[1..]))))
  }

  lemma {:induction false} LexTotal(a: string, b: string)
    ensures LexLe(a, b) || LexLe(b, a)
  {
    if a != [] && b != [] && a[0] == b[0] {
      LexTotal(a[1..], b[1..]);
    }
  }

  lemma {:induction false} LexTransitive(a: string, b: string, c: string)
    requires LexLe(a, b) && LexLe(b, c)
    ensures LexLe(a, c)
  {
    if a != [] && a[0] == b[0] && b[0] == c[0] {
      LexTransitive(a[1..], b[1..], c[1..]);
    }
  }

  lemma {:induction false} LexAntisymmetric(a: string, b: string)
    requires LexLe(a, b) && LexLe(b, a)
    ensures a == b
  {
    if a != [] {
      LexAntisymmetric(a[1..], b[1..]);
      assert a == [a[0]] + a[1..] && b == [b[0]] + b[1..];
    }
  }

  // ---------------------------------------------------------------------------
  // Trimming
  // ---------------------------------------------------------------------------

  /** `CharacterSet.whitespaces`: Unicode general category Zs and the tab. */
  predicate IsWhitespace(c: char) {
    c == ' ' || c == '\t' || c == '\U{A0}' || c == '\U{1680}' || '\U{2000}' <= c <= '\U{200A}'
    || c == '\U{202F}' || c == '\U{205F}' || c == '\U{3000}'
  }

  /** `CharacterSet.whitespacesAndNewlines`. */
  predicate IsWhitespaceOrNewline(c: char) {
    IsWhitespace(c) || '\n' <= c <= '\r' || c == '\U{85}' || c == '\U{2028}' || c == '\U{2029}'
  }

  function TrimStart(s: string, cs: char -> bool): (r: string)
    ensures |r| <= |s| && r == s[|s| - |r|..]
    ensures |r| > 0 ==> !cs(r[0])
    ensures forall i :: 0 <= i < |s| - |r| ==> cs(s[i])
  {
    if |s| > 0 && cs(s[0]) then
      var r := TrimStart(s[1..], cs);
      assert forall i :: 0 < i < |s| - |r| ==> cs(s[1..][i - 1]) && s[1..][i - 1] == s[i];
      r
    else s
  }

  function TrimEnd(s: string, cs: char -> bool): (r: string)
    ensures |r| <= |s| && r == s[..|r|]
    ensures |r| > 0 ==> !cs(r[|r| - 1])
    ensures forall i :: |r| <= i < |s| ==> cs(s[i])
  {
    if |s| > 0 && cs(s[|s| - 1]) then
      var r := TrimEnd(s[..|s| - 1], cs);
      assert forall i :: |r| <= i < |s| - 1 ==> cs(s[..|s| - 1][i]) && s[..|s| - 1][i] == s[i];
      r
    else s
  }

  lemma TrimStartStep(s: string, cs: char -> bool)
    requires |s| > 0 && cs(s[0])
    ensures TrimStart(s, cs) == TrimStart(s[1..], cs)
  {
  }

  lemma TrimStartStop(s: string, cs: char -> bool)
    requires |s| > 0 && !cs(s[0])
    ensures TrimStart(s, cs) == s
  {
  }

  lemma TrimEndStep(s: string, cs: char -> bool)
    requires |s| > 0 && cs(s[|s| - 1])
    ensures TrimEnd(s, cs) == TrimEnd(s[..|s| - 1], cs)
  {
  }

  lemma TrimEndStop(s: string, cs: char -> bool)
    requires |s| > 0 && !cs(s[|s| - 1])
    ensures TrimEnd(s, cs) == s
  {
  }

  /** `trimmingCharacters(in:)`. */
  function Trim(s: string, cs: char -> bool): string {
    TrimEnd(TrimStart(s, cs), cs)
  }

  // ---------------------------------------------------------------------------
  // Integers
  // ---------------------------------------------------------------------------

  const IntMin: int := -0x8000_0000_0000_0000
  const IntMax: int := 0x7FFF_FFFF_FFFF_FFFF

  predicate IsDigit(c: char) { '0' <= c <= '9' }

  predicate AllDigits(s: string) {
    forall i :: 0 <= i < |s| ==> IsDigit(s[i])
  }

  function DigitValue(c: char): nat
    requires IsDigit(c)
  {
    c as int - '0' as int
  }

  function DigitChar(d: nat): (c: char)
    requires d < 10
    ensures IsDigit(c) && DigitValue(c) == d
  {
    ('0' as int + d) as char
  }

  /** The value of a run of decimal digits. */
  function DigitsValue(s: string): nat
    requires AllDigits(s)
  {
    if s == [] then 0 else 10 * DigitsValue(s[..|s| - 1]) + DigitValue(s[|s| - 1])
  }

  /**
   * Swift's `Int(String)`: an optional `+` or `-` followed by at least one
   * decimal digit and nothing else, within the 64-bit range.
   */
  function ParseInt(s: string): (r: Option<int>)
    ensures r.Some? ==> IntMin <= r.value <= IntMax
  {
    var negative := |s| > 0 && s[0] == '-';
    var digits := if |s| > 0 && (s[0] == '-' || s[0] == '+') then s[1..] else s;
    if digits == [] || !AllDigits(digits) then None
    else
      var v: int := if negative then 0 - DigitsValue(digits) as int else DigitsValue(digits);
      if IntMin <= v <= IntMax then Some(v) else None
  }

  function NatToString(n: nat): (r: string)
    ensures r != [] && AllDigits(r)
  {
    if n < 10 then [DigitChar(n)] else NatToString(n / 10) + [DigitChar(n % 10)]
  }

  /** `"\(n)"` for an integer. */
  function IntToString(n: int): string {
    if n < 0 then "-" + NatToString(-n) else NatToString(n)
  }

  lemma {:induction false} NatToStringValue(n: nat)
    ensures DigitsValue(NatToString(n)) == n
  {
    if n >= 10 {
      NatToStringValue(n / 10);
      var s := NatToString(n);
      assert s[..|s| - 1] == NatToString(n / 10);
    }
  }

  /** Printing an integer and parsing it back gives the integer. */
  lemma ParseIntToString(n: int)
    requires IntMin <= n <= IntMax
    ensures ParseInt(IntToString(n)) == Some(n)
  {
    var s := IntToString(n);
    if n < 0 {
      NatToStringValue(-n);
      assert s[0] == '-' && s[1..] == NatToString(-n);
    } else {
      NatToStringValue(n);
      assert s == NatToString(n);
      assert IsDigit(s[0]);
    }
  }
}
