/**
 * The `String` extensions of StringExtensions.swift: integer subscripts,
 * `indices(of:)` / `ranges(of:)`, `toBool`, `hasAnyPrefix` / `hasAnySuffix`
 * and `trimLeadingWhitespace`.  The quote-aware splitters are in
 * module `Splitters`, the escape decoder in module `HexDecode`.
 */
module StringExt {
  import opened Wrappers
  import opened Strs

  // ---------------------------------------------------------------------------
  // Subscripts
  // ---------------------------------------------------------------------------

  /** `self[range]` does not trap: both offsets stay inside the string. */
  predicate RangeOk(s: string, lower: int, upper: int) {
    lower <= upper
    && 0 <= (if lower < 0 then 0 else lower) <= |s|
    && 0 <= (if lower < 0 then 0 else lower) + Min(|s| - lower, upper - lower) <= |s|
  }

  function Min(a: int, b: int): int { if a <= b then a else b }

  /**
   * `self[lower..<upper]`: the start is clamped at 0, and the length is the
   * smaller of `upper - lower` and `count - lower`.
   */
  function Slice(s: string, lower: int, upper: int): (r: string)
    requires RangeOk(s, lower, upper)
  {
    var start := if lower < 0 then 0 else lower;
    s[start..start + Min(|s| - lower, upper - lower)]
  }

  /** Within the string the subscript is the ordinary slice, cut at the end of the string. */
  lemma SliceInside(s: string, lower: nat, upper: int)
    requires lower <= upper && lower <= |s|
    ensures RangeOk(s, lower, upper)
    ensures Slice(s, lower, upper) == s[lower..Min(upper, |s|)]
    ensures |Slice(s, lower, upper)| == Min(upper, |s|) - lower
  {
  }

  /**
   * A negative lower bound is clamped to 0 but still counts in the length:
   * `"hello"[-2..<3]` is the whole of "hello", not "hel".
   */
  lemma SliceNegativeLower()
    ensures RangeOk("hello", -2, 3) && Slice("hello", -2, 3) == "hello"
  {
    assert Min(|"hello"| + 2, 5) == 5;
  }

  /** `self[lower...]`, defined when the clamped start is inside the string. */
  function SliceFrom(s: string, lower: int): (r: string)
    requires lower <= |s|
    ensures |r| == if lower < 0 then |s| else |s| - lower
    ensures r == s[|s| - |r|..]
  {
    s[if lower < 0 then 0 else lower..]
  }

  // ---------------------------------------------------------------------------
  // indices(of:) and ranges(of:)
  // ---------------------------------------------------------------------------

  /** `range(of:)` on `self[from...]`; Foundation never finds the empty string. */
  function FindFrom(s: string, t: string, from: nat): (r: Option<nat>)
    requires from <= |s|
    ensures r.Some? ==> t != [] && from <= r.value && r.value + |t| <= |s| && OccursAt(s, t, r.value)
  {
    if t == [] then None else IndexFrom(s, t, from)
  }

  /** The indices the loop of `indices(of:)` collects, starting the search at `from`. */
  function IndicesFrom(s: string, t: string, from: nat): seq<int>
    decreases |s| - from
  {
    if from >= |s| then []
    else match FindFrom(s, t, from)
      case None => []
      case Some(i) => [i] + IndicesFrom(s, t, i + |t|)
  }

  lemma IndicesFromFound(s: string, t: string, from: nat, i: nat)
    requires from < |s| && FindFrom(s, t, from) == Some(i)
    ensures IndicesFrom(s, t, from) == [i] + IndicesFrom(s, t, i + |t|)
  {
  }

  lemma IndicesFromDone(s: string, t: string, from: nat)
    requires from <= |s| && (from == |s| || FindFrom(s, t, from).None?)
    ensures IndicesFrom(s, t, from) == []
  {
  }

  lemma AppendAssoc(a: seq<int>, b: seq<int>, c: seq<int>)
    ensures a + (b + c) == (a + b) + c
  {
  }

  /** `indices(of:)`. */
  method Indices(s: string, t: string) returns (indices: seq<int>)
    ensures indices == IndicesFrom(s, t, 0)
  {
    indices := [];
    var start: nat := 0;
    while start < |s|
      invariant start <= |s|
      invariant indices + IndicesFrom(s, t, start) == IndicesFrom(s, t, 0)
      decreases |s| - start
    {
      var found := FindFrom(s, t, start);
      if found.None? {
        IndicesFromDone(s, t, start);
        assert indices + [] == indices;
        return;
      }
      IndicesFromFound(s, t, start, found.value);
      AppendAssoc(indices, [found.value], IndicesFrom(s, t, found.value + |t|));
      indices := indices + [found.value];
      start := found.value + |t|;
    }
    IndicesFromDone(s, t, start);
    assert indices + [] == indices;
  }

  /** The ranges the loop of `ranges(of:)` collects, starting the search at `from`. */
  function RangesFrom(s: string, t: string, from: nat): seq<(int, int)>
    decreases |s| - from
  {
    if from >= |s| then []
    else match FindFrom(s, t, from)
      case None => []
      case Some(i) => [(i, i + |t|)] + RangesFrom(s, t, i + |t|)
  }

  lemma RangesFromFound(s: string, t: string, from: nat, i: nat)
    requires from < |s| && FindFrom(s, t, from) == Some(i)
    ensures RangesFrom(s, t, from) == [(i, i + |t|)] + RangesFrom(s, t, i + |t|)
  {
  }

  lemma RangesFromDone(s: string, t: string, from: nat)
    requires from <= |s| && (from == |s| || FindFrom(s, t, from).None?)
    ensures RangesFrom(s, t, from) == []
  {
  }

  lemma RangeAppendAssoc(a: seq<(int, int)>, b: seq<(int, int)>, c: seq<(int, int)>)
    ensures a + (b + c) == (a + b) + c
  {
  }

  /** `ranges(of:)`. */
  method Ranges(s: string, t: string) returns (ranges: seq<(int, int)>)
    ensures ranges == RangesFrom(s, t, 0)
  {
    ranges := [];
    var start: nat := 0;
    while start < |s|
      invariant start <= |s|
      invariant ranges + RangesFrom(s, t, start) == RangesFrom(s, t, 0)
      decreases |s| - start
    {
      var found := FindFrom(s, t, start);
      if found.None? {
        RangesFromDone(s, t, start);
        assert ranges + [] == ranges;
        return;
      }
      RangesFromFound(s, t, start, found.value);
      RangeAppendAssoc(ranges, [(found.value, found.value + |t|)], RangesFrom(s, t, found.value + |t|));
      ranges := ranges + [(found.value, found.value + |t|)];
      start := found.value + |t|;
    }
    RangesFromDone(s, t, start);
    assert ranges + [] == ranges;
  }

  lemma {:induction false} RangesCount(s: string, t: string, from: nat)
    ensures |RangesFrom(s, t, from)| == |IndicesFrom(s, t, from)|
    decreases |s| - from
  {
    if from < |s| {
      match FindFrom(s, t, from)
      case None =>
        RangesFromDone(s, t, from);
        IndicesFromDone(s, t, from);
      case Some(i) =>
        RangesFromFound(s, t, from, i);
        IndicesFromFound(s, t, from, i);
        RangesCount(s, t, i + |t|);
    }
  }

  /** The `k`-th range starts at the `k`-th index of `indices(of:)` and spans one occurrence. */
  lemma {:induction false} RangeIsIndex(s: string, t: string, from: nat, k: nat)
    requires k < |RangesFrom(s, t, from)| && k < |IndicesFrom(s, t, from)|
    ensures RangesFrom(s, t, from)[k] == (IndicesFrom(s, t, from)[k], IndicesFrom(s, t, from)[k] + |t|)
    decreases |s| - from
  {
    assert from < |s|;
    match FindFrom(s, t, from)
    case Some(i) =>
      RangesFromFound(s, t, from, i);
      IndicesFromFound(s, t, from, i);
      if k > 0 {
        RangeIsIndex(s, t, i + |t|, k - 1);
      }
  }

  /** `ranges(of:)` pairs each index of `indices(of:)` with the end of its occurrence. */
  lemma RangesAreIndices(s: string, t: string, from: nat)
    ensures |RangesFrom(s, t, from)| == |IndicesFrom(s, t, from)|
    ensures forall k :: 0 <= k < |RangesFrom(s, t, from)| ==>
              RangesFrom(s, t, from)[k] == (IndicesFrom(s, t, from)[k], IndicesFrom(s, t, from)[k] + |t|)
  {
    RangesCount(s, t, from);
    forall k | 0 <= k < |RangesFrom(s, t, from)| {
      RangeIsIndex(s, t, from, k);
    }
  }

  /**
   * Each collected index starts an occurrence at or after `from`, and the
   * next collected index lies past the end of that occurrence.
   */
  lemma {:induction false} IndexCollected(s: string, t: string, from: nat, k: nat)
    requires k < |IndicesFrom(s, t, from)|
    ensures var r := IndicesFrom(s, t, from);
            from <= r[k] && OccursAt(s, t, r[k]) && (k + 1 < |r| ==> r[k] + |t| <= r[k + 1])
    decreases |s| - from
  {
    assert from < |s|;
    match FindFrom(s, t, from)
    case Some(i) =>
      IndicesFromFound(s, t, from, i);
      var rest := IndicesFrom(s, t, i + |t|);
      if k == 0 {
        if |rest| > 0 {
          IndexCollected(s, t, i + |t|, 0);
        }
      } else {
        IndexCollected(s, t, i + |t|, k - 1);
      }
  }

  /**
   * Every collected index starts an occurrence, they increase, and no two
   * occurrences overlap.
   */
  lemma IndicesAreOccurrences(s: string, t: string, from: nat)
    ensures var r := IndicesFrom(s, t, from);
            && (forall k :: 0 <= k < |r| ==> from <= r[k] && OccursAt(s, t, r[k]))
            && (forall k :: 0 <= k < |r| - 1 ==> r[k] + |t| <= r[k + 1])
  {
    var r := IndicesFrom(s, t, from);
    forall k | 0 <= k < |r|
      ensures from <= r[k] && OccursAt(s, t, r[k]) && (k + 1 < |r| ==> r[k] + |t| <= r[k + 1])
    {
      IndexCollected(s, t, from, k);
    }
  }

  /** Every occurrence at or after `from` is collected or overlaps a collected one. */
  lemma {:induction false} IndicesComplete(s: string, t: string, from: nat, j: nat)
    requires t != [] && from <= j && OccursAt(s, t, j)
    ensures exists k :: 0 <= k < |IndicesFrom(s, t, from)|
                        && IndicesFrom(s, t, from)[k] <= j < IndicesFrom(s, t, from)[k] + |t|
    decreases |s| - from
  {
    assert from < |s|;
    IndexFromFirst(s, t, from, j);
    match FindFrom(s, t, from)
    case Some(i) =>
      var r := IndicesFrom(s, t, from);
      IndicesFromFound(s, t, from, i);
      if j < i + |t| {
        assert r[0] <= j < r[0] + |t|;
      } else {
        IndicesComplete(s, t, i + |t|, j);
        var k :| 0 <= k < |IndicesFrom(s, t, i + |t|)|
                 && IndicesFrom(s, t, i + |t|)[k] <= j < IndicesFrom(s, t, i + |t|)[k] + |t|;
        assert r[k + 1] == IndicesFrom(s, t, i + |t|)[k];
      }
  }

  // ---------------------------------------------------------------------------
  // toBool
  // ---------------------------------------------------------------------------

  const TrueValues: seq<string> := ["true", "yes", "1", "on", "+"]
  const FalseValues: seq<string> := ["false", "no", "0", "off", "-"]
  predicate IsParen(c: char) { c == '(' || c == ')' }

  /** The word `toBool` classifies: parentheses off the ends, then whitespace, then lower case. */
  function BoolWord(s: string): string {
    Lower(Trim(Trim(s, IsParen), IsWhitespaceOrNewline))
  }

  /** `toBool`: the true words are checked first, then the false words. */
  function ToBool(s: string): (r: Option<bool>)
    ensures r == Some(true) <==> BoolWord(s) in TrueValues
    ensures r == Some(false) <==> BoolWord(s) !in TrueValues && BoolWord(s) in FalseValues
    ensures r == None <==> BoolWord(s) !in TrueValues && BoolWord(s) !in FalseValues
  {
    var word := BoolWord(s);
    if word in TrueValues then Some(true)
    else if word in FalseValues then Some(false)
    else None
  }

  /** No character that trimming removes is a letter, so case mapping commutes with trimming. */
  predicate NoLetters(cs: char -> bool) {
    forall c :: cs(c) ==> !IsUpperChar(c) && !IsLowerChar(c)
  }

  lemma {:induction false} TrimStartUpper(s: string, cs: char -> bool)
    requires NoLetters(cs)
    ensures TrimStart(Upper(s), cs) == Upper(TrimStart(s, cs))
    decreases |s|
  {
    if |s| > 0 {
      assert Upper(s)[0] == UpperChar(s[0]);
      assert cs(Upper(s)[0]) == cs(s[0]);
      if cs(s[0]) {
        assert Upper(s)[1..] == Upper(s[1..]);
        TrimStartUpper(s[1..], cs);
      }
    }
  }

  lemma {:induction false} TrimEndUpper(s: string, cs: char -> bool)
    requires NoLetters(cs)
    ensures TrimEnd(Upper(s), cs) == Upper(TrimEnd(s, cs))
    decreases |s|
  {
    if |s| > 0 {
      assert cs(Upper(s)[|s| - 1]) == cs(s[|s| - 1]);
      if cs(s[|s| - 1]) {
        assert Upper(s)[..|s| - 1] == Upper(s[..|s| - 1]);
        TrimEndUpper(s[..|s| - 1], cs);
      }
    }
  }

  lemma TrimUpper(s: string, cs: char -> bool)
    requires NoLetters(cs)
    ensures Trim(Upper(s), cs) == Upper(Trim(s, cs))
  {
    TrimStartUpper(s, cs);
    TrimEndUpper(TrimStart(s, cs), cs);
  }

  lemma LowerUpper(s: string)
    ensures Lower(Upper(s)) == Lower(s)
  {
    forall i | 0 <= i < |s|
      ensures Lower(Upper(s))[i] == Lower(s)[i]
    {
      assert LowerChar(UpperChar(s[i])) == LowerChar(s[i]);
    }
  }

  lemma NoLettersInTrimmedSets()
    ensures NoLetters(IsParen) && NoLetters(IsWhitespaceOrNewline)
  {
  }

  lemma BoolWordUpper(s: string)
    ensures BoolWord(Upper(s)) == BoolWord(s)
  {
    NoLettersInTrimmedSets();
    var p := Trim(s, IsParen);
    TrimUpper(s, IsParen);
    TrimUpper(p, IsWhitespaceOrNewline);
    LowerUpper(Trim(p, IsWhitespaceOrNewline));
  }

  /** `toBool` ignores case: "YES", "Yes" and "yes" are all true. */
  lemma ToBoolIgnoresCase(s: string)
    ensures ToBool(Upper(s)) == ToBool(s)
  {
    BoolWordUpper(s);
  }

  /** A word with no parenthesis, no blank and no upper-case letter, such as each listed word. */
  predicate PlainWord(w: string) {
    |w| > 0 && forall i :: 0 <= i < |w| ==> !IsParen(w[i]) && !IsWhitespaceOrNewline(w[i]) && !IsUpperChar(w[i])
  }

  lemma TrueWordsArePlain(w: string)
    requires w in TrueValues
    ensures PlainWord(w) && w[0] != '('
  {
  }

  lemma FalseWordsArePlain(w: string)
    requires w in FalseValues
    ensures PlainWord(w) && w[0] != '('
  {
  }

  lemma LowerKeeps(w: string)
    requires forall i :: 0 <= i < |w| ==> !IsUpperChar(w[i])
    ensures Lower(w) == w
  {
  }

  lemma BoolWordPlain(w: string)
    requires PlainWord(w)
    ensures BoolWord(w) == w
  {
    TrimStartStop(w, IsParen);
    TrimEndStop(w, IsParen);
    TrimStartStop(w, IsWhitespaceOrNewline);
    TrimEndStop(w, IsWhitespaceOrNewline);
    LowerKeeps(w);
  }

  lemma TrimParensAround(w: string)
    requires PlainWord(w)
    ensures Trim("(" + w + ")", IsParen) == w
  {
    var x := "(" + w + ")";
    assert x[1..] == w + ")";
    TrimStartStep(x, IsParen);
    TrimStartStop(w + ")", IsParen);
    assert (w + ")")[..|w|] == w;
    TrimEndStep(w + ")", IsParen);
    TrimEndStop(w, IsParen);
  }

  lemma ParenOffEndOnly(w: string)
    requires |w| > 0 && !IsParen(w[|w| - 1])
    ensures Trim(" (" + w + ")", IsParen) == " (" + w
  {
    var x := " (" + w + ")";
    TrimStartStop(x, IsParen);
    assert x[..|x| - 1] == " (" + w;
    TrimEndStep(x, IsParen);
    TrimEndStop(" (" + w, IsParen);
  }

  lemma SpaceOffStartOnly(w: string)
    requires |w| > 0 && !IsWhitespaceOrNewline(w[|w| - 1])
    ensures Trim(" (" + w, IsWhitespaceOrNewline) == "(" + w
  {
    assert " (" + w == " " + ("(" + w);
    SpaceOffFront("(" + w);
    TrimEndStop("(" + w, IsWhitespaceOrNewline);
  }

  lemma SpaceOffFront(v: string)
    requires |v| > 0 && v[0] == '('
    ensures TrimStart(" " + v, IsWhitespaceOrNewline) == v
  {
    assert (" " + v)[1..] == v;
    TrimStartStep(" " + v, IsWhitespaceOrNewline);
    TrimStartStop(v, IsWhitespaceOrNewline);
  }

  /** Parentheses around a word are ignored: "(yes)" is true and "(off)" is false. */
  lemma ToBoolParenthesised(w: string)
    requires PlainWord(w)
    ensures ToBool("(" + w + ")") == ToBool(w)
  {
    TrimParensAround(w);
    TrimStartStop(w, IsParen);
    TrimEndStop(w, IsParen);
    assert Trim(w, IsParen) == w;
    assert BoolWord("(" + w + ")") == BoolWord(w);
  }

  /**
   * Parentheses come off before blanks, so a blank in front of the opening
   * parenthesis keeps it on: " (yes)" is neither true nor false.
   */
  lemma ToBoolSpaceBeforeParenthesis(w: string)
    requires PlainWord(w)
    ensures ToBool(" (" + w + ")") == None
  {
    ParenOffEndOnly(w);
    assert !IsWhitespaceOrNewline(w[|w| - 1]);
    SpaceOffStartOnly(w);
    var v := "(" + w;
    LowerKeeps(v);
    assert BoolWord(" (" + w + ")") == v;
    if v in TrueValues {
      TrueWordsArePlain(v);
    }
    if v in FalseValues {
      FalseWordsArePlain(v);
    }
  }

  // ---------------------------------------------------------------------------
  // hasAnyPrefix / hasAnySuffix
  // ---------------------------------------------------------------------------

  predicate HasSuffix(s: string, suffix: string) {
    |suffix| <= |s| && s[|s| - |suffix|..] == suffix
  }

  /** `s` starts with one of the prefixes. */
  predicate StartsWithAny(s: string, prefixes: seq<string>) {
    exists i :: 0 <= i < |prefixes| && prefixes[i] <= s
  }

  /** `hasAnyPrefix`: the first listed prefix of `s` ends the search. */
  method HasAnyPrefix(s: string, prefixes: seq<string>) returns (r: bool)
    ensures r == StartsWithAny(s, prefixes)
  {
    for i := 0 to |prefixes|
      invariant forall j :: 0 <= j < i ==> !(prefixes[j] <= s)
    {
      if prefixes[i] <= s {
        return true;
      }
    }
    return false;
  }

  /** `hasAnySuffix`. */
  method HasAnySuffix(s: string, suffixes: seq<string>) returns (r: bool)
    ensures r <==> exists i :: 0 <= i < |suffixes| && HasSuffix(s, suffixes[i])
  {
    for i := 0 to |suffixes|
      invariant forall j :: 0 <= j < i ==> !HasSuffix(s, suffixes[j])
    {
      if HasSuffix(s, suffixes[i]) {
        return true;
      }
    }
    return false;
  }

  // ---------------------------------------------------------------------------
  // trimLeadingWhitespace
  // ---------------------------------------------------------------------------

  /** The index of the first character that is not whitespace. */
  function FirstNonWhitespace(s: string, from: nat): (r: Option<nat>)
    requires from <= |s|
    ensures r.Some? ==> from <= r.value < |s| && !IsWhitespace(s[r.value])
    ensures r.Some? ==> forall j :: from <= j < r.value ==> IsWhitespace(s[j])
    ensures r.None? ==> forall j :: from <= j < |s| ==> IsWhitespace(s[j])
    decreases |s| - from
  {
    if from == |s| then None
    else if !IsWhitespace(s[from]) then Some(from)
    else FirstNonWhitespace(s, from + 1)
  }

  /** `trimLeadingWhitespace`: from the first non-blank character on, or all of `s` when there is none. */
  function TrimLeadingWhitespace(s: string): string {
    match FirstNonWhitespace(s, 0)
    case None => s
    case Some(i) => s[i..]
  }

  /**
   * It agrees with trimming the start, except that a string of blanks only
   * (which trimming empties) comes back unchanged.
   */
  lemma TrimLeadingIsTrimStart(s: string)
    ensures (exists i :: 0 <= i < |s| && !IsWhitespace(s[i])) ==>
              TrimLeadingWhitespace(s) == TrimStart(s, IsWhitespace)
    ensures (forall i :: 0 <= i < |s| ==> IsWhitespace(s[i])) ==> TrimLeadingWhitespace(s) == s
  {
    var t := TrimStart(s, IsWhitespace);
    match FirstNonWhitespace(s, 0)
    case None =>
    case Some(i) =>
      if |s| - |t| > i {
        assert false;
      }
      if |s| - |t| < i {
        assert false;
      }
  }
}
