/**
 * `hexDecoededString()` of StringExtensions.swift: `\xHH` and `%HH` escapes
 * become the byte they name, everything else its UTF-8 bytes, and the
 * bytes are read back as UTF-8 (the empty string when they are not).
 */
module HexDecode {
  import opened Wrappers
  import opened Strs
  import opened Utf8

  /** Swift's `UInt8(_:radix: 16)`: an optional sign, then at least one hex digit, within 0...255. */
  predicate IsHexDigit(c: char) {
    '0' <= c <= '9' || 'a' <= c <= 'f' || 'A' <= c <= 'F'
  }

  function HexDigitValue(c: char): (r: nat)
    requires IsHexDigit(c)
    ensures r < 16
  {
    if '0' <= c <= '9' then c as int - '0' as int
    else if 'a' <= c <= 'f' then c as int - 'a' as int + 10
    else c as int - 'A' as int + 10
  }

  predicate AllHex(s: string) {
    forall i :: 0 <= i < |s| ==> IsHexDigit(s[i])
  }

  function HexValue(s: string): nat
    requires AllHex(s)
  {
    if s == [] then 0 else 16 * HexValue(s[..|s| - 1]) + HexDigitValue(s[|s| - 1])
  }

  function ParseByte(s: string): (r: Option<byte>)
    ensures r.Some? ==> s != [] && (AllHex(s) || s[0] == '+' || s[0] == '-')
  {
    var signed := |s| > 0 && (s[0] == '-' || s[0] == '+');
    var digits := if signed then s[1..] else s;
    if digits == [] || !AllHex(digits) then None
    else
      var v := HexValue(digits);
      if s[0] == '-' then (if v == 0 then Some(0 as byte) else None)
      else if v < 256 then Some(v as byte)
      else None
  }

  /** Two hex digits always make a byte, the first digit the high nibble. */
  lemma ParseTwoDigits(h1: char, h2: char)
    requires IsHexDigit(h1) && IsHexDigit(h2)
    ensures ParseByte([h1, h2]) == Some((16 * HexDigitValue(h1) + HexDigitValue(h2)) as byte)
  {
    var s := [h1, h2];
    assert s[..1] == [h1] && [h1][..0] == [];
    assert HexValue([h1]) == HexDigitValue(h1);
  }

  // ---------------------------------------------------------------------------
  // The scan
  // ---------------------------------------------------------------------------

  /** The loop variables: the bytes so far (`newData`) and the escape being read (`emojiStr`). */
  datatype HexScan = HexScan(out: seq<byte>, pending: string)

  const HexStart: HexScan := HexScan([], "")

  /** A complete escape: the byte it names, or its own text when that is not a byte. */
  function EscapeBytes(p: string): seq<byte> {
    var value := ReplaceAll(ReplaceAll(p, "\\x", ""), "%", "");
    match ParseByte(value)
    case Some(b) => [b]
    case None => Encode(p)
  }

  /** Whether the escape being read is complete once `p` holds its latest character. */
  predicate EscapeComplete(p: string) {
    |p| == 4 || (|p| == 3 && "%" <= p)
  }

  /**
   * One pass of the loop.  `\` and `%` always join the pending text; `x`
   * or `X` after a lone `\` becomes `x`; while an escape is open every
   * character joins it, and a complete escape is converted; otherwise the
   * pending text and the character are written out as UTF-8.
   */
  function HexStep(st: HexScan, c: char): HexScan {
    if c == '\\' || c == '%' then
      st.(pending := st.pending + [c])
    else if st.pending == "\\" && (c == 'x' || c == 'X') then
      st.(pending := st.pending + "x")
    else if "\\x" <= st.pending || "%" <= st.pending then
      var p := st.pending + [c];
      if EscapeComplete(p) then HexScan(st.out + EscapeBytes(p), "") else st.(pending := p)
    else
      HexScan(st.out + Encode(st.pending) + Encode([c]), "")
  }

  function HexScanOf(st: HexScan, s: string): HexScan
    decreases |s|
  {
    if s == [] then st else HexScanOf(HexStep(st, s[0]), s[1..])
  }

  lemma {:induction false} HexScanAppend(st: HexScan, a: string, b: string)
    ensures HexScanOf(st, a + b) == HexScanOf(HexScanOf(st, a), b)
    decreases |a|
  {
    if a == [] {
      assert a + b == b;
    } else {
      assert (a + b)[0] == a[0] && (a + b)[1..] == a[1..] + b;
      HexScanAppend(HexStep(st, a[0]), a[1..], b);
    }
  }

  lemma HexScanPrefix(s: string, i: nat)
    requires i < |s|
    ensures HexScanOf(HexStart, s[..i + 1]) == HexStep(HexScanOf(HexStart, s[..i]), s[i])
  {
    assert s[..i + 1] == s[..i] + [s[i]];
    HexScanAppend(HexStart, s[..i], [s[i]]);
    assert [s[i]][1..] == [];
  }

  /** Doubled backslashes before `x` or `X` are taken as single ones. */
  function Prepared(s: string): string {
    ReplaceAll(ReplaceAll(s, "\\\\x", "\\x"), "\\\\X", "\\X")
  }

  /** The bytes `hexDecoededString()` collects; an escape still open at the end is dropped. */
  function HexBytes(s: string): seq<byte> {
    HexScanOf(HexStart, Prepared(s)).out
  }

  function HexDecoded(s: string): string {
    Decode(HexBytes(s)).GetOr("")
  }

  method HexDecodedString(s: string) returns (r: string)
    ensures r == HexDecoded(s)
  {
    var t := Prepared(s);
    var data: seq<byte> := [];
    var pending := "";
    for i := 0 to |t|
      invariant HexScan(data, pending) == HexScanOf(HexStart, t[..i])
    {
      HexScanPrefix(t, i);
      var c := t[i];
      if c == '\\' || c == '%' {
        pending := pending + [c];
      } else if pending == "\\" && (c == 'x' || c == 'X') {
        pending := pending + "x";
      } else if "\\x" <= pending || "%" <= pending {
        pending := pending + [c];
        if |pending| == 4 || (|pending| == 3 && "%" <= pending) {
          data := data + EscapeBytes(pending);
          pending := "";
        }
      } else {
        if |pending| > 0 {
          data := data + Encode(pending);
          pending := "";
        }
        data := data + Encode([c]);
      }
    }
    assert t[..|t|] == t;
    r := Decode(data).GetOr("");
  }

  /** An open escape that is not yet complete takes the next ordinary character. */
  lemma StepExtends(st: HexScan, c: char)
    requires c != '\\' && c != '%' && st.pending != "\\"
    requires "\\x" <= st.pending || "%" <= st.pending
    requires !EscapeComplete(st.pending + [c])
    ensures HexStep(st, c) == st.(pending := st.pending + [c])
  {
  }

  /** An open escape made complete by the next ordinary character is converted. */
  lemma StepCompletes(st: HexScan, c: char)
    requires c != '\\' && c != '%' && st.pending != "\\"
    requires "\\x" <= st.pending || "%" <= st.pending
    requires EscapeComplete(st.pending + [c])
    ensures HexStep(st, c) == HexScan(st.out + EscapeBytes(st.pending + [c]), "")
  {
  }

  lemma ScanTwo(st: HexScan, a: char, b: char)
    ensures HexScanOf(st, [a, b]) == HexStep(HexStep(st, a), b)
  {
    assert [a, b][0] == a && [a, b][1..] == [b] && [b][1..] == [];
    calc {
      HexScanOf(st, [a, b]);
      HexScanOf(HexStep(st, a), [b]);
      HexScanOf(HexStep(HexStep(st, a), b), []);
    }
  }

  lemma ScanFour(st: HexScan, a: char, b: char, c: char, d: char)
    ensures HexScanOf(st, [a, b, c, d]) == HexScanOf(HexStep(HexStep(st, a), b), [c, d])
  {
    var w := [a, b, c, d];
    assert w[1..] == [b, c, d] && [b, c, d][1..] == [c, d];
  }

  // ---------------------------------------------------------------------------
  // Properties
  // ---------------------------------------------------------------------------

  /** Text without `\` or `%` passes through unchanged. */
  predicate NoEscapes(s: string) {
    '\\' !in s && '%' !in s
  }

  lemma {:induction false} PlainScan(st: HexScan, s: string)
    requires NoEscapes(s) && st.pending == ""
    ensures HexScanOf(st, s) == HexScan(st.out + Encode(s), "")
    decreases |s|
  {
    if s == [] {
      assert st.out + Encode(s) == st.out;
    } else {
      assert NoEscapes(s[1..]) by {
        assert forall k :: 0 <= k < |s[1..]| ==> s[1..][k] == s[k + 1];
      }
      var next := HexStep(st, s[0]);
      assert next == HexScan(st.out + Encode([s[0]]), "") by {
        assert Encode(st.pending) == [];
        assert st.out + [] == st.out;
      }
      PlainScan(next, s[1..]);
      EncodeAppend([s[0]], s[1..]);
      assert [s[0]] + s[1..] == s;
    }
  }

  lemma PreparedPlain(s: string)
    requires NoEscapes(s)
    ensures Prepared(s) == s
  {
    assert "\\\\x"[0] == '\\' && "\\\\X"[0] == '\\';
    WithoutFirstChar(s, "\\\\x");
    ReplaceAbsent(s, "\\\\x", "\\x");
    WithoutFirstChar(s, "\\\\X");
    ReplaceAbsent(s, "\\\\X", "\\X");
  }

  /** A string without `\` or `%` decodes to itself. */
  lemma DecodedPlain(s: string)
    requires NoEscapes(s)
    ensures HexDecoded(s) == s
  {
    PreparedPlain(s);
    PlainScan(HexStart, s);
    assert HexBytes(s) == Encode(s);
    DecodeEncode(s);
  }

  lemma EscapeOfTwoDigits(h1: char, h2: char)
    requires IsHexDigit(h1) && IsHexDigit(h2)
    ensures EscapeBytes(['\\', 'x', h1, h2]) == [(16 * HexDigitValue(h1) + HexDigitValue(h2)) as byte]
  {
    BackslashEscapeValue(h1, h2);
    ParseTwoDigits(h1, h2);
  }

  /** `\xHH` read with nothing pending writes the byte 0xHH and closes the escape. */
  lemma BackslashEscape(st: HexScan, x: char, h1: char, h2: char)
    requires st.pending == "" && (x == 'x' || x == 'X') && IsHexDigit(h1) && IsHexDigit(h2)
    ensures HexScanOf(st, ['\\', x, h1, h2]) == HexScan(st.out + [(16 * HexDigitValue(h1) + HexDigitValue(h2)) as byte], "")
  {
    var s2 := HexStep(HexStep(st, '\\'), x);
    assert s2 == st.(pending := "\\x");
    var p3 := ['\\', 'x', h1];
    assert "\\x" <= p3 && p3 != "\\" && p3[0] != '%';
    assert "\\x" + [h1] == p3;
    assert !("%" <= p3) by { assert p3[0] != '%'; }
    StepExtends(s2, h1);
    var s3 := st.(pending := p3);
    StepCompletes(s3, h2);
    assert p3 + [h2] == ['\\', 'x', h1, h2];
    EscapeOfTwoDigits(h1, h2);
    ScanFour(st, '\\', x, h1, h2);
    ScanTwo(s2, h1, h2);
  }

  lemma EscapeOfPercent(h1: char, h2: char)
    requires IsHexDigit(h1) && IsHexDigit(h2)
    ensures EscapeBytes(['%', h1, h2]) == [(16 * HexDigitValue(h1) + HexDigitValue(h2)) as byte]
  {
    PercentEscapeValue(h1, h2);
    ParseTwoDigits(h1, h2);
  }

  /** `%HH` read with nothing pending writes the byte 0xHH and closes the escape. */
  lemma PercentEscape(st: HexScan, h1: char, h2: char)
    requires st.pending == "" && IsHexDigit(h1) && IsHexDigit(h2)
    ensures HexScanOf(st, ['%', h1, h2]) == HexScan(st.out + [(16 * HexDigitValue(h1) + HexDigitValue(h2)) as byte], "")
  {
    var s1 := HexStep(st, '%');
    assert s1 == st.(pending := "%");
    var p2 := ['%', h1];
    StepExtends(s1, h1);
    assert "%" + [h1] == p2 && "%" <= p2 && "%" <= p2 + [h2];
    var s2 := st.(pending := p2);
    StepCompletes(s2, h2);
    assert p2 + [h2] == ['%', h1, h2];
    EscapeOfPercent(h1, h2);
    ScanTwo(s1, h1, h2);
    assert ['%', h1, h2][1..] == [h1, h2];
  }

  /** A `\` or `%` at the very end is never written out. */
  lemma TrailingEscapeDropped(st: HexScan, c: char)
    requires st.pending == "" && (c == '\\' || c == '%')
    ensures HexScanOf(st, [c]).out == st.out
  {
    assert [c][1..] == [];
  }

  /** With neither character a `\` or `%`, removing `\x` and `%` from `\x` and two characters leaves the two characters. */
  lemma BackslashEscapeValue(h1: char, h2: char)
    requires h1 != '\\' && h1 != '%' && h2 != '\\' && h2 != '%'
    ensures ReplaceAll(ReplaceAll(['\\', 'x', h1, h2], "\\x", ""), "%", "") == [h1, h2]
  {
    var p := ['\\', 'x', h1, h2];
    var hs := [h1, h2];
    assert OccursAt(p, "\\x", 0);
    assert IndexOf(p, "\\x") == Some(0);
    assert p[2..] == hs;
    assert "%"[0] == '%' && "\\x"[0] == '\\';
    WithoutFirstChar(hs, "\\x");
    SplitWithoutSeparator(hs, "\\x");
    var parts := [[]] + [hs];
    assert Split(p, "\\x") == parts;
    assert parts[1..] == [hs];
    assert Join(parts, "") == [] + "" + hs;
    assert ReplaceAll(p, "\\x", "") == hs;
    WithoutFirstChar(hs, "%");
    ReplaceAbsent(hs, "%", "");
  }

  /** With neither character a `\` or `%`, removing `\x` and `%` from `%` and two characters leaves the two characters. */
  lemma PercentEscapeValue(h1: char, h2: char)
    requires h1 != '\\' && h1 != '%' && h2 != '\\' && h2 != '%'
    ensures ReplaceAll(ReplaceAll(['%', h1, h2], "\\x", ""), "%", "") == [h1, h2]
  {
    var p := ['%', h1, h2];
    var hs := [h1, h2];
    assert "\\x"[0] == '\\' && p[0] != '\\';
    WithoutFirstChar(p, "\\x");
    ReplaceAbsent(p, "\\x", "");
    assert OccursAt(p, "%", 0);
    assert IndexOf(p, "%") == Some(0);
    assert p[1..] == hs;
    assert "%"[0] == '%';
    WithoutFirstChar(hs, "%");
    SplitWithoutSeparator(hs, "%");
    var parts := [[]] + [hs];
    assert Split(p, "%") == parts;
    assert parts[1..] == [hs];
    assert Join(parts, "") == [] + "" + hs;
  }

  /**
   * A `\x` escape whose two characters do not name a byte is written out
   * as its own text (with the `x` lower-cased, as the loop records it).
   */
  lemma InvalidEscapeLiteral(st: HexScan, x: char, h1: char, h2: char)
    requires st.pending == "" && (x == 'x' || x == 'X')
    requires h1 != '\\' && h1 != '%' && h2 != '\\' && h2 != '%'
    requires ParseByte([h1, h2]).None?
    ensures HexScanOf(st, ['\\', x, h1, h2]) == HexScan(st.out + Encode(['\\', 'x', h1, h2]), "")
  {
    var s2 := HexStep(HexStep(st, '\\'), x);
    assert s2 == st.(pending := "\\x");
    var p3 := ['\\', 'x', h1];
    assert "\\x" <= p3 && p3 != "\\";
    assert "\\x" + [h1] == p3;
    assert !("%" <= p3) by { assert p3[0] != '%'; }
    StepExtends(s2, h1);
    var s3 := st.(pending := p3);
    StepCompletes(s3, h2);
    assert p3 + [h2] == ['\\', 'x', h1, h2];
    BackslashEscapeValue(h1, h2);
    assert EscapeBytes(['\\', 'x', h1, h2]) == Encode(['\\', 'x', h1, h2]);
    ScanFour(st, '\\', x, h1, h2);
    ScanTwo(s2, h1, h2);
  }

  /** A `%` escape whose two characters do not name a byte is written out as its own text. */
  lemma InvalidPercentLiteral(st: HexScan, h1: char, h2: char)
    requires st.pending == ""
    requires h1 != '\\' && h1 != '%' && h2 != '\\' && h2 != '%'
    requires ParseByte([h1, h2]).None?
    ensures HexScanOf(st, ['%', h1, h2]) == HexScan(st.out + Encode(['%', h1, h2]), "")
  {
    var s1 := HexStep(st, '%');
    assert s1 == st.(pending := "%");
    var p2 := ['%', h1];
    StepExtends(s1, h1);
    assert "%" + [h1] == p2 && "%" <= p2 && "%" <= p2 + [h2];
    var s2 := st.(pending := p2);
    StepCompletes(s2, h2);
    assert p2 + [h2] == ['%', h1, h2];
    PercentEscapeValue(h1, h2);
    assert EscapeBytes(['%', h1, h2]) == Encode(['%', h1, h2]);
    ScanTwo(s1, h1, h2);
    assert ['%', h1, h2][1..] == [h1, h2];
  }

  /** An escape the text can end inside: `\`, `%`, `\x`, `\x` and one more character, `%` and one more character. */
  predicate OpenEscape(e: string) {
    e == "\\" || e == "%"
    || (|e| == 2 && e[0] == '\\' && (e[1] == 'x' || e[1] == 'X'))
    || (|e| == 3 && e[0] == '\\' && (e[1] == 'x' || e[1] == 'X') && e[2] != '\\' && e[2] != '%')
    || (|e| == 2 && e[0] == '%' && e[1] != '\\' && e[1] != '%')
  }

  /** Reading an open escape writes nothing and leaves it pending. */
  lemma OpenEscapePending(st: HexScan, e: string)
    requires st.pending == "" && OpenEscape(e)
    ensures HexScanOf(st, e).out == st.out && HexScanOf(st, e).pending != ""
  {
    var s1 := HexStep(st, e[0]);
    assert s1 == st.(pending := [e[0]]);
    if |e| == 1 {
      assert e[1..] == [];
    } else if e[0] == '%' {
      assert e == [e[0], e[1]];
      ScanTwo(st, e[0], e[1]);
      assert "%" <= [e[0]] && !EscapeComplete([e[0]] + [e[1]]);
      StepExtends(s1, e[1]);
    } else {
      var s2 := HexStep(s1, e[1]);
      assert s2 == st.(pending := "\\x");
      if |e| == 2 {
        assert e == [e[0], e[1]];
        ScanTwo(st, e[0], e[1]);
      } else {
        assert e[1..] == [e[1], e[2]];
        ScanTwo(s1, e[1], e[2]);
        assert "\\x" + [e[2]] == ['\\', 'x', e[2]];
        assert !EscapeComplete(['\\', 'x', e[2]]);
        StepExtends(s2, e[2]);
      }
    }
  }

  /** No two neighbouring characters are both backslashes. */
  predicate NoDoubleBackslash(s: string) {
    forall i :: 0 <= i < |s| - 1 ==> !(s[i] == '\\' && s[i + 1] == '\\')
  }

  lemma PreparedKeeps(s: string)
    requires NoDoubleBackslash(s)
    ensures Prepared(s) == s
  {
    forall t | t == "\\\\x" || t == "\\\\X" ensures !Contains(s, t) {
      ContainsIff(s, t);
      forall i | 0 <= i <= |s| ensures !OccursAt(s, t, i) {
        if i + |t| <= |s| {
          assert t[0] == '\\' && t[1] == '\\';
          assert !(s[i + 0] == t[0] && s[i + 1] == t[1]);
        }
      }
    }
    ReplaceAbsent(s, "\\\\x", "\\x");
    ReplaceAbsent(s, "\\\\X", "\\X");
  }

  /**
   * An escape left open at the end of the text is dropped: text without
   * escapes followed by such an escape decodes to the text alone.
   */
  lemma IncompleteEscapeDropped(t: string, e: string)
    requires NoEscapes(t) && OpenEscape(e)
    ensures HexBytes(t + e) == HexBytes(t) == Encode(t)
    ensures HexDecoded(t + e) == t
  {
    assert NoDoubleBackslash(t + e) by {
      forall i | 0 <= i < |t + e| - 1 ensures !((t + e)[i] == '\\' && (t + e)[i + 1] == '\\') {
        if i < |t| {
          assert (t + e)[i] == t[i] && t[i] in t;
        } else {
          assert (t + e)[i + 1] == e[i + 1 - |t|];
        }
      }
    }
    PreparedKeeps(t + e);
    PreparedPlain(t);
    HexScanAppend(HexStart, t, e);
    PlainScan(HexStart, t);
    assert HexScanOf(HexStart, t) == HexScan(Encode(t), "");
    OpenEscapePending(HexScan(Encode(t), ""), e);
    DecodeEncode(t);
  }

  // ---------------------------------------------------------------------------
  // An escape restarted before it is complete
  // ---------------------------------------------------------------------------

  /**
   * As written: once an open escape holds four or more characters without
   * having been converted, it only grows, and nothing more is written.
   */
  lemma {:induction false} OvergrownSwallowsRest(st: HexScan, t: string)
    requires |st.pending| >= 4 && ("\\x" <= st.pending || "%" <= st.pending)
    ensures HexScanOf(st, t).out == st.out
    decreases |t|
  {
    if t != [] {
      var next := HexStep(st, t[0]);
      assert st.pending <= next.pending;
      PrefixOfPrefix("\\x", st.pending, next.pending);
      PrefixOfPrefix("%", st.pending, next.pending);
      OvergrownSwallowsRest(next, t[1..]);
    }
  }

  lemma PrefixOfPrefix(a: string, b: string, c: string)
    requires b <= c
    ensures a <= b ==> a <= c
  {
  }

  /**
   * As written: a `\` arriving after `\xH` joins the open escape, which then
   * holds four characters without being converted; nothing after it is
   * written.  So `\x4\x41z` yields no bytes at all.
   */
  lemma RestartedEscapeSwallowsRest(st: HexScan, x: char, h: char, t: string)
    requires st.pending == "" && (x == 'x' || x == 'X') && h != '\\' && h != '%'
    ensures HexScanOf(st, ['\\', x, h, '\\'] + t).out == st.out
  {
    var s2 := HexStep(HexStep(st, '\\'), x);
    assert s2 == st.(pending := "\\x");
    var p3 := ['\\', 'x', h];
    assert "\\x" <= p3 && p3 != "\\" && p3[0] != '%';
    assert "\\x" + [h] == p3;
    assert !EscapeComplete(p3);
    StepExtends(s2, h);
    var s3 := st.(pending := p3);
    var s4 := HexStep(s3, '\\');
    assert s4 == st.(pending := ['\\', 'x', h, '\\']);
    var w := ['\\', x, h, '\\'];
    ScanFour(st, '\\', x, h, '\\');
    ScanTwo(s2, h, '\\');
    HexScanAppend(st, w, t);
    OvergrownSwallowsRest(s4, t);
  }

  /**
   * The intended step: a `\` or `%` that starts a new escape first writes
   * out, as text, whatever escape was left incomplete.
   */
  function IntendedHexStep(st: HexScan, c: char): HexScan {
    if c == '\\' || c == '%' then HexScan(st.out + Encode(st.pending), [c])
    else HexStep(st, c)
  }

  function IntendedHexScanOf(st: HexScan, s: string): HexScan
    decreases |s|
  {
    if s == [] then st else IntendedHexScanOf(IntendedHexStep(st, s[0]), s[1..])
  }

  /** The escape text an intended scan can hold back: at most three characters. */
  predicate ShortPending(p: string) {
    p == "" || p == "\\" || ("\\x" <= p && |p| <= 3) || ("%" <= p && |p| <= 2)
  }

  lemma IntendedStepShort(st: HexScan, c: char)
    requires ShortPending(st.pending)
    ensures ShortPending(IntendedHexStep(st, c).pending)
  {
    if c != '\\' && c != '%' && !(st.pending == "\\" && (c == 'x' || c == 'X')) {
      if "\\x" <= st.pending || "%" <= st.pending {
        var p := st.pending + [c];
        assert st.pending <= p;
        if !EscapeComplete(p) {
          if "%" <= st.pending {
            assert |p| <= 2;
          } else {
            assert "\\x" <= p;
          }
        }
      }
    }
  }

  /** With the intended step, no more than three characters are ever held back. */
  lemma {:induction false} IntendedScanShort(st: HexScan, t: string)
    requires ShortPending(st.pending)
    ensures ShortPending(IntendedHexScanOf(st, t).pending)
    decreases |t|
  {
    if t != [] {
      IntendedStepShort(st, t[0]);
      IntendedScanShort(IntendedHexStep(st, t[0]), t[1..]);
    }
  }

  /** With the intended step, the incomplete `\xH` is written as text when the next escape starts. */
  lemma IntendedRestartKeepsText(st: HexScan, x: char, h: char)
    requires st.pending == "" && (x == 'x' || x == 'X') && h != '\\' && h != '%'
    ensures IntendedHexScanOf(st, ['\\', x, h, '\\']) == HexScan(st.out + Encode(['\\', 'x', h]), "\\")
  {
    var s1 := IntendedHexStep(st, '\\');
    assert s1 == HexScan(st.out, "\\") by {
      assert Encode(st.pending) == [];
      assert st.out + [] == st.out;
    }
    var s2 := IntendedHexStep(s1, x);
    assert s2.pending == "\\x" && s2.out == st.out;
    var s3 := IntendedHexStep(s2, h);
    assert s3 == HexScan(st.out, ['\\', 'x', h]);
    var s4 := IntendedHexStep(s3, '\\');
    assert s4 == HexScan(st.out + Encode(['\\', 'x', h]), "\\");
    var w := ['\\', x, h, '\\'];
    assert w[1..] == [x, h, '\\'] && w[1..][1..] == [h, '\\'] && [h, '\\'][1..] == ['\\'] && ['\\'][1..] == [];
    calc {
      IntendedHexScanOf(st, w);
      IntendedHexScanOf(s1, [x, h, '\\']);
      IntendedHexScanOf(s2, [h, '\\']);
      IntendedHexScanOf(s3, ['\\']);
      IntendedHexScanOf(s4, []);
    }
  }
}
