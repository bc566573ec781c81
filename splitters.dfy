/**
 * The quote- and escape-aware splitters of StringExtensions.swift:
 * `commandsSeperated(by:)` and `argumentsSeperated()`.  Each loop over the
 * characters is specified by a step function folded over the string; the
 * methods run the loop and are proved equal to the fold.
 */
module Splitters {
  import opened Strs

  /** Joining after one more piece: the separator, then the piece. */
  lemma {:induction false} JoinSnoc(xs: seq<string>, x: string, sep: string)
    ensures Join(xs + [x], sep) == if xs == [] then x else Join(xs, sep) + sep + x
    decreases |xs|
  {
    if |xs| > 1 {
      assert (xs + [x])[1..] == xs[1..] + [x];
      JoinSnoc(xs[1..], x, sep);
    } else if |xs| == 1 {
      assert (xs + [x])[1..] == [x];
    }
  }

  // ---------------------------------------------------------------------------
  // commandsSeperated(by:)
  // ---------------------------------------------------------------------------

  /** The loop variables of `commandsSeperated`. */
  datatype CommandScan = CommandScan(result: seq<string>, current: string, previous: string, inQuote: bool)

  const CommandStart: CommandScan := CommandScan([], "", "", false)

  /** A finished piece: every backslash-escaped delimiter becomes the bare delimiter. */
  function Unescaped(piece: string, delimiter: string): string {
    ReplaceAll(piece, "\\" + delimiter, delimiter)
  }

  /**
   * One pass of the loop: a delimiter outside quotes and not after a
   * backslash ends the piece (and leaves `previous` alone); any other
   * character joins the piece, an unescaped `"` toggling the quote flag.
   */
  function CommandStep(st: CommandScan, c: char, delimiter: string): CommandScan {
    if [c] == delimiter && st.previous != "\\" && !st.inQuote then
      st.(result := st.result + [Unescaped(st.current, delimiter)], current := "")
    else
      var inQuote := if c == '"' && st.previous != "\\" then !st.inQuote else st.inQuote;
      CommandScan(st.result, st.current + [c], [c], inQuote)
  }

  function CommandScanOf(st: CommandScan, s: string, delimiter: string): CommandScan
    decreases |s|
  {
    if s == [] then st else CommandScanOf(CommandStep(st, s[0], delimiter), s[1..], delimiter)
  }

  lemma {:induction false} CommandScanAppend(st: CommandScan, a: string, b: string, delimiter: string)
    ensures CommandScanOf(st, a + b, delimiter) == CommandScanOf(CommandScanOf(st, a, delimiter), b, delimiter)
    decreases |a|
  {
    if a == [] {
      assert a + b == b;
    } else {
      assert (a + b)[0] == a[0] && (a + b)[1..] == a[1..] + b;
      CommandScanAppend(CommandStep(st, a[0], delimiter), a[1..], b, delimiter);
    }
  }

  lemma CommandScanPrefix(s: string, i: nat, delimiter: string)
    requires i < |s|
    ensures CommandScanOf(CommandStart, s[..i + 1], delimiter)
         == CommandStep(CommandScanOf(CommandStart, s[..i], delimiter), s[i], delimiter)
  {
    assert s[..i + 1] == s[..i] + [s[i]];
    CommandScanAppend(CommandStart, s[..i], [s[i]], delimiter);
    assert [s[i]][1..] == [];
  }

  /** After the loop the last piece is added only when it is not empty. */
  function CommandPieces(st: CommandScan, delimiter: string): seq<string> {
    if |st.current| > 0 then st.result + [Unescaped(st.current, delimiter)] else st.result
  }

  /** `commandsSeperated(by:)`: the whole string when the delimiter does not occur in it. */
  function CommandsSeparated(s: string, delimiter: string): seq<string> {
    if !Contains(s, delimiter) then [s]
    else CommandPieces(CommandScanOf(CommandStart, s, delimiter), delimiter)
  }

  method CommandsSeperated(s: string, delimiter: string) returns (result: seq<string>)
    ensures result == CommandsSeparated(s, delimiter)
    ensures !Contains(s, delimiter) ==> result == [s]
  {
    if !Contains(s, delimiter) {
      return [s];
    }
    result := [];
    var current := "";
    var previous := "";
    var inQuote := false;
    for i := 0 to |s|
      invariant CommandScan(result, current, previous, inQuote) == CommandScanOf(CommandStart, s[..i], delimiter)
    {
      CommandScanPrefix(s, i, delimiter);
      var c := s[i];
      if [c] == delimiter && previous != "\\" && !inQuote {
        result := result + [Unescaped(current, delimiter)];
        current := "";
      } else {
        if c == '"' && previous != "\\" {
          inQuote := !inQuote;
        }
        current := current + [c];
        previous := [c];
      }
    }
    assert s[..|s|] == s;
    if |current| > 0 {
      result := result + [Unescaped(current, delimiter)];
    }
  }

  /** Text with no quote and no backslash: nothing to toggle, nothing escaped. */
  predicate Plain(s: string) {
    '"' !in s && '\\' !in s
  }

  lemma UnescapedPlain(piece: string, d: char)
    requires '\\' !in piece
    ensures Unescaped(piece, [d]) == piece
  {
    var t := "\\" + [d];
    assert t[0] == '\\';
    WithoutFirstChar(piece, t);
    ReplaceAbsent(piece, "\\" + [d], [d]);
  }

  /** What a scan over plain text keeps: all pieces so far, the current one last. */
  function Pieces(st: CommandScan): seq<string> {
    st.result + [st.current]
  }

  predicate PlainScan(st: CommandScan, d: char) {
    !st.inQuote && st.previous != "\\" && '\\' !in st.current && d !in st.current
    && forall k :: 0 <= k < |st.result| ==> d !in st.result[k]
  }

  /** One plain character: a delimiter closes the piece, anything else extends it. */
  lemma PlainCommandStep(st: CommandScan, c: char, d: char)
    requires c != '"' && c != '\\' && d != '"' && d != '\\'
    requires PlainScan(st, d)
    ensures var next := CommandStep(st, c, [d]);
            && PlainScan(next, d)
            && Join(Pieces(next), [d]) == Join(Pieces(st), [d]) + [c]
            && (next.current == [] <==> c == d)
  {
    var next := CommandStep(st, c, [d]);
    if c == d {
      UnescapedPlain(st.current, d);
      assert next == CommandScan(st.result + [st.current], "", st.previous, false);
      JoinSnoc(st.result + [st.current], "", [d]);
    } else {
      assert next == CommandScan(st.result, st.current + [c], [c], false);
      JoinSnoc(st.result, st.current, [d]);
      JoinSnoc(st.result, st.current + [c], [d]);
    }
  }

  /**
   * Over plain text every delimiter splits: the pieces joined with the
   * delimiter grow by exactly the text read, and no piece holds a delimiter.
   */
  lemma {:induction false} PlainCommandScan(st: CommandScan, t: string, d: char)
    requires Plain(t) && d != '"' && d != '\\'
    requires PlainScan(st, d)
    ensures var r := CommandScanOf(st, t, [d]);
            && PlainScan(r, d)
            && Join(Pieces(r), [d]) == Join(Pieces(st), [d]) + t
            && (t != [] ==> (r.current == [] <==> t[|t| - 1] == d))
    decreases |t|
  {
    if t == [] {
      assert Join(Pieces(st), [d]) + t == Join(Pieces(st), [d]);
    } else {
      var c := t[0];
      var rest := t[1..];
      assert Plain(rest) by {
        assert forall k :: 0 <= k < |rest| ==> rest[k] == t[k + 1];
      }
      PlainCommandStep(st, c, d);
      var next := CommandStep(st, c, [d]);
      PlainCommandScan(next, rest, d);
      assert CommandScanOf(st, t, [d]) == CommandScanOf(next, rest, [d]);
      assert Join(Pieces(st), [d]) + [c] + rest == Join(Pieces(st), [d]) + t by {
        assert t == [c] + rest;
      }
      if rest != [] {
        assert rest[|rest| - 1] == t[|t| - 1];
      }
    }
  }

  /**
   * Without quotes or backslashes `commandsSeperated` is a plain split at
   * every delimiter: the pieces join back to the string, with the delimiter
   * of a dropped empty last piece the only thing missing, and no piece holds
   * the delimiter.
   */
  lemma CommandsOfPlainText(s: string, d: char)
    requires Plain(s) && d != '"' && d != '\\' && d in s
    ensures var pieces := CommandsSeparated(s, [d]);
            && Join(pieces, [d]) + (if s[|s| - 1] == d then [d] else []) == s
            && forall k :: 0 <= k < |pieces| ==> d !in pieces[k]
  {
    ContainsChar(s, d);
    PlainCommandScan(CommandStart, s, d);
    var r := CommandScanOf(CommandStart, s, [d]);
    assert Join(Pieces(CommandStart), [d]) == "";
    assert "" + s == s;
    if |r.current| > 0 {
      UnescapedPlain(r.current, d);
      assert CommandsSeparated(s, [d]) == Pieces(r);
    } else {
      assert r.result != [];
      JoinSnoc(r.result, "", [d]);
      assert Join(r.result, [d]) + [d] == s;
    }
  }

  /**
   * A double-quoted run without quotes or backslashes inside is kept whole in
   * the current piece, delimiters and all.
   */
  lemma QuotedCommandKept(st: CommandScan, q: string, d: char)
    requires Plain(q) && d != '"' && d != '\\'
    requires !st.inQuote && st.previous != "\\"
    ensures CommandScanOf(st, "\"" + q + "\"", [d])
         == CommandScan(st.result, st.current + "\"" + q + "\"", "\"", false)
  {
    var open := CommandStep(st, '"', [d]);
    assert open == CommandScan(st.result, st.current + "\"", "\"", true);
    InsideQuotes(open, q, d);
    var inside := CommandScanOf(open, q, [d]);
    assert CommandStep(inside, '"', [d]) == CommandScan(st.result, st.current + "\"" + q + "\"", "\"", false);
    CommandScanAppend(st, "\"", q + "\"", [d]);
    CommandScanAppend(open, q, "\"", [d]);
    assert "\"" + q + "\"" == "\"" + (q + "\"");
    assert CommandScanOf(open, "\"", [d]) == CommandStep(open, '"', [d]);
    assert CommandScanOf(inside, "\"", [d]) == CommandStep(inside, '"', [d]);
  }

  lemma {:induction false} InsideQuotes(st: CommandScan, q: string, d: char)
    requires Plain(q) && st.inQuote && st.previous != "\\"
    ensures var r := CommandScanOf(st, q, [d]);
            r.result == st.result && r.current == st.current + q && r.inQuote && r.previous != "\\"
    decreases |q|
  {
    if q != [] {
      assert Plain(q[1..]) by {
        assert forall k :: 0 <= k < |q[1..]| ==> q[1..][k] == q[k + 1];
      }
      var next := CommandStep(st, q[0], [d]);
      assert next == CommandScan(st.result, st.current + [q[0]], [q[0]], true);
      InsideQuotes(next, q[1..], d);
      assert st.current + [q[0]] + q[1..] == st.current + q;
    }
  }

  /** A delimiter after a backslash does not split: the backslash and the delimiter both stay in the current piece. */
  lemma EscapedDelimiterKept(st: CommandScan, d: char)
    requires d != '"' && d != '\\'
    requires !st.inQuote && st.previous != "\\"
    ensures CommandScanOf(st, ['\\', d], [d])
         == CommandScan(st.result, st.current + ['\\', d], [d], false)
  {
    var s1 := CommandStep(st, '\\', [d]);
    assert s1 == CommandScan(st.result, st.current + ['\\'], "\\", false);
    var s2 := CommandStep(s1, d, [d]);
    assert s2 == CommandScan(st.result, st.current + ['\\', d], [d], false);
    assert ['\\', d][0] == '\\' && ['\\', d][1..] == [d] && [d][1..] == [];
    calc {
      CommandScanOf(st, ['\\', d], [d]);
      CommandScanOf(s1, [d], [d]);
      CommandScanOf(s2, [], [d]);
    }
  }

  // ---------------------------------------------------------------------------
  // argumentsSeperated()
  // ---------------------------------------------------------------------------

  /** The loop variables of `argumentsSeperated`. */
  datatype ArgumentScan = ArgumentScan(result: seq<string>, current: string, previous: string, inArg: bool)

  const ArgumentStart: ArgumentScan := ArgumentScan([], "", "", false)

  /**
   * One pass of the loop.  Outside quotes a space ends a non-empty argument;
   * an unescaped `"` opens or closes a quoted argument (re-wrapped in quotes
   * on closing).  Those three branches leave `previous` alone.
   */
  function ArgumentStep(st: ArgumentScan, c: char): ArgumentScan {
    if c == ' ' && !st.inArg then
      st.(result := if |st.current| > 0 then st.result + [st.current] else st.result, current := "")
    else if c == '"' && !st.inArg && st.previous != "\\" then
      st.(inArg := true)
    else if c == '"' && st.inArg && st.previous != "\\" then
      st.(inArg := false, result := st.result + ["\"" + st.current + "\""], current := "")
    else
      st.(current := st.current + [c], previous := [c])
  }

  function ArgumentScanOf(st: ArgumentScan, s: string): ArgumentScan
    decreases |s|
  {
    if s == [] then st else ArgumentScanOf(ArgumentStep(st, s[0]), s[1..])
  }

  lemma {:induction false} ArgumentScanAppend(st: ArgumentScan, a: string, b: string)
    ensures ArgumentScanOf(st, a + b) == ArgumentScanOf(ArgumentScanOf(st, a), b)
    decreases |a|
  {
    if a == [] {
      assert a + b == b;
    } else {
      assert (a + b)[0] == a[0] && (a + b)[1..] == a[1..] + b;
      ArgumentScanAppend(ArgumentStep(st, a[0]), a[1..], b);
    }
  }

  lemma ArgumentScanPrefix(s: string, i: nat)
    requires i < |s|
    ensures ArgumentScanOf(ArgumentStart, s[..i + 1]) == ArgumentStep(ArgumentScanOf(ArgumentStart, s[..i]), s[i])
  {
    assert s[..i + 1] == s[..i] + [s[i]];
    ArgumentScanAppend(ArgumentStart, s[..i], [s[i]]);
    assert [s[i]][1..] == [];
  }

  /** After the loop: an unterminated quote keeps its opening `"`; an empty last argument is dropped. */
  function ArgumentPieces(st: ArgumentScan): seq<string> {
    var current := if st.inArg then "\"" + st.current else st.current;
    if |current| > 0 then st.result + [current] else st.result
  }

  /** `argumentsSeperated()`: nothing for the empty string, a split on spaces when there is no quote. */
  function ArgumentsSeparated(s: string): seq<string> {
    if |s| == 0 then []
    else if '"' !in s then Split(s, " ")
    else ArgumentPieces(ArgumentScanOf(ArgumentStart, s))
  }

  method ArgumentsSeperated(s: string) returns (result: seq<string>)
    ensures result == ArgumentsSeparated(s)
    ensures s == [] ==> result == []
  {
    if |s| == 0 {
      return [];
    }
    ContainsChar(s, '"');
    if !Contains(s, "\"") {
      return Split(s, " ");
    }
    result := [];
    var current := "";
    var previous := "";
    var inArg := false;
    for i := 0 to |s|
      invariant ArgumentScan(result, current, previous, inArg) == ArgumentScanOf(ArgumentStart, s[..i])
    {
      ArgumentScanPrefix(s, i);
      var c := s[i];
      if c == ' ' && !inArg {
        if |current| > 0 {
          result := result + [current];
        }
        current := "";
      } else if c == '"' && !inArg && previous != "\\" {
        inArg := true;
      } else if c == '"' && inArg && previous != "\\" {
        inArg := false;
        result := result + ["\"" + current + "\""];
        current := "";
      } else {
        current := current + [c];
        previous := [c];
      }
    }
    assert s[..|s|] == s;
    if inArg {
      current := "\"" + current;
    }
    if |current| > 0 {
      result := result + [current];
    }
  }

  /** Without quotes the arguments are the space-separated pieces, empty ones included: they join back to the string. */
  lemma ArgumentsWithoutQuotes(s: string)
    requires '"' !in s
    ensures Join(ArgumentsSeparated(s), " ") == s
  {
    if |s| > 0 {
      JoinSplit(s, " ");
    }
  }

  /**
   * Between arguments, a double-quoted run without quotes or backslashes
   * inside becomes one argument, re-wrapped in quotes, spaces and all.
   */
  lemma QuotedArgument(st: ArgumentScan, q: string)
    requires Plain(q) && !st.inArg && st.current == [] && st.previous != "\\"
    ensures var r := ArgumentScanOf(st, "\"" + q + "\"");
            r.result == st.result + ["\"" + q + "\""] && r.current == [] && !r.inArg
  {
    var open := ArgumentStep(st, '"');
    assert open == st.(inArg := true);
    InsideArgument(open, q);
    var inside := ArgumentScanOf(open, q);
    assert inside.current == q by { assert st.current + q == q; }
    var closed := ArgumentStep(inside, '"');
    assert closed.result == st.result + ["\"" + q + "\""] && closed.current == [] && !closed.inArg;
    ArgumentScanAppend(st, "\"", q + "\"");
    ArgumentScanAppend(open, q, "\"");
    assert "\"" + q + "\"" == "\"" + (q + "\"");
    assert ArgumentScanOf(st, "\"") == open;
    assert ArgumentScanOf(inside, "\"") == closed;
  }

  lemma {:induction false} InsideArgument(st: ArgumentScan, q: string)
    requires Plain(q) && st.inArg && st.previous != "\\"
    ensures var r := ArgumentScanOf(st, q);
            r.result == st.result && r.current == st.current + q && r.inArg && r.previous != "\\"
    decreases |q|
  {
    if q != [] {
      assert Plain(q[1..]) by {
        assert forall k :: 0 <= k < |q[1..]| ==> q[1..][k] == q[k + 1];
      }
      var next := ArgumentStep(st, q[0]);
      assert next == st.(current := st.current + [q[0]], previous := [q[0]]);
      InsideArgument(next, q[1..]);
      assert st.current + [q[0]] + q[1..] == st.current + q;
    }
  }

  /** A quote left open at the end of the text gives a last argument that starts with `"`. */
  lemma UnterminatedQuote(st: ArgumentScan, q: string)
    requires Plain(q) && !st.inArg && st.current == [] && st.previous != "\\"
    ensures ArgumentPieces(ArgumentScanOf(st, "\"" + q)) == st.result + ["\"" + q]
  {
    var open := ArgumentStep(st, '"');
    InsideArgument(open, q);
    ArgumentScanAppend(st, "\"", q);
    assert ArgumentScanOf(st, "\"") == open;
    assert [] + q == q;
  }

  /** Outside quotes, a word without spaces or quotes followed by a space is one argument (none when empty). */
  lemma UnquotedArgument(st: ArgumentScan, w: string)
    requires ' ' !in w && '"' !in w && !st.inArg && st.current == []
    ensures var r := ArgumentScanOf(st, w + " ");
            && r.result == (if w == [] then st.result else st.result + [w])
            && r.current == [] && !r.inArg
  {
    WordRun(st, w);
    ArgumentScanAppend(st, w, " ");
    var r := ArgumentScanOf(st, w);
    assert ArgumentScanOf(r, " ") == ArgumentStep(r, ' ');
    assert [] + w == w;
  }

  lemma {:induction false} WordRun(st: ArgumentScan, w: string)
    requires ' ' !in w && '"' !in w && !st.inArg
    ensures var r := ArgumentScanOf(st, w);
            r.result == st.result && r.current == st.current + w && !r.inArg
    decreases |w|
  {
    if w != [] {
      assert ' ' !in w[1..] && '"' !in w[1..] by {
        assert forall k :: 0 <= k < |w[1..]| ==> w[1..][k] == w[k + 1];
      }
      var next := ArgumentStep(st, w[0]);
      assert next == st.(current := st.current + [w[0]], previous := [w[0]]);
      WordRun(next, w[1..]);
      assert st.current + [w[0]] + w[1..] == st.current + w;
    }
  }

  // A space outside quotes leaves `previous` at the character before it, so
  // a backslash ending one argument still escapes the quote that opens the
  // next one.

  /** As written: after `\` and a space, a `"` is kept as a literal character instead of opening an argument. */
  lemma QuoteAfterBackslashSpace(st: ArgumentScan)
    requires !st.inArg && st.previous == "\\"
    ensures var r := ArgumentScanOf(st, " \"");
            !r.inArg && r.current == "\""
  {
    var s1 := ArgumentStep(st, ' ');
    assert s1.previous == "\\" && !s1.inArg && s1.current == [];
    var s2 := ArgumentStep(s1, '"');
    assert s2.current == "\"" && !s2.inArg;
    assert " \""[0] == ' ' && " \""[1..] == "\"" && "\""[0] == '"' && "\""[1..] == [];
    calc {
      ArgumentScanOf(st, " \"");
      ArgumentScanOf(s1, "\"");
      ArgumentScanOf(s2, []);
    }
  }

  /** The intended step: a space outside quotes also becomes the previous character. */
  function IntendedArgumentStep(st: ArgumentScan, c: char): ArgumentScan {
    if c == ' ' && !st.inArg then ArgumentStep(st, c).(previous := [c]) else ArgumentStep(st, c)
  }

  function IntendedArgumentScanOf(st: ArgumentScan, s: string): ArgumentScan
    decreases |s|
  {
    if s == [] then st else IntendedArgumentScanOf(IntendedArgumentStep(st, s[0]), s[1..])
  }

  /** `argumentsSeperated()` with the intended step. */
  function IntendedArgumentsSeparated(s: string): seq<string> {
    if |s| == 0 then []
    else if '"' !in s then Split(s, " ")
    else ArgumentPieces(IntendedArgumentScanOf(ArgumentStart, s))
  }

  lemma {:induction false} IntendedInsideArgument(st: ArgumentScan, q: string)
    requires Plain(q) && st.inArg && st.previous != "\\"
    ensures var r := IntendedArgumentScanOf(st, q);
            r.result == st.result && r.current == st.current + q && r.inArg && r.previous != "\\"
    decreases |q|
  {
    if q != [] {
      assert Plain(q[1..]) by {
        assert forall k :: 0 <= k < |q[1..]| ==> q[1..][k] == q[k + 1];
      }
      var next := IntendedArgumentStep(st, q[0]);
      assert next == st.(current := st.current + [q[0]], previous := [q[0]]);
      IntendedInsideArgument(next, q[1..]);
      assert st.current + [q[0]] + q[1..] == st.current + q;
    }
  }

  /**
   * With the intended step, a space outside quotes followed by a quoted run
   * always ends the argument before it and yields the quoted run as one
   * argument, whatever character came before the space.
   */
  lemma IntendedQuoteAfterSpace(st: ArgumentScan, q: string)
    requires Plain(q) && !st.inArg
    ensures var r := IntendedArgumentScanOf(st, " \"" + q + "\"");
            && r.result == (if |st.current| > 0 then st.result + [st.current] else st.result) + ["\"" + q + "\""]
            && r.current == [] && !r.inArg
  {
    var before := if |st.current| > 0 then st.result + [st.current] else st.result;
    var s1 := IntendedArgumentStep(st, ' ');
    assert s1.result == before && s1.current == [] && !s1.inArg && s1.previous == " ";
    var s2 := IntendedArgumentStep(s1, '"');
    assert s2 == s1.(inArg := true);
    IntendedInsideArgument(s2, q);
    var s3 := IntendedArgumentScanOf(s2, q);
    assert s3.current == q by { assert s2.current + q == q; }
    var s4 := IntendedArgumentStep(s3, '"');
    assert s4.result == before + ["\"" + q + "\""] && s4.current == [] && !s4.inArg;
    IntendedAppend(st, " \"", q + "\"");
    IntendedAppend(s2, q, "\"");
    assert " \"" + q + "\"" == " \"" + (q + "\"");
    assert IntendedArgumentScanOf(st, " \"") == s2 by {
      assert " \""[1..] == "\"" && "\""[1..] == [];
    }
    assert IntendedArgumentScanOf(s3, "\"") == s4;
  }

  lemma {:induction false} IntendedAppend(st: ArgumentScan, a: string, b: string)
    ensures IntendedArgumentScanOf(st, a + b) == IntendedArgumentScanOf(IntendedArgumentScanOf(st, a), b)
    decreases |a|
  {
    if a == [] {
      assert a + b == b;
    } else {
      assert (a + b)[0] == a[0] && (a + b)[1..] == a[1..] + b;
      IntendedAppend(IntendedArgumentStep(st, a[0]), a[1..], b);
    }
  }
}
