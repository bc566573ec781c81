/**
 * The script function library of FunctionEvaluator.swift: the table of
 * string functions keyed by lower-cased name and argument count, and
 * `execute`, which looks a call up in it.  What the table needs from
 * outside (regular expressions, floating-point rounding, the global
 * variables) comes in as a `Host`.
 */
module FunctionExecutor {
  import opened Wrappers
  import opened Strs
  import opened StringExt

  /**
   * A function returns its text or throws a `FunctionError`: `missing`
   * for an unregistered call, `message` for a failure inside a function.
   * Either error's description is its text.
   */
  datatype Outcome = Returned(value: string) | Missing(description: string) | Failed(description: string)

  /** The outcome of one call and the `groups` the executor holds afterwards. */
  datatype Call = Call(outcome: Outcome, groups: seq<string>)

  datatype Rounding = Floor | Ceil | Round

  /**
   * The parts of the world the functions use but this model does not
   * define: the regular-expression engine (does a pattern compile, the
   * groups of the first match, replace all matches), the `Double` parsing
   * and rounding of `floor`/`ceil`/`round`, and the global variables.
   */
  datatype Host = Host(
    globals: map<string, string>,
    compiles: string -> bool,
    firstMatch: (string, string) -> Option<seq<string>>,
    replaceMatches: (string, string, string) -> string,
    rounded: (Rounding, string) -> string)

  /** The registered functions; several names share one entry. */
  datatype Fn =
    | ContainsFn | CountFn | CountSplitFn | LengthFn | MatchReFn
    | ToLowerFn | ToUpperFn | TrimFn | ReplaceFn | ReplaceReFn
    | StartsWithFn | EndsWithFn | CapitalizeFn | RoundFn(mode: Rounding)
    | DefFn | SubstringFn | ElementFn

  /** The table `functions`, keyed by (name, arity). */
  function Lookup(name: string, arity: nat): Option<Fn> {
    if arity == 1 then LookupUnary(name)
    else if arity == 2 then LookupBinary(name)
    else if arity == 3 then LookupTernary(name)
    else None
  }

  function LookupUnary(name: string): Option<Fn> {
    if name == "length" || name == "len" then Some(LengthFn)
    else if name == "tolower" then Some(ToLowerFn)
    else if name == "toupper" || name == "tocaps" then Some(ToUpperFn)
    else if name == "trim" then Some(TrimFn)
    else if name == "capitalize" || name == "titlecase" then Some(CapitalizeFn)
    else if name == "floor" then Some(RoundFn(Floor))
    else if name == "ceil" then Some(RoundFn(Ceil))
    else if name == "round" then Some(RoundFn(Round))
    else if name == "def" then Some(DefFn)
    else None
  }

  function LookupBinary(name: string): Option<Fn> {
    if name == "contains" then Some(ContainsFn)
    else if name == "count" then Some(CountFn)
    else if name == "countsplit" then Some(CountSplitFn)
    else if name == "matchre" then Some(MatchReFn)
    else if name == "startswith" then Some(StartsWithFn)
    else if name == "endswith" then Some(EndsWithFn)
    else if name == "element" then Some(ElementFn)
    else None
  }

  function LookupTernary(name: string): Option<Fn> {
    if name == "replace" then Some(ReplaceFn)
    else if name == "replacere" then Some(ReplaceReFn)
    else if name == "substring" || name == "substr" then Some(SubstringFn)
    else None
  }

  /** How many arguments each function takes. */
  function Arity(f: Fn): nat {
    match f
    case ContainsFn | CountFn | CountSplitFn | MatchReFn | StartsWithFn | EndsWithFn | ElementFn => 2
    case ReplaceFn | ReplaceReFn | SubstringFn => 3
    case _ => 1
  }

  /** A function is only ever found for its own number of arguments. */
  lemma LookupArity(name: string, arity: nat)
    ensures Lookup(name, arity).Some? ==> Arity(Lookup(name, arity).value) == arity
  {
  }

  predicate IsQuote(c: char) { c == '"' }

  /** `trimQuotes`: double quotes off both ends. */
  function TrimQuotes(s: string): string {
    Trim(s, IsQuote)
  }

  function BoolText(b: bool): string {
    if b then "true" else "false"
  }

  /** The description of the error for a (name, arity) pair that is not registered. */
  function Unregistered(name: string, arity: nat): string {
    "No function registered as function(\"" + name + "\", arity: " + IntToString(arity) + ")"
  }

  const StartOutOfBounds: string := "substring start index is out of bounds"
  const EndOutOfBounds: string := "substring end index is out of bounds"

  // ---------------------------------------------------------------------------
  // substring
  // ---------------------------------------------------------------------------

  /**
   * `substring` as written: the third argument is checked as an end index
   * (at least `start`, at most the length) but used as a length, so a
   * `start + n` past the end passes the checks and traps (`None`).
   */
  function SubstringAsWritten(source: string, start: int, end: int): Option<Outcome> {
    if start < 0 || start > |source| then Some(Failed(StartOutOfBounds))
    else if end < 0 || end < start || end > |source| then Some(Failed(EndOutOfBounds))
    else if start + end > |source| then None
    else Some(Returned(source[start..start + end]))
  }

  /** `substring("hello", 2, 4)` passes both checks and then runs off the end. */
  lemma SubstringAsWrittenTraps()
    ensures SubstringAsWritten("hello", 2, 4) == None
  {
  }

  /** `substring("hello", 3, 2)` is refused although the two characters `lo` are there. */
  lemma SubstringAsWrittenRefuses()
    ensures SubstringAsWritten("hello", 3, 2) == Some(Failed(EndOutOfBounds))
    ensures Substring("hello", 3, 2) == Returned("lo")
  {
  }

  /**
   * `substring(s, start, n)` with the bounds checked the way they are used:
   * the `n` characters from `start`.
   */
  function Substring(source: string, start: int, n: int): (r: Outcome)
    ensures r.Returned? <==> 0 <= start && 0 <= n && start + n <= |source|
    ensures r.Returned? ==> |r.value| == n && OccursAt(source, r.value, start)
    ensures r == Failed(StartOutOfBounds) <==> start < 0 || start > |source|
    ensures r == Failed(EndOutOfBounds) <==> 0 <= start <= |source| && (n < 0 || start + n > |source|)
  {
    if start < 0 || start > |source| then Failed(StartOutOfBounds)
    else if n < 0 || start + n > |source| then Failed(EndOutOfBounds)
    else Returned(source[start..start + n])
  }

  /** Wherever the code as written returns a text, the corrected function returns the same one. */
  lemma SubstringAgrees(source: string, start: int, n: int)
    requires SubstringAsWritten(source, start, n).Some?
    ensures SubstringAsWritten(source, start, n).value.Returned? ==> Substring(source, start, n) == SubstringAsWritten(source, start, n).value
    ensures SubstringAsWritten(source, start, n).value == Failed(StartOutOfBounds) ==> Substring(source, start, n) == Failed(StartOutOfBounds)
  {
  }

  // ---------------------------------------------------------------------------
  // The functions
  // ---------------------------------------------------------------------------

  /** `capitalize`/`titlecase`: the first character upper-cased, the rest lower-cased. */
  function Capitalized(s: string): (r: string)
    ensures |r| == |s|
    ensures s != [] ==> r[0] == UpperChar(s[0]) && r[1..] == Lower(s[1..])
  {
    if s == [] then "" else [UpperChar(s[0])] + Lower(s[1..])
  }

  /** `element(i, list)`: the i-th `|`-separated item, or nothing. */
  function Element(index: string, list: string): (r: string)
    ensures r == "" || r in Split(list, "|")
  {
    match ParseInt(index)
    case None => ""
    case Some(i) =>
      if list == [] then ""
      else
        var items := Split(list, "|");
        if 0 <= i < |items| then items[i] else ""
  }

  /** `matchre(source, pattern)`: the groups of the first match replace the executor's groups. */
  function MatchRe(source: string, pattern: string, host: Host): Call {
    if !host.compiles(pattern) then Call(Returned(source), [])
    else match host.firstMatch(pattern, source)
      case Some(groups) => Call(Returned(BoolText(|groups| > 0)), groups)
      case None => Call(Returned("false"), [])
  }

  /** `replacere(source, pattern, replacement)`: the source unchanged when the pattern does not compile. */
  function ReplaceRe(source: string, pattern: string, replacement: string, host: Host): string {
    if !host.compiles(pattern) then source else host.replaceMatches(pattern, source, replacement)
  }

  /** The functions that read only their first, quote-trimmed, argument. */
  function ApplyUnary(f: Fn, a: string): string
    requires f.LengthFn? || f.ToLowerFn? || f.ToUpperFn? || f.TrimFn? || f.CapitalizeFn?
  {
    match f
    case LengthFn => IntToString(|a|)
    case ToLowerFn => Lower(a)
    case ToUpperFn => Upper(a)
    case TrimFn => Trim(a, IsWhitespaceOrNewline)
    case CapitalizeFn => Capitalized(a)
  }

  /** The functions that compare two quote-trimmed texts. */
  function ApplyBinary(f: Fn, a: string, b: string): string
    requires f.ContainsFn? || f.CountFn? || f.CountSplitFn? || f.StartsWithFn? || f.EndsWithFn? || f.ElementFn?
  {
    match f
    case ContainsFn => BoolText(Contains(Lower(a), Lower(b)))
    case CountFn => IntToString(|Split(a, b)| - 1)
    case CountSplitFn => IntToString(|Split(a, b)|)
    case StartsWithFn => BoolText(b <= a)
    case EndsWithFn => BoolText(HasSuffix(a, b))
    case ElementFn => Element(a, b)
  }

  /** The functions that need the host: regular expressions, rounding and the globals. */
  predicate UsesHost(f: Fn) {
    f.MatchReFn? || f.ReplaceReFn? || f.RoundFn? || f.DefFn?
  }

  function ApplyHosted(f: Fn, args: seq<string>, host: Host): Call
    requires UsesHost(f) && |args| == Arity(f)
  {
    match f
    case MatchReFn => MatchRe(TrimQuotes(args[0]), TrimQuotes(args[1]), host)
    case ReplaceReFn => Call(Returned(ReplaceRe(TrimQuotes(args[0]), TrimQuotes(args[1]), TrimQuotes(args[2]), host)), [])
    case RoundFn(mode) => Call(Returned(host.rounded(mode, args[0])), [])
    case DefFn => Call(Returned(BoolText(args[0] in host.globals)), [])
  }

  /** The functions that take three texts. */
  function ApplyTernary(f: Fn, a: string, b: string, c: string): Call
    requires f.ReplaceFn? || f.SubstringFn?
  {
    match f
    case ReplaceFn => Call(Returned(ReplaceAll(TrimQuotes(a), TrimQuotes(b), TrimQuotes(c))), [])
    case SubstringFn => Call(Substring(a, ParseInt(b).GetOr(0), ParseInt(c).GetOr(0)), [])
  }

  function ApplyText(f: Fn, args: seq<string>): Call
    requires !UsesHost(f) && |args| == Arity(f)
  {
    if |args| == 3 then ApplyTernary(f, args[0], args[1], args[2])
    else if |args| == 1 then Call(Returned(ApplyUnary(f, TrimQuotes(args[0]))), [])
    else Call(Returned(ApplyBinary(f, TrimQuotes(args[0]), TrimQuotes(args[1]))), [])
  }

  /** One registered function applied to as many arguments as it takes. */
  function Apply(f: Fn, args: seq<string>, host: Host): Call
    requires |args| == Arity(f)
  {
    if UsesHost(f) then ApplyHosted(f, args, host) else ApplyText(f, args)
  }

  /**
   * `execute(name:args:)`: the function registered under the lower-cased
   * name and the number of arguments, or the `missing` error.
   */
  function Execute(name: string, args: seq<string>, host: Host): (r: Call)
    ensures Lookup(Lower(name), |args|).None? <==> r.outcome.Missing?
    ensures r.outcome.Missing? ==> r == Call(Missing(Unregistered(Lower(name), |args|)), [])
  {
    match Lookup(Lower(name), |args|)
    case None => Call(Missing(Unregistered(Lower(name), |args|)), [])
    case Some(f) =>
      LookupArity(Lower(name), |args|);
      Apply(f, args, host)
  }

  // ---------------------------------------------------------------------------
  // Properties
  // ---------------------------------------------------------------------------

  /** Only `matchre` leaves groups behind, and only `substring`/`substr` fail once found. */
  lemma ExecuteEffects(name: string, args: seq<string>, host: Host)
    ensures Execute(name, args, host).groups != [] ==> Lookup(Lower(name), |args|) == Some(MatchReFn)
    ensures Execute(name, args, host).outcome.Failed? ==> Lookup(Lower(name), |args|) == Some(SubstringFn)
  {
    match Lookup(Lower(name), |args|)
    case None =>
    case Some(f) =>
      ExecuteFound(name, args, host, f);
  }

  lemma LowerIdempotent(s: string)
    ensures Lower(Lower(s)) == Lower(s)
  {
    assert forall i :: 0 <= i < |s| ==> LowerChar(LowerChar(s[i])) == LowerChar(s[i]);
  }

  /** Function names are looked up without regard to case. */
  lemma ExecuteIgnoresCase(name: string, args: seq<string>, host: Host)
    ensures Execute(name, args, host) == Execute(Lower(name), args, host)
  {
    LowerIdempotent(name);
  }

  /** A call that finds its function is that function applied to the arguments. */
  lemma ExecuteFound(name: string, args: seq<string>, host: Host, f: Fn)
    requires Lookup(Lower(name), |args|) == Some(f)
    ensures |args| == Arity(f)
    ensures Execute(name, args, host) == Apply(f, args, host)
  {
    LookupArity(Lower(name), |args|);
  }

  /**
   * `contains`, spelled in any case, compares without regard to case,
   * after the quotes are trimmed.
   */
  lemma ContainsIgnoresCase(name: string, a: string, b: string, host: Host)
    requires Lower(name) == "contains"
    ensures var t := Lower(TrimQuotes(a));
            var u := Lower(TrimQuotes(b));
            Execute(name, [a, b], host)
              == Call(Returned(if exists i :: 0 <= i <= |t| && OccursAt(t, u, i) then "true" else "false"), [])
  {
    ExecuteFound(name, [a, b], host, ContainsFn);
    ContainsIff(Lower(TrimQuotes(a)), Lower(TrimQuotes(b)));
  }

  /** `count(s, sep)` is one less than `countsplit(s, sep)`, which counts the pieces of the split. */
  lemma CountIsCountSplitMinusOne(countSplit: string, count: string, a: string, b: string, host: Host)
    requires Lower(countSplit) == "countsplit" && Lower(count) == "count"
    ensures var pieces := |Split(TrimQuotes(a), TrimQuotes(b))|;
            && Execute(countSplit, [a, b], host) == Call(Returned(IntToString(pieces)), [])
            && Execute(count, [a, b], host) == Call(Returned(IntToString(pieces - 1)), [])
            && pieces >= 1
  {
    ExecuteFound(countSplit, [a, b], host, CountSplitFn);
    ExecuteFound(count, [a, b], host, CountFn);
  }

  /** `countsplit` prints the number of pieces that join back to the quote-trimmed text. */
  lemma CountSplitPieces(name: string, a: string, b: string, host: Host)
    requires Lower(name) == "countsplit"
    requires TrimQuotes(b) != []
    requires |Split(TrimQuotes(a), TrimQuotes(b))| <= IntMax
    ensures var pieces := Split(TrimQuotes(a), TrimQuotes(b));
            && Join(pieces, TrimQuotes(b)) == TrimQuotes(a)
            && Execute(name, [a, b], host).outcome == Returned(IntToString(|pieces|))
            && ParseInt(IntToString(|pieces|)) == Some(|pieces|)
  {
    var pieces := Split(TrimQuotes(a), TrimQuotes(b));
    ExecuteFound(name, [a, b], host, CountSplitFn);
    assert Apply(CountSplitFn, [a, b], host).outcome == Returned(IntToString(|pieces|));
    JoinSplit(TrimQuotes(a), TrimQuotes(b));
    ParseIntToString(|pieces|);
  }

  /** `length` and `len` print the number of characters left after trimming quotes. */
  lemma LengthCounts(name: string, a: string, host: Host)
    requires Lower(name) == "length" || Lower(name) == "len"
    requires |TrimQuotes(a)| <= IntMax
    ensures Execute(name, [a], host).outcome.Returned?
    ensures ParseInt(Execute(name, [a], host).outcome.value) == Some(|TrimQuotes(a)|)
  {
    ExecuteFound(name, [a], host, LengthFn);
    ParseIntToString(|TrimQuotes(a)|);
  }

  /**
   * `element(i, list)` is the i-th `|`-separated item when `i` is an
   * integer, the list is not empty and `i` is in range; otherwise it is
   * the empty text.
   */
  lemma ElementSelects(name: string, i: string, list: string, host: Host)
    requires Lower(name) == "element"
    ensures var idx := ParseInt(TrimQuotes(i));
            var l := TrimQuotes(list);
            Execute(name, [i, list], host) ==
              Call(Returned(if idx.Some? && l != [] && 0 <= idx.value < |Split(l, "|")|
                            then Split(l, "|")[idx.value] else ""), [])
  {
    ExecuteFound(name, [i, list], host, ElementFn);
  }

  /** A non-empty item picked by `element` is one of the pieces the list is made of. */
  lemma ElementIsPiece(name: string, i: string, list: string, host: Host)
    requires Lower(name) == "element"
    requires Execute(name, [i, list], host).outcome != Returned("")
    ensures var pieces := Split(TrimQuotes(list), "|");
            var r := Execute(name, [i, list], host).outcome;
            && Join(pieces, "|") == TrimQuotes(list)
            && r.Returned? && r.value in pieces
            && forall k :: 0 <= k < |pieces| ==> !Contains(pieces[k], "|")
  {
    ElementSelects(name, i, list, host);
    JoinSplit(TrimQuotes(list), "|");
    SplitPiecesAvoidSeparator(TrimQuotes(list), "|");
  }

  /** `capitalize` (and `titlecase`) keeps the letters up to case, and gives nothing for nothing. */
  lemma CapitalizeKeepsLetters(name: string, a: string, host: Host)
    requires Lower(name) == "capitalize" || Lower(name) == "titlecase"
    ensures var r := Execute(name, [a], host).outcome;
            && r.Returned?
            && Lower(r.value) == Lower(TrimQuotes(a))
            && (TrimQuotes(a) == [] <==> r.value == [])
  {
    ExecuteFound(name, [a], host, CapitalizeFn);
    assert Apply(CapitalizeFn, [a], host).outcome == Returned(Capitalized(TrimQuotes(a)));
    CapitalizedLower(TrimQuotes(a));
  }

  /** Capitalizing changes the case of letters and nothing else. */
  lemma CapitalizedLower(t: string)
    ensures Lower(Capitalized(t)) == Lower(t)
  {
    var r := Capitalized(t);
    forall k | 0 <= k < |t| ensures LowerChar(r[k]) == LowerChar(t[k]) {
      if k > 0 {
        assert r[k] == Lower(t[1..])[k - 1];
      }
    }
  }

  /**
   * `substring` and `substr` take the arguments as they are, without
   * trimming quotes, and run the corrected `Substring`.  Wherever the code
   * as written returns a text or the start error, the table's outcome is
   * that same one; it differs only where the code as written refuses a
   * length it wrongly reads as an end index, or traps.
   */
  lemma SubstringAliases(name: string, s: string, start: string, n: string, host: Host)
    requires Lower(name) == "substring" || Lower(name) == "substr"
    ensures Execute(name, [s, start, n], host)
         == Call(Substring(s, ParseInt(start).GetOr(0), ParseInt(n).GetOr(0)), [])
    ensures var w := SubstringAsWritten(s, ParseInt(start).GetOr(0), ParseInt(n).GetOr(0));
            w.Some? && (w.value.Returned? || w.value == Failed(StartOutOfBounds))
            ==> Execute(name, [s, start, n], host).outcome == w.value
  {
    ExecuteFound(name, [s, start, n], host, SubstringFn);
    var i, k := ParseInt(start).GetOr(0), ParseInt(n).GetOr(0);
    if SubstringAsWritten(s, i, k).Some? {
      SubstringAgrees(s, i, k);
    }
  }
}

/**
 * `FunctionEvaluator`: how a script expression (a value, a function call
 * or a sequence of both) becomes an `EvalResult`.  The unseen
 * `ExpressionEvaluator` and the `simplify` callback are parameters.
 */
module FunctionEvaluator {
  import opened Wrappers
  import opened Strs
  import opened StringExt
  import opened FunctionExecutor

  datatype ScriptExpression =
    | Value(text: string)
    | Function(name: string, args: seq<string>)
    | Values(parts: seq<ScriptExpression>)

  datatype EvalResult = EvalResult(text: string, result: string, groups: seq<string>)

  /**
   * The collaborators: `simplify` (variable substitution), and the
   * `ExpressionEvaluator` entry points as functions of the simplified text:
   * logic evaluation with its groups, the string evaluation of
   * `evaluateStrValue(.value)` (including its number formatting), and the
   * numeric evaluation of `evaluateValue(.value)` (`None` when it fails).
   */
  datatype Engine = Engine(
    simplify: string -> string,
    logic: string -> (bool, seq<string>),
    strValue: string -> EvalResult,
    numValue: string -> Option<(string, seq<string>)>,
    host: Host)

  /** The arguments as the functions see them: simplified, then quote-trimmed. */
  function SimplifiedArgs(args: seq<string>, eng: Engine): (r: seq<string>)
    ensures |r| == |args|
  {
    seq(|args|, i requires 0 <= i < |args| => TrimQuotes(eng.simplify(args[i])))
  }

  function QuotedArgs(args: seq<string>): (r: seq<string>)
    ensures |r| == |args|
  {
    seq(|args|, i requires 0 <= i < |args| => "\"" + args[i] + "\"")
  }

  /** `name("a", "b")`, the text shown for a call. */
  function CallText(name: string, args: seq<string>): string {
    name + "(" + Join(QuotedArgs(args), ", ") + ")"
  }

  /**
   * A function expression evaluated for its text (`evaluateStrValue` and
   * `evaluateValue` share it); a thrown error becomes the result text.  The
   * call is made with the name as written, not the simplified one.
   */
  function CallStr(name: string, args: seq<string>, eng: Engine): EvalResult {
    var simpArgs := SimplifiedArgs(args, eng);
    var call := Execute(name, simpArgs, eng.host);
    match call.outcome
    case Returned(v) => EvalResult(CallText(eng.simplify(name), simpArgs), v, call.groups)
    case Missing(m) => EvalResult(eng.simplify(name), m, [])
    case Failed(m) => EvalResult(eng.simplify(name), m, [])
  }

  /** A function expression evaluated as a condition: `"true"` only when its text reads as true. */
  function CallBool(name: string, args: seq<string>, eng: Engine): EvalResult {
    var simpArgs := SimplifiedArgs(args, eng);
    var call := Execute(name, simpArgs, eng.host);
    match call.outcome
    case Returned(v) => EvalResult(CallText(eng.simplify(name), simpArgs), BoolText(ToBool(v) == Some(true)), call.groups)
    case Missing(m) => EvalResult(eng.simplify(name), m, [])
    case Failed(m) => EvalResult(eng.simplify(name), m, [])
  }

  /**
   * The text one part of a `.values` sequence contributes: a value as
   * written (simplified first when evaluating a condition), nothing for a
   * nested sequence, a function's result.
   */
  function PartText(p: ScriptExpression, eng: Engine, simplifyValues: bool): string {
    match p
    case Value(t) => if simplifyValues then eng.simplify(t) else t
    case Values(_) => ""
    case Function(n, a) => CallStr(n, a, eng).result
  }

  function PartGroups(p: ScriptExpression, eng: Engine): seq<string> {
    if p.Function? then CallStr(p.name, p.args, eng).groups else []
  }

  function PartsTexts(ps: seq<ScriptExpression>, eng: Engine, simplifyValues: bool): (r: seq<string>)
    ensures |r| == |ps|
  {
    seq(|ps|, i requires 0 <= i < |ps| => PartText(ps[i], eng, simplifyValues))
  }

  /** The groups of the function parts, in order. */
  function PartsGroups(ps: seq<ScriptExpression>, eng: Engine): seq<string> {
    if ps == [] then [] else PartsGroups(ps[..|ps| - 1], eng) + PartGroups(ps[|ps| - 1], eng)
  }

  /** `evaluateStrValue`. */
  function StrValue(e: ScriptExpression, eng: Engine): EvalResult {
    match e
    case Value(v) => eng.strValue(eng.simplify(v))
    case Function(n, a) => CallStr(n, a, eng)
    case Values(ps) =>
      var evaled := eng.strValue(eng.simplify(Join(PartsTexts(ps, eng, false), " ")));
      EvalResult(evaled.text, evaled.result, PartsGroups(ps, eng) + evaled.groups)
  }

  /** `evaluateBool`: a sequence is shown joined with spaces but evaluated joined with nothing. */
  function BoolValue(e: ScriptExpression, eng: Engine): EvalResult {
    match e
    case Value(v) =>
      var simp := eng.simplify(v);
      var (b, groups) := eng.logic(simp);
      EvalResult(simp, BoolText(b), groups)
    case Function(n, a) => CallBool(n, a, eng)
    case Values(ps) =>
      var texts := PartsTexts(ps, eng, true);
      var evaled := StrValue(Value(Join(texts, "")), eng);
      EvalResult(Join(texts, " "), evaled.result, PartsGroups(ps, eng) + evaled.groups)
  }

  /** `evaluateValue`: a value that does not evaluate gives `"0"`. */
  function NumValue(e: ScriptExpression, eng: Engine): EvalResult
    decreases if e.Values? then 1 else 0
  {
    match e
    case Value(v) =>
      var simp := eng.simplify(v);
      (match eng.numValue(simp)
       case None => EvalResult(simp, "0", [])
       case Some((r, groups)) => EvalResult(simp, r, groups))
    case Function(n, a) => CallStr(n, a, eng)
    case Values(ps) =>
      var evaled := NumValue(Value(Join(PartsTexts(ps, eng, false), " ")), eng);
      EvalResult(evaled.text, evaled.result, PartsGroups(ps, eng) + evaled.groups)
  }

  /** One more part adds its text and its groups at the end. */
  lemma PartsPrefix(ps: seq<ScriptExpression>, eng: Engine, simplifyValues: bool, i: nat)
    requires i < |ps|
    ensures PartsTexts(ps[..i + 1], eng, simplifyValues) == PartsTexts(ps[..i], eng, simplifyValues) + [PartText(ps[i], eng, simplifyValues)]
    ensures PartsGroups(ps[..i + 1], eng) == PartsGroups(ps[..i], eng) + PartGroups(ps[i], eng)
  {
    assert ps[..i + 1][..i] == ps[..i];
  }

  /**
   * The `map` over the parts of a `.values` sequence: each part's text, and
   * the groups of the function parts appended as they are met.
   */
  method EvaluateParts(ps: seq<ScriptExpression>, eng: Engine, simplifyValues: bool) returns (texts: seq<string>, groups: seq<string>)
    ensures texts == PartsTexts(ps, eng, simplifyValues)
    ensures groups == PartsGroups(ps, eng)
  {
    texts := [];
    groups := [];
    for i := 0 to |ps|
      invariant texts == PartsTexts(ps[..i], eng, simplifyValues)
      invariant groups == PartsGroups(ps[..i], eng)
    {
      PartsPrefix(ps, eng, simplifyValues, i);
      match ps[i]
      case Value(t) =>
        texts := texts + [if simplifyValues then eng.simplify(t) else t];
      case Values(_) =>
        texts := texts + [""];
      case Function(n, a) =>
        var r := CallStr(n, a, eng);
        groups := groups + r.groups;
        texts := texts + [r.result];
    }
    assert ps[..|ps|] == ps;
  }

  method EvaluateStrValue(e: ScriptExpression, eng: Engine) returns (r: EvalResult)
    ensures r == StrValue(e, eng)
  {
    match e
    case Value(v) =>
      r := eng.strValue(eng.simplify(v));
    case Function(n, a) =>
      r := CallStr(n, a, eng);
    case Values(ps) =>
      var texts, groups := EvaluateParts(ps, eng, false);
      var evaled := eng.strValue(eng.simplify(Join(texts, " ")));
      r := EvalResult(evaled.text, evaled.result, groups + evaled.groups);
  }

  method EvaluateBool(e: ScriptExpression, eng: Engine) returns (r: EvalResult)
    ensures r == BoolValue(e, eng)
  {
    match e
    case Value(v) =>
      var simp := eng.simplify(v);
      var (b, groups) := eng.logic(simp);
      r := EvalResult(simp, BoolText(b), groups);
    case Function(n, a) =>
      r := CallBool(n, a, eng);
    case Values(ps) =>
      var texts, groups := EvaluateParts(ps, eng, true);
      var evaled := EvaluateStrValue(Value(Join(texts, "")), eng);
      r := EvalResult(Join(texts, " "), evaled.result, groups + evaled.groups);
  }

  method EvaluateValue(e: ScriptExpression, eng: Engine) returns (r: EvalResult)
    ensures r == NumValue(e, eng)
    decreases if e.Values? then 1 else 0
  {
    match e
    case Value(v) =>
      var simp := eng.simplify(v);
      match eng.numValue(simp) {
        case None =>
          r := EvalResult(simp, "0", []);
        case Some((res, groups)) =>
          r := EvalResult(simp, res, groups);
      }
    case Function(n, a) =>
      r := CallStr(n, a, eng);
    case Values(ps) =>
      var texts, groups := EvaluateParts(ps, eng, false);
      var evaled := EvaluateValue(Value(Join(texts, " ")), eng);
      r := EvalResult(evaled.text, evaled.result, groups + evaled.groups);
  }

  // ---------------------------------------------------------------------------
  // Properties
  // ---------------------------------------------------------------------------

  /**
   * A condition on a function call is `"true"` exactly when the function
   * returns a text `toBool` reads as true, and `"false"` for any other
   * text; otherwise it is the error message.  Shown text and groups are
   * those of the plain evaluation.
   */
  lemma BoolOfFunction(n: string, a: seq<string>, eng: Engine)
    ensures var s := StrValue(Function(n, a), eng);
            var b := BoolValue(Function(n, a), eng);
            var call := Execute(n, SimplifiedArgs(a, eng), eng.host);
            && b.text == s.text && b.groups == s.groups
            && (call.outcome.Returned? ==> (b.result == "true" <==> ToBool(s.result) == Some(true)))
            && (call.outcome.Returned? ==> b.result in {"true", "false"})
            && (!call.outcome.Returned? ==> b.result == s.result == call.outcome.description)
  {
  }

  /** The part texts, one per part: values as written, nested sequences as nothing, function results. */
  lemma PartTextAt(ps: seq<ScriptExpression>, eng: Engine, i: nat)
    requires i < |ps|
    ensures ps[i].Value? ==> PartsTexts(ps, eng, false)[i] == ps[i].text
    ensures ps[i].Values? ==> PartsTexts(ps, eng, false)[i] == ""
    ensures ps[i].Function? ==> PartsTexts(ps, eng, false)[i] == StrValue(ps[i], eng).result
  {
  }

  /**
   * `evaluateStrValue(.values)`: the expression evaluator is given the
   * part texts joined with single spaces, and the groups of the function
   * parts come before the evaluator's own.
   */
  lemma StrValueOfValues(ps: seq<ScriptExpression>, eng: Engine)
    ensures var joined := Join(PartsTexts(ps, eng, false), " ");
            StrValue(Values(ps), eng)
              == StrValue(Value(joined), eng).(groups := PartsGroups(ps, eng) + StrValue(Value(joined), eng).groups)
  {
  }

  /** Only function parts contribute groups. */
  lemma {:induction false} NoFunctionsNoGroups(ps: seq<ScriptExpression>, eng: Engine)
    requires forall i :: 0 <= i < |ps| ==> !ps[i].Function?
    ensures PartsGroups(ps, eng) == []
  {
    if ps != [] {
      NoFunctionsNoGroups(ps[..|ps| - 1], eng);
    }
  }

  /** A function expression gives the same result whether evaluated for a text or a value. */
  lemma ValueOfFunctionIsStrValue(n: string, a: seq<string>, eng: Engine)
    ensures NumValue(Function(n, a), eng) == StrValue(Function(n, a), eng)
  {
  }
}
