/**
 * SubstituteLoader.swift: the substitutes file `substitutes.cfg`, one
 * `#subs {pattern} {action} {class}` line per substitute.  Saving builds
 * the file's text; loading empties the context's list and refills it from
 * the matches a regular expression finds in the file.  Reading and writing
 * the file and the regular-expression engine are outside the model: the
 * text `save` hands to the file system is its result, and `load` receives
 * the list of matches, or `None` when the file is missing, is not UTF-8 or
 * the expression did not compile.
 */
module Substitutes {
  import opened Wrappers

  const Filename := "substitutes.cfg"

  datatype Substitute = Substitute(pattern: string, action: string, className: string)

  /**
   * One match of the expression: `groups[i]` is the text of capture group
   * `i` (group 0 is the whole line), `None` for a group that took no part.
   * Its length is the match's `count`.
   */
  type Match = seq<Option<string>>

  /** `valueAt(index:)`: nothing past the last group. */
  function ValueAt(m: Match, index: nat): Option<string> {
    if index < |m| then m[index] else None
  }

  // ---------------------------------------------------------------------------
  // save
  // ---------------------------------------------------------------------------

  /** The line `save` writes for one substitute, without its newline. */
  function Line(s: Substitute): string {
    "#subs {" + s.pattern + "} {" + s.action + "}"
      + (if |s.className| > 0 then " {" + s.className + "}" else "")
  }

  /** The whole file: each substitute's line and a newline, in order. */
  function SavedContent(subs: seq<Substitute>): string {
    if subs == [] then "" else SavedContent(subs[..|subs| - 1]) + Line(subs[|subs| - 1]) + "\n"
  }

  /** `save`: the text handed to the file system. */
  method Save(subs: seq<Substitute>) returns (content: string)
    ensures content == SavedContent(subs)
  {
    content := "";
    for i := 0 to |subs|
      invariant content == SavedContent(subs[..i])
    {
      var sub := subs[i];
      LineAppended(content, sub);
      SavedAppend(subs[..i], sub);
      assert subs[..i + 1] == subs[..i] + [sub];
      content := content + "#subs {" + sub.pattern + "} {" + sub.action + "}";
      if |sub.className| > 0 {
        content := content + " {" + sub.className + "}";
      }
      content := content + "\n";
    }
    assert subs[..|subs|] == subs;
  }

  /** Writing a line piece by piece after `text` gives `text` followed by the line. */
  lemma LineAppended(text: string, s: Substitute)
    ensures |s.className| > 0 ==>
      text + "#subs {" + s.pattern + "} {" + s.action + "}" + " {" + s.className + "}" == text + Line(s)
    ensures |s.className| == 0 ==>
      text + "#subs {" + s.pattern + "} {" + s.action + "}" == text + Line(s)
  {
  }

  /** The lines of a saved file. */
  function Lines(subs: seq<Substitute>): seq<string> {
    seq(|subs|, i requires 0 <= i < |subs| => Line(subs[i]))
  }

  /** Lines joined with a newline after each. */
  function Terminated(lines: seq<string>): string {
    if lines == [] then "" else Terminated(lines[..|lines| - 1]) + lines[|lines| - 1] + "\n"
  }

  /** The saved file is exactly one line per substitute, in input order, each ending in a newline. */
  lemma {:induction false} SavedLines(subs: seq<Substitute>)
    ensures SavedContent(subs) == Terminated(Lines(subs))
    ensures |Lines(subs)| == |subs|
  {
    if subs != [] {
      var init := subs[..|subs| - 1];
      SavedLines(init);
      assert Lines(subs)[..|subs| - 1] == Lines(init);
    }
  }

  /** Every line starts with `#subs {`, followed by the pattern. */
  lemma LineShape(s: Substitute)
    ensures Line(s)[..7] == "#subs {"
    ensures Line(s)[7..7 + |s.pattern|] == s.pattern
    ensures Line(s)[|Line(s)| - 1] == '}'
  {
  }

  /** The class segment is written exactly when the class name is not empty. */
  lemma LineClassSegment(s: Substitute)
    ensures |s.className| == 0 ==> Line(s) == "#subs {" + s.pattern + "} {" + s.action + "}"
    ensures |s.className| > 0 ==>
      Line(s) == "#subs {" + s.pattern + "} {" + s.action + "} {" + s.className + "}"
  {
  }

  /** Each substitute adds its own line at the end of the file. */
  lemma SavedAppend(subs: seq<Substitute>, s: Substitute)
    ensures SavedContent(subs + [s]) == SavedContent(subs) + Line(s) + "\n"
  {
    assert (subs + [s])[..|subs|] == subs;
  }

  // ---------------------------------------------------------------------------
  // load
  // ---------------------------------------------------------------------------

  /**
   * The substitute one match yields: none when the match has fewer than
   * three groups or no pattern group; a missing action or class is empty.
   */
  function Entry(m: Match): Option<Substitute> {
    if |m| > 2 then
      match ValueAt(m, 1)
      case None => None
      case Some(pattern) => Some(Substitute(pattern, ValueAt(m, 2).GetOr(""), ValueAt(m, 3).GetOr("")))
    else None
  }

  /** The substitutes the matches yield, in match order. */
  function Parsed(ms: seq<Match>): seq<Substitute> {
    if ms == [] then []
    else Parsed(ms[..|ms| - 1]) + (match Entry(ms[|ms| - 1]) case Some(s) => [s] case None => [])
  }

  /** What `load` leaves in the context: nothing when there was no file to read. */
  function Loaded(file: Option<seq<Match>>): seq<Substitute> {
    match file
    case None => []
    case Some(ms) => Parsed(ms)
  }

  /** The part of `GameContext` that the loader rewrites. */
  class SubstituteContext {
    var substitutes: seq<Substitute>

    constructor ()
      ensures substitutes == []
    {
      substitutes := [];
    }
  }

  /** `load`: the old list is dropped whatever the file holds. */
  method Load(context: SubstituteContext, file: Option<seq<Match>>)
    modifies context
    ensures context.substitutes == Loaded(file)
  {
    context.substitutes := [];
    if file.None? {
      return;
    }
    var matches := file.value;
    for i := 0 to |matches|
      invariant context.substitutes == Parsed(matches[..i])
    {
      assert matches[..i + 1][..i] == matches[..i];
      var found := matches[i];
      if |found| > 2 {
        var pattern := ValueAt(found, 1);
        if pattern.None? {
          continue;
        }
        var action := ValueAt(found, 2).GetOr("");
        var className := ValueAt(found, 3).GetOr("");
        context.substitutes := context.substitutes + [Substitute(pattern.value, action, className)];
      }
    }
    assert matches[..|matches|] == matches;
  }

  /** Loading never yields more substitutes than there were matches, and each comes from one of them. */
  lemma {:induction false} ParsedFromMatches(ms: seq<Match>)
    ensures |Parsed(ms)| <= |ms|
    ensures forall s :: s in Parsed(ms) ==> exists m :: m in ms && Entry(m) == Some(s)
  {
    if ms != [] {
      var init := ms[..|ms| - 1];
      ParsedFromMatches(init);
      forall s | s in Parsed(ms)
        ensures exists m :: m in ms && Entry(m) == Some(s)
      {
        if s in Parsed(init) {
          var m :| m in init && Entry(m) == Some(s);
          assert m in ms;
        } else {
          assert ms[|ms| - 1] in ms;
        }
      }
    }
  }

  /** When every match has a pattern group, each match gives one substitute. */
  lemma {:induction false} ParsedAll(ms: seq<Match>)
    requires forall i :: 0 <= i < |ms| ==> |ms[i]| > 2 && ms[i][1].Some?
    ensures |Parsed(ms)| == |ms|
    ensures forall i :: 0 <= i < |ms| ==> Parsed(ms)[i].pattern == ms[i][1].value
  {
    if ms != [] {
      var init := ms[..|ms| - 1];
      ParsedAll(init);
      assert forall i :: 0 <= i < |init| ==> Parsed(ms)[i] == Parsed(init)[i];
    }
  }

  /**
   * The match the expression finds on a saved line whose fields hold no
   * brace or line break: the whole line, the pattern, the action, and the
   * class when one was written.
   */
  function SavedMatch(s: Substitute): Match {
    [Some(Line(s)), Some(s.pattern), Some(s.action), if |s.className| > 0 then Some(s.className) else None]
  }

  /**
   * Saving and then loading gives the substitutes back, when the
   * expression's match on each saved line is `SavedMatch` (fields with no
   * brace or line break); the regular expression itself is not modelled.
   */
  lemma {:induction false} SaveLoadRoundTrip(subs: seq<Substitute>)
    ensures Loaded(Some(seq(|subs|, i requires 0 <= i < |subs| => SavedMatch(subs[i])))) == subs
  {
    var ms := seq(|subs|, i requires 0 <= i < |subs| => SavedMatch(subs[i]));
    if subs != [] {
      var init := subs[..|subs| - 1];
      SaveLoadRoundTrip(init);
      assert ms[..|ms| - 1] == seq(|init|, i requires 0 <= i < |init| => SavedMatch(init[i]));
      var last := subs[|subs| - 1];
      assert Entry(SavedMatch(last)) == Some(last);
      assert subs == init + [last];
    }
  }
}
