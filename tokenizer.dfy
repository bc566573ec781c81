/**
 * The markup stream tokenizer of GameStream.swift: a cursor over the
 * remaining text that is consumed in place and turned into a tree of
 * `.text` / `.tag(name, attributes, children)` tokens.
 *
 * The pure functions below (`Tokens`, `TagAt`, `ChildrenAt`, ...) are the
 * specification: they follow the Swift code branch by branch and say where
 * the Swift code never returns (`Diverges`) or traps (`Crashes`).  The
 * imperative part (class `StreamContext`, class `TagMode`, method `Read`)
 * consumes `StreamContext.text` step by step as the source does and is
 * proved to compute exactly what the specification says whenever the
 * specification says the run finishes.
 */
module Tokenizer {
  import opened Wrappers
  import opened Strs

  datatype Attribute = Attribute(key: string, value: string)

  datatype StreamToken =
    | Tag(name: string, attributes: seq<Attribute>, children: seq<StreamToken>)
    | Text(text: string)

  // ---------------------------------------------------------------------------
  // StreamToken helpers
  // ---------------------------------------------------------------------------

  /** `name()`: a text token is named "eot" when it is a lone newline. */
  function Name(t: StreamToken): string {
    match t
    case Text(s) => if s == "\n" then "eot" else "text"
    case Tag(n, _, _) => n
  }

  /** `attr(key)`: the value of the first attribute whose key is exactly `key`. */
  function Attr(t: StreamToken, key: string): (r: Option<string>)
    ensures t.Text? ==> r.None?
    ensures r.Some? ==> exists i :: 0 <= i < |t.attributes| && t.attributes[i] == Attribute(key, r.value)
                                    && forall j :: 0 <= j < i ==> t.attributes[j].key != key
    ensures r.None? && t.Tag? ==> forall i :: 0 <= i < |t.attributes| ==> t.attributes[i].key != key
  {
    match t
    case Text(_) => None
    case Tag(_, attrs, _) =>
      var i := FirstWithKey(attrs, key);
      if i.Some? then Some(attrs[i.value].value) else None
  }

  /** The index of the first attribute whose key is exactly `key`. */
  function FirstWithKey(attrs: seq<Attribute>, key: string): (r: Option<nat>)
    ensures r.Some? ==> r.value < |attrs| && attrs[r.value].key == key
    ensures r.Some? ==> forall j :: 0 <= j < r.value ==> attrs[j].key != key
    ensures r.None? ==> forall i :: 0 <= i < |attrs| ==> attrs[i].key != key
  {
    if attrs == [] then None
    else if attrs[0].key == key then Some(0)
    else
      var r := FirstWithKey(attrs[1..], key);
      if r.Some? then Some(r.value + 1) else None
  }

  predicate HasAttr(t: StreamToken, key: string) {
    Attr(t, key).Some?
  }

  /** `children()`. */
  function Children(t: StreamToken): seq<StreamToken> {
    match t
    case Text(_) => []
    case Tag(_, _, cs) => cs
  }

  /**
   * `value(separator)`: a text token's text, or the children's values (each
   * with the default separator ",") joined with `separator`.
   */
  function Value(t: StreamToken, separator: string): string
    decreases t, 1
  {
    match t
    case Text(s) => s
    case Tag(_, _, cs) => Join(Values(cs), separator)
  }

  function Values(ts: seq<StreamToken>): (r: seq<string>)
    ensures |r| == |ts|
    decreases ts, 0
  {
    if ts == [] then [] else [Value(ts[0], ",")] + Values(ts[1..])
  }

  lemma ValuesAt(ts: seq<StreamToken>, i: nat)
    requires i < |ts|
    ensures Values(ts)[i] == Value(ts[i], ",")
  {
    if i > 0 { ValuesAt(ts[1..], i - 1); }
  }

  // ---------------------------------------------------------------------------
  // filterBetweenTags / monsters
  // ---------------------------------------------------------------------------

  /** The optional ignore pattern; `None` ignores nothing. */
  predicate Ignored(item: StreamToken, ignore: Option<string -> bool>) {
    ignore.Some? && ignore.value(Value(item, ","))
  }

  /** The capture flag after reading `item`: a start marker sets it, an end marker clears it. */
  function NextCapture(item: StreamToken, start: string, end: string, capture: bool): bool {
    if Lower(Name(item)) == start then true
    else if Lower(Name(item)) == end then false
    else capture
  }

  /** What reading `item` adds to the result: markers never, other tokens while capturing unless ignored. */
  function Kept(item: StreamToken, start: string, end: string, ignore: Option<string -> bool>,
                capture: bool): seq<StreamToken>
  {
    if IsMarker(item, start, end) then []
    else if capture && !Ignored(item, ignore) then [item]
    else []
  }

  /** The specification of `filterBetweenTags`, reading left to right with the capture flag. */
  function Between(tokens: seq<StreamToken>, start: string, end: string,
                   ignore: Option<string -> bool>, capture: bool): seq<StreamToken>
  {
    if tokens == [] then []
    else Kept(tokens[0], start, end, ignore, capture)
         + Between(tokens[1..], start, end, ignore, NextCapture(tokens[0], start, end, capture))
  }

  /** The capture flag after reading `tokens`. */
  function CaptureAfter(tokens: seq<StreamToken>, start: string, end: string, capture: bool): bool {
    if tokens == [] then capture
    else CaptureAfter(tokens[1..], start, end, NextCapture(tokens[0], start, end, capture))
  }

  predicate IsNamed(t: StreamToken, name: string) { Lower(Name(t)) == name }

  predicate IsMarker(t: StreamToken, start: string, end: string) {
    Lower(Name(t)) == start || Lower(Name(t)) == end
  }

  lemma {:induction false} BetweenAppend(xs: seq<StreamToken>, ys: seq<StreamToken>, start: string, end: string,
                                         ignore: Option<string -> bool>, capture: bool)
    ensures Between(xs + ys, start, end, ignore, capture)
         == Between(xs, start, end, ignore, capture)
            + Between(ys, start, end, ignore, CaptureAfter(xs, start, end, capture))
  {
    if xs != [] {
      assert (xs + ys)[0] == xs[0] && (xs + ys)[1..] == xs[1..] + ys;
      var c := NextCapture(xs[0], start, end, capture);
      BetweenAppend(xs[1..], ys, start, end, ignore, c);
      ConcatAssoc(Kept(xs[0], start, end, ignore, capture), Between(xs[1..], start, end, ignore, c),
                  Between(ys, start, end, ignore, CaptureAfter(xs[1..], start, end, c)));
    } else {
      assert xs + ys == ys;
    }
  }

  /** Tokens read with no marker among them are all kept (or all dropped) according to the flag, minus ignored ones. */
  function Unignored(tokens: seq<StreamToken>, ignore: Option<string -> bool>): seq<StreamToken> {
    if tokens == [] then []
    else (if Ignored(tokens[0], ignore) then [] else [tokens[0]]) + Unignored(tokens[1..], ignore)
  }

  lemma {:induction false} BetweenWithoutMarkers(tokens: seq<StreamToken>, start: string, end: string,
                                                 ignore: Option<string -> bool>, capture: bool)
    requires forall i :: 0 <= i < |tokens| ==> !IsMarker(tokens[i], start, end)
    ensures Between(tokens, start, end, ignore, capture) == (if capture then Unignored(tokens, ignore) else [])
    ensures CaptureAfter(tokens, start, end, capture) == capture
  {
    if tokens != [] {
      BetweenWithoutMarkers(tokens[1..], start, end, ignore, capture);
    }
  }

  /**
   * Exactly the non-ignored tokens strictly between a start marker and the
   * following end marker are kept; the markers themselves never are, and
   * nothing before the first start marker is.
   */
  lemma BetweenMarkers(pre: seq<StreamToken>, s: StreamToken, mid: seq<StreamToken>, e: StreamToken,
                       post: seq<StreamToken>, start: string, end: string, ignore: Option<string -> bool>)
    requires forall i :: 0 <= i < |pre| ==> !IsMarker(pre[i], start, end)
    requires forall i :: 0 <= i < |mid| ==> !IsMarker(mid[i], start, end)
    requires Lower(Name(s)) == start
    requires Lower(Name(e)) == end && Lower(Name(e)) != start
    ensures Between(pre + [s] + mid + [e] + post, start, end, ignore, false)
         == Unignored(mid, ignore) + Between(post, start, end, ignore, false)
  {
    var inner := mid + ([e] + post);
    assert pre + [s] + mid + [e] + post == pre + ([s] + inner);
    SkipToStart(pre, s, inner, start, end, ignore);
    CaptureToEnd(mid, e, post, start, end, ignore);
  }

  /** Before the first start marker nothing is kept. */
  lemma SkipToStart(pre: seq<StreamToken>, s: StreamToken, inner: seq<StreamToken>, start: string, end: string,
                    ignore: Option<string -> bool>)
    requires forall i :: 0 <= i < |pre| ==> !IsMarker(pre[i], start, end)
    requires Lower(Name(s)) == start
    ensures Between(pre + ([s] + inner), start, end, ignore, false) == Between(inner, start, end, ignore, true)
  {
    var tail := [s] + inner;
    BetweenAppend(pre, tail, start, end, ignore, false);
    BetweenWithoutMarkers(pre, start, end, ignore, false);
    BetweenCons(s, inner, start, end, ignore, false);
  }

  /** After a start marker every non-ignored token is kept up to the end marker. */
  lemma CaptureToEnd(mid: seq<StreamToken>, e: StreamToken, post: seq<StreamToken>, start: string, end: string,
                     ignore: Option<string -> bool>)
    requires forall i :: 0 <= i < |mid| ==> !IsMarker(mid[i], start, end)
    requires Lower(Name(e)) == end && Lower(Name(e)) != start
    ensures Between(mid + ([e] + post), start, end, ignore, true)
         == Unignored(mid, ignore) + Between(post, start, end, ignore, false)
  {
    var ep := [e] + post;
    var after := Between(post, start, end, ignore, false);
    BetweenCons(e, post, start, end, ignore, true);
    assert Kept(e, start, end, ignore, true) == [] && NextCapture(e, start, end, true) == false;
    assert Between(ep, start, end, ignore, true) == after;
    BetweenWithoutMarkers(mid, start, end, ignore, true);
    BetweenAppend(mid, ep, start, end, ignore, true);
  }

  lemma BetweenCons(x: StreamToken, rest: seq<StreamToken>, start: string, end: string,
                    ignore: Option<string -> bool>, capture: bool)
    ensures Between([x] + rest, start, end, ignore, capture)
         == Kept(x, start, end, ignore, capture) + Between(rest, start, end, ignore, NextCapture(x, start, end, capture))
  {
    assert ([x] + rest)[0] == x && ([x] + rest)[1..] == rest;
  }

  lemma ConcatAssoc<T>(a: seq<T>, b: seq<T>, c: seq<T>)
    ensures a + (b + c) == (a + b) + c
  {
  }

  lemma BetweenStep(tokens: seq<StreamToken>, i: nat, start: string, end: string,
                    ignore: Option<string -> bool>, capture: bool)
    requires i < |tokens|
    ensures Between(tokens[i..], start, end, ignore, capture)
         == Kept(tokens[i], start, end, ignore, capture)
            + Between(tokens[i + 1..], start, end, ignore, NextCapture(tokens[i], start, end, capture))
  {
    assert tokens[i..][0] == tokens[i] && tokens[i..][1..] == tokens[i + 1..];
  }

  /** `filterBetweenTags`, the loop of the source with its `capture` flag. */
  method FilterBetweenTags(tokens: seq<StreamToken>, start: string, end: string,
                           ignore: Option<string -> bool>) returns (results: seq<StreamToken>)
    ensures results == Between(tokens, start, end, ignore, false)
  {
    if |tokens| == 0 {
      return [];
    }
    results := [];
    var capture := false;
    for i := 0 to |tokens|
      invariant results + Between(tokens[i..], start, end, ignore, capture) == Between(tokens, start, end, ignore, false)
    {
      var item := tokens[i];
      ghost var rest := Between(tokens[i + 1..], start, end, ignore, NextCapture(item, start, end, capture));
      ghost var kept := Kept(item, start, end, ignore, capture);
      ghost var prev := results;
      BetweenStep(tokens, i, start, end, ignore, capture);
      ConcatAssoc(prev, kept, rest);
      if IsNamed(item, start) {
        assert kept == [] && prev + kept == prev;
        capture := true;
        continue;
      } else if IsNamed(item, end) {
        assert kept == [] && prev + kept == prev;
        capture := false;
        continue;
      }
      var matched := Ignored(item, ignore);
      if capture && !matched {
        results := results + [item];
      }
      assert results == prev + kept;
    }
  }

  /** `monsters(ignore)`: the bolded children of a tag. */
  method Monsters(t: StreamToken, ignore: Option<string -> bool>) returns (r: seq<StreamToken>)
    ensures t.Text? ==> r == []
    ensures t.Tag? ==> r == Between(t.children, "pushbold", "popbold", ignore, false)
  {
    match t
    case Text(_) => r := [];
    case Tag(_, _, cs) => r := FilterBetweenTags(cs, "pushbold", "popbold", ignore);
  }

  // ---------------------------------------------------------------------------
  // Specification of the cursor parser
  // ---------------------------------------------------------------------------

  /** How a parsing step of the source ends: with a value and the rest of the text, in an endless loop, or in a trap. */
  datatype Outcome<T> = Done(value: T, rest: string) | Diverges | Crashes

  /** The length of the longest prefix whose characters all satisfy `cond`. */
  function SpanWhile(s: string, cond: char -> bool): (n: nat)
    ensures n <= |s|
    ensures forall i :: 0 <= i < n ==> cond(s[i])
    ensures n < |s| ==> !cond(s[n])
  {
    if s == [] || !cond(s[0]) then 0 else 1 + SpanWhile(s[1..], cond)
  }

  /** `consume(expecting:)`. */
  function Expecting(s: string, c: char): string {
    if |s| > 0 && s[0] == c then s[1..] else s
  }

  predicate NotLessThan(c: char) { c != '<' }
  predicate InTagName(c: char) { c != '/' && c != '>' && c != ' ' }
  predicate NotEqual(c: char) { c != '=' }
  predicate IsSpace(c: char) { c == ' ' }
  predicate NotGreaterThan(c: char) { c != '>' }

  /** `parseQuotedCharacter`: a backslash or carriage return takes the next character verbatim. */
  function QuotedChar(s: string): (r: (Option<char>, string))
    ensures |r.1| <= |s| && (s != [] ==> |r.1| < |s|)
  {
    if s == [] then (None, s)
    else if s[0] == '\\' || s[0] == '\r' then
      if |s| >= 2 then (Some(s[1]), s[2..]) else (None, s[1..])
    else (Some(s[0]), s[1..])
  }

  /** `parseMany({ $0.parseQuotedCharacter() }, while: { $0 != stop })`. */
  function QuotedRun(s: string, stop: char): (r: (string, string))
    ensures |r.1| <= |s|
  {
    if s == [] || s[0] == stop then ([], s)
    else
      var (c, rest) := QuotedChar(s);
      if c.None? then ([], rest)
      else
        var (v, rest2) := QuotedRun(rest, stop);
        ([c.value] + v, rest2)
  }

  /** `parseAttribute(tagName)`. */
  function AttributeAt(s: string, tagName: string): (r: (Option<Attribute>, string))
    ensures |r.1| <= |s|
    ensures s != [] && s[0] != '=' ==> |r.1| < |s|
  {
    var k := SpanWhile(s, NotEqual);
    var key := s[..k];
    if key == [] then (None, s)
    else
      var s2 := Expecting(s[k..], '=');
      if s2 == [] then (None, s2)
      else
        var delimiter := s2[0];
        var (value, s5) :=
          if key == "subtitle" && tagName == "streamwindow" then
            var (v, s4) := QuotedRun(s2[1..], ']');
            (v + "]", Expecting(s4, ']'))
          else QuotedRun(s2[1..], delimiter);
        (Some(Attribute(key, value)), Expecting(s5, delimiter))
  }

  function SkipSpaces(s: string): (r: string)
    ensures |r| <= |s| && (s != [] && s[0] == ' ' ==> |r| < |s|)
  {
    s[SpanWhile(s, IsSpace)..]
  }

  /** `parseAttributes(tagName)`; an attribute with an empty key makes the source loop forever. */
  function AttributesAt(s: string, tagName: string): (r: Outcome<seq<Attribute>>)
    ensures r.Done? ==> |r.rest| <= |SkipSpaces(s)|
  {
    AttributesFrom(SkipSpaces(s), tagName, [])
  }

  function AttributesFrom(s: string, tagName: string, acc: seq<Attribute>): (r: Outcome<seq<Attribute>>)
    ensures r.Done? ==> |r.rest| <= |s|
    ensures r.Done? ==> r.rest == [] || r.rest[0] == '>' || r.rest[0] == '/'
    decreases |s|
  {
    if s == [] || s[0] == '>' || s[0] == '/' then Done(acc, s)
    else if s[0] == '=' then Diverges
    else
      var (a, s1) := AttributeAt(s, tagName);
      var acc1 := if a.Some? then acc + [a.value] else acc;
      AttributesFrom(SkipSpaces(s1), tagName, acc1)
  }

  /** A run of text up to the next `<`, as `TextMode.read` collects it. */
  function TextRun(s: string): (r: (seq<StreamToken>, string))
    ensures |r.1| <= |s|
    ensures r.1 == [] || r.1[0] == '<'
  {
    var k := SpanWhile(s, NotLessThan);
    (if k > 0 then [Text(s[..k])] else [], s[k..])
  }

  /** `consumeClosingTag`. */
  function ClosingConsumed(s: string): (r: string)
    ensures |r| <= |s|
  {
    Expecting(s[SpanWhile(s, NotGreaterThan)..], '>')
  }

  function OptionToSeq<T>(o: Option<T>): seq<T> {
    if o.Some? then [o.value] else []
  }

  /** `TagMode.read` on text starting with `<`. */
  function TagAt(s: string): (r: Outcome<Option<StreamToken>>)
    requires s != [] && s[0] == '<'
    ensures r.Done? ==> |r.rest| < |s|
    decreases |s|, 1
  {
    var s1 := s[1..];
    var k := SpanWhile(s1, InTagName);
    TagRest(s1[k..], Lower(s1[..k]), [])
  }

  /** `TagMode.readNext` with the tag name read so far. */
  function TagRest(s: string, name: string, attrs: seq<Attribute>): (r: Outcome<Option<StreamToken>>)
    ensures r.Done? ==> |r.rest| <= |s|
    decreases |s|, 0
  {
    if s == [] then Done(None, s)
    else if s[0] == '/' then
      var s1 := s[1..];
      if s1 == [] || s1[0] == '>' then Done(Some(Tag(name, attrs, [])), Expecting(s1, '>'))
      else Done(None, s1)
    else if s[0] == '>' then
      match ChildrenAt(s[1..])
      case Done(children, rest) => Done(Some(Tag(name, attrs, children)), rest)
      case Diverges => Diverges
      case Crashes => Crashes
    else if s[0] == ' ' then
      match AttributesAt(s, name)
      case Done(attrs1, rest) => TagRest(rest, name, attrs1)
      case Diverges => Diverges
      case Crashes => Crashes
    else Done(None, s)
  }

  /** `TagMode.readChildren`: tokens up to the next `</`, then the closing tag is consumed. */
  function ChildrenAt(s: string): (r: Outcome<seq<StreamToken>>)
    ensures r.Done? ==> |r.rest| <= |s|
    decreases |s|, 3
  {
    var (first, s1) := TextRun(s);
    ChildrenFrom(s1, first)
  }

  /**
   * The loop `while !isClosingTagNext { TagMode().read; TextMode().read }`:
   * at the end of the text it never stops, and with one character left
   * `second` traps.
   */
  function ChildrenFrom(s: string, acc: seq<StreamToken>): (r: Outcome<seq<StreamToken>>)
    requires s == [] || s[0] == '<'
    ensures r.Done? ==> |r.rest| <= |s|
    decreases |s|, 2
  {
    if |s| == 0 then Diverges
    else if |s| == 1 then Crashes
    else if s[1] == '/' then Done(acc, ClosingConsumed(s))
    else
      match TagAt(s)
      case Done(tag, rest) =>
        var (text, rest2) := TextRun(rest);
        ChildrenFrom(rest2, acc + OptionToSeq(tag) + text)
      case Diverges => Diverges
      case Crashes => Crashes
  }

  /** `GameStreamTokenizer.read`: a text run, then alternately a tag and a text run until the text is used up. */
  function Tokens(s: string): Outcome<seq<StreamToken>> {
    var (text, s1) := TextRun(s);
    TokensFrom(s1, text)
  }

  function TokensFrom(s: string, acc: seq<StreamToken>): (r: Outcome<seq<StreamToken>>)
    requires s == [] || s[0] == '<'
    ensures r.Done? ==> r.rest == []
    decreases |s|
  {
    if s == [] then Done(acc, [])
    else
      match TagAt(s)
      case Done(tag, rest) =>
        var (text, rest2) := TextRun(rest);
        TokensFrom(rest2, acc + OptionToSeq(tag) + text)
      case Diverges => Diverges
      case Crashes => Crashes
  }

  // ---------------------------------------------------------------------------
  // The imperative cursor
  // ---------------------------------------------------------------------------

  /** `StreamContext`: the text still to read and the tokens produced so far. */
  class StreamContext {
    var text: string
    var target: seq<StreamToken>

    constructor (target: seq<StreamToken>, text: string)
      ensures this.target == target && this.text == text
    {
      this.target := target;
      this.text := text;
    }

    /** `consume(expecting:)`. */
    method ConsumeExpecting(c: char)
      modifies this
      ensures text == Expecting(old(text), c) && target == old(target)
    {
      if |text| > 0 && text[0] == c {
        text := text[1..];
      }
    }

    /** `consume(while:)`. */
    method ConsumeWhile(cond: char -> bool)
      modifies this
      ensures text == old(text)[SpanWhile(old(text), cond)..] && target == old(target)
    {
      ghost var start := text;
      ghost var n := 0;
      while |text| > 0 && cond(text[0])
        invariant n <= |start| && text == start[n..]
        invariant forall i :: 0 <= i < n ==> cond(start[i])
        invariant target == old(target)
        decreases |text|
      {
        text := text[1..];
        n := n + 1;
      }
      assert n == SpanWhile(start, cond);
    }

    /** `parseMany(while:)`. */
    method ParseMany(cond: char -> bool) returns (result: string)
      modifies this
      ensures result == old(text)[..SpanWhile(old(text), cond)]
      ensures text == old(text)[SpanWhile(old(text), cond)..] && target == old(target)
    {
      ghost var start := text;
      result := [];
      while |text| > 0 && cond(text[0])
        invariant |result| <= |start| && start == result + text
        invariant forall i :: 0 <= i < |result| ==> cond(start[i])
        invariant target == old(target)
        decreases |text|
      {
        result := result + [text[0]];
        text := text[1..];
      }
      assert |result| == |start| || start[|result|] == text[0];
      assert |result| == SpanWhile(start, cond);
      assert result == start[..|result|];
    }

    /** `popFirst()`. */
    method PopFirst() returns (c: Option<char>)
      modifies this
      ensures old(text) == [] ==> c.None? && text == []
      ensures old(text) != [] ==> c == Some(old(text)[0]) && text == old(text)[1..]
      ensures target == old(target)
    {
      if |text| == 0 {
        c := None;
      } else {
        c := Some(text[0]);
        text := text[1..];
      }
    }

    /** `parseQuotedCharacter`. */
    method ParseQuotedCharacter() returns (c: Option<char>)
      modifies this
      ensures (c, text) == QuotedChar(old(text)) && target == old(target)
    {
      var first := PopFirst();
      match first
      case None => c := None;
      case Some(ch) =>
        if ch == '\\' || ch == '\r' {
          c := PopFirst();
        } else {
          c := Some(ch);
        }
    }

    /** `parseMany({ $0.parseQuotedCharacter() }, while: { $0 != stop })`. */
    method ParseQuotedMany(stop: char) returns (value: string)
      modifies this
      ensures (value, text) == QuotedRun(old(text), stop) && target == old(target)
    {
      ghost var start := text;
      value := [];
      while |text| > 0 && text[0] != stop
        invariant QuotedRun(start, stop).0 == value + QuotedRun(text, stop).0
        invariant QuotedRun(start, stop).1 == QuotedRun(text, stop).1
        invariant target == old(target)
        decreases |text|
      {
        ghost var before := text;
        var next := ParseQuotedCharacter();
        if next.None? {
          assert QuotedRun(before, stop) == ([], text);
          assert value + [] == value;
          assert QuotedRun(start, stop) == (value, text);
          break;
        }
        assert QuotedRun(before, stop) == ([next.value] + QuotedRun(text, stop).0, QuotedRun(text, stop).1);
        value := value + [next.value];
      }
      assert value + [] == value;
    }

    /** `parseAttribute(tagName)`. */
    method ParseAttribute(tagName: string) returns (a: Option<Attribute>)
      modifies this
      ensures (a, text) == AttributeAt(old(text), tagName) && target == old(target)
    {
      var key := ParseMany(NotEqual);
      if key == [] {
        return None;
      }
      ConsumeExpecting('=');
      var delimiter := PopFirst();
      if delimiter.None? {
        return None;
      }
      var value;
      if key == "subtitle" && tagName == "streamwindow" {
        value := ParseQuotedMany(']');
        value := value + "]";
        ConsumeExpecting(']');
      } else {
        value := ParseQuotedMany(delimiter.value);
      }
      ConsumeExpecting(delimiter.value);
      a := Some(Attribute(key, value));
    }

    /** `parseAttributes(tagName)`, for text on which the source does not loop forever. */
    method ParseAttributes(tagName: string) returns (attributes: seq<Attribute>)
      requires AttributesAt(text, tagName).Done?
      modifies this
      ensures attributes == old(AttributesAt(text, tagName)).value
      ensures text == old(AttributesAt(text, tagName)).rest && target == old(target)
    {
      ghost var outcome := AttributesAt(text, tagName);
      attributes := [];
      ConsumeWhile(IsSpace);
      while |text| > 0 && text[0] != '>' && text[0] != '/'
        invariant AttributesFrom(text, tagName, attributes) == outcome
        invariant target == old(target)
        decreases |text|
      {
        var attr := ParseAttribute(tagName);
        if attr.Some? {
          attributes := attributes + [attr.value];
        }
        ConsumeWhile(IsSpace);
      }
    }
  }

  /** `TextMode.read`: append the text run, if any; true when a tag follows. */
  method TextModeRead(context: StreamContext) returns (more: bool)
    modifies context
    ensures context.target == old(context.target) + TextRun(old(context.text)).0
    ensures context.text == TextRun(old(context.text)).1
    ensures more == (context.text != [])
  {
    var result := context.ParseMany(NotLessThan);
    if |result| > 0 {
      context.target := context.target + [Text(result)];
    }
    more := context.text != [];
  }

  /** `TagMode`: the tag being read, with its name, attributes and children. */
  class TagMode {
    var tagName: string
    var children: seq<StreamToken>
    var attributes: seq<Attribute>

    constructor ()
      ensures tagName == [] && children == [] && attributes == []
    {
      tagName := [];
      children := [];
      attributes := [];
    }

    /** `TagMode.read`, on text that starts with `<` and on which the source finishes. */
    method Read(context: StreamContext)
      requires context.text != [] && context.text[0] == '<'
      requires TagAt(context.text).Done?
      modifies this, context
      ensures context.text == old(TagAt(context.text)).rest
      ensures context.target == old(context.target) + OptionToSeq(old(TagAt(context.text)).value)
      decreases |context.text|, 1
    {
      context.ConsumeExpecting('<');
      var result := context.ParseMany(InTagName);
      tagName := Lower(result);
      attributes := [];
      children := [];
      ReadNext(context);
    }

    /** `TagMode.readNext`. */
    method ReadNext(context: StreamContext)
      requires TagRest(context.text, tagName, attributes).Done?
      requires children == []
      modifies this, context
      ensures context.text == old(TagRest(context.text, tagName, attributes)).rest
      ensures context.target == old(context.target) + OptionToSeq(old(TagRest(context.text, tagName, attributes)).value)
      decreases |context.text|, 0
    {
      if |context.text| == 0 {
        return;
      }
      var f := context.text[0];
      if f == '/' {
        context.ConsumeExpecting('/');
        if |context.text| == 0 || context.text[0] == '>' {
          context.ConsumeExpecting('>');
          AppendTag(context);
        }
      } else if f == '>' {
        context.ConsumeExpecting('>');
        children := ReadChildren(context);
        AppendTag(context);
      } else if f == ' ' {
        attributes := context.ParseAttributes(tagName);
        ReadNext(context);
      }
    }

    /** `TagMode.readChildren`, on text on which the source finishes. */
    method ReadChildren(context: StreamContext) returns (result: seq<StreamToken>)
      requires ChildrenAt(context.text).Done?
      modifies context
      ensures result == old(ChildrenAt(context.text)).value
      ensures context.text == old(ChildrenAt(context.text)).rest
      ensures context.target == old(context.target)
      decreases |context.text|, 3
    {
      ghost var outcome := ChildrenAt(context.text);
      var childContext := new StreamContext([], context.text);
      var _ := TextModeRead(childContext);
      assert [] + TextRun(old(context.text)).0 == TextRun(old(context.text)).0;
      while true
        invariant childContext.text == [] || childContext.text[0] == '<'
        invariant |childContext.text| <= |old(context.text)|
        invariant ChildrenFrom(childContext.text, childContext.target) == outcome
        invariant context.text == old(context.text) && context.target == old(context.target)
        decreases |childContext.text|
      {
        var closing := IsClosingTagNext(childContext);
        if closing {
          break;
        }
        var mode := new TagMode();
        mode.Read(childContext);
        var _ := TextModeRead(childContext);
      }
      context.text := childContext.text;
      ConsumeClosingTag(context);
      result := childContext.target;
    }

    /** `consumeClosingTag`. */
    method ConsumeClosingTag(context: StreamContext)
      modifies context
      ensures context.text == ClosingConsumed(old(context.text)) && context.target == old(context.target)
    {
      context.ConsumeWhile(NotGreaterThan);
      context.ConsumeExpecting('>');
    }

    /** `isClosingTagNext`; with exactly one character left the source traps on `second`. */
    method IsClosingTagNext(context: StreamContext) returns (closing: bool)
      requires |context.text| != 1
      ensures closing == (|context.text| >= 2 && context.text[0] == '<' && context.text[1] == '/')
    {
      closing := |context.text| >= 2 && context.text[0] == '<' && context.text[1] == '/';
    }

    /** `appendTag`. */
    method AppendTag(context: StreamContext)
      modifies context
      ensures context.target == old(context.target) + [Tag(tagName, attributes, children)]
      ensures context.text == old(context.text)
    {
      context.target := context.target + [Tag(tagName, attributes, children)];
    }
  }

  /**
   * `GameStreamTokenizer.read`: the reader's mode stack alternates
   * `TextMode` and `TagMode` over one context until the text is used up.
   */
  method Read(text: string) returns (tokens: seq<StreamToken>)
    requires Tokens(text).Done?
    ensures tokens == Tokens(text).value
  {
    var context := new StreamContext([], text);
    var more := TextModeRead(context);
    assert [] + TextRun(text).0 == TextRun(text).0;
    while more
      invariant more == (context.text != [])
      invariant context.text == [] || context.text[0] == '<'
      invariant TokensFrom(context.text, context.target) == Tokens(text)
      decreases |context.text|
    {
      var mode := new TagMode();
      mode.Read(context);
      more := TextModeRead(context);
    }
    tokens := context.target;
  }
}
