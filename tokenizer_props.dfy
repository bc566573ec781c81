/**
 * What the tokenizer guarantees about the tokens it produces, and what it
 * produces for the basic shapes of markup: plain text, a self-closing tag,
 * a tag with one quoted attribute, a tag with text inside, a room subtitle.
 */
module TokenizerProps {
  import opened Wrappers
  import opened Strs
  import opened Tokenizer

  // ---------------------------------------------------------------------------
  // Well-formed token trees
  // ---------------------------------------------------------------------------

  /** A text token is never empty and never holds the start of a tag. */
  predicate TextOk(s: string) {
    s != [] && forall i :: 0 <= i < |s| ==> s[i] != '<'
  }

  /** A tag name is lower case and holds none of the characters that end it. */
  predicate NameOk(n: string) {
    NoUpper(n) && forall i :: 0 <= i < |n| ==> InTagName(n[i])
  }

  predicate WellFormed(t: StreamToken)
    decreases t
  {
    match t
    case Text(s) => TextOk(s)
    case Tag(n, _, cs) => NameOk(n) && forall i :: 0 <= i < |cs| ==> WellFormed(cs[i])
  }

  predicate AllWellFormed(ts: seq<StreamToken>) {
    forall i :: 0 <= i < |ts| ==> WellFormed(ts[i])
  }

  lemma AllWellFormedConcat(a: seq<StreamToken>, b: seq<StreamToken>)
    requires AllWellFormed(a) && AllWellFormed(b)
    ensures AllWellFormed(a + b)
  {
    forall i | 0 <= i < |a + b|
      ensures WellFormed((a + b)[i])
    {
      if i < |a| { assert (a + b)[i] == a[i]; } else { assert (a + b)[i] == b[i - |a|]; }
    }
  }

  lemma TextRunWellFormed(s: string)
    ensures AllWellFormed(TextRun(s).0)
  {
    var k := SpanWhile(s, NotLessThan);
    if k > 0 {
      assert forall i :: 0 <= i < k ==> s[..k][i] == s[i];
      assert WellFormed(Text(s[..k]));
    }
  }

  lemma LowerKeepsTagNameChars(s: string)
    requires forall i :: 0 <= i < |s| ==> InTagName(s[i])
    ensures NameOk(Lower(s))
  {
    LowerHasNoUpper(s);
  }

  lemma {:induction false} TagAtWellFormed(s: string)
    requires s != [] && s[0] == '<'
    ensures TagAt(s).Done? ==> AllWellFormed(OptionToSeq(TagAt(s).value))
    decreases |s|, 1
  {
    var s1 := s[1..];
    var k := SpanWhile(s1, InTagName);
    LowerKeepsTagNameChars(s1[..k]);
    TagRestWellFormed(s1[k..], Lower(s1[..k]), []);
  }

  lemma {:induction false} TagRestWellFormed(s: string, name: string, attrs: seq<Attribute>)
    requires NameOk(name)
    ensures TagRest(s, name, attrs).Done? ==> AllWellFormed(OptionToSeq(TagRest(s, name, attrs).value))
    decreases |s|, 0
  {
    if s == [] {
    } else if s[0] == '/' {
    } else if s[0] == '>' {
      ChildrenAtWellFormed(s[1..]);
      match ChildrenAt(s[1..])
      case Done(children, _) =>
        assert WellFormed(Tag(name, attrs, children));
      case Diverges =>
      case Crashes =>
    } else if s[0] == ' ' {
      match AttributesAt(s, name)
      case Done(attrs1, rest) => TagRestWellFormed(rest, name, attrs1);
      case Diverges =>
      case Crashes =>
    }
  }

  lemma {:induction false} ChildrenAtWellFormed(s: string)
    ensures ChildrenAt(s).Done? ==> AllWellFormed(ChildrenAt(s).value)
    decreases |s|, 3
  {
    TextRunWellFormed(s);
    var (first, s1) := TextRun(s);
    ChildrenFromWellFormed(s1, first);
  }

  lemma {:induction false} ChildrenFromWellFormed(s: string, acc: seq<StreamToken>)
    requires s == [] || s[0] == '<'
    requires AllWellFormed(acc)
    ensures ChildrenFrom(s, acc).Done? ==> AllWellFormed(ChildrenFrom(s, acc).value)
    decreases |s|, 2
  {
    if |s| >= 2 && s[1] != '/' {
      TagAtWellFormed(s);
      match TagAt(s)
      case Done(tag, rest) =>
        TextRunWellFormed(rest);
        var (text, rest2) := TextRun(rest);
        AllWellFormedConcat(acc, OptionToSeq(tag));
        AllWellFormedConcat(acc + OptionToSeq(tag), text);
        ChildrenFromWellFormed(rest2, acc + OptionToSeq(tag) + text);
      case Diverges =>
      case Crashes =>
    }
  }

  lemma {:induction false} TokensFromWellFormed(s: string, acc: seq<StreamToken>)
    requires s == [] || s[0] == '<'
    requires AllWellFormed(acc)
    ensures TokensFrom(s, acc).Done? ==> AllWellFormed(TokensFrom(s, acc).value)
    decreases |s|
  {
    if s != [] {
      TagAtWellFormed(s);
      match TagAt(s)
      case Done(tag, rest) =>
        TextRunWellFormed(rest);
        var (text, rest2) := TextRun(rest);
        AllWellFormedConcat(acc, OptionToSeq(tag));
        AllWellFormedConcat(acc + OptionToSeq(tag), text);
        TokensFromWellFormed(rest2, acc + OptionToSeq(tag) + text);
      case Diverges =>
      case Crashes =>
    }
  }

  /**
   * Every token the tokenizer produces, at any depth, is well formed: text
   * tokens are non-empty and free of `<`, tag names are lower case and free
   * of `/`, `>` and spaces.
   */
  lemma TokensWellFormed(s: string)
    ensures Tokens(s).Done? ==> AllWellFormed(Tokens(s).value)
  {
    TextRunWellFormed(s);
    var (text, s1) := TextRun(s);
    TokensFromWellFormed(s1, text);
  }

  // ---------------------------------------------------------------------------
  // Quoted values: escaping round trip
  // ---------------------------------------------------------------------------

  /** Escapes the delimiter, backslash and carriage return with a backslash. */
  function Escaped(v: string, delimiter: char): (r: string)
    ensures |r| >= |v|
  {
    if v == [] then []
    else
      (if v[0] == delimiter || v[0] == '\\' || v[0] == '\r' then ['\\', v[0]] else [v[0]])
      + Escaped(v[1..], delimiter)
  }

  /** Reading an escaped value back up to the delimiter gives the value. */
  lemma {:induction false} QuotedRunEscaped(v: string, delimiter: char, rest: string)
    requires delimiter != '\\'
    requires rest == [] || rest[0] == delimiter
    ensures QuotedRun(Escaped(v, delimiter) + rest, delimiter) == (v, rest)
  {
    if v != [] {
      QuotedRunEscaped(v[1..], delimiter, rest);
      var head := if v[0] == delimiter || v[0] == '\\' || v[0] == '\r' then ['\\', v[0]] else [v[0]];
      var s := Escaped(v, delimiter) + rest;
      assert s == head + (Escaped(v[1..], delimiter) + rest);
      assert QuotedChar(s) == (Some(v[0]), Escaped(v[1..], delimiter) + rest);
      assert [v[0]] + v[1..] == v;
    } else {
      assert Escaped(v, delimiter) + rest == rest;
    }
  }

  // ---------------------------------------------------------------------------
  // Basic shapes
  // ---------------------------------------------------------------------------

  predicate NoLess(s: string) {
    forall i :: 0 <= i < |s| ==> s[i] != '<'
  }

  predicate TagNameChars(n: string) {
    forall i :: 0 <= i < |n| ==> InTagName(n[i])
  }

  lemma TextRunWithoutTag(s: string, rest: string)
    requires NoLess(s)
    requires rest == [] || rest[0] == '<'
    ensures TextRun(s + rest) == (if s == [] then [] else [Text(s)], rest)
  {
    var k := SpanWhile(s + rest, NotLessThan);
    assert forall i :: 0 <= i < |s| ==> (s + rest)[i] == s[i];
    if rest != [] {
      assert (s + rest)[|s|] == rest[0];
    }
    assert k == |s|;
    assert (s + rest)[..k] == s && (s + rest)[k..] == rest;
  }

  /** Text without `<` is one text token (or none, when empty). */
  lemma PlainText(s: string)
    requires NoLess(s)
    ensures Tokens(s) == Done(if s == [] then [] else [Text(s)], [])
  {
    TextRunWithoutTag(s, []);
    assert s + [] == s;
  }

  lemma TagNameSpan(n: string, rest: string)
    requires TagNameChars(n)
    requires rest != [] && !InTagName(rest[0])
    ensures SpanWhile(n + rest, InTagName) == |n|
    ensures (n + rest)[..|n|] == n && (n + rest)[|n|..] == rest
  {
    assert forall i :: 0 <= i < |n| ==> (n + rest)[i] == n[i];
    assert (n + rest)[|n|] == rest[0];
  }

  /** Text that starts with a tag holds no text run before it. */
  lemma TokensOfTag(s: string)
    requires s != [] && s[0] == '<'
    ensures Tokens(s) == TokensFrom(s, [])
  {
    TextRunWithoutTag([], s);
    assert [] + s == s;
  }

  /** A tag that uses up the text ends the token list. */
  lemma TokensFromLastTag(s: string, acc: seq<StreamToken>)
    requires s != [] && s[0] == '<'
    requires TagAt(s).Done? && TagAt(s).rest == []
    ensures TokensFrom(s, acc) == Done(acc + OptionToSeq(TagAt(s).value), [])
  {
    TextRunWithoutTag([], []);
    assert acc + OptionToSeq(TagAt(s).value) + [] == acc + OptionToSeq(TagAt(s).value);
  }

  /** The name of a tag runs up to the first `/`, `>` or space and is lower-cased. */
  lemma TagAtName(n: string, rest: string)
    requires TagNameChars(n)
    requires rest != [] && !InTagName(rest[0])
    ensures TagAt("<" + n + rest) == TagRest(rest, Lower(n), [])
  {
    var s := "<" + n + rest;
    assert s[1..] == n + rest;
    TagNameSpan(n, rest);
  }

  /** `<name/>` is a tag with no attributes and no children, its name lower-cased. */
  lemma SelfClosingTag(n: string)
    requires TagNameChars(n)
    ensures Tokens("<" + n + "/>") == Done([Tag(Lower(n), [], [])], [])
  {
    var s := "<" + n + "/>";
    TagAtName(n, "/>");
    assert TagRest("/>", Lower(n), []) == Done(Some(Tag(Lower(n), [], [])), []);
    assert TagAt(s) == Done(Some(Tag(Lower(n), [], [])), []);
    TokensOfTag(s);
    TokensFromLastTag(s, []);
    assert [] + OptionToSeq(Some(Tag(Lower(n), [], []))) == [Tag(Lower(n), [], [])];
  }

  /** An attribute whose value is escaped and delimited by `d` reads back as key and value. */
  lemma AttributeAtEscaped(k: string, d: char, v: string, rest: string, tagName: string)
    requires k != []
    requires forall i :: 0 <= i < |k| ==> k[i] != '='
    requires d != '\\'
    requires !(k == "subtitle" && tagName == "streamwindow")
    ensures AttributeAt(k + "=" + [d] + Escaped(v, d) + [d] + rest, tagName) == (Some(Attribute(k, v)), rest)
  {
    var s := k + "=" + [d] + Escaped(v, d) + [d] + rest;
    var afterKey := "=" + [d] + Escaped(v, d) + [d] + rest;
    assert s == k + afterKey;
    assert SpanWhile(s, NotEqual) == |k| by {
      assert forall i :: 0 <= i < |k| ==> s[i] == k[i];
      assert s[|k|] == '=';
    }
    assert s[..|k|] == k && s[|k|..] == afterKey;
    var quoted := [d] + (Escaped(v, d) + ([d] + rest));
    assert afterKey == "=" + quoted;
    assert Expecting(afterKey, '=') == quoted;
    QuotedRunEscaped(v, d, [d] + rest);
    assert quoted[1..] == Escaped(v, d) + ([d] + rest);
  }

  lemma AttributesOfOne(k: string, d: char, v: string, tagName: string)
    requires k != [] && k[0] != ' ' && k[0] != '>' && k[0] != '/'
    requires forall i :: 0 <= i < |k| ==> k[i] != '='
    requires d != '\\'
    requires !(k == "subtitle" && tagName == "streamwindow")
    ensures AttributesAt(" " + k + "=" + [d] + Escaped(v, d) + [d] + "/>", tagName) == Done([Attribute(k, v)], "/>")
  {
    var body := k + "=" + [d] + Escaped(v, d) + [d] + "/>";
    var s := " " + k + "=" + [d] + Escaped(v, d) + [d] + "/>";
    assert s == " " + body;
    assert SpanWhile(s, IsSpace) == 1 by {
      assert s[1] == k[0];
    }
    assert SkipSpaces(s) == body;
    AttributeAtEscaped(k, d, v, "/>", tagName);
    assert AttributeAt(body, tagName) == (Some(Attribute(k, v)), "/>");
    assert body[0] == k[0];
    assert SkipSpaces("/>") == "/>";
    assert [] + [Attribute(k, v)] == [Attribute(k, v)];
    assert AttributesFrom(body, tagName, []) == AttributesFrom("/>", tagName, [Attribute(k, v)]);
    assert AttributesFrom("/>", tagName, [Attribute(k, v)]) == Done([Attribute(k, v)], "/>");
  }

  /**
   * `<name key=DvalueD/>` with any delimiter `D` (other than a backslash) and
   * the value escaped is a tag with that one attribute, the value unescaped.
   */
  lemma TagWithAttribute(n: string, k: string, d: char, v: string)
    requires TagNameChars(n)
    requires k != [] && k[0] != ' ' && k[0] != '>' && k[0] != '/'
    requires forall i :: 0 <= i < |k| ==> k[i] != '='
    requires d != '\\'
    requires !(k == "subtitle" && Lower(n) == "streamwindow")
    ensures Tokens("<" + n + " " + k + "=" + [d] + Escaped(v, d) + [d] + "/>")
         == Done([Tag(Lower(n), [Attribute(k, v)], [])], [])
  {
    var rest := " " + k + "=" + [d] + Escaped(v, d) + [d] + "/>";
    var s := "<" + n + rest;
    assert s == "<" + n + " " + k + "=" + [d] + Escaped(v, d) + [d] + "/>";
    var tag := Tag(Lower(n), [Attribute(k, v)], []);
    assert TagAt(s) == Done(Some(tag), []) by {
      TagAtName(n, rest);
      AttributesOfOne(k, d, v, Lower(n));
      assert TagRest(rest, Lower(n), []) == TagRest("/>", Lower(n), [Attribute(k, v)]);
      SelfClosed(Lower(n), [Attribute(k, v)]);
    }
    TokensOfSoleTag(s, tag);
  }

  /** `/>` closes the tag with no children. */
  lemma SelfClosed(name: string, attrs: seq<Attribute>)
    ensures TagRest("/>", name, attrs) == Done(Some(Tag(name, attrs, [])), [])
  {
    assert "/>"[0] == '/';
  }

  /** Text that is exactly one tag is that one token. */
  lemma TokensOfSoleTag(s: string, tag: StreamToken)
    requires s != [] && s[0] == '<'
    requires TagAt(s) == Done(Some(tag), [])
    ensures Tokens(s) == Done([tag], [])
  {
    TokensOfTag(s);
    TokensFromLastTag(s, []);
    assert [] + OptionToSeq(Some(tag)) == [tag];
  }

  /** A closing tag `</name>` is consumed whole. */
  lemma ClosingTagConsumed(n: string)
    requires TagNameChars(n)
    ensures ClosingConsumed("</" + n + ">") == []
  {
    var closing := "</" + n + ">";
    assert SpanWhile(closing, NotGreaterThan) == |closing| - 1 by {
      assert closing[0] == '<' && closing[1] == '/';
      assert forall i :: 2 <= i < |closing| - 1 ==> closing[i] == n[i - 2];
      assert forall i :: 0 <= i < |closing| - 1 ==> NotGreaterThan(closing[i]);
      assert closing[|closing| - 1] == '>';
    }
    assert closing[|closing| - 1..] == ">";
  }

  lemma ChildrenOfText(n: string, t: string)
    requires TagNameChars(n)
    requires NoLess(t)
    ensures ChildrenAt(t + "</" + n + ">") == Done(if t == [] then [] else [Text(t)], [])
  {
    var closing := "</" + n + ">";
    var s := t + closing;
    assert t + "</" + n + ">" == s;
    var children := if t == [] then [] else [Text(t)];
    TextRunWithoutTag(t, closing);
    ClosingTagConsumed(n);
    assert closing[1] == '/';
    assert ChildrenFrom(closing, children) == Done(children, []);
  }

  /** `<name>text</name>` is a tag whose only child is the text. */
  lemma TagWithText(n: string, t: string)
    requires TagNameChars(n)
    requires NoLess(t)
    ensures Tokens("<" + n + ">" + t + "</" + n + ">")
         == Done([Tag(Lower(n), [], if t == [] then [] else [Text(t)])], [])
  {
    var rest := ">" + (t + "</" + n + ">");
    var s := "<" + n + rest;
    assert s == "<" + n + ">" + t + "</" + n + ">";
    TagAtName(n, rest);
    assert rest[1..] == t + "</" + n + ">";
    ChildrenOfText(n, t);
    var tag := Tag(Lower(n), [], if t == [] then [] else [Text(t)]);
    assert TagRest(rest, Lower(n), []) == Done(Some(tag), []);
    assert TagAt(s) == Done(Some(tag), []);
    TokensOfSoleTag(s, tag);
  }

  /**
   * In a `streamwindow` tag the `subtitle` value is read up to the first `]`
   * whatever the delimiter, and keeps the bracket.
   */
  lemma StreamWindowSubtitle(d: char, v: string, rest: string)
    requires forall i :: 0 <= i < |v| ==> v[i] != ']' && v[i] != '\\' && v[i] != '\r'
    ensures AttributeAt("subtitle=" + [d] + v + "]" + [d] + rest, "streamwindow")
         == (Some(Attribute("subtitle", v + "]")), rest)
  {
    var s := "subtitle=" + [d] + v + "]" + [d] + rest;
    assert SpanWhile(s, NotEqual) == 8 by {
      assert s[8] == '=';
    }
    assert s[..8] == "subtitle";
    var quoted := [d] + (v + ("]" + [d] + rest));
    assert s[8..] == "=" + quoted;
    assert Expecting(s[8..], '=') == quoted;
    QuotedRunEscaped(v, ']', "]" + [d] + rest);
    assert Escaped(v, ']') == v by {
      EscapedPlain(v, ']');
    }
    assert quoted[1..] == v + ("]" + [d] + rest);
  }

  lemma {:induction false} EscapedPlain(v: string, delimiter: char)
    requires forall i :: 0 <= i < |v| ==> v[i] != delimiter && v[i] != '\\' && v[i] != '\r'
    ensures Escaped(v, delimiter) == v
  {
    if v != [] {
      EscapedPlain(v[1..], delimiter);
      assert [v[0]] + v[1..] == v;
    }
  }

  /** Any subtitle of a stream window ends with the closing bracket. */
  lemma SubtitleKeepsBracket(s: string)
    ensures var a := AttributeAt(s, "streamwindow").0;
            a.Some? && a.value.key == "subtitle" ==> a.value.value != [] && a.value.value[|a.value.value| - 1] == ']'
  {
  }

  // ---------------------------------------------------------------------------
  // Where the source never finishes
  // ---------------------------------------------------------------------------

  /** An attribute with an empty key is never consumed, so the attribute loop never ends. */
  lemma EmptyKeyDiverges(n: string, rest: string)
    requires TagNameChars(n)
    ensures Tokens("<" + n + " =" + rest) == Diverges
  {
    var r := " =" + rest;
    var s := "<" + n + r;
    assert s == "<" + n + " =" + rest;
    TagAtName(n, r);
    assert SpanWhile(r, IsSpace) == 1;
    assert SkipSpaces(r) == "=" + rest;
    assert AttributesFrom("=" + rest, Lower(n), []) == Diverges;
    assert AttributesAt(r, Lower(n)) == Diverges;
    assert TagRest(r, Lower(n), []) == Diverges;
    assert TagAt(s) == Diverges;
    TokensOfTag(s);
    assert TokensFrom(s, []) == Diverges;
  }

  /** A tag whose children run to the end of the text is never closed: the children loop never ends. */
  lemma UnclosedTagDiverges(n: string, t: string)
    requires TagNameChars(n)
    requires NoLess(t)
    ensures Tokens("<" + n + ">" + t) == Diverges
  {
    var r := ">" + t;
    var s := "<" + n + r;
    assert s == "<" + n + ">" + t;
    TagAtName(n, r);
    assert r[1..] == t;
    TextRunWithoutTag(t, []);
    assert t + [] == t;
    assert ChildrenFrom([], if t == [] then [] else [Text(t)]) == Diverges;
    assert ChildrenAt(t) == Diverges;
    assert TagRest(r, Lower(n), []) == Diverges;
    assert TagAt(s) == Diverges;
    TokensOfTag(s);
    assert TokensFrom(s, []) == Diverges;
  }

  /** A lone `<` after a tag's children makes `second` trap. */
  lemma TrailingLessThanCrashes(n: string, t: string)
    requires TagNameChars(n)
    requires NoLess(t)
    ensures Tokens("<" + n + ">" + t + "<") == Crashes
  {
    var r := ">" + (t + "<");
    var s := "<" + n + r;
    assert s == "<" + n + ">" + t + "<";
    TagAtName(n, r);
    assert r[1..] == t + "<";
    TextRunWithoutTag(t, "<");
    assert ChildrenFrom("<", if t == [] then [] else [Text(t)]) == Crashes;
    assert ChildrenAt(t + "<") == Crashes;
    assert TagRest(r, Lower(n), []) == Crashes;
    assert TagAt(s) == Crashes;
    TokensOfTag(s);
    assert TokensFrom(s, []) == Crashes;
  }
}
