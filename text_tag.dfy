/**
 * `TextTag`, a run of styled text for a window, and the fold that merges
 * neighbouring runs of the same style before they are displayed.
 */
module TextTags {
  import opened Wrappers

  datatype TextTag = TextTag(
    text: string,
    window: string,
    color: Option<string>,
    backgroundColor: Option<string>,
    href: Option<string>,
    command: Option<string>,
    mono: bool,
    bold: bool,
    isPrompt: bool,
    preset: Option<string>,
    playerCommand: bool)

  /** `TextTag.tagFor(text, window:, mono:, preset:)`; every other field takes its default. */
  function TagFor(text: string, window: string, mono: bool, preset: Option<string>): (t: TextTag)
    ensures t.text == text && t.window == window && t.mono == mono && t.preset == preset
    ensures t.color.None? && t.backgroundColor.None? && t.href.None? && t.command.None?
    ensures !t.bold && !t.isPrompt && !t.playerCommand
  {
    TextTag(text, window, None, None, None, None, mono, false, false, preset, false)
  }

  /** The ten fields that decide whether two tags may be merged. */
  datatype Style = Style(
    window: string, isPrompt: bool, mono: bool, bold: bool, preset: Option<string>,
    color: Option<string>, backgroundColor: Option<string>, href: Option<string>,
    command: Option<string>, playerCommand: bool)

  function StyleOf(t: TextTag): Style {
    Style(t.window, t.isPrompt, t.mono, t.bold, t.preset, t.color, t.backgroundColor,
          t.href, t.command, t.playerCommand)
  }

  /** `canCombineWith`: the guards compare the fields one after another. */
  predicate CanCombineWith(a: TextTag, b: TextTag) {
    if a.window != b.window then false
    else if a.isPrompt != b.isPrompt then false
    else if a.mono != b.mono then false
    else if a.bold != b.bold then false
    else if a.preset != b.preset then false
    else if a.color != b.color then false
    else if a.backgroundColor != b.backgroundColor then false
    else if a.href != b.href then false
    else if a.command != b.command then false
    else if a.playerCommand != b.playerCommand then false
    else true
  }

  /** Two tags combine exactly when all ten style fields are equal; so the relation is an equivalence. */
  lemma CanCombineIffSameStyle(a: TextTag, b: TextTag)
    ensures CanCombineWith(a, b) <==> StyleOf(a) == StyleOf(b)
  {
  }

  /** `combine`: one merged tag, or both tags unchanged. */
  function Combine(a: TextTag, b: TextTag): (r: seq<TextTag>)
    ensures 1 <= |r| <= 2
  {
    if !CanCombineWith(a, b) then [a, b]
    else [TextTag(a.text + b.text, a.window, a.color, a.backgroundColor, a.href, a.command,
                  a.mono, a.bold, false, a.preset, false)]
  }

  /** The concatenated text of a list of tags. */
  function Texts(tags: seq<TextTag>): string {
    if tags == [] then [] else tags[0].text + Texts(tags[1..])
  }

  lemma {:induction false} TextsAppend(a: seq<TextTag>, b: seq<TextTag>)
    ensures Texts(a + b) == Texts(a) + Texts(b)
  {
    if a == [] {
      assert a + b == b;
    } else {
      assert (a + b)[1..] == a[1..] + b;
      TextsAppend(a[1..], b);
    }
  }

  /**
   * A merge keeps both texts in order and the first tag's style, except that
   * the merged tag is never a prompt and never a player command.
   */
  lemma CombineMerges(a: TextTag, b: TextTag)
    ensures Texts(Combine(a, b)) == a.text + b.text
    ensures CanCombineWith(a, b) ==>
              |Combine(a, b)| == 1 &&
              StyleOf(Combine(a, b)[0]) == StyleOf(a).(isPrompt := false, playerCommand := false)
    ensures !CanCombineWith(a, b) ==> Combine(a, b) == [a, b]
  {
    if !CanCombineWith(a, b) {
      assert Texts([a, b]) == a.text + Texts([b]);
      assert Texts([b]) == b.text + Texts([]);
    } else {
      var m := Combine(a, b)[0];
      assert Texts([m]) == m.text + Texts([]);
    }
  }

  /** One step of the `reduce` in `combine(tags:)`. */
  function CombineStep(list: seq<TextTag>, next: TextTag): (r: seq<TextTag>)
    ensures r != []
  {
    if list == [] then [next]
    else list[..|list| - 1] + Combine(list[|list| - 1], next)
  }

  function CombineFrom(list: seq<TextTag>, tags: seq<TextTag>): seq<TextTag>
    decreases |tags|
  {
    if tags == [] then list else CombineFrom(CombineStep(list, tags[0]), tags[1..])
  }

  /** `TextTag.combine(tags:)`. */
  function CombineAll(tags: seq<TextTag>): seq<TextTag> {
    CombineFrom([], tags)
  }

  lemma CombineStepTexts(list: seq<TextTag>, next: TextTag)
    ensures Texts(CombineStep(list, next)) == Texts(list) + next.text
    ensures |CombineStep(list, next)| <= |list| + 1
  {
    if list == [] {
      assert Texts([next]) == next.text + Texts([]);
    } else {
      var init := list[..|list| - 1];
      var last := list[|list| - 1];
      assert list == init + [last];
      TextsAppend(init, [last]);
      assert Texts([last]) == last.text + Texts([]);
      CombineMerges(last, next);
      TextsAppend(init, Combine(last, next));
    }
  }

  lemma {:induction false} CombineFromTexts(list: seq<TextTag>, tags: seq<TextTag>)
    ensures Texts(CombineFrom(list, tags)) == Texts(list) + Texts(tags)
    ensures |CombineFrom(list, tags)| <= |list| + |tags|
    decreases |tags|
  {
    if tags != [] {
      CombineStepTexts(list, tags[0]);
      CombineFromTexts(CombineStep(list, tags[0]), tags[1..]);
    }
  }

  /** Combining keeps the whole text, in order, and never adds tags. */
  lemma CombineAllKeepsText(tags: seq<TextTag>)
    ensures Texts(CombineAll(tags)) == Texts(tags)
    ensures |CombineAll(tags)| <= |tags|
  {
    CombineFromTexts([], tags);
  }

  predicate NoFlags(tags: seq<TextTag>) {
    forall i :: 0 <= i < |tags| ==> !tags[i].isPrompt && !tags[i].playerCommand
  }

  predicate NoAdjacentCombinable(tags: seq<TextTag>) {
    forall i :: 0 <= i < |tags| - 1 ==> !CanCombineWith(tags[i], tags[i + 1])
  }

  lemma CombineStepSeparates(list: seq<TextTag>, next: TextTag)
    requires NoFlags(list) && NoFlags([next]) && NoAdjacentCombinable(list)
    ensures NoFlags(CombineStep(list, next)) && NoAdjacentCombinable(CombineStep(list, next))
  {
    if list != [] {
      var init := list[..|list| - 1];
      var last := list[|list| - 1];
      var r := CombineStep(list, next);
      if CanCombineWith(last, next) {
        CombineMerges(last, next);
        var m := Combine(last, next)[0];
        assert r == init + [m];
        assert StyleOf(m) == StyleOf(last);
        forall i | 0 <= i < |r| - 1
          ensures !CanCombineWith(r[i], r[i + 1])
        {
          if i + 1 == |r| - 1 {
            assert r[i] == list[i] && r[i + 1] == m;
            assert !CanCombineWith(list[i], list[i + 1]);
          } else {
            assert r[i] == list[i] && r[i + 1] == list[i + 1];
          }
        }
      } else {
        assert r == list + [next];
      }
    }
  }

  lemma {:induction false} CombineFromSeparates(list: seq<TextTag>, tags: seq<TextTag>)
    requires NoFlags(list) && NoFlags(tags) && NoAdjacentCombinable(list)
    ensures NoAdjacentCombinable(CombineFrom(list, tags))
    decreases |tags|
  {
    if tags != [] {
      assert NoFlags([tags[0]]);
      CombineStepSeparates(list, tags[0]);
      CombineFromSeparates(CombineStep(list, tags[0]), tags[1..]);
    }
  }

  /**
   * Among tags that are neither prompts nor player commands, the result never
   * has two neighbours that could still be merged.
   */
  lemma CombineAllSeparates(tags: seq<TextTag>)
    requires NoFlags(tags)
    ensures NoAdjacentCombinable(CombineAll(tags))
  {
    CombineFromSeparates([], tags);
  }

  /**
   * With prompts the merge can stop early: a plain tag followed by two equal
   * prompt tags gives two tags that could still be merged, because the merged
   * prompt is no longer a prompt.
   */
  lemma PromptMergeLeavesCombinableNeighbours()
    ensures var plain := TagFor("a", "", false, None);
            var prompt := TagFor(">", "", false, None).(isPrompt := true);
            var r := CombineAll([plain, prompt, prompt]);
            |r| == 2 && CanCombineWith(r[0], r[1])
  {
    var plain := TagFor("a", "", false, None);
    var prompt := TagFor(">", "", false, None).(isPrompt := true);
    assert CombineStep([], plain) == [plain];
    assert CombineStep([plain], prompt) == [plain, prompt];
    var merged := TextTag(">>", "", None, None, None, None, false, false, false, None, false);
    assert CanCombineWith(prompt, prompt);
    assert prompt.text + prompt.text == ">>";
    assert Combine(prompt, prompt) == [merged];
    assert [plain, prompt][..1] == [plain];
    assert CombineStep([plain, prompt], prompt) == [plain, merged];
    var tags := [plain, prompt, prompt];
    assert tags[1..] == [prompt, prompt] && tags[1..][1..] == [prompt];
    assert CombineAll(tags) == CombineFrom([plain], [prompt, prompt]);
    assert CombineFrom([plain], [prompt, prompt]) == CombineFrom([plain, prompt], [prompt]);
    assert CombineFrom([plain, prompt], [prompt]) == CombineFrom([plain, merged], []);
  }
}
