/**
 * `GameStream`: reads the game's markup, records what each tag says in the
 * game's variables, emits `StreamCommand`s for the windows, and buffers text
 * runs until they are flushed.
 *
 * `StreamState` is the whole state the class keeps; the functions over it are
 * the specification of `processToken`, `tagForToken` and `stream`, and class
 * `GameStream` performs the same updates on its fields.  The clock reading
 * for `gametimeupdate` is the parameter `now`; the monster-count ignore
 * pattern is an abstract predicate on text.
 */
module Streams {
  import opened Wrappers
  import opened Strs
  import opened Tokenizer
  import opened TextTags

  datatype StreamCommand =
    | TextCommand(tags: seq<TextTag>)
    | ClearStream(id: string)
    | CreateWindow(name: string, title: string, ifClosed: string)
    | Vitals(name: string, value: int)
    | LaunchUrl(url: string)
    | SpellCommand(spell: string)
    | Roundtime(secondsSince1970: int)
    | Room
    | CompassCommand(settings: map<string, string>)
    | Hands(left: string, right: string)
    | Character(game: string, name: string)

  datatype StreamState = StreamState(
    isSetup: bool,
    inStream: bool,
    lastStreamId: string,
    ignoreNextEot: bool,
    mono: bool,
    bold: bool,
    lastToken: Option<StreamToken>,
    tags: seq<TextTag>,
    vars: map<string, string>,
    commands: seq<StreamCommand>)

  const IgnoredEot: seq<string> := [
    "app", "clearstream", "compass", "compdef", "component", "dialogdata", "endsetup",
    "exposecontainer", "indicator", "left", "mode", "opendialog", "nav", "output",
    "right", "streamwindow", "spell", "switchquickbar"
  ]

  const IgnoreNextEotList: seq<string> := ["experience", "inv", "popstream", "room"]

  const RoomTags: seq<string> := ["roomdesc", "roomobjs", "roomplayers", "roomexits", "roomextra"]

  const CompassMap: map<string, string> := map[
    "n" := "north", "s" := "south", "e" := "east", "w" := "west",
    "ne" := "northeast", "nw" := "northwest", "se" := "southeast", "sw" := "southwest",
    "up" := "up", "down" := "down", "out" := "out"
  ]

  /** The eleven direction names, the values of `CompassMap`. */
  const CompassNames: seq<string> := [
    "north", "south", "east", "west", "northeast", "northwest", "southeast", "southwest",
    "up", "down", "out"
  ]

  lemma CompassNamesAreTheValues()
    ensures forall d :: d in CompassNames <==> d in CompassMap.Values
    ensures |CompassNames| == 11
  {
    assert CompassMap["n"] == "north" && CompassMap["s"] == "south" && CompassMap["e"] == "east";
    assert CompassMap["w"] == "west" && CompassMap["ne"] == "northeast" && CompassMap["nw"] == "northwest";
    assert CompassMap["se"] == "southeast" && CompassMap["sw"] == "southwest" && CompassMap["up"] == "up";
    assert CompassMap["down"] == "down" && CompassMap["out"] == "out";
  }

  function Get(m: map<string, string>, key: string, default: string): string {
    if key in m then m[key] else default
  }

  // ---------------------------------------------------------------------------
  // processToken
  // ---------------------------------------------------------------------------

  /** The `dir` children with a `value`, in order. */
  function Directions(children: seq<StreamToken>): (r: seq<StreamToken>)
    ensures forall i :: 0 <= i < |r| ==> Name(r[i]) == "dir" && HasAttr(r[i], "value")
    ensures |r| <= |children|
  {
    if children == [] then []
    else (if Name(children[0]) == "dir" && HasAttr(children[0], "value") then [children[0]] else [])
         + Directions(children[1..])
  }

  /** The `progressbar` children with an `id`, in order. */
  function ProgressBars(children: seq<StreamToken>): (r: seq<StreamToken>)
    ensures forall i :: 0 <= i < |r| ==> Name(r[i]) == "progressbar" && HasAttr(r[i], "id")
  {
    if children == [] then []
    else (if Name(children[0]) == "progressbar" && HasAttr(children[0], "id") then [children[0]] else [])
         + ProgressBars(children[1..])
  }

  /** Every listed direction code is a key of the compass map (the source force-unwraps the lookup). */
  predicate KnownDirections(dirs: seq<StreamToken>) {
    forall i :: 0 <= i < |dirs| ==> Attr(dirs[i], "value").Some? && Attr(dirs[i], "value").value in CompassMap
  }

  /** Every vital's value is an integer (the source force-unwraps `Int(value)`). */
  predicate IntegerVitals(bars: seq<StreamToken>) {
    forall i :: 0 <= i < |bars| ==> ParseInt(Attr(bars[i], "value").GetOr("0")).Some?
  }

  /** The tokens on which `processToken` does not trap. */
  predicate ProcessOk(token: StreamToken) {
    token.Tag? ==>
      (token.name == "compass" ==> KnownDirections(Directions(Children(token)))) &&
      (token.name == "dialogdata" ==> IntegerVitals(ProgressBars(token.children)))
  }

  /** The full names of the listed directions, in order. */
  function MappedDirections(dirs: seq<StreamToken>): (found: seq<string>)
    requires KnownDirections(dirs)
    ensures |found| == |dirs|
    ensures forall i :: 0 <= i < |found| ==> found[i] == CompassMap[Attr(dirs[i], "value").value]
  {
    if dirs == [] then [] else [CompassMap[Attr(dirs[0], "value").value]] + MappedDirections(dirs[1..])
  }

  /** The compass settings: "1" for each found direction, "0" for each of the others. */
  function CompassSettings(found: seq<string>): map<string, string> {
    map d | d in CompassMap.Values :: if d in found then "1" else "0"
  }


  /**
   * What every case of `processToken` keeps: the buffer, the last token and
   * the setup flag are untouched, commands are only appended and variables
   * are only added or overwritten, never removed.
   */
  predicate Appends(st: StreamState, r: StreamState) {
    && r.tags == st.tags && r.lastToken == st.lastToken && r.isSetup == st.isSetup
    && st.commands <= r.commands && st.vars.Keys <= r.vars.Keys
  }

  /** The vital writes and commands of a `dialogdata` tag, in order. */
  function VitalsFrom(st: StreamState, bars: seq<StreamToken>): (r: StreamState)
    requires IntegerVitals(bars)
    ensures Appends(st, r)
    decreases |bars|
  {
    if bars == [] then st
    else
      var name := Attr(bars[0], "id").GetOr("");
      var value := Attr(bars[0], "value").GetOr("0");
      VitalsFrom(st.(vars := st.vars[name := value],
                     commands := st.commands + [Vitals(name, ParseInt(value).value)]), bars[1..])
  }

  function Emitted(st: StreamState, c: StreamCommand): StreamState {
    st.(commands := st.commands + [c])
  }

  function WithVar(st: StreamState, key: string, value: string): StreamState {
    st.(vars := st.vars[key := value])
  }

  /** `Substring.dropFirst(n)`. */
  function DropFirst(s: string, n: nat): string {
    if n <= |s| then s[n..] else []
  }

  function PromptCase(st: StreamState, token: StreamToken, now: string): (r: StreamState)
    ensures Appends(st, r)
  {
    var st1 := WithVar(st, "prompt", ReplaceAll(Value(token, ","), "&gt;", ">"));
    var st2 := WithVar(st1, "gametime", Attr(token, "time").GetOr(""));
    WithVar(st2, "gametimeupdate", now)
  }

  function RoundtimeCase(st: StreamState, token: StreamToken): (r: StreamState)
    ensures Appends(st, r)
  {
    var num := ParseInt(Attr(token, "value").GetOr(""));
    if num.Some? then Emitted(st, Roundtime(num.value)) else st
  }

  /** The `left` and `right` cases: record the hand and its noun, then report both hands. */
  function HandCase(st: StreamState, token: StreamToken, hand: string): (r: StreamState)
    ensures Appends(st, r)
  {
    var st1 := WithVar(st, hand + "hand", Value(token, ","));
    var st2 := WithVar(st1, hand + "handnoun", Attr(token, "noun").GetOr(""));
    Emitted(st2, Hands(Get(st2.vars, "lefthand", "Empty"), Get(st2.vars, "righthand", "Empty")))
  }

  function SpellCase(st: StreamState, token: StreamToken): (r: StreamState)
    ensures Appends(st, r)
  {
    Emitted(WithVar(st, "preparedspell", Value(token, ",")), SpellCommand(Value(token, ",")))
  }

  function ClearStreamCase(st: StreamState, token: StreamToken): (r: StreamState)
    ensures Appends(st, r)
  {
    var id := Attr(token, "id");
    if id.Some? then Emitted(st, ClearStream(Lower(id.value))) else st
  }

  function PushStreamCase(st: StreamState, token: StreamToken): (r: StreamState)
    ensures Appends(st, r)
  {
    var id := Attr(token, "id");
    st.(inStream := true, lastStreamId := if id.Some? then Lower(id.value) else st.lastStreamId)
  }

  function PopStreamCase(st: StreamState): (r: StreamState)
    ensures Appends(st, r)
  {
    st.(ignoreNextEot := st.lastStreamId in IgnoreNextEotList, inStream := false, lastStreamId := "")
  }

  function StreamWindowCase(st: StreamState, token: StreamToken): (r: StreamState)
    ensures Appends(st, r)
  {
    var id := Attr(token, "id");
    var subtitle := Attr(token, "subtitle");
    var st1 := if id == Some("main") && subtitle.Some? && |subtitle.value| > 3
               then WithVar(st, "roomtitle", subtitle.value[3..]) else st;
    if !st1.isSetup && id.Some? then
      Emitted(st1, CreateWindow(id.value, Attr(token, "title").GetOr(""), Attr(token, "ifClosed").GetOr("")))
    else st1
  }

  function ComponentCase(st: StreamState, token: StreamToken, ignore: Option<string -> bool>): (r: StreamState)
    ensures Appends(st, r)
  {
    var rawId := Attr(token, "id");
    if rawId.None? || "exp" <= rawId.value then st
    else
      var id := ReplaceAll(rawId.value, " ", "");
      var st1 := WithVar(st, id, Value(token, ""));
      var st2 :=
        if id == "roomobjs" then
          var monsters := Between(Children(token), "pushbold", "popbold", ignore, false);
          WithVar(WithVar(st1, "monsterlist", Join(Values(monsters), "|")), "monstercount", IntToString(|monsters|))
        else st1;
      if id in RoomTags then Emitted(st2, Room) else st2
  }

  function CompassCase(st: StreamState, token: StreamToken): (r: StreamState)
    requires KnownDirections(Directions(Children(token)))
    ensures Appends(st, r)
  {
    var settings := CompassSettings(MappedDirections(Directions(Children(token))));
    Emitted(st.(vars := st.vars + settings), CompassCommand(settings))
  }

  function IndicatorCase(st: StreamState, token: StreamToken): (r: StreamState)
    ensures Appends(st, r)
  {
    var rawId := Attr(token, "id");
    var id := if rawId.Some? then Lower(DropFirst(rawId.value, 4)) else "";
    var visible := if Attr(token, "visible") == Some("y") then "1" else "0";
    if |id| > 0 then WithVar(st, id, visible) else st
  }

  function AppCase(st: StreamState, token: StreamToken): (r: StreamState)
    ensures Appends(st, r)
  {
    var characterName := Attr(token, "char").GetOr("");
    var game := Attr(token, "game").GetOr("");
    Emitted(WithVar(WithVar(st, "charactername", characterName), "game", game), Character(game, characterName))
  }

  function LaunchUrlCase(st: StreamState, token: StreamToken): (r: StreamState)
    ensures Appends(st, r)
  {
    var url := Attr(token, "src");
    if url.Some? then Emitted(st, LaunchUrl(url.value)) else st
  }

  /** `processToken`: what a tag does to the variables, the flags and the commands. */
  function ProcessedState(st: StreamState, token: StreamToken, now: string, ignore: Option<string -> bool>): (r: StreamState)
    requires ProcessOk(token)
    ensures Appends(st, r.(isSetup := st.isSetup))
    ensures r.isSetup == (st.isSetup || (token.Tag? && token.name == "endsetup"))
  {
    if token.Text? then st
    else
      var name := token.name;
      if name == "prompt" then PromptCase(st, token, now)
      else if name == "roundtime" then RoundtimeCase(st, token)
      else if name == "left" || name == "right" then HandCase(st, token, name)
      else if name == "spell" then SpellCase(st, token)
      else if name == "pushbold" then st.(bold := true)
      else if name == "popbold" then st.(bold := false)
      else if name == "clearstream" then ClearStreamCase(st, token)
      else if name == "pushstream" then PushStreamCase(st, token)
      else if name == "popstream" then PopStreamCase(st)
      else ProcessedTail(st, token, ignore)
  }

  /** The second half of the `processToken` switch, from `streamwindow` on. */
  function ProcessedTail(st: StreamState, token: StreamToken, ignore: Option<string -> bool>): (r: StreamState)
    requires token.Tag? && ProcessOk(token)
    ensures Appends(st, r.(isSetup := st.isSetup))
    ensures r.isSetup == (st.isSetup || token.name == "endsetup")
  {
    var name := token.name;
    if name == "streamwindow" then StreamWindowCase(st, token)
    else if name == "component" then ComponentCase(st, token, ignore)
    else if name == "compass" then CompassCase(st, token)
    else if name == "indicator" then IndicatorCase(st, token)
    else if name == "dialogdata" then VitalsFrom(st, ProgressBars(token.children))
    else if name == "app" then AppCase(st, token)
    else if name == "launchurl" then LaunchUrlCase(st, token)
    else if name == "endsetup" then st.(isSetup := true)
    else st
  }

  // ---------------------------------------------------------------------------
  // tagForToken
  // ---------------------------------------------------------------------------

  /** `createTag`: the token's value with `&gt;`, `&lt;`, `&amp;` decoded, in the current bold and mono. */
  function CreateTag(st: StreamState, token: StreamToken): (t: TextTag)
    ensures t.window == "" && t.bold == st.bold && t.mono == st.mono && !t.isPrompt && !t.playerCommand
  {
    var text := ReplaceAll(ReplaceAll(ReplaceAll(Value(token, ","), "&gt;", ">"), "&lt;", "<"), "&amp;", "&");
    TagFor(text, "", false, None).(bold := st.bold, mono := st.mono)
  }

  /** The tag for a text token: window, stream trimming, the preset for "You also see", the room name style. */
  function TextTagFor(st: StreamState, token: StreamToken): TextTag {
    var t0 := CreateTag(st, token).(window := st.lastStreamId);
    var t1 := if st.inStream && (st.lastStreamId == "logons" || st.lastStreamId == "death")
              then t0.(text := Trim(t0.text, IsWhitespace)) else t0;
    var t2 := if st.lastToken.Some? && Name(st.lastToken.value) == "preset" && |t1.text| > 0
                 && "  You also see" <= t1.text
              then t1.(preset := Attr(st.lastToken.value, "id"), text := "\n" + DropFirst(t1.text, 2))
              else t1;
    if st.lastToken.Some? && Name(st.lastToken.value) == "style" && Attr(st.lastToken.value, "id") == Some("roomName")
    then t2.(preset := Some("roomname"))
    else t2
  }

  /** The `eot` case: a newline, unless the previous token, the stream or the armed flag suppresses it. */
  function EotTag(st: StreamState): (StreamState, Option<TextTag>) {
    if st.lastToken.None? || Name(st.lastToken.value) in IgnoredEot then (st, None)
    else if st.inStream then (st, None)
    else if Name(st.lastToken.value) == "prompt" then (st, None)
    else if st.ignoreNextEot then (st.(ignoreNextEot := false), None)
    else (st, Some(TagFor("\n", "", false, None)))
  }

  function OutputCase(st: StreamState, token: StreamToken): StreamState {
    var style := Attr(token, "class");
    if style.Some? then st.(mono := style.value == "mono") else st
  }

  function InStreamWindow(st: StreamState, tag: TextTag): TextTag {
    if st.inStream then tag.(window := st.lastStreamId) else tag
  }

  function LinkTag(st: StreamState, token: StreamToken): TextTag {
    InStreamWindow(st, CreateTag(st, token).(href := Attr(token, "href")))
  }

  function BoldTag(st: StreamState, token: StreamToken): TextTag {
    var t := CreateTag(st, token);
    if st.inStream then t.(bold := true, window := st.lastStreamId) else t
  }

  /** The `d` case: a command link, shown with its first child's text when that is bold or plain text. */
  function CommandTag(st: StreamState, token: StreamToken): Option<TextTag> {
    var children := Children(token);
    var tag :=
      if |children| > 0 then
        if Name(children[0]) == "b" || Name(children[0]) == "text" then Some(CreateTag(st, children[0])) else None
      else Some(CreateTag(st, token));
    var cmd := Attr(token, "cmd");
    var tag1 := if cmd.Some? && tag.Some? then Some(tag.value.(command := cmd)) else tag;
    if tag1.Some? then Some(InStreamWindow(st, tag1.value)) else tag1
  }

  function PresetTag(st: StreamState, token: StreamToken): TextTag {
    var id := Attr(token, "id");
    CreateTag(st, token).(window := st.lastStreamId, preset := if id.Some? then Some(Lower(id.value)) else None)
  }

  /** The tag of each kind of token, and the flag it changes, before `lastToken` is updated. */
  function TagCase(st: StreamState, token: StreamToken): (r: (StreamState, Option<TextTag>))
    ensures r.0 == st.(mono := r.0.mono, ignoreNextEot := r.0.ignoreNextEot)
  {
    var name := Name(token);
    if name == "text" then (st, Some(TextTagFor(st, token)))
    else if name == "eot" then EotTag(st)
    else if name == "prompt" then (st, Some(CreateTag(st, token).(isPrompt := true)))
    else if name == "output" then (OutputCase(st, token), None)
    else if name == "a" then (st, Some(LinkTag(st, token)))
    else if name == "b" then (st, Some(BoldTag(st, token)))
    else if name == "d" then (st, CommandTag(st, token))
    else if name == "preset" then (st, Some(PresetTag(st, token)))
    else (st, None)
  }

  /** `tagForToken`: the display tag of a token, if any, and the state after it. */
  function TokenTag(st: StreamState, token: StreamToken): (r: (StreamState, Option<TextTag>))
    ensures r.0.lastToken == Some(token)
  {
    var (st1, tag) := TagCase(st, token);
    (st1.(lastToken := Some(token)), tag)
  }

  // ---------------------------------------------------------------------------
  // stream
  // ---------------------------------------------------------------------------

  /** After one token the loop goes on, or `stream` returns early. */
  datatype Step = Continue(state: StreamState) | Stop(state: StreamState)

  /**
   * What `stream` does with a token's tag: return (a prompt with nothing
   * buffered), buffer the tag, or buffer and flush (before setup ends, or on
   * a prompt).
   */
  function Buffered(st: StreamState, tag: Option<TextTag>, token: StreamToken): Step {
    if tag.None? then Continue(st)
    else
      var isPrompt := Name(token) == "prompt";
      if isPrompt && |st.tags| == 0 then Stop(st)
      else
        var st1 := st.(tags := st.tags + [tag.value]);
        if !st1.isSetup || isPrompt then
          Continue(st1.(commands := st1.commands + [TextCommand(CombineAll(st1.tags))], tags := []))
        else Continue(st1)
  }

  /** One iteration of `stream`'s loop. */
  function StreamStep(st: StreamState, token: StreamToken, now: string, ignore: Option<string -> bool>): Step
    requires ProcessOk(token)
  {
    var r := TokenTag(ProcessedState(st, token, now, ignore), token);
    Buffered(r.0, r.1, token)
  }

  predicate AllProcessOk(tokens: seq<StreamToken>) {
    forall i :: 0 <= i < |tokens| ==> ProcessOk(tokens[i])
  }

  function StreamTokens(st: StreamState, tokens: seq<StreamToken>, now: string, ignore: Option<string -> bool>): StreamState
    requires AllProcessOk(tokens)
    decreases |tokens|
  {
    if tokens == [] then st
    else
      match StreamStep(st, tokens[0], now, ignore)
      case Stop(s) => s
      case Continue(s) => StreamTokens(s, tokens[1..], now, ignore)
  }

  /** The text `stream` tokenizes: every CR LF becomes LF. */
  function Normalized(data: string): string {
    ReplaceAll(data, "\r\n", "\n")
  }

  /** The inputs on which `stream` finishes without a trap. */
  predicate StreamOk(data: string) {
    Tokens(Normalized(data)).Done? && AllProcessOk(Tokens(Normalized(data)).value)
  }

  /** `stream(_ data: String)`. */
  function StreamedState(st: StreamState, data: string, now: string, ignore: Option<string -> bool>): StreamState
    requires StreamOk(data)
  {
    StreamTokens(st, Tokens(Normalized(data)).value, now, ignore)
  }

  // ---------------------------------------------------------------------------
  // The class
  // ---------------------------------------------------------------------------

  /** The part of the game context that the stream writes: its global variables. */
  class GameContext {
    var globalVars: map<string, string>

    constructor ()
      ensures globalVars == map[]
    {
      globalVars := map[];
    }
  }

  class GameStream {
    const context: GameContext
    var isSetup: bool
    var inStream: bool
    var lastStreamId: string
    var ignoreNextEot: bool
    var mono: bool
    var bold: bool
    var lastToken: Option<StreamToken>
    var tags: seq<TextTag>
    /** The commands handed to the `streamCommands` callback, in order. */
    var commands: seq<StreamCommand>
    /** The compiled `monsterCountIgnoreList`, as a predicate on text. */
    var monsterCountIgnore: Option<string -> bool>

    function Snapshot(): StreamState
      reads this, context
    {
      StreamState(isSetup, inStream, lastStreamId, ignoreNextEot, mono, bold, lastToken, tags,
                  context.globalVars, commands)
    }

    constructor (context: GameContext)
      ensures this.context == context
      ensures Snapshot() == StreamState(false, false, "", false, false, false, None, [], old(context.globalVars), [])
      ensures monsterCountIgnore.None?
    {
      this.context := context;
      isSetup := false;
      inStream := false;
      lastStreamId := "";
      ignoreNextEot := false;
      mono := false;
      bold := false;
      lastToken := None;
      tags := [];
      commands := [];
      monsterCountIgnore := None;
    }

    /** `resetSetup`. */
    method ResetSetup(isSetup: bool)
      modifies this
      ensures Snapshot() == old(Snapshot()).(isSetup := isSetup)
      ensures monsterCountIgnore == old(monsterCountIgnore)
    {
      this.isSetup := isSetup;
    }

    method SetVar(key: string, value: string)
      modifies context
      ensures Snapshot() == WithVar(old(Snapshot()), key, value)
    {
      context.globalVars := context.globalVars[key := value];
    }

    method Emit(c: StreamCommand)
      modifies this
      ensures Snapshot() == Emitted(old(Snapshot()), c)
      ensures monsterCountIgnore == old(monsterCountIgnore)
    {
      commands := commands + [c];
    }

    /** `stream`: tokenize, then process and display each token until a lone prompt. */
    method Stream(data: string, now: string)
      requires StreamOk(data)
      modifies this, context
      ensures Snapshot() == StreamedState(old(Snapshot()), data, now, old(monsterCountIgnore))
      ensures monsterCountIgnore == old(monsterCountIgnore)
    {
      var tokens := Read(Normalized(data));
      for i := 0 to |tokens|
        invariant AllProcessOk(tokens)
        invariant monsterCountIgnore == old(monsterCountIgnore)
        invariant StreamTokens(Snapshot(), tokens[i..], now, monsterCountIgnore)
               == StreamedState(old(Snapshot()), data, now, old(monsterCountIgnore))
      {
        var token := tokens[i];
        assert tokens[i..][0] == token && tokens[i..][1..] == tokens[i + 1..];
        ghost var before := Snapshot();
        ProcessToken(token, now);
        var tag := TagForToken(token);
        var stop := BufferTag(tag, token);
        assert StreamStep(before, token, now, monsterCountIgnore)
            == (if stop then Stop(Snapshot()) else Continue(Snapshot()));
        if stop {
          return;
        }
      }
    }

    /** The body of `stream`'s loop after `tagForToken`: return on a lone prompt, else buffer and maybe flush. */
    method BufferTag(tag: Option<TextTag>, token: StreamToken) returns (stop: bool)
      modifies this
      ensures Buffered(old(Snapshot()), tag, token) == (if stop then Stop(Snapshot()) else Continue(Snapshot()))
      ensures monsterCountIgnore == old(monsterCountIgnore)
    {
      stop := false;
      if tag.Some? {
        var isPrompt := Name(token) == "prompt";
        if isPrompt && |tags| == 0 {
          stop := true;
          return;
        }
        tags := tags + [tag.value];
        if !isSetup || isPrompt {
          Emit(TextCommand(CombineAll(tags)));
          tags := [];
        }
      }
    }

    /** `processToken`. */
    method ProcessToken(token: StreamToken, now: string)
      requires ProcessOk(token)
      modifies this, context
      ensures Snapshot() == ProcessedState(old(Snapshot()), token, now, monsterCountIgnore)
      ensures monsterCountIgnore == old(monsterCountIgnore)
    {
      if token.Text? {
        return;
      }
      var tagName := token.name;
      if tagName == "prompt" {
        ProcessPrompt(token, now);
      } else if tagName == "roundtime" {
        ProcessRoundtime(token);
      } else if tagName == "left" || tagName == "right" {
        ProcessHand(token, tagName);
      } else if tagName == "spell" {
        ProcessSpell(token);
      } else if tagName == "pushbold" {
        bold := true;
      } else if tagName == "popbold" {
        bold := false;
      } else if tagName == "clearstream" {
        ProcessClearStream(token);
      } else if tagName == "pushstream" {
        ProcessPushStream(token);
      } else if tagName == "popstream" {
        ProcessPopStream();
      } else {
        ProcessTail(token);
      }
    }

    /** The second half of the `processToken` switch. */
    method ProcessTail(token: StreamToken)
      requires token.Tag? && ProcessOk(token)
      modifies this, context
      ensures Snapshot() == ProcessedTail(old(Snapshot()), token, monsterCountIgnore)
      ensures monsterCountIgnore == old(monsterCountIgnore)
    {
      var tagName := token.name;
      if tagName == "streamwindow" {
        ProcessStreamWindow(token);
      } else if tagName == "component" {
        ProcessComponent(token);
      } else if tagName == "compass" {
        ProcessCompass(token);
      } else if tagName == "indicator" {
        ProcessIndicator(token);
      } else if tagName == "dialogdata" {
        ProcessVitals(ProgressBars(token.children));
      } else if tagName == "app" {
        ProcessApp(token);
      } else if tagName == "launchurl" {
        var url := Attr(token, "src");
        if url.Some? {
          Emit(LaunchUrl(url.value));
        }
      } else if tagName == "endsetup" {
        isSetup := true;
      }
    }

    /** The `roundtime` case. */
    method ProcessRoundtime(token: StreamToken)
      modifies this
      ensures Snapshot() == RoundtimeCase(old(Snapshot()), token)
      ensures monsterCountIgnore == old(monsterCountIgnore)
    {
      var num := ParseInt(Attr(token, "value").GetOr(""));
      if num.Some? {
        Emit(Roundtime(num.value));
      }
    }

    /** The `spell` case. */
    method ProcessSpell(token: StreamToken)
      modifies this, context
      ensures Snapshot() == SpellCase(old(Snapshot()), token)
      ensures monsterCountIgnore == old(monsterCountIgnore)
    {
      var spell := Value(token, ",");
      SetVar("preparedspell", spell);
      Emit(SpellCommand(spell));
    }

    /** The `clearstream` case. */
    method ProcessClearStream(token: StreamToken)
      modifies this
      ensures Snapshot() == ClearStreamCase(old(Snapshot()), token)
      ensures monsterCountIgnore == old(monsterCountIgnore)
    {
      var id := Attr(token, "id");
      if id.Some? {
        Emit(ClearStream(Lower(id.value)));
      }
    }

    /** The `pushstream` case. */
    method ProcessPushStream(token: StreamToken)
      modifies this
      ensures Snapshot() == PushStreamCase(old(Snapshot()), token)
      ensures monsterCountIgnore == old(monsterCountIgnore)
    {
      inStream := true;
      var id := Attr(token, "id");
      if id.Some? {
        lastStreamId := Lower(id.value);
      }
    }

    /** The `popstream` case: arm the flag when the closed stream is one whose `eot` is dropped. */
    method ProcessPopStream()
      modifies this
      ensures Snapshot() == PopStreamCase(old(Snapshot()))
      ensures monsterCountIgnore == old(monsterCountIgnore)
    {
      ignoreNextEot := lastStreamId in IgnoreNextEotList;
      inStream := false;
      lastStreamId := "";
    }

    /** The `prompt` case. */
    method ProcessPrompt(token: StreamToken, now: string)
      modifies context
      ensures Snapshot() == PromptCase(old(Snapshot()), token, now)
    {
      SetVar("prompt", ReplaceAll(Value(token, ","), "&gt;", ">"));
      SetVar("gametime", Attr(token, "time").GetOr(""));
      SetVar("gametimeupdate", now);
    }

    /** The `left` and `right` cases. */
    method ProcessHand(token: StreamToken, hand: string)
      modifies this, context
      ensures Snapshot() == HandCase(old(Snapshot()), token, hand)
      ensures monsterCountIgnore == old(monsterCountIgnore)
    {
      SetVar(hand + "hand", Value(token, ","));
      SetVar(hand + "handnoun", Attr(token, "noun").GetOr(""));
      Emit(Hands(Get(context.globalVars, "lefthand", "Empty"), Get(context.globalVars, "righthand", "Empty")));
    }

    /** The `compass` case. */
    method ProcessCompass(token: StreamToken)
      requires KnownDirections(Directions(Children(token)))
      modifies this, context
      ensures Snapshot() == CompassCase(old(Snapshot()), token)
      ensures monsterCountIgnore == old(monsterCountIgnore)
    {
      var settings := CompassSettingsOf(Directions(Children(token)));
      context.globalVars := context.globalVars + settings;
      Emit(CompassCommand(settings));
    }

    /** The `indicator` case. */
    method ProcessIndicator(token: StreamToken)
      modifies context
      ensures Snapshot() == IndicatorCase(old(Snapshot()), token)
    {
      var rawId := Attr(token, "id");
      var id := if rawId.Some? then Lower(DropFirst(rawId.value, 4)) else "";
      var visible := if Attr(token, "visible") == Some("y") then "1" else "0";
      if |id| > 0 {
        SetVar(id, visible);
      }
    }

    /** The `app` case. */
    method ProcessApp(token: StreamToken)
      modifies this, context
      ensures Snapshot() == AppCase(old(Snapshot()), token)
      ensures monsterCountIgnore == old(monsterCountIgnore)
    {
      var characterName := Attr(token, "char").GetOr("");
      var game := Attr(token, "game").GetOr("");
      SetVar("charactername", characterName);
      SetVar("game", game);
      Emit(Character(game, characterName));
    }

    /** The `streamwindow` case. */
    method ProcessStreamWindow(token: StreamToken)
      modifies this, context
      ensures Snapshot() == StreamWindowCase(old(Snapshot()), token)
      ensures monsterCountIgnore == old(monsterCountIgnore)
    {
      var id := Attr(token, "id");
      var subtitle := Attr(token, "subtitle");
      if id == Some("main") && subtitle.Some? && |subtitle.value| > 3 {
        SetVar("roomtitle", subtitle.value[3..]);
      }
      if !isSetup && id.Some? {
        Emit(CreateWindow(id.value, Attr(token, "title").GetOr(""), Attr(token, "ifClosed").GetOr("")));
      }
    }

    /** The `component` case. */
    method ProcessComponent(token: StreamToken)
      modifies this, context
      ensures Snapshot() == ComponentCase(old(Snapshot()), token, monsterCountIgnore)
      ensures monsterCountIgnore == old(monsterCountIgnore)
    {
      var rawId := Attr(token, "id");
      if rawId.None? {
        return;
      }
      if !("exp" <= rawId.value) {
        var id := ReplaceAll(rawId.value, " ", "");
        SetVar(id, Value(token, ""));
        if id == "roomobjs" {
          var monsters := Monsters(token, monsterCountIgnore);
          SetVar("monsterlist", Join(Values(monsters), "|"));
          SetVar("monstercount", IntToString(|monsters|));
        }
        if id in RoomTags {
          Emit(Room);
        }
      }
    }

    /** The `dialogdata` loop over the vitals. */
    method ProcessVitals(vitals: seq<StreamToken>)
      requires IntegerVitals(vitals)
      modifies this, context
      ensures Snapshot() == VitalsFrom(old(Snapshot()), vitals)
      ensures monsterCountIgnore == old(monsterCountIgnore)
    {
      for i := 0 to |vitals|
        invariant VitalsFrom(Snapshot(), vitals[i..]) == VitalsFrom(old(Snapshot()), vitals)
        invariant monsterCountIgnore == old(monsterCountIgnore)
      {
        assert vitals[i..][0] == vitals[i] && vitals[i..][1..] == vitals[i + 1..];
        var vital := vitals[i];
        var name := Attr(vital, "id").GetOr("");
        var value := Attr(vital, "value").GetOr("0");
        SetVar(name, value);
        Emit(Vitals(name, ParseInt(value).value));
      }
    }

    /** `tagForToken`. */
    method TagForToken(token: StreamToken) returns (tag: Option<TextTag>)
      modifies this
      ensures (Snapshot(), tag) == TokenTag(old(Snapshot()), token)
      ensures monsterCountIgnore == old(monsterCountIgnore)
    {
      var name := Name(token);
      if name == "text" {
        tag := TextTagOf(token);
      } else if name == "eot" {
        tag := EotTagOf();
      } else if name == "prompt" {
        tag := Some(CreateTag(Snapshot(), token).(isPrompt := true));
      } else if name == "output" {
        tag := None;
        SetOutputStyle(token);
      } else if name == "a" {
        var t := LinkTagOf(token);
        tag := Some(t);
      } else if name == "b" {
        var t := BoldTagOf(token);
        tag := Some(t);
      } else if name == "d" {
        tag := CommandTagOf(token);
      } else if name == "preset" {
        var id := Attr(token, "id");
        var t := CreateTag(Snapshot(), token).(window := lastStreamId);
        tag := Some(t.(preset := if id.Some? then Some(Lower(id.value)) else None));
      } else {
        tag := None;
      }
      lastToken := Some(token);
    }

    /** The `a` case of `tagForToken`. */
    method LinkTagOf(token: StreamToken) returns (t: TextTag)
      ensures t == LinkTag(Snapshot(), token)
    {
      t := CreateTag(Snapshot(), token).(href := Attr(token, "href"));
      if inStream {
        t := t.(window := lastStreamId);
      }
    }

    /** The `b` case of `tagForToken`. */
    method BoldTagOf(token: StreamToken) returns (t: TextTag)
      ensures t == BoldTag(Snapshot(), token)
    {
      t := CreateTag(Snapshot(), token);
      if inStream {
        t := t.(bold := true, window := lastStreamId);
      }
    }

    /** The `eot` case of `tagForToken`. */
    method EotTagOf() returns (tag: Option<TextTag>)
      modifies this
      ensures (Snapshot(), tag) == EotTag(old(Snapshot()))
      ensures monsterCountIgnore == old(monsterCountIgnore)
    {
      tag := None;
      if lastToken.Some? && Name(lastToken.value) !in IgnoredEot && !inStream && Name(lastToken.value) != "prompt" {
        if ignoreNextEot {
          ignoreNextEot := false;
        } else {
          tag := Some(TagFor("\n", "", false, None));
        }
      }
    }

    /** The `output` case of `tagForToken`. */
    method SetOutputStyle(token: StreamToken)
      modifies this
      ensures Snapshot() == OutputCase(old(Snapshot()), token)
      ensures monsterCountIgnore == old(monsterCountIgnore)
    {
      var style := Attr(token, "class");
      if style.Some? {
        if style.value == "mono" {
          mono := true;
        } else {
          mono := false;
        }
      }
    }

    /** The `text` case of `tagForToken`. */
    method TextTagOf(token: StreamToken) returns (tag: Option<TextTag>)
      ensures tag == Some(TextTagFor(Snapshot(), token))
    {
      var t := CreateTag(Snapshot(), token);
      t := t.(window := lastStreamId);
      if inStream && (lastStreamId == "logons" || lastStreamId == "death") {
        t := t.(text := Trim(t.text, IsWhitespace));
      }
      if lastToken.Some? && Name(lastToken.value) == "preset" && |t.text| > 0 && "  You also see" <= t.text {
        t := t.(preset := Attr(lastToken.value, "id"));
        t := t.(text := "\n" + DropFirst(t.text, 2));
      }
      if lastToken.Some? && Name(lastToken.value) == "style" && Attr(lastToken.value, "id") == Some("roomName") {
        t := t.(preset := Some("roomname"));
      }
      tag := Some(t);
    }

    /** The `d` case of `tagForToken`. */
    method CommandTagOf(token: StreamToken) returns (tag: Option<TextTag>)
      ensures tag == CommandTag(Snapshot(), token)
    {
      tag := None;
      var children := Children(token);
      if |children| > 0 {
        if Name(children[0]) == "b" || Name(children[0]) == "text" {
          tag := Some(CreateTag(Snapshot(), children[0]));
        }
      } else {
        tag := Some(CreateTag(Snapshot(), token));
      }
      var cmd := Attr(token, "cmd");
      if cmd.Some? && tag.Some? {
        tag := Some(tag.value.(command := cmd));
      }
      if inStream && tag.Some? {
        tag := Some(tag.value.(window := lastStreamId));
      }
    }
  }

  /** The `compass` loops: mark each listed direction "1", then every other direction "0". */
  method CompassSettingsOf(directions: seq<StreamToken>) returns (settings: map<string, string>)
    requires KnownDirections(directions)
    ensures settings == CompassSettings(MappedDirections(directions))
  {
    var found, marked := MarkFound(directions);
    var notFound := FilterOut(CompassNames, found);
    settings := MarkAbsent(marked, notFound);
    MappedDirectionsAreNames(directions);
    CompassSettingsExtensional(settings, found, notFound);
  }

  /** The first `compass` loop: the mapped name of each direction, each set to "1". */
  method MarkFound(directions: seq<StreamToken>) returns (found: seq<string>, settings: map<string, string>)
    requires KnownDirections(directions)
    ensures found == MappedDirections(directions)
    ensures forall d :: d in settings <==> d in found
    ensures forall d :: d in settings ==> settings[d] == "1"
  {
    found := [];
    settings := map[];
    for i := 0 to |directions|
      invariant found == MappedDirections(directions[..i])
      invariant forall d :: d in settings <==> d in found
      invariant forall d :: d in settings ==> settings[d] == "1"
    {
      MappedDirectionsPrefix(directions, i);
      var mapped := CompassMap[Attr(directions[i], "value").value];
      found := found + [mapped];
      settings := settings[mapped := "1"];
    }
    assert directions[..|directions|] == directions;
  }

  /** The second `compass` loop: every name in `names` is set to "0". */
  method MarkAbsent(m: map<string, string>, names: seq<string>) returns (r: map<string, string>)
    ensures forall d :: d in r <==> d in m || d in names
    ensures forall d :: d in r ==> r[d] == (if d in names then "0" else m[d])
  {
    r := m;
    for i := 0 to |names|
      invariant forall d :: d in r <==> d in m || d in names[..i]
      invariant forall d :: d in r ==> r[d] == (if d in names[..i] then "0" else m[d])
    {
      assert names[..i + 1] == names[..i] + [names[i]];
      r := r[names[i] := "0"];
    }
    assert names[..|names|] == names;
  }

  /** The map the two `compass` loops build is the compass settings. */
  lemma CompassSettingsExtensional(settings: map<string, string>, found: seq<string>, notFound: seq<string>)
    requires forall d :: d in notFound <==> d in CompassNames && d !in found
    requires forall d :: d in settings <==> d in found || d in notFound
    requires forall d :: d in settings ==> settings[d] == (if d in found then "1" else "0")
    requires forall i :: 0 <= i < |found| ==> found[i] in CompassMap.Values
    ensures settings == CompassSettings(found)
  {
    CompassNamesAreTheValues();
    var expected := CompassSettings(found);
    assert settings.Keys == expected.Keys;
  }

  /** Mapping one more direction of a known list appends its name. */
  lemma MappedDirectionsPrefix(dirs: seq<StreamToken>, i: nat)
    requires KnownDirections(dirs) && i < |dirs|
    ensures KnownDirections(dirs[..i]) && KnownDirections(dirs[..i + 1])
    ensures MappedDirections(dirs[..i + 1]) == MappedDirections(dirs[..i]) + [CompassMap[Attr(dirs[i], "value").value]]
  {
    var pre := dirs[..i];
    var next := dirs[..i + 1];
    assert forall k :: 0 <= k < |pre| ==> pre[k] == dirs[k];
    assert forall k :: 0 <= k < |next| ==> next[k] == dirs[k];
    assert next == pre + [dirs[i]];
    MappedDirectionsSnoc(pre, dirs[i]);
  }

  lemma MappedDirectionsSnoc(dirs: seq<StreamToken>, d: StreamToken)
    requires KnownDirections(dirs + [d])
    ensures KnownDirections(dirs)
    ensures Attr(d, "value").Some? && Attr(d, "value").value in CompassMap
    ensures MappedDirections(dirs + [d]) == MappedDirections(dirs) + [CompassMap[Attr(d, "value").value]]
  {
    assert forall i :: 0 <= i < |dirs| ==> (dirs + [d])[i] == dirs[i];
    assert (dirs + [d])[|dirs|] == d;
  }

  lemma MappedDirectionsAreNames(dirs: seq<StreamToken>)
    requires KnownDirections(dirs)
    ensures forall i :: 0 <= i < |MappedDirections(dirs)| ==> MappedDirections(dirs)[i] in CompassMap.Values
  {
    forall i | 0 <= i < |MappedDirections(dirs)|
      ensures MappedDirections(dirs)[i] in CompassMap.Values
    {
      var key := Attr(dirs[i], "value").value;
      assert key in CompassMap;
    }
  }

  /** The elements of `xs` that are not in `ys`, in order. */
  function FilterOut(xs: seq<string>, ys: seq<string>): (r: seq<string>)
    ensures forall d :: d in r <==> d in xs && d !in ys
  {
    if xs == [] then [] else (if xs[0] in ys then [] else [xs[0]]) + FilterOut(xs[1..], ys)
  }
}
