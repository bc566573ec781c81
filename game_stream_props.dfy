/**
 * What `GameStream` promises across tokens: the end-of-text newline rules,
 * buffering before and after setup, prompts that flush or end a read, the
 * commands and variables that only ever grow, and what the compass, room
 * object and vitals tags leave in the game's variables.
 */
module StreamProps {
  import opened Wrappers
  import opened Strs
  import opened Tokenizer
  import opened TextTags
  import opened Streams

  // ---------------------------------------------------------------------------
  // End of text
  // ---------------------------------------------------------------------------

  const Eot: StreamToken := Text("\n")

  /** The guards of the `eot` case that come before the `ignoreNextEot` flag. */
  predicate EotReachesFlag(st: StreamState) {
    st.lastToken.Some? && Name(st.lastToken.value) !in IgnoredEot && !st.inStream
    && Name(st.lastToken.value) != "prompt"
  }

  /**
   * An end of text gives a newline exactly when it passes all the guards and
   * no newline is to be swallowed; the flag is spent by the one end of text
   * it swallows and by no other.
   */
  lemma EotNewlineIff(st: StreamState)
    ensures var r := TokenTag(st, Eot);
            && (r.1.Some? <==> EotReachesFlag(st) && !st.ignoreNextEot)
            && (r.1.Some? ==> r.1.value == TagFor("\n", "", false, None))
            && r.0.ignoreNextEot == (st.ignoreNextEot && !EotReachesFlag(st))
            && r.0.lastToken == Some(Eot)
  {
  }

  const Newline: TextTag := TagFor("\n", "", false, None)

  /** After setup, an end of text either adds one newline to the buffer or is swallowed. */
  lemma EotStep(st: StreamState, now: string, ignore: Option<string -> bool>)
    requires st.isSetup
    ensures StreamStep(st, Eot, now, ignore)
         == Continue(st.(ignoreNextEot := st.ignoreNextEot && !EotReachesFlag(st),
                         lastToken := Some(Eot),
                         tags := st.tags + if EotReachesFlag(st) && !st.ignoreNextEot then [Newline] else []))
  {
    assert ProcessedState(st, Eot, now, ignore) == st;
    EotNewlineIff(st);
  }

  function PopStream(): StreamToken {
    Tag("popstream", [], [])
  }

  /** Leaving a stream arms the flag exactly when the stream is one of the four listed. */
  lemma PopStreamArmsFlag(st: StreamState, now: string, ignore: Option<string -> bool>)
    ensures StreamStep(st, PopStream(), now, ignore)
         == Continue(st.(ignoreNextEot := st.lastStreamId in IgnoreNextEotList, inStream := false,
                         lastStreamId := "", lastToken := Some(PopStream())))
  {
    assert ProcessedState(st, PopStream(), now, ignore) == PopStreamCase(st);
  }

  /** The state after an end of text, once setup is over. */
  function EotAfter(st: StreamState): StreamState {
    st.(ignoreNextEot := st.ignoreNextEot && !EotReachesFlag(st),
        lastToken := Some(Eot),
        tags := st.tags + if EotReachesFlag(st) && !st.ignoreNextEot then [Newline] else [])
  }

  function PopStreamAfter(st: StreamState): StreamState {
    st.(ignoreNextEot := st.lastStreamId in IgnoreNextEotList, inStream := false,
        lastStreamId := "", lastToken := Some(PopStream()))
  }

  lemma EotThen(st: StreamState, rest: seq<StreamToken>, now: string, ignore: Option<string -> bool>)
    requires st.isSetup && AllProcessOk(rest)
    ensures AllProcessOk([Eot] + rest)
    ensures StreamTokens(st, [Eot] + rest, now, ignore) == StreamTokens(EotAfter(st), rest, now, ignore)
  {
    EotStep(st, now, ignore);
    StreamTokensContinue(st, Eot, rest, now, ignore);
  }

  lemma PopStreamThen(st: StreamState, rest: seq<StreamToken>, now: string, ignore: Option<string -> bool>)
    requires AllProcessOk(rest)
    ensures AllProcessOk([PopStream()] + rest)
    ensures StreamTokens(st, [PopStream()] + rest, now, ignore) == StreamTokens(PopStreamAfter(st), rest, now, ignore)
  {
    PopStreamArmsFlag(st, now, ignore);
    StreamTokensContinue(st, PopStream(), rest, now, ignore);
  }

  lemma PopStreamAndEotNotIgnored()
    ensures "popstream" !in IgnoredEot && "eot" !in IgnoredEot
  {
  }

  /** Right after a stream closes, an end of text passes the guards before the flag. */
  lemma EotReachesFlagAfterPopStream(st: StreamState)
    ensures EotReachesFlag(PopStreamAfter(st))
  {
    PopStreamAndEotNotIgnored();
  }

  /** Right after an end of text, the next one passes the guards unless a stream is open. */
  lemma EotReachesFlagAfterEot(st: StreamState)
    ensures EotReachesFlag(EotAfter(st)) <==> !st.inStream
  {
    PopStreamAndEotNotIgnored();
  }

  /**
   * After the "inv" stream closes, of two ends of text only the second gives
   * a newline; after a stream not in the list both do.
   */
  lemma PopStreamSwallowsOneEot(st: StreamState, now: string, ignore: Option<string -> bool>)
    requires st.isSetup
    ensures AllProcessOk([PopStream(), Eot, Eot])
    ensures st.lastStreamId in IgnoreNextEotList ==>
              StreamTokens(st, [PopStream(), Eot, Eot], now, ignore).tags == st.tags + [Newline]
    ensures st.lastStreamId !in IgnoreNextEotList ==>
              StreamTokens(st, [PopStream(), Eot, Eot], now, ignore).tags == st.tags + [Newline, Newline]
  {
    var s1 := PopStreamAfter(st);
    var s2 := EotAfter(s1);
    var s3 := EotAfter(s2);
    EotReachesFlagAfterPopStream(st);
    EotReachesFlagAfterEot(s1);
    if st.lastStreamId in IgnoreNextEotList {
      assert s2.tags == st.tags;
    } else {
      assert s3.tags == (st.tags + [Newline]) + [Newline];
      assert (st.tags + [Newline]) + [Newline] == st.tags + [Newline, Newline];
    }
    assert AllProcessOk([Eot]) && StreamTokens(s2, [Eot], now, ignore) == s3 by {
      EotThen(s2, [], now, ignore);
      assert [Eot] + [] == [Eot];
    }
    assert AllProcessOk([Eot, Eot]) && StreamTokens(s1, [Eot, Eot], now, ignore) == s3 by {
      EotThen(s1, [Eot], now, ignore);
      assert [Eot] + [Eot] == [Eot, Eot];
    }
    PopStreamThen(st, [Eot, Eot], now, ignore);
    assert [PopStream()] + [Eot, Eot] == [PopStream(), Eot, Eot];
  }

  /** A token that lets the loop go on hands the next state to the rest of the tokens. */
  lemma StreamTokensContinue(st: StreamState, token: StreamToken, rest: seq<StreamToken>, now: string,
                             ignore: Option<string -> bool>)
    requires ProcessOk(token) && AllProcessOk(rest) && StreamStep(st, token, now, ignore).Continue?
    ensures AllProcessOk([token] + rest)
    ensures StreamTokens(st, [token] + rest, now, ignore)
         == StreamTokens(StreamStep(st, token, now, ignore).state, rest, now, ignore)
  {
    var tokens := [token] + rest;
    assert tokens[0] == token && tokens[1..] == rest;
    assert forall i :: 1 <= i < |tokens| ==> tokens[i] == rest[i - 1];
  }

  // ---------------------------------------------------------------------------
  // Buffering and prompts
  // ---------------------------------------------------------------------------

  predicate IsEndSetup(t: StreamToken) {
    t.Tag? && t.name == "endsetup"
  }

  /** `tagForToken` leaves the buffer, the setup flag, the commands and the variables alone. */
  lemma TokenTagFrame(st: StreamState, token: StreamToken)
    ensures var r := TokenTag(st, token).0;
            r.tags == st.tags && r.isSetup == st.isSetup && r.commands == st.commands && r.vars == st.vars
  {
  }

  /** Neither `processToken` nor `tagForToken` touches the buffer; only `endsetup` sets the setup flag. */
  lemma StepKeepsBuffer(st: StreamState, token: StreamToken, now: string, ignore: Option<string -> bool>)
    requires ProcessOk(token)
    ensures var r := TokenTag(ProcessedState(st, token, now, ignore), token).0;
            r.tags == st.tags && r.isSetup == (st.isSetup || IsEndSetup(token))
  {
    TokenTagFrame(ProcessedState(st, token, now, ignore), token);
  }

  /**
   * Before `endsetup`, every tag is flushed as soon as it is made: the buffer
   * stays empty and the setup flag stays down.
   */
  lemma {:induction false} NoBufferingBeforeSetup(st: StreamState, tokens: seq<StreamToken>, now: string,
                                                  ignore: Option<string -> bool>)
    requires AllProcessOk(tokens) && !st.isSetup && st.tags == []
    requires forall i :: 0 <= i < |tokens| ==> !IsEndSetup(tokens[i])
    ensures StreamTokens(st, tokens, now, ignore).tags == []
    ensures !StreamTokens(st, tokens, now, ignore).isSetup
    decreases |tokens|
  {
    if tokens != [] {
      StepKeepsBuffer(st, tokens[0], now, ignore);
      match StreamStep(st, tokens[0], now, ignore)
      case Stop(s) =>
      case Continue(s) =>
        assert AllProcessOk(tokens[1..]);
        assert forall i :: 0 <= i < |tokens[1..]| ==> !IsEndSetup(tokens[1..][i]);
        NoBufferingBeforeSetup(s, tokens[1..], now, ignore);
    }
  }

  /** Once setup is over, text is held back in the buffer rather than shown. */
  lemma TextBufferedAfterSetup(st: StreamState, s: string, now: string, ignore: Option<string -> bool>)
    requires st.isSetup && s != "\n"
    ensures StreamStep(st, Text(s), now, ignore)
         == Continue(st.(tags := st.tags + [TextTagFor(st, Text(s))], lastToken := Some(Text(s))))
  {
  }

  function Prompt(attrs: seq<Attribute>, children: seq<StreamToken>): StreamToken {
    Tag("prompt", attrs, children)
  }

  /**
   * A prompt with nothing buffered ends the read: the prompt's variables are
   * recorded and the tokens after it are never looked at.
   */
  lemma LonePromptEndsRead(st: StreamState, attrs: seq<Attribute>, children: seq<StreamToken>,
                           rest: seq<StreamToken>, now: string, ignore: Option<string -> bool>)
    requires st.tags == [] && AllProcessOk(rest)
    ensures AllProcessOk([Prompt(attrs, children)] + rest)
    ensures StreamTokens(st, [Prompt(attrs, children)] + rest, now, ignore)
         == PromptCase(st, Prompt(attrs, children), now).(lastToken := Some(Prompt(attrs, children)))
  {
    var p := Prompt(attrs, children);
    var tokens := [p] + rest;
    assert tokens[0] == p;
    assert forall i :: 1 <= i < |tokens| ==> tokens[i] == rest[i - 1];
    PromptStops(st, attrs, children, now, ignore);
  }

  /** The step of a prompt with nothing buffered is the last one. */
  lemma PromptStops(st: StreamState, attrs: seq<Attribute>, children: seq<StreamToken>,
                    now: string, ignore: Option<string -> bool>)
    requires st.tags == []
    ensures var p := Prompt(attrs, children);
            StreamStep(st, p, now, ignore) == Stop(PromptCase(st, p, now).(lastToken := Some(p)))
  {
    var p := Prompt(attrs, children);
    var s1 := PromptCase(st, p, now);
    assert ProcessedState(st, p, now, ignore) == s1;
    assert TagCase(s1, p).0 == s1;
  }

  /**
   * A prompt after buffered text flushes the buffer and the prompt as one
   * combined text command that keeps all of their text, in order.
   */
  lemma PromptFlushes(st: StreamState, attrs: seq<Attribute>, children: seq<StreamToken>,
                      now: string, ignore: Option<string -> bool>)
    requires st.tags != []
    ensures var p := Prompt(attrs, children);
            var r := StreamStep(st, p, now, ignore);
            var promptTag := CreateTag(PromptCase(st, p, now), p).(isPrompt := true);
            && r.Continue?
            && r.state.tags == []
            && r.state.commands == st.commands + [TextCommand(CombineAll(st.tags + [promptTag]))]
            && Texts(CombineAll(st.tags + [promptTag])) == Texts(st.tags) + promptTag.text
  {
    var p := Prompt(attrs, children);
    var s1 := PromptCase(st, p, now);
    var promptTag := CreateTag(s1, p).(isPrompt := true);
    assert ProcessedState(st, p, now, ignore) == s1;
    assert TagCase(s1, p) == (s1, Some(promptTag));
    CombineAllKeepsText(st.tags + [promptTag]);
    TextsAppend(st.tags, [promptTag]);
    assert Texts([promptTag]) == promptTag.text + Texts([]);
  }

  // ---------------------------------------------------------------------------
  // What only grows
  // ---------------------------------------------------------------------------

  /** The commands of a `dialogdata` tag: one vital per progress bar, in order. */
  function VitalsCommands(bars: seq<StreamToken>): (r: seq<StreamCommand>)
    requires IntegerVitals(bars)
    ensures |r| == |bars|
    decreases |bars|
  {
    if bars == [] then []
    else
      IntegerVitalsTail(bars);
      [Vitals(Attr(bars[0], "id").GetOr(""), ParseInt(Attr(bars[0], "value").GetOr("0")).value)]
      + VitalsCommands(bars[1..])
  }

  /** The `i`th command is the `i`th bar's id with its value read as an integer. */
  lemma {:induction false} VitalsCommandAt(bars: seq<StreamToken>, i: nat)
    requires IntegerVitals(bars) && i < |bars|
    ensures VitalsCommands(bars)[i]
         == Vitals(Attr(bars[i], "id").GetOr(""), ParseInt(Attr(bars[i], "value").GetOr("0")).value)
    decreases i
  {
    if i > 0 {
      IntegerVitalsTail(bars);
      VitalsCommandAt(bars[1..], i - 1);
      assert bars[1..][i - 1] == bars[i];
    }
  }

  /**
   * `dialogdata` emits one vital per progress bar, in order, and writes a
   * variable named after each.
   */
  lemma VitalsFromEffect(st: StreamState, bars: seq<StreamToken>)
    requires IntegerVitals(bars)
    ensures VitalsFrom(st, bars).commands == st.commands + VitalsCommands(bars)
    ensures forall i :: 0 <= i < |bars| ==> Attr(bars[i], "id").GetOr("") in VitalsFrom(st, bars).vars
  {
    VitalsEmitted(st, bars);
    VitalsWritten(st, bars);
  }

  lemma IntegerVitalsTail(bars: seq<StreamToken>)
    requires bars != [] && IntegerVitals(bars)
    ensures IntegerVitals(bars[1..])
  {
    assert forall i :: 0 <= i < |bars[1..]| ==> bars[1..][i] == bars[i + 1];
  }

  lemma {:induction false} VitalsEmitted(st: StreamState, bars: seq<StreamToken>)
    requires IntegerVitals(bars)
    ensures VitalsFrom(st, bars).commands == st.commands + VitalsCommands(bars)
    decreases |bars|
  {
    if bars != [] {
      var name := Attr(bars[0], "id").GetOr("");
      var value := Attr(bars[0], "value").GetOr("0");
      var c := Vitals(name, ParseInt(value).value);
      var st1 := st.(vars := st.vars[name := value], commands := st.commands + [c]);
      IntegerVitalsTail(bars);
      var rest := VitalsCommands(bars[1..]);
      VitalsEmitted(st1, bars[1..]);
      calc {
        VitalsFrom(st, bars).commands;
        VitalsFrom(st1, bars[1..]).commands;
        st.commands + [c] + rest;
        st.commands + ([c] + rest);
        st.commands + VitalsCommands(bars);
      }
    }
  }

  lemma {:induction false} VitalsWritten(st: StreamState, bars: seq<StreamToken>)
    requires IntegerVitals(bars)
    ensures forall i :: 0 <= i < |bars| ==> Attr(bars[i], "id").GetOr("") in VitalsFrom(st, bars).vars
    decreases |bars|
  {
    if bars != [] {
      var name := Attr(bars[0], "id").GetOr("");
      var value := Attr(bars[0], "value").GetOr("0");
      var st1 := st.(vars := st.vars[name := value],
                     commands := st.commands + [Vitals(name, ParseInt(value).value)]);
      IntegerVitalsTail(bars);
      VitalsWritten(st1, bars[1..]);
      assert VitalsFrom(st, bars) == VitalsFrom(st1, bars[1..]);
      forall i | 1 <= i < |bars|
        ensures Attr(bars[i], "id").GetOr("") in VitalsFrom(st, bars).vars
      {
        assert bars[1..][i - 1] == bars[i];
      }
    }
  }

  /** One token appends to the commands and adds variables; it never takes any back. */
  lemma StepOnlyGrows(st: StreamState, token: StreamToken, now: string, ignore: Option<string -> bool>)
    requires ProcessOk(token)
    ensures st.commands <= StreamStep(st, token, now, ignore).state.commands
    ensures st.vars.Keys <= StreamStep(st, token, now, ignore).state.vars.Keys
  {
    TokenTagFrame(ProcessedState(st, token, now, ignore), token);
  }

  /** Commands handed to the callback, and variables once set, are never withdrawn. */
  lemma {:induction false} StreamOnlyGrows(st: StreamState, tokens: seq<StreamToken>, now: string,
                                           ignore: Option<string -> bool>)
    requires AllProcessOk(tokens)
    ensures st.commands <= StreamTokens(st, tokens, now, ignore).commands
    ensures st.vars.Keys <= StreamTokens(st, tokens, now, ignore).vars.Keys
    decreases |tokens|
  {
    if tokens != [] {
      StepOnlyGrows(st, tokens[0], now, ignore);
      match StreamStep(st, tokens[0], now, ignore)
      case Stop(s) =>
      case Continue(s) =>
        assert AllProcessOk(tokens[1..]);
        StreamOnlyGrows(s, tokens[1..], now, ignore);
    }
  }

  // ---------------------------------------------------------------------------
  // Hands, streams, compass, room objects
  // ---------------------------------------------------------------------------

  /** A token without a display tag only changes the state the rest of the tokens start from. */
  lemma QuietThen(st: StreamState, token: StreamToken, rest: seq<StreamToken>, now: string,
                  ignore: Option<string -> bool>)
    requires ProcessOk(token) && AllProcessOk(rest)
    requires TokenTag(ProcessedState(st, token, now, ignore), token).1.None?
    ensures AllProcessOk([token] + rest)
    ensures StreamTokens(st, [token] + rest, now, ignore)
         == StreamTokens(TokenTag(ProcessedState(st, token, now, ignore), token).0, rest, now, ignore)
  {
    var r := TokenTag(ProcessedState(st, token, now, ignore), token);
    assert StreamStep(st, token, now, ignore) == Continue(r.0);
    StreamTokensContinue(st, token, rest, now, ignore);
  }

  lemma HandProcessed(st: StreamState, hand: StreamToken, now: string, ignore: Option<string -> bool>)
    requires hand.Tag? && (hand.name == "left" || hand.name == "right")
    ensures ProcessedState(st, hand, now, ignore) == HandCase(st, hand, hand.name)
    ensures TokenTag(HandCase(st, hand, hand.name), hand)
         == (HandCase(st, hand, hand.name).(lastToken := Some(hand)), None)
  {
  }

  /** The state after a `left` tag then a `right` tag. */
  function TwoHands(st: StreamState, left: StreamToken, right: StreamToken): StreamState {
    var s1 := HandCase(st, left, "left").(lastToken := Some(left));
    HandCase(s1, right, "right").(lastToken := Some(right))
  }

  lemma TwoHandsVars(st: StreamState, left: StreamToken, right: StreamToken)
    ensures var r := TwoHands(st, left, right);
            && "lefthand" in r.vars && r.vars["lefthand"] == Value(left, ",")
            && "righthand" in r.vars && r.vars["righthand"] == Value(right, ",")
            && r.commands == st.commands + [Hands(Value(left, ","), Get(st.vars, "righthand", "Empty")),
                                            Hands(Value(left, ","), Value(right, ","))]
  {
    var s1 := HandCase(st, left, "left").(lastToken := Some(left));
    HandVars(st, left, "left", "lefthand", "lefthandnoun");
    HandVars(s1, right, "right", "righthand", "righthandnoun");
    assert s1.vars["lefthand"] == Value(left, ",");
  }

  /** A hand tag writes `<hand>hand` and `<hand>handnoun`, then reports both hands. */
  lemma HandVars(st: StreamState, token: StreamToken, hand: string, handVar: string, nounVar: string)
    requires handVar == hand + "hand" && nounVar == hand + "handnoun"
    ensures var r := HandCase(st, token, hand);
            && r.vars == st.vars[handVar := Value(token, ",")][nounVar := Attr(token, "noun").GetOr("")]
            && r.commands == st.commands + [Hands(Get(r.vars, "lefthand", "Empty"), Get(r.vars, "righthand", "Empty"))]
  {
  }

  /** A `left` tag then a `right` tag report both hands' values together. */
  lemma HandsReported(st: StreamState, left: StreamToken, right: StreamToken, now: string,
                      ignore: Option<string -> bool>)
    requires left.Tag? && left.name == "left" && right.Tag? && right.name == "right"
    ensures AllProcessOk([left, right])
    ensures var r := StreamTokens(st, [left, right], now, ignore);
            && "lefthand" in r.vars && r.vars["lefthand"] == Value(left, ",")
            && "righthand" in r.vars && r.vars["righthand"] == Value(right, ",")
            && r.commands == st.commands + [Hands(Value(left, ","), Get(st.vars, "righthand", "Empty")),
                                            Hands(Value(left, ","), Value(right, ","))]
  {
    HandProcessed(st, left, now, ignore);
    var s1 := HandCase(st, left, "left").(lastToken := Some(left));
    HandProcessed(s1, right, now, ignore);
    QuietThen(s1, right, [], now, ignore);
    assert [right] + [] == [right];
    QuietThen(st, left, [right], now, ignore);
    assert [left] + [right] == [left, right];
    assert StreamTokens(st, [left, right], now, ignore) == TwoHands(st, left, right);
    TwoHandsVars(st, left, right);
  }

  function PushStream(id: string): StreamToken {
    Tag("pushstream", [Attribute("id", id)], [])
  }

  lemma PushStreamProcessed(st: StreamState, id: string, now: string, ignore: Option<string -> bool>)
    ensures ProcessedState(st, PushStream(id), now, ignore) == st.(inStream := true, lastStreamId := Lower(id))
    ensures TokenTag(st.(inStream := true, lastStreamId := Lower(id)), PushStream(id)).1.None?
  {
    assert Attr(PushStream(id), "id") == Some(id);
  }

  /** Text inside a stream goes to that stream's window, named in lower case. */
  lemma TextGoesToStreamWindow(st: StreamState, id: string, s: string, now: string,
                               ignore: Option<string -> bool>)
    requires st.isSetup && s != "\n"
    ensures AllProcessOk([PushStream(id), Text(s)])
    ensures var r := StreamTokens(st, [PushStream(id), Text(s)], now, ignore);
            && r.inStream && r.lastStreamId == Lower(id)
            && |r.tags| == |st.tags| + 1 && r.tags[..|st.tags|] == st.tags
            && r.tags[|st.tags|].window == Lower(id)
  {
    PushStreamProcessed(st, id, now, ignore);
    var s1 := st.(inStream := true, lastStreamId := Lower(id), lastToken := Some(PushStream(id)));
    TextBufferedAfterSetup(s1, s, now, ignore);
    StreamTokensContinue(s1, Text(s), [], now, ignore);
    assert [Text(s)] + [] == [Text(s)];
    QuietThen(st, PushStream(id), [Text(s)], now, ignore);
    assert [PushStream(id)] + [Text(s)] == [PushStream(id), Text(s)];
    var s2 := s1.(tags := s1.tags + [TextTagFor(s1, Text(s))], lastToken := Some(Text(s)));
    assert StreamTokens(st, [PushStream(id), Text(s)], now, ignore) == s2;
    assert s2.tags[..|st.tags|] == st.tags;
  }

  /** The direction `d` is the full name of one of the listed direction codes. */
  predicate Listed(dirs: seq<StreamToken>, d: string)
    requires KnownDirections(dirs)
  {
    exists i :: 0 <= i < |dirs| && CompassMap[Attr(dirs[i], "value").value] == d
  }

  /**
   * After a `compass` tag each of the eleven directions is "1" when listed
   * and "0" when not, and the compass command carries exactly those eleven.
   */
  lemma CompassMarksDirections(st: StreamState, token: StreamToken)
    requires KnownDirections(Directions(Children(token)))
    ensures var dirs := Directions(Children(token));
            var r := CompassCase(st, token);
            && (forall d :: d in CompassMap.Values ==> d in r.vars && (r.vars[d] == "1" <==> Listed(dirs, d)))
            && (forall d :: d in CompassMap.Values ==> d in r.vars && (r.vars[d] == "0" <==> !Listed(dirs, d)))
            && r.commands[|r.commands| - 1].CompassCommand?
            && r.commands[|r.commands| - 1].settings.Keys == CompassMap.Values
  {
    var dirs := Directions(Children(token));
    var found := MappedDirections(dirs);
    forall d | d in CompassMap.Values
      ensures d in found <==> Listed(dirs, d)
    {
      if d in found {
        var i :| 0 <= i < |found| && found[i] == d;
        assert CompassMap[Attr(dirs[i], "value").value] == d;
      }
    }
  }

  /** Every run of `pushbold` .. `popbold` keeps at most the tokens it reads. */
  lemma {:induction false} BetweenLength(tokens: seq<StreamToken>, start: string, end: string,
                                         ignore: Option<string -> bool>, capture: bool)
    ensures |Between(tokens, start, end, ignore, capture)| <= |tokens|
    decreases |tokens|
  {
    if tokens != [] {
      BetweenLength(tokens[1..], start, end, ignore, NextCapture(tokens[0], start, end, capture));
    }
  }

  /**
   * The `roomobjs` component records its text, the monster count (which
   * reads back as the number of bold, non-ignored objects) and announces the
   * room.
   */
  lemma RoomObjectsCounted(st: StreamState, attrs: seq<Attribute>, children: seq<StreamToken>,
                           ignore: Option<string -> bool>)
    requires Attr(Tag("component", attrs, children), "id") == Some("roomobjs")
    requires |children| <= IntMax
    ensures var token := Tag("component", attrs, children);
            var monsters := Between(children, "pushbold", "popbold", ignore, false);
            var r := ComponentCase(st, token, ignore);
            && "roomobjs" in r.vars && r.vars["roomobjs"] == Value(token, "")
            && "monstercount" in r.vars && ParseInt(r.vars["monstercount"]) == Some(|monsters|)
            && "monsterlist" in r.vars && r.vars["monsterlist"] == Join(Values(monsters), "|")
            && r.commands == st.commands + [Room]
  {
    var token := Tag("component", attrs, children);
    var monsters := Between(children, "pushbold", "popbold", ignore, false);
    ContainsChar("roomobjs", ' ');
    ReplaceAbsent("roomobjs", " ", "");
    assert !("exp" <= "roomobjs") by { assert "roomobjs"[1] != "exp"[1]; }
    var st1 := WithVar(st, "roomobjs", Value(token, ""));
    var st2 := WithVar(WithVar(st1, "monsterlist", Join(Values(monsters), "|")), "monstercount", IntToString(|monsters|));
    assert ComponentCase(st, token, ignore) == Emitted(st2, Room);
    BetweenLength(children, "pushbold", "popbold", ignore, false);
    ParseIntToString(|monsters|);
  }
}
