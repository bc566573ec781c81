# Outlander core, modelled in Dafny

Outlander is a client for text-based online games. The game server sends
a stream of text with XML-like markup. Outlander tokenizes it, records
what the tags say in the game's variables, merges the styled text for
display, and offers scripts a library of string functions. This project
models that core and the smaller components around it, and proves what
each one promises.

Modules, one per source component:

- `Tokenizer`, `TokenizerProps` (tokenizer.dfy, tokenizer_props.dfy):
  the markup tokenizer of GameStream.swift. The pure functions `Tokens`,
  `TagAt`, `ChildrenAt` and `AttributesFrom` follow the cursor parser
  branch by branch. They say where the Swift code never returns
  (`Diverges`) and where it traps (`Crashes`). Classes `StreamContext` and
  `TagMode` and method `Read` consume the text in place, and are proved to
  compute what the functions say.
- `TextTags` (text_tag.dfy): `TextTag` and the fold `combine(tags:)` that
  merges neighbouring runs of the same style.
- `Streams`, `StreamProps` (game_stream.dfy, game_stream_props.dfy):
  the `GameStream` state machine. `StreamState` holds its fields, the
  variable map and the emitted `StreamCommand`s. `ProcessedState`,
  `TokenTag` and `StreamedState` specify `processToken`, `tagForToken` and
  `stream`. Class `GameStream` performs the same updates on its fields.
- `FunctionExecutor`, `FunctionEvaluator` (function_evaluator.dfy): the
  script function table keyed by lower-cased name and arity, `execute`,
  and the composition in `evaluateBool`, `evaluateStrValue` and
  `evaluateValue`.
- `StringExt`, `Splitters`, `HexDecode`, `Utf8`
  (string_extensions.dfy, splitters.dfy, hex_decode.dfy, utf8.dfy): the
  `String` extensions. These are the Int subscripts, `indices`/`ranges`,
  `toBool`, the prefix and suffix tests, `trimLeadingWhitespace`, the
  quote-aware splitters and the `\xHH`/`%HH` decoder. Each loop is a
  method proved equal to a step function folded over the string.
- `InputHistory` (history.dfy): the command-line history of
  `HistoryTextField`.
- `MapNodes`, `AutoMapper` (map_node.dfy, auto_mapper.dfy): exit costs,
  room matching, the room search of a map zone, and the automapper's
  two-flag state machine.
- `LinkedLists` (linked_list.dfy): the doubly linked list, as heap
  objects with a ghost list of nodes.
- `Substitutes` (substitutes.dfy): saving and loading `substitutes.cfg`.
- `Wrappers`, `Strs`, `Seqs` (wrappers.dfy, strings.dfy, seqs.dfy): the
  parts of the Swift standard library and Foundation the model relies on.
  They cover `Optional`, string search, split, join, replace, trim,
  integer parsing and printing, filter, map and sort.

After `popstream`, the next synthetic blank line is suppressed for the
stream ids `experience`, `inv`, `popstream` and `room`
(GameStream.swift:505-510, 635-636); the model uses exactly these ids.

## Model

| member | source | states |
|---|---|---|
| Tokenizer.Attr | app/src/Outlander/Server/GameStream.swift:34-45 | a text token has no attributes; a found value is that of the first attribute whose key is exactly the asked key; nothing is found only when no attribute has that key |
| Tokenizer.FirstWithKey | app/src/Outlander/Server/GameStream.swift:38-43 | the index returned is that of the first attribute with the key, and there is none only when no key matches |
| Tokenizer.ValuesAt | app/src/Outlander/Server/GameStream.swift:47-53 | a tag's value is built from each child's own value taken with the default separator "," |
| Tokenizer.Value | app/src/Outlander/Server/GameStream.swift:47-53 | `value(separator)`: a text token's text, or its children's values joined with the separator; `ValuesAt` states the children's case |
| Tokenizer.BetweenAppend | app/src/Outlander/Server/GameStream.swift:79-93 | filtering a concatenation filters the first part and then the second with the capture flag the first part left |
| Tokenizer.BetweenWithoutMarkers | app/src/Outlander/Server/GameStream.swift:79-93 | a run without markers is kept minus ignored tokens while capturing and dropped otherwise, and leaves the flag unchanged |
| Tokenizer.BetweenMarkers | app/src/Outlander/Server/GameStream.swift:71-96 | exactly the non-ignored tokens strictly between a start marker and the following end marker are kept; the markers and everything before the start marker are not |
| Tokenizer.SkipToStart | app/src/Outlander/Server/GameStream.swift:79-82 | nothing before the first start marker is kept, and capture is on after it |
| Tokenizer.CaptureToEnd | app/src/Outlander/Server/GameStream.swift:79-93 | after a start marker every non-ignored token up to the end marker is kept and the end marker switches capture off |
| Tokenizer.FilterBetweenTags | app/src/Outlander/Server/GameStream.swift:71-96 | the loop over tokens with its capture flag returns exactly the left-to-right specification `Between`, starting with capture off |
| Tokenizer.Monsters | app/src/Outlander/Server/GameStream.swift:63-69 | a text token has no monsters; for a tag they are its children filtered between `pushbold` and `popbold` |
| Tokenizer.SpanWhile | app/src/Outlander/Server/GameStream.swift:310-317 | the length of the longest prefix whose characters all satisfy the condition: every character before it does and the one at it does not |
| Tokenizer.QuotedChar | app/src/Outlander/Server/GameStream.swift:365-376 | reading a quoted character consumes at least one character of a non-empty text |
| Tokenizer.AttributeAt | app/src/Outlander/Server/GameStream.swift:327-348 | reading an attribute never grows the text and consumes something unless the text starts with `=` |
| Tokenizer.AttributesFrom | app/src/Outlander/Server/GameStream.swift:350-363 | when the attribute loop ends, the rest of the text is empty or starts with `>` or `/` |
| Tokenizer.TextRun | app/src/Outlander/Server/GameStream.swift:166-178 | a text run stops at the end of the text or at a `<` |
| Tokenizer.TokensFrom | app/src/Outlander/Server/GameStream.swift:119-146 | when reading finishes, the whole text has been consumed |
| Tokenizer.Tokens | app/src/Outlander/Server/GameStream.swift:119-154 | `GameStreamTokenizer.read`: a text run, then a tag and a text run in turn until the text is used up; every token is well formed (`TokenizerProps.TokensWellFormed`) and `Read` computes it |
| Tokenizer.StreamContext.constructor | app/src/Outlander/Server/GameStream.swift:160-163 | a new context holds the given tokens and text |
| Tokenizer.StreamContext.ConsumeExpecting | app/src/Outlander/Server/GameStream.swift:299-302 | drops the first character exactly when it is the expected one |
| Tokenizer.StreamContext.ConsumeWhile | app/src/Outlander/Server/GameStream.swift:304-308 | drops the longest prefix satisfying the condition and nothing else |
| Tokenizer.StreamContext.ParseMany | app/src/Outlander/Server/GameStream.swift:310-317 | returns the longest prefix satisfying the condition and removes it from the text |
| Tokenizer.StreamContext.PopFirst | app/src/Outlander/Server/GameStream.swift:333 | yields and removes the first character, or nothing on empty text |
| Tokenizer.StreamContext.ParseQuotedCharacter | app/src/Outlander/Server/GameStream.swift:365-376 | a backslash or carriage return yields the following character verbatim; other characters yield themselves |
| Tokenizer.StreamContext.ParseQuotedMany | app/src/Outlander/Server/GameStream.swift:319-325 | the quoted-character loop up to the stop character returns and consumes exactly `QuotedRun` |
| Tokenizer.StreamContext.ParseAttribute | app/src/Outlander/Server/GameStream.swift:327-348 | returns and consumes exactly `AttributeAt`: no attribute for an empty key or a missing delimiter, the `streamwindow` subtitle read up to `]` and that bracket kept |
| Tokenizer.StreamContext.ParseAttributes | app/src/Outlander/Server/GameStream.swift:350-363 | on text where the loop ends, returns the attributes of `AttributesAt` in order and leaves its rest |
| Tokenizer.TextModeRead | app/src/Outlander/Server/GameStream.swift:166-178 | appends one text token for a non-empty run before `<` and none for an empty one; asks for a tag exactly when text remains |
| Tokenizer.TagMode.constructor | app/src/Outlander/Server/GameStream.swift:181-184 | a new tag reader has an empty name, no children and no attributes |
| Tokenizer.TagMode.Read | app/src/Outlander/Server/GameStream.swift:186-193 | consumes the tag `TagAt` describes (lower-cased name) and appends its token, if any |
| Tokenizer.TagMode.ReadNext | app/src/Outlander/Server/GameStream.swift:195-221 | `/>` appends a childless tag, `>` reads children and appends, a space reads attributes and goes on, anything else appends nothing, all as `TagRest` says |
| Tokenizer.TagMode.ReadChildren | app/src/Outlander/Server/GameStream.swift:223-238 | on text where the loop ends, returns the children `ChildrenAt` describes and consumes the closing tag |
| Tokenizer.TagMode.ConsumeClosingTag | app/src/Outlander/Server/GameStream.swift:240-243 | drops everything up to and including the next `>` |
| Tokenizer.TagMode.IsClosingTagNext | app/src/Outlander/Server/GameStream.swift:245-252 | true exactly when the text starts with `</`; with one character left the source traps, which the precondition excludes |
| Tokenizer.TagMode.AppendTag | app/src/Outlander/Server/GameStream.swift:254-256 | appends the tag with the reader's name, attributes and children and leaves the text |
| Tokenizer.Read | app/src/Outlander/Server/GameStream.swift:119-154 | the reader alternating text and tag modes returns exactly `Tokens(text)` whenever that run finishes |
| TokenizerProps.TokensWellFormed | app/src/Outlander/Server/GameStream.swift:166-221 | every token produced, at any depth, is well formed: text tokens are non-empty and free of `<`, tag names are lower case and free of `/`, `>` and space |
| TokenizerProps.TagAtWellFormed | app/src/Outlander/Server/GameStream.swift:186-193 | a tag read by `TagMode.read` is well formed |
| TokenizerProps.TagRestWellFormed | app/src/Outlander/Server/GameStream.swift:195-221 | `readNext` only produces well-formed tags from a well-formed name |
| TokenizerProps.ChildrenAtWellFormed | app/src/Outlander/Server/GameStream.swift:223-238 | children read by `readChildren` are well formed |
| TokenizerProps.ChildrenFromWellFormed | app/src/Outlander/Server/GameStream.swift:228-231 | the children loop only appends well-formed tokens |
| TokenizerProps.TokensFromWellFormed | app/src/Outlander/Server/GameStream.swift:131-146 | the mode alternation only appends well-formed tokens |
| TokenizerProps.TextRunWellFormed | app/src/Outlander/Server/GameStream.swift:166-171 | a text run yields a non-empty text free of `<`, or nothing |
| TokenizerProps.LowerKeepsTagNameChars | app/src/Outlander/Server/GameStream.swift:189-190 | lower-casing a tag name keeps it free of `/`, `>` and space and leaves no upper-case letter |
| TokenizerProps.QuotedRunEscaped | app/src/Outlander/Server/GameStream.swift:365-376 | reading back a value whose delimiter, backslashes and carriage returns are backslash-escaped gives the value and stops at the delimiter |
| TokenizerProps.PlainText | app/src/Outlander/Server/GameStream.swift:166-178 | text without `<` is one text token, or no token when empty |
| TokenizerProps.TokensOfTag | app/src/Outlander/Server/GameStream.swift:166-178 | text that starts with a tag has no text token before it |
| TokenizerProps.TokensFromLastTag | app/src/Outlander/Server/GameStream.swift:131-146 | a tag that uses up the text is the last token |
| TokenizerProps.TagAtName | app/src/Outlander/Server/GameStream.swift:186-193 | the tag name runs to the first `/`, `>` or space and is lower-cased |
| TokenizerProps.SelfClosingTag | app/src/Outlander/Server/GameStream.swift:199-206 | `<name/>` is one tag with the lower-cased name, no attributes and no children |
| TokenizerProps.AttributeAtEscaped | app/src/Outlander/Server/GameStream.swift:327-348 | `key=DvalueD` with the value escaped reads back as that key and value, whatever the delimiter D other than a backslash |
| TokenizerProps.AttributesOfOne | app/src/Outlander/Server/GameStream.swift:350-363 | a single escaped attribute before `/>` is read as the one attribute and the loop stops at `/` |
| TokenizerProps.TagWithAttribute | app/src/Outlander/Server/GameStream.swift:186-221 | `<name key=DvalueD/>` is one childless tag with that single attribute, the value unescaped and the key's case kept |
| TokenizerProps.SelfClosed | app/src/Outlander/Server/GameStream.swift:199-206 | `/>` closes the tag with no children and consumes both characters |
| TokenizerProps.TokensOfSoleTag | app/src/Outlander/Server/GameStream.swift:119-146 | text that is exactly one tag reads as that one token |
| TokenizerProps.ClosingTagConsumed | app/src/Outlander/Server/GameStream.swift:240-243 | a closing tag `</name>` is consumed whole |
| TokenizerProps.ChildrenOfText | app/src/Outlander/Server/GameStream.swift:223-238 | text followed by a closing tag gives that text as the only child (none when empty) and consumes everything |
| TokenizerProps.TagWithText | app/src/Outlander/Server/GameStream.swift:210-238 | `<name>text</name>` is one tag whose only child is the text |
| TokenizerProps.StreamWindowSubtitle | app/src/Outlander/Server/GameStream.swift:337-340 | a `streamwindow` subtitle is read up to the first `]` whatever its delimiter, and the value keeps the bracket |
| TokenizerProps.EscapedPlain | app/src/Outlander/Server/GameStream.swift:365-376 | a value with no delimiter, backslash or carriage return needs no escaping |
| TokenizerProps.SubtitleKeepsBracket | app/src/Outlander/Server/GameStream.swift:337-340 | every `streamwindow` subtitle value ends with `]` |
| TokenizerProps.EmptyKeyDiverges | app/src/Outlander/Server/GameStream.swift:328-360 | an attribute with an empty key is never consumed, so reading never ends |
| TokenizerProps.UnclosedTagDiverges | app/src/Outlander/Server/GameStream.swift:228-232 | a tag whose children run to the end of the text is never closed and reading never ends |
| TokenizerProps.TrailingLessThanCrashes | app/src/Outlander/Server/GameStream.swift:294-297 | a lone `<` after a tag's children makes `second` trap |
| TextTags.TagFor | app/src/Outlander/Server/GameStream.swift:423-425 | every field other than text, window, mono and preset takes its default: no colours, link or command; not bold, not a prompt, not a player command |
| TextTags.CanCombineWith | app/src/Outlander/Server/GameStream.swift:393-406 | `canCombineWith`, field by field; `CanCombineIffSameStyle` proves it holds exactly when all ten style fields agree |
| TextTags.CanCombineIffSameStyle | app/src/Outlander/Server/GameStream.swift:393-406 | two tags can be combined exactly when all ten style fields are equal; this unfolds the rule, and the partner lemma is `CombineAllSeparates` |
| TextTags.Combine | app/src/Outlander/Server/GameStream.swift:408-421 | combining two tags gives one merged tag or the two tags |
| TextTags.CombineAll | app/src/Outlander/Server/GameStream.swift:427-440 | `combine(tags:)` as the fold of `CombineStep`; `CombineAllKeepsText` and `CombineAllSeparates` prove it keeps the text and leaves no combinable neighbours |
| TextTags.CombineMerges | app/src/Outlander/Server/GameStream.swift:408-421 | the texts are kept in order; a merged tag keeps the first tag's style except that it is neither a prompt nor a player command; tags that cannot combine come back unchanged |
| TextTags.CombineStepTexts | app/src/Outlander/Server/GameStream.swift:430-436 | one step of the reduce appends the next tag's text and adds at most one tag |
| TextTags.CombineFromTexts | app/src/Outlander/Server/GameStream.swift:427-440 | the reduce keeps the concatenated text and never adds tags |
| TextTags.CombineAllKeepsText | app/src/Outlander/Server/GameStream.swift:427-440 | `combine(tags:)` keeps the whole text in order and returns at most as many tags |
| TextTags.CombineStepSeparates | app/src/Outlander/Server/GameStream.swift:430-436 | among tags without prompt or player-command flags, one step keeps neighbours uncombinable |
| TextTags.CombineFromSeparates | app/src/Outlander/Server/GameStream.swift:427-440 | the reduce over flag-free tags keeps neighbours uncombinable |
| TextTags.CombineAllSeparates | app/src/Outlander/Server/GameStream.swift:427-440 | for tags that are neither prompts nor player commands, the result never has two neighbours that could still be merged |
| TextTags.PromptMergeLeavesCombinableNeighbours | app/src/Outlander/Server/GameStream.swift:408-440 | with prompts the merge can stop early: a plain tag followed by two equal prompt tags gives two tags that could still be merged |
| LinkedLists.Node.constructor | app/src/Outlander/Infrastructure/LinkedList.swift:11-18 | a new node holds its value and links to nothing |
| LinkedLists.Unlink | app/src/Outlander/Infrastructure/LinkedList.swift:47-49 | the neighbours of the removed node link to each other, and the remaining nodes still form a chain in order; the removed node keeps its own links |
| LinkedLists.RelinkedChain | app/src/Outlander/Infrastructure/LinkedList.swift:47-49 | once the two neighbours are relinked, the nodes without the removed one form a chain |
| LinkedLists.LinkedList.constructor | app/src/Outlander/Infrastructure/LinkedList.swift:20-22 | a new list is empty |
| LinkedLists.LinkedList.Drop | app/src/Outlander/Infrastructure/LinkedList.swift:46-55 | one removal of the loop: the node leaves the chain, the passing nodes stay the same, and `first`/`last` move off it when it is the node captured as first or last |
| LinkedLists.LinkedList.Append | app/src/Outlander/Infrastructure/LinkedList.swift:28-37 | the value becomes the new last node, after all earlier nodes; an empty list gets it as both first and last |
| LinkedLists.LinkedList.Filter | app/src/Outlander/Infrastructure/LinkedList.swift:39-58 | with the intended head update, the list keeps exactly the nodes whose values pass, in order, and stays well-linked |
| LinkedLists.LinkedList.StepAsWritten | app/src/Outlander/Infrastructure/LinkedList.swift:45-56 | one pass of the loop as written keeps the scan state, with `first` tracked as the code leaves it |
| LinkedLists.LinkedList.FilterAsWritten | app/src/Outlander/Infrastructure/LinkedList.swift:39-58 | as written: the chain keeps exactly the passing nodes, but when the first two nodes both fail, `first` is left on the second one, which is no longer in the list |
| LinkedLists.HeadDropped | app/src/Outlander/Infrastructure/LinkedList.swift:49-51 | dropping a node moves `first` only when it is the node captured on entry |
| LinkedLists.HeadKept | app/src/Outlander/Infrastructure/LinkedList.swift:45-56 | a node that passes leaves `first` where it is |
| LinkedLists.HeadAfterScan | app/src/Outlander/Infrastructure/LinkedList.swift:39-58 | after the scan as written, `first` is the original first node if it passed, else the node that followed it |
| LinkedLists.ScanDone | app/src/Outlander/Infrastructure/LinkedList.swift:39-58 | a finished scan holds the passing nodes, and their values are the passing values |
| LinkedLists.ScannedRemove | app/src/Outlander/Infrastructure/LinkedList.swift:46-55 | taking a failing node out keeps the scan state and the other nodes in order |
| LinkedLists.DistinctRemove | app/src/Outlander/Infrastructure/LinkedList.swift:47-49 | removing a node keeps the others distinct |
| LinkedLists.PassingAppend | app/src/Outlander/Infrastructure/LinkedList.swift:39-58 | the passing nodes of two runs are the passing nodes of each, in order |
| LinkedLists.PassingRemove | app/src/Outlander/Infrastructure/LinkedList.swift:46-55 | removing a failing node leaves the passing nodes unchanged |
| LinkedLists.PassingAll | app/src/Outlander/Infrastructure/LinkedList.swift:39-58 | when every node passes, none is dropped |
| LinkedLists.PassingIsFilter | app/src/Outlander/Infrastructure/LinkedList.swift:39-58 | the passing nodes are the filter of the list |
| LinkedLists.ValuesOfFilter | app/src/Outlander/Infrastructure/LinkedList.swift:39-58 | the values of the passing nodes are the passing values |
| LinkedLists.ListIterator.constructor | app/src/Outlander/Infrastructure/LinkedList.swift:24-26 | the iterator starts before the first node |
| LinkedLists.ListIterator.Next | app/src/Outlander/Infrastructure/LinkedList.swift:65-72 | each call returns the next value in list order; past the end it returns nil and starts over |
| LinkedLists.Elements | app/src/Outlander/Infrastructure/LinkedList.swift:61-73 | iterating a list visits its values in order |
| Substitutes.Save | app/src/Outlander/Settings/SubstituteLoader.swift:61-77 | the text written is `SavedContent`: one line per substitute, in order |
| Substitutes.SavedContent | app/src/Outlander/Settings/SubstituteLoader.swift:64-74 | the file text: each substitute's line and a newline, in order; `SavedLines` and `SavedAppend` state it and `Save` computes it |
| Substitutes.LineAppended | app/src/Outlander/Settings/SubstituteLoader.swift:67-71 | writing the pieces of a line after some text appends exactly that line |
| Substitutes.SavedLines | app/src/Outlander/Settings/SubstituteLoader.swift:64-74 | the saved file is one line per substitute, in input order, each ending in a newline |
| Substitutes.LineShape | app/src/Outlander/Settings/SubstituteLoader.swift:67 | every line starts with `#subs {`, then the pattern, and ends with `}` |
| Substitutes.Line | app/src/Outlander/Settings/SubstituteLoader.swift:67-71 | one saved line: `#subs {pattern} {action}`, then ` {class}` when the class is not empty; `LineShape` and `LineClassSegment` state its shape |
| Substitutes.LineClassSegment | app/src/Outlander/Settings/SubstituteLoader.swift:67-71 | the class segment is written exactly when the class name is not empty; this unfolds the rule, and the partner lemma is `SavedLines` |
| Substitutes.SavedAppend | app/src/Outlander/Settings/SubstituteLoader.swift:65-74 | each substitute adds its own line at the end of the file |
| Substitutes.SubstituteContext.constructor | app/src/Outlander/Settings/SubstituteLoader.swift:31 | the context starts with no substitutes |
| Substitutes.Load | app/src/Outlander/Settings/SubstituteLoader.swift:28-59 | the list is emptied, then refilled with `Loaded(file)`: nothing without a readable file, else one substitute per match with a pattern group |
| Substitutes.ParsedFromMatches | app/src/Outlander/Settings/SubstituteLoader.swift:45-58 | loading never yields more substitutes than matches, and each comes from one match |
| Substitutes.Entry | app/src/Outlander/Settings/SubstituteLoader.swift:45-58 | the substitute one match yields: none with fewer than three groups or no pattern, a missing action or class read as empty |
| Substitutes.Loaded | app/src/Outlander/Settings/SubstituteLoader.swift:28-59 | what `load` leaves: nothing without a readable file, else the entries of the matches in order; `ParsedFromMatches`, `ParsedAll` and `SaveLoadRoundTrip` state it |
| Substitutes.ParsedAll | app/src/Outlander/Settings/SubstituteLoader.swift:45-58 | when every match has a pattern group, each match gives one substitute with that pattern |
| Substitutes.SaveLoadRoundTrip | app/src/Outlander/Settings/SubstituteLoader.swift:22-77 | loading gives the saved substitutes back, provided the expression's match on each saved line is `SavedMatch`, which holds for fields without braces or line breaks |
| Streams.FilterOut | app/src/Outlander/Server/GameStream.swift:687 | the compass names not found are exactly the names not among the found ones |
| StreamProps.PopStreamAndEotNotIgnored | app/src/Outlander/Server/GameStream.swift:484-503 | neither a closed stream nor an end of text is on the list of tokens whose following end of text is ignored |
| Tokenizer.TagAt | app/src/Outlander/Server/GameStream.swift:186-193 | reading a tag that completes consumes at least its `<` |
| Tokenizer.AttributesAt | app/src/Outlander/Server/GameStream.swift:350-363 | a finished attribute loop leaves no more text than there was after the skipped spaces |
| Tokenizer.ChildrenFrom | app/src/Outlander/Server/GameStream.swift:223-238 | a finished children loop never leaves more text than it started with |
| Tokenizer.TagRest | app/src/Outlander/Server/GameStream.swift:195-221 | `readNext`: `/>` closes a tag with no children, `>` reads the children, a space reads attributes and goes on; a finished read never leaves more text than it started with |
| Tokenizer.ChildrenAt | app/src/Outlander/Server/GameStream.swift:223-238 | `readChildren`: a text run, then the children loop up to `</`; a finished read never leaves more text than it started with |
| StringExt.BoolWordPlain | app/src/Outlander/Infrastructure/StringExtensions.swift:67 | a lower-case word without parentheses or blanks is classified as itself |
| StringExt.TrimParensAround | app/src/Outlander/Infrastructure/StringExtensions.swift:67 | parentheses around such a word come off |
| StringExt.ParenOffEndOnly | app/src/Outlander/Infrastructure/StringExtensions.swift:67 | with a blank before the `(`, only the closing parenthesis comes off |
| Splitters.PlainCommandScan | app/src/Outlander/Infrastructure/StringExtensions.swift:89-100 | over text without quotes or backslashes, the pieces joined with the delimiter grow by exactly the text read and no piece holds the delimiter |
| Streams.CompassNamesAreTheValues | app/src/Outlander/Server/GameStream.swift:520-532 | the eleven direction names are exactly the values of the compass map |
| Streams.Directions | app/src/Outlander/Server/GameStream.swift:673 | the directions kept are `dir` children that have a `value`, never more than there are children |
| Streams.ProgressBars | app/src/Outlander/Server/GameStream.swift:705 | the vitals kept are `progressbar` children that have an `id` |
| Streams.MappedDirections | app/src/Outlander/Server/GameStream.swift:678-682 | one full direction name per listed direction, in order, each the compass map's entry for its code |
| Streams.VitalsFrom | app/src/Outlander/Server/GameStream.swift:707-713 | the vitals loop only writes variables and appends commands |
| Streams.PromptCase | app/src/Outlander/Server/GameStream.swift:581-586 | the `prompt` case only writes variables |
| Streams.RoundtimeCase | app/src/Outlander/Server/GameStream.swift:588-592 | the `roundtime` case only appends a command |
| Streams.HandCase | app/src/Outlander/Server/GameStream.swift:594-610 | the `left`/`right` cases only write variables and append a command |
| Streams.SpellCase | app/src/Outlander/Server/GameStream.swift:612-616 | the `spell` case only writes a variable and appends a command |
| Streams.ClearStreamCase | app/src/Outlander/Server/GameStream.swift:624-627 | the `clearstream` case only appends a command |
| Streams.PushStreamCase | app/src/Outlander/Server/GameStream.swift:629-633 | the `pushstream` case touches neither variables nor commands nor the buffer |
| Streams.PopStreamCase | app/src/Outlander/Server/GameStream.swift:635-638 | the `popstream` case touches neither variables nor commands nor the buffer |
| Streams.StreamWindowCase | app/src/Outlander/Server/GameStream.swift:640-650 | the `streamwindow` case only writes a variable and appends a command |
| Streams.ComponentCase | app/src/Outlander/Server/GameStream.swift:652-670 | the `component` case only writes variables and appends a command |
| Streams.CompassCase | app/src/Outlander/Server/GameStream.swift:672-694 | the `compass` case only writes variables and appends a command |
| Streams.IndicatorCase | app/src/Outlander/Server/GameStream.swift:696-702 | the `indicator` case only writes a variable |
| Streams.AppCase | app/src/Outlander/Server/GameStream.swift:715-720 | the `app` case only writes variables and appends a command |
| Streams.LaunchUrlCase | app/src/Outlander/Server/GameStream.swift:722-725 | the `launchurl` case only appends a command |
| Streams.ProcessedState | app/src/Outlander/Server/GameStream.swift:577-733 | `processToken` never touches the buffer or the last token, only appends commands, never removes a variable, and sets `isSetup` exactly on `endsetup` |
| Streams.ProcessedTail | app/src/Outlander/Server/GameStream.swift:640-732 | the second half of the switch keeps the same frame and sets `isSetup` exactly on `endsetup` |
| Streams.CreateTag | app/src/Outlander/Server/GameStream.swift:836-848 | a created tag is in the main window, carries the current bold and mono, and is neither a prompt nor a player command |
| Streams.TagCase | app/src/Outlander/Server/GameStream.swift:735-829 | choosing a token's tag changes at most `mono` and `ignoreNextEot` |
| Streams.TokenTag | app/src/Outlander/Server/GameStream.swift:735-834 | after `tagForToken` the last token is the token just read |
| Streams.GameContext.constructor | app/src/Outlander/Server/GameStream.swift:468 | a new context has no variables |
| Streams.GameStream.constructor | app/src/Outlander/Server/GameStream.swift:466-546 | a new stream starts not set up, outside any stream, with no flags, no last token, an empty buffer and no commands |
| Streams.GameStream.ResetSetup | app/src/Outlander/Server/GameStream.swift:548-550 | only `isSetup` changes |
| Streams.GameStream.Stream | app/src/Outlander/Server/GameStream.swift:556-575 | on CR LF-normalised text that tokenizes without a trap, the new state is `StreamedState`: each token processed, its tag buffered, flushed before setup ends or on a prompt, stopping at a prompt with nothing buffered |
| Streams.StreamedState | app/src/Outlander/Server/GameStream.swift:556-575 | `stream(_ data: String)` on values: the tokens of the CR LF-normalised text, each processed in order; defined only on text that tokenizes without a trap |
| Streams.GameStream.BufferTag | app/src/Outlander/Server/GameStream.swift:562-573 | the loop body after `tagForToken` does exactly what `Buffered` says |
| Streams.GameStream.ProcessToken | app/src/Outlander/Server/GameStream.swift:577-639 | the new state is `ProcessedState` of the old one |
| Streams.GameStream.ProcessTail | app/src/Outlander/Server/GameStream.swift:640-732 | the new state is `ProcessedTail` of the old one |
| Streams.GameStream.ProcessRoundtime | app/src/Outlander/Server/GameStream.swift:588-592 | emits a roundtime only when the value parses as an integer |
| Streams.GameStream.ProcessSpell | app/src/Outlander/Server/GameStream.swift:612-616 | records the prepared spell and emits it |
| Streams.GameStream.ProcessClearStream | app/src/Outlander/Server/GameStream.swift:624-627 | emits a lower-cased clear-stream command when the tag has an id |
| Streams.GameStream.ProcessPushStream | app/src/Outlander/Server/GameStream.swift:629-633 | enters a stream and records its lower-cased id when it has one |
| Streams.GameStream.ProcessPopStream | app/src/Outlander/Server/GameStream.swift:635-638 | arms the flag exactly for `experience`, `inv`, `popstream` and `room`, leaves the stream and clears its id |
| Streams.GameStream.ProcessPrompt | app/src/Outlander/Server/GameStream.swift:581-586 | sets `prompt` (with `&gt;` decoded), `gametime` and `gametimeupdate` |
| Streams.GameStream.ProcessHand | app/src/Outlander/Server/GameStream.swift:594-610 | records the hand and its noun and emits both hands, "Empty" for one never set |
| Streams.GameStream.ProcessCompass | app/src/Outlander/Server/GameStream.swift:672-694 | writes the compass settings into the variables and emits exactly that map |
| Streams.GameStream.ProcessIndicator | app/src/Outlander/Server/GameStream.swift:696-702 | sets the id (first four characters dropped, lower-cased) to "1" when visible is "y", else "0"; nothing for an empty id |
| Streams.GameStream.ProcessApp | app/src/Outlander/Server/GameStream.swift:715-720 | records character name and game and emits them |
| Streams.GameStream.ProcessStreamWindow | app/src/Outlander/Server/GameStream.swift:640-650 | sets the room title from a main subtitle longer than three characters; asks for a window only before setup ends |
| Streams.GameStream.ProcessComponent | app/src/Outlander/Server/GameStream.swift:652-670 | ids starting with `exp` are skipped; others, spaces removed, get the value; `roomobjs` also sets the monster list and count; room ids emit a room command |
| Streams.GameStream.ProcessVitals | app/src/Outlander/Server/GameStream.swift:704-713 | each vital in order writes its value and emits it as an integer |
| Streams.GameStream.TagForToken | app/src/Outlander/Server/GameStream.swift:735-834 | the tag returned and the new state are exactly `TokenTag` of the old state |
| Streams.GameStream.LinkTagOf | app/src/Outlander/Server/GameStream.swift:785-791 | a link carries its `href` and, in a stream, the stream's window |
| Streams.GameStream.BoldTagOf | app/src/Outlander/Server/GameStream.swift:793-800 | bold text in a stream is bold and goes to the stream's window |
| Streams.GameStream.EotTagOf | app/src/Outlander/Server/GameStream.swift:758-770 | the newline and the flag change are exactly those of `EotTag` |
| Streams.EotTag | app/src/Outlander/Server/GameStream.swift:758-770 | the `eot` case: a newline unless the previous token, the stream or the armed flag suppresses it, the flag cleared when it does; `EotNewlineIff` and `PopStreamSwallowsOneEot` state it |
| Streams.GameStream.SetOutputStyle | app/src/Outlander/Server/GameStream.swift:776-783 | an `output` class sets mono exactly when it is "mono"; no class changes nothing |
| Streams.GameStream.TextTagOf | app/src/Outlander/Server/GameStream.swift:739-756 | the text tag is that of `TextTagFor`: stream window, trimmed in `logons`/`death`, the preset and newline for "You also see", the room-name preset |
| Streams.TextTagFor | app/src/Outlander/Server/GameStream.swift:739-756 | the text tag: the stream window, trimmed in `logons`/`death`, the preset for "You also see", the room name style; `TextTagOf` computes it and `TextGoesToStreamWindow` states the window |
| Streams.GameStream.CommandTagOf | app/src/Outlander/Server/GameStream.swift:802-820 | the command link is that of `CommandTag` |
| Streams.CommandTag | app/src/Outlander/Server/GameStream.swift:802-820 | the `d` case: a command link shown with its first child's text when that is bold or plain text; `CommandTagOf` computes it |
| Streams.CompassSettingsOf | app/src/Outlander/Server/GameStream.swift:673-688 | the two compass loops build exactly "1" for each listed direction and "0" for each other of the eleven names |
| Streams.MarkFound | app/src/Outlander/Server/GameStream.swift:675-682 | the first loop collects the mapped names in order and sets exactly those to "1" |
| Streams.MarkAbsent | app/src/Outlander/Server/GameStream.swift:684-688 | the second loop sets every given name to "0" and keeps every other entry |
| Streams.CompassSettingsExtensional | app/src/Outlander/Server/GameStream.swift:673-688 | a map with "1" for found names and "0" for the other compass names is the compass settings |
| Streams.MappedDirectionsPrefix | app/src/Outlander/Server/GameStream.swift:678-682 | one more loop step appends one more mapped name |
| Streams.MappedDirectionsAreNames | app/src/Outlander/Server/GameStream.swift:520-532 | every mapped name is one of the eleven compass names |
| StreamProps.EotNewlineIff | app/src/Outlander/Server/GameStream.swift:758-770 | an end of text gives a `"\n"` tag exactly when the previous token is known, not ignored, not a prompt, no stream is open and the flag is down; the flag is spent by the one end of text it swallows and by no other |
| StreamProps.EotStep | app/src/Outlander/Server/GameStream.swift:758-770 | after setup an end of text either adds one newline to the buffer or is swallowed, and nothing is flushed |
| StreamProps.PopStreamArmsFlag | app/src/Outlander/Server/GameStream.swift:635-638 | leaving a stream arms the flag exactly for `experience`, `inv`, `popstream` and `room`, closes the stream and clears its id |
| StreamProps.EotThen | app/src/Outlander/Server/GameStream.swift:559-573 | after setup, reading an end of text then more tokens is reading those tokens from the state after the end of text |
| StreamProps.PopStreamThen | app/src/Outlander/Server/GameStream.swift:635-638 | reading `popstream` then more tokens is reading those tokens from the state after leaving the stream |
| StreamProps.EotReachesFlagAfterPopStream | app/src/Outlander/Server/GameStream.swift:758-770 | right after a stream closes, an end of text passes every guard before the flag |
| StreamProps.EotReachesFlagAfterEot | app/src/Outlander/Server/GameStream.swift:758-770 | right after an end of text, the next one passes those guards exactly when no stream is open |
| StreamProps.PopStreamSwallowsOneEot | app/src/Outlander/Server/GameStream.swift:758-770 | after a listed stream closes, of two ends of text only the second gives a newline; after any other stream both do |
| StreamProps.StreamTokensContinue | app/src/Outlander/Server/GameStream.swift:559-574 | a token that does not end the read hands its state to the rest of the tokens |
| StreamProps.TokenTagFrame | app/src/Outlander/Server/GameStream.swift:735-834 | `tagForToken` leaves the buffer, the setup flag, the commands and the variables alone |
| StreamProps.StepKeepsBuffer | app/src/Outlander/Server/GameStream.swift:577-834 | neither `processToken` nor `tagForToken` touches the buffer, and only `endsetup` sets the setup flag |
| StreamProps.NoBufferingBeforeSetup | app/src/Outlander/Server/GameStream.swift:567-572 | before `endsetup` every tag is flushed as soon as it is made: the buffer stays empty and setup stays unfinished |
| StreamProps.TextBufferedAfterSetup | app/src/Outlander/Server/GameStream.swift:567-572 | after setup a text token's tag is appended to the buffer and not shown |
| StreamProps.LonePromptEndsRead | app/src/Outlander/Server/GameStream.swift:563-565 | a prompt with nothing buffered ends the read: its variables are recorded and the tokens after it are never looked at |
| StreamProps.PromptStops | app/src/Outlander/Server/GameStream.swift:563-565 | the step of a prompt with nothing buffered is the last one |
| StreamProps.PromptFlushes | app/src/Outlander/Server/GameStream.swift:567-572 | a prompt after buffered text flushes the buffer and the prompt tag as one combined text command and empties the buffer |
| StreamProps.VitalsCommands | app/src/Outlander/Server/GameStream.swift:707-713 | one vital command per progress bar |
| StreamProps.VitalsCommandAt | app/src/Outlander/Server/GameStream.swift:707-713 | the i-th vital command is the i-th bar's id with its value read as an integer |
| StreamProps.VitalsFromEffect | app/src/Outlander/Server/GameStream.swift:704-713 | `dialogdata` emits one vital per progress bar, in order, and writes a variable named after each |
| StreamProps.VitalsEmitted | app/src/Outlander/Server/GameStream.swift:707-713 | the vitals loop appends exactly the vital commands |
| StreamProps.VitalsWritten | app/src/Outlander/Server/GameStream.swift:707-713 | the vitals loop writes a variable for every bar |
| StreamProps.StepOnlyGrows | app/src/Outlander/Server/GameStream.swift:559-834 | one token only appends commands and adds variables |
| StreamProps.StreamOnlyGrows | app/src/Outlander/Server/GameStream.swift:556-575 | commands handed to the callback, and variables once set, are never withdrawn during a read |
| StreamProps.QuietThen | app/src/Outlander/Server/GameStream.swift:559-574 | a token without a display tag only changes the state the rest of the tokens start from |
| StreamProps.HandProcessed | app/src/Outlander/Server/GameStream.swift:594-610 | a hand tag is processed by the hand case and shows nothing |
| StreamProps.TwoHandsVars | app/src/Outlander/Server/GameStream.swift:594-610 | after `left` then `right`, both hand variables hold the tags' values and two hand commands were emitted |
| StreamProps.HandVars | app/src/Outlander/Server/GameStream.swift:594-610 | a hand tag writes `<hand>hand` and `<hand>handnoun`, then reports both hands with "Empty" for one never set |
| StreamProps.HandsReported | app/src/Outlander/Server/GameStream.swift:594-610 | reading a `left` tag then a `right` tag reports both hands' values together in the second command |
| StreamProps.PushStreamProcessed | app/src/Outlander/Server/GameStream.swift:629-633 | `pushstream` opens the stream under its lower-cased id and shows nothing |
| StreamProps.TextGoesToStreamWindow | app/src/Outlander/Server/GameStream.swift:739-741 | text inside a stream is buffered for that stream's window, named in lower case |
| StreamProps.CompassMarksDirections | app/src/Outlander/Server/GameStream.swift:672-694 | after `compass` each of the eleven directions is "1" exactly when listed and "0" exactly when not, and the command carries exactly those eleven keys |
| StreamProps.BetweenLength | app/src/Outlander/Server/GameStream.swift:71-96 | filtering between markers keeps at most the tokens read |
| StreamProps.RoomObjectsCounted | app/src/Outlander/Server/GameStream.swift:652-670 | `roomobjs` records its text, a monster count that reads back as the number of bold, non-ignored objects, the `|`-joined monster list, and announces the room |
| FunctionExecutor.LookupArity | app/src/Outlander/Scripting/FunctionEvaluator.swift:227-352 | every entry of the table is registered under its own number of arguments |
| FunctionExecutor.Lookup | app/src/Outlander/Scripting/FunctionEvaluator.swift:227-352 | the `functions` table keyed by lower-cased name and argument count; `LookupArity` proves every entry is registered under its own arity |
| FunctionExecutor.SubstringAsWrittenTraps | app/src/Outlander/Scripting/FunctionEvaluator.swift:207-225 | as written, `substring("hello", 2, 4)` passes both checks and then runs past the end |
| FunctionExecutor.SubstringAsWrittenRefuses | app/src/Outlander/Scripting/FunctionEvaluator.swift:216-218 | as written, `substring("hello", 3, 2)` is refused with the end-index error although the two characters are there; the corrected function returns `lo` |
| FunctionExecutor.SubstringAsWritten | app/src/Outlander/Scripting/FunctionEvaluator.swift:207-225 | `substring` as written: the start and end-index checks, then a trap (`None`) when `start + end` runs past the end; `SubstringAsWrittenTraps`, `SubstringAsWrittenRefuses` and `SubstringAgrees` state how it differs from `Substring` |
| FunctionExecutor.Substring | app/src/Outlander/Scripting/FunctionEvaluator.swift:207-225 | a text comes back exactly when `0 <= start`, `0 <= n` and `start + n <= |s|`, and it is the `n` characters found at `start`; the start error exactly when start is outside `0..|s|`; the end error exactly when start is inside but `n` is negative or runs past the end |
| FunctionExecutor.SubstringAgrees | app/src/Outlander/Scripting/FunctionEvaluator.swift:207-225 | wherever the code as written returns a text or the start error, the corrected function returns the same |
| FunctionExecutor.Capitalized | app/src/Outlander/Scripting/FunctionEvaluator.swift:200-205 | the same length, the first character upper-cased and the rest lower-cased |
| FunctionExecutor.Execute | app/src/Outlander/Scripting/FunctionEvaluator.swift:355-361 | the missing-function error comes back exactly when no function is registered under the lower-cased name and the number of arguments, and its text is `No function registered as function("name", arity: n)` with no groups |
| FunctionExecutor.Unregistered | app/src/Outlander/Scripting/FunctionEvaluator.swift:356-358 | the text of the `missing` error, naming the lower-cased name and the number of arguments; `Execute` returns it exactly when the table has no entry |
| FunctionExecutor.ExecuteEffects | app/src/Outlander/Scripting/FunctionEvaluator.swift:244-257 | only `matchre` leaves groups behind, and only `substring`/`substr` fail once found |
| FunctionExecutor.ExecuteIgnoresCase | app/src/Outlander/Scripting/FunctionEvaluator.swift:356 | function names are looked up without regard to case |
| FunctionExecutor.ExecuteFound | app/src/Outlander/Scripting/FunctionEvaluator.swift:355-361 | a call that finds its function is that function applied to the arguments |
| FunctionExecutor.ContainsIgnoresCase | app/src/Outlander/Scripting/FunctionEvaluator.swift:228-231 | `contains` gives "true" exactly when the lower-cased, quote-trimmed second text occurs in the lower-cased, quote-trimmed first, and "false" otherwise |
| FunctionExecutor.CountIsCountSplitMinusOne | app/src/Outlander/Scripting/FunctionEvaluator.swift:232-239 | `countsplit` is the number of pieces of the split (at least one) and `count` is exactly one less |
| FunctionExecutor.CountSplitPieces | app/src/Outlander/Scripting/FunctionEvaluator.swift:236-239 | the pieces `countsplit` counts join back to the quote-trimmed text, and the printed count reads back as their number |
| FunctionExecutor.LengthCounts | app/src/Outlander/Scripting/FunctionEvaluator.swift:240-243 | `length`/`len` print a number that reads back as the character count after quote trimming |
| FunctionExecutor.ElementSelects | app/src/Outlander/Scripting/FunctionEvaluator.swift:340-351 | `element(i, list)` is the i-th `|`-separated item when `i` is an integer, the list is not empty and `i` is in range, and "" otherwise |
| FunctionExecutor.Element | app/src/Outlander/Scripting/FunctionEvaluator.swift:340-351 | `element(i, list)` is either empty or one of the `|`-separated items of the list |
| FunctionExecutor.ElementIsPiece | app/src/Outlander/Scripting/FunctionEvaluator.swift:340-351 | a non-empty item picked by `element` is one of the pieces that join back to the list, none of which holds a `|` |
| FunctionExecutor.CapitalizeKeepsLetters | app/src/Outlander/Scripting/FunctionEvaluator.swift:200-205 | `capitalize`/`titlecase` change letters only in case, and give "" exactly for an empty quote-trimmed input |
| FunctionExecutor.CapitalizedLower | app/src/Outlander/Scripting/FunctionEvaluator.swift:200-205 | capitalizing changes the case of letters and nothing else |
| FunctionExecutor.SubstringAliases | app/src/Outlander/Scripting/FunctionEvaluator.swift:327-332 | `substring` and `substr` are the same function, and take their arguments without quote trimming, a non-integer index counting as 0 |
| FunctionEvaluator.PartsPrefix | app/src/Outlander/Scripting/FunctionEvaluator.swift:103-116 | one more part adds its text and its groups at the end |
| FunctionEvaluator.EvaluateParts | app/src/Outlander/Scripting/FunctionEvaluator.swift:103-116 | the `map` over the parts gives each part's text, and collects the groups of the function parts in order |
| FunctionEvaluator.EvaluateStrValue | app/src/Outlander/Scripting/FunctionEvaluator.swift:66-121 | the result is `StrValue`: a value goes to the expression evaluator, a function's error becomes its result, a sequence is evaluated joined with spaces |
| FunctionEvaluator.EvaluateBool | app/src/Outlander/Scripting/FunctionEvaluator.swift:28-64 | the result is `BoolValue`: a sequence is shown joined with spaces but evaluated joined with nothing |
| FunctionEvaluator.StrValue | app/src/Outlander/Scripting/FunctionEvaluator.swift:66-121 | `evaluateStrValue` on values; `EvaluateStrValue` computes it and `StrValueOfValues`, `ValueOfFunctionIsStrValue` state its cases |
| FunctionEvaluator.BoolValue | app/src/Outlander/Scripting/FunctionEvaluator.swift:28-64 | `evaluateBool` on values; `EvaluateBool` computes it and `BoolOfFunction` states a function's case |
| FunctionEvaluator.EvaluateValue | app/src/Outlander/Scripting/FunctionEvaluator.swift:123-168 | the result is `NumValue`: a value that does not evaluate gives "0" |
| FunctionEvaluator.BoolOfFunction | app/src/Outlander/Scripting/FunctionEvaluator.swift:34-43 | a condition on a call is "true" exactly when the function's text reads as true under `toBool`, "false" for any other text, and the error text when the call throws; the shown text and groups are those of the plain evaluation |
| FunctionEvaluator.PartTextAt | app/src/Outlander/Scripting/FunctionEvaluator.swift:104-116 | values pass through verbatim, nested sequences give "", function parts give their results |
| FunctionEvaluator.StrValueOfValues | app/src/Outlander/Scripting/FunctionEvaluator.swift:102-119 | a sequence is evaluated as its part texts joined with single spaces, and the groups of the function parts come before the evaluator's own |
| FunctionEvaluator.NoFunctionsNoGroups | app/src/Outlander/Scripting/FunctionEvaluator.swift:103-116 | only function parts contribute groups |
| FunctionEvaluator.ValueOfFunctionIsStrValue | app/src/Outlander/Scripting/FunctionEvaluator.swift:138-147 | a function call gives the same result whether evaluated for a text or for a value |
| StringExt.SliceInside | app/src/Outlander/Infrastructure/StringExtensions.swift:15-20 | inside the string, `self[lower..<upper]` is the ordinary slice cut at the end of the string |
| StringExt.Slice | app/src/Outlander/Infrastructure/StringExtensions.swift:15-20 | `self[lower..<upper]`: the start clamped at 0 and the length the smaller of `upper - lower` and `count - lower`; `SliceInside` and `SliceNegativeLower` state its cases, and its precondition `RangeOk` is exactly where the Swift subscript does not trap |
| StringExt.SliceNegativeLower | app/src/Outlander/Infrastructure/StringExtensions.swift:15-20 | a negative lower bound is clamped to 0 but still counts in the length: `"hello"[-2..<3]` is all of "hello" |
| StringExt.SliceFrom | app/src/Outlander/Infrastructure/StringExtensions.swift:22-25 | `self[lower...]` is the suffix from the clamped start: all of the string for a negative bound |
| StringExt.FindFrom | app/src/Outlander/Infrastructure/StringExtensions.swift:39-40 | a found position is an occurrence of a non-empty needle at or after the search start |
| StringExt.Indices | app/src/Outlander/Infrastructure/StringExtensions.swift:35-47 | the loop returns exactly `IndicesFrom(s, t, 0)`: each search resumes at the end of the previous occurrence |
| StringExt.Ranges | app/src/Outlander/Infrastructure/StringExtensions.swift:49-61 | the loop returns exactly `RangesFrom(s, t, 0)` |
| StringExt.RangesCount | app/src/Outlander/Infrastructure/StringExtensions.swift:35-61 | `ranges(of:)` finds as many occurrences as `indices(of:)` |
| StringExt.RangeIsIndex | app/src/Outlander/Infrastructure/StringExtensions.swift:35-61 | the k-th range starts at the k-th index and spans one occurrence |
| StringExt.RangesAreIndices | app/src/Outlander/Infrastructure/StringExtensions.swift:35-61 | `ranges(of:)` pairs each index of `indices(of:)` with the end of its occurrence |
| StringExt.IndexCollected | app/src/Outlander/Infrastructure/StringExtensions.swift:35-47 | each collected index starts an occurrence at or after the search start, and the next one lies past its end |
| StringExt.IndicesAreOccurrences | app/src/Outlander/Infrastructure/StringExtensions.swift:35-47 | every collected index starts an occurrence, they increase, and no two occurrences overlap |
| StringExt.IndicesComplete | app/src/Outlander/Infrastructure/StringExtensions.swift:35-47 | every occurrence of a non-empty needle is collected or overlaps a collected one |
| StringExt.ToBool | app/src/Outlander/Infrastructure/StringExtensions.swift:63-78 | after trimming parentheses, then whitespace and newlines, then lower-casing: true exactly for `true/yes/1/on/+`, false exactly for `false/no/0/off/-`, nothing otherwise |
| StringExt.ToBoolIgnoresCase | app/src/Outlander/Infrastructure/StringExtensions.swift:67 | `toBool` ignores case |
| StringExt.BoolWordUpper | app/src/Outlander/Infrastructure/StringExtensions.swift:67 | the classified word is the same for an upper-cased input |
| StringExt.TrimUpper | app/src/Outlander/Infrastructure/StringExtensions.swift:67 | trimming characters that are not letters commutes with upper-casing |
| StringExt.ToBoolParenthesised | app/src/Outlander/Infrastructure/StringExtensions.swift:67 | parentheses around a word are ignored: "(yes)" is true and "(off)" false |
| StringExt.ToBoolSpaceBeforeParenthesis | app/src/Outlander/Infrastructure/StringExtensions.swift:67 | parentheses come off before blanks, so " (yes)" is neither true nor false |
| StringExt.HasAnyPrefix | app/src/Outlander/Infrastructure/StringExtensions.swift:154-161 | true exactly when some listed text is a prefix, so false for an empty list |
| StringExt.HasAnySuffix | app/src/Outlander/Infrastructure/StringExtensions.swift:163-170 | true exactly when some listed text is a suffix, so false for an empty list |
| StringExt.FirstNonWhitespace | app/src/Outlander/Infrastructure/StringExtensions.swift:173 | the first position holding a non-blank character, with only blanks before it; none when every character is blank |
| StringExt.TrimLeadingIsTrimStart | app/src/Outlander/Infrastructure/StringExtensions.swift:172-177 | `trimLeadingWhitespace` removes the leading blanks when a non-blank character exists, and returns the string unchanged when it holds only blanks |
| StringExt.TrimLeadingWhitespace | app/src/Outlander/Infrastructure/StringExtensions.swift:172-177 | `trimLeadingWhitespace`: the text from the first non-blank character on, or all of it; `TrimLeadingIsTrimStart` proves it drops exactly the leading blanks |
| Splitters.CommandsSeperated | app/src/Outlander/Infrastructure/StringExtensions.swift:80-105 | the loop computes `CommandsSeparated`: the whole string when the delimiter does not occur, else the pieces of the fold with a non-empty last piece appended |
| Splitters.CommandsSeparated | app/src/Outlander/Infrastructure/StringExtensions.swift:80-105 | `commandsSeperated(by:)` on values: the whole text without the delimiter, else the pieces of the scan, each unescaped; `CommandsOfPlainText`, `QuotedCommandKept` and `EscapedDelimiterKept` state its cases |
| Splitters.CommandsOfPlainText | app/src/Outlander/Infrastructure/StringExtensions.swift:80-105 | without quotes or backslashes every delimiter splits: the pieces join back to the string (less a trailing delimiter) and none holds the delimiter |
| Splitters.QuotedCommandKept | app/src/Outlander/Infrastructure/StringExtensions.swift:95-99 | a double-quoted run stays whole inside the current command, delimiters included |
| Splitters.InsideQuotes | app/src/Outlander/Infrastructure/StringExtensions.swift:90-99 | inside quotes no character ends the piece and the quote flag stays set |
| Splitters.EscapedDelimiterKept | app/src/Outlander/Infrastructure/StringExtensions.swift:90-91 | a delimiter after a backslash does not split |
| Splitters.ArgumentsSeperated | app/src/Outlander/Infrastructure/StringExtensions.swift:107-152 | the loop computes `ArgumentsSeparated`: nothing for the empty string, a split on spaces without quotes, else the fold with an open quote re-prefixed and an empty last argument dropped |
| Splitters.ArgumentsSeparated | app/src/Outlander/Infrastructure/StringExtensions.swift:107-152 | `argumentsSeperated()` on values: nothing for the empty text, a split on spaces without quotes, else the pieces of the quote-aware scan; `ArgumentsWithoutQuotes`, `QuotedArgument` and `UnterminatedQuote` state its cases |
| Splitters.ArgumentsWithoutQuotes | app/src/Outlander/Infrastructure/StringExtensions.swift:112-115 | without quotes the arguments join back to the string with spaces |
| Splitters.QuotedArgument | app/src/Outlander/Infrastructure/StringExtensions.swift:128-140 | a quoted run becomes one argument wrapped in quotes, spaces and all |
| Splitters.InsideArgument | app/src/Outlander/Infrastructure/StringExtensions.swift:122-143 | inside an open quote every quote-free, backslash-free character joins the argument |
| Splitters.UnterminatedQuote | app/src/Outlander/Infrastructure/StringExtensions.swift:145-150 | a quote left open at the end gives a last argument starting with `"` |
| Splitters.UnquotedArgument | app/src/Outlander/Infrastructure/StringExtensions.swift:122-127 | a word followed by a space outside quotes becomes one argument, or none when empty |
| Splitters.WordRun | app/src/Outlander/Infrastructure/StringExtensions.swift:121-143 | a word without spaces or quotes extends the current argument |
| Splitters.QuoteAfterBackslashSpace | app/src/Outlander/Infrastructure/StringExtensions.swift:122-127 | as written: after a backslash and a space, a `"` is kept as text and does not open an argument |
| Splitters.IntendedQuoteAfterSpace | app/src/Outlander/Infrastructure/StringExtensions.swift:107-152 | with a space recorded as the previous character, a space then a quoted run always ends the argument before and yields the quoted run as one argument |
| Splitters.IntendedArgumentsSeparated | app/src/Outlander/Infrastructure/StringExtensions.swift:107-152 | `argumentsSeperated()` with the corrected step, in which a space records itself as the previous character; `IntendedQuoteAfterSpace` and `IntendedInsideArgument` state its cases |
| Splitters.IntendedInsideArgument | app/src/Outlander/Infrastructure/StringExtensions.swift:122-143 | the intended scan keeps a quoted run whole like the original |
| HexDecode.ParseByte | app/src/Outlander/Infrastructure/StringExtensions.swift:210 | a byte is parsed only from a non-empty run of hex digits, optionally signed |
| HexDecode.ParseTwoDigits | app/src/Outlander/Infrastructure/StringExtensions.swift:210 | two hex digits parse to the byte with the first digit as high nibble |
| HexDecode.HexDecodedString | app/src/Outlander/Infrastructure/StringExtensions.swift:196-230 | the loop computes `HexDecoded`: the fold's bytes read back as UTF-8, or "" when they are not UTF-8 |
| HexDecode.HexDecoded | app/src/Outlander/Infrastructure/StringExtensions.swift:196-230 | `hexDecoededString()` on values: the bytes of the escape scan read back as UTF-8, or empty when they are not UTF-8; `DecodedPlain`, `EscapeOfTwoDigits`, `EscapeOfPercent`, `InvalidEscapeLiteral`, `InvalidPercentLiteral` and `IncompleteEscapeDropped` state its cases |
| HexDecode.StepExtends | app/src/Outlander/Infrastructure/StringExtensions.swift:205-207 | an open, incomplete escape takes the next ordinary character |
| HexDecode.StepCompletes | app/src/Outlander/Infrastructure/StringExtensions.swift:207-217 | an escape made complete is replaced by its byte, or its own text when not a byte |
| HexDecode.DecodedPlain | app/src/Outlander/Infrastructure/StringExtensions.swift:196-230 | a string without `\` or `%` decodes to itself |
| HexDecode.PlainScan | app/src/Outlander/Infrastructure/StringExtensions.swift:218-224 | plain text is written out as its UTF-8 bytes |
| HexDecode.PreparedPlain | app/src/Outlander/Infrastructure/StringExtensions.swift:199 | the doubled-backslash rewrite leaves escape-free text alone |
| HexDecode.EscapeOfTwoDigits | app/src/Outlander/Infrastructure/StringExtensions.swift:209-211 | `\xHH` converts to the byte 0xHH |
| HexDecode.BackslashEscape | app/src/Outlander/Infrastructure/StringExtensions.swift:199-217 | reading `\xHH` (or `\XHH`) writes the byte 0xHH and closes the escape |
| HexDecode.EscapeOfPercent | app/src/Outlander/Infrastructure/StringExtensions.swift:209-211 | `%HH` converts to the byte 0xHH |
| HexDecode.PercentEscape | app/src/Outlander/Infrastructure/StringExtensions.swift:201-217 | reading `%HH` writes the byte 0xHH and closes the escape |
| HexDecode.TrailingEscapeDropped | app/src/Outlander/Infrastructure/StringExtensions.swift:201-202 | a `\` or `%` at the end is never written |
| HexDecode.BackslashEscapeValue | app/src/Outlander/Infrastructure/StringExtensions.swift:210 | removing `\x` and `%` from `\x` and two characters other than `\` and `%` leaves the two characters |
| HexDecode.PercentEscapeValue | app/src/Outlander/Infrastructure/StringExtensions.swift:210 | removing `\x` and `%` from `%` and two characters other than `\` and `%` leaves the two characters |
| HexDecode.InvalidEscapeLiteral | app/src/Outlander/Infrastructure/StringExtensions.swift:199-217 | reading `\x` (or `\X`) and two characters that do not name a byte writes the UTF-8 of `\x` and those characters, and closes the escape |
| HexDecode.InvalidPercentLiteral | app/src/Outlander/Infrastructure/StringExtensions.swift:201-217 | reading `%` and two characters that do not name a byte writes the UTF-8 of that text and closes the escape |
| HexDecode.OpenEscapePending | app/src/Outlander/Infrastructure/StringExtensions.swift:201-217 | reading `\`, `%`, `\x`, `\xH` or `%H` writes nothing and leaves the escape open |
| HexDecode.PreparedKeeps | app/src/Outlander/Infrastructure/StringExtensions.swift:199 | text with no two neighbouring backslashes is left alone by the doubled-backslash rewrite |
| HexDecode.IncompleteEscapeDropped | app/src/Outlander/Infrastructure/StringExtensions.swift:196-230 | escape-free text followed by an escape left open at the end decodes to the text alone: the open escape is dropped |
| HexDecode.OvergrownSwallowsRest | app/src/Outlander/Infrastructure/StringExtensions.swift:201-217 | as written: an open escape of four or more characters only grows, and nothing more is written |
| HexDecode.RestartedEscapeSwallowsRest | app/src/Outlander/Infrastructure/StringExtensions.swift:201-217 | as written: `\xH` followed by `\` swallows everything after it |
| HexDecode.IntendedScanShort | app/src/Outlander/Infrastructure/StringExtensions.swift:196-230 | with a new escape flushing an incomplete one, at most three characters are ever held back |
| HexDecode.IntendedStepShort | app/src/Outlander/Infrastructure/StringExtensions.swift:201-224 | one intended step keeps the held-back text short |
| HexDecode.IntendedRestartKeepsText | app/src/Outlander/Infrastructure/StringExtensions.swift:201-217 | with the intended step, an incomplete `\xH` is written as text when the next escape starts |
| Utf8.EncodeChar | app/src/Outlander/Infrastructure/StringExtensions.swift:221-223 | one character takes one to four bytes, a single byte exactly for ASCII |
| Utf8.DecodeEncode | app/src/Outlander/Infrastructure/StringExtensions.swift:221-229 | decoding the UTF-8 bytes of any string gives the string back, so the final decode of plain text never fails |
| InputHistory.Replayed | app/src/Outlander/UI/HistoryTextField.swift:114-119 | the typed text is run as typed; an empty field replays the latest entry, and nothing is run when there is none or it is empty |
| InputHistory.RecordedBounded | app/src/Outlander/UI/HistoryTextField.swift:125-131 | a history within `maxHistory` stays within it |
| InputHistory.Recorded | app/src/Outlander/UI/HistoryTextField.swift:125-131 | `commitHistory`'s update on values: unchanged for a short or repeated command, else the command in front with the oldest entry dropped past the maximum; `RecordedBounded`, `RecordedShape`, `RecordedNoRepeats` and `RecordedLongEnough` prove its invariants |
| InputHistory.RecordedShape | app/src/Outlander/UI/HistoryTextField.swift:125-131 | the history is unchanged, or the value is now in front with the older entries after it in order; it changes exactly when the value is long enough and not the latest entry |
| InputHistory.RecordedNoRepeats | app/src/Outlander/UI/HistoryTextField.swift:125-128 | committing never puts the same command twice in a row |
| InputHistory.RecordedLongEnough | app/src/Outlander/UI/HistoryTextField.swift:125 | every recorded command is at least `minCharacterLength` long |
| InputHistory.ReplayKeepsHistory | app/src/Outlander/UI/HistoryTextField.swift:117-125 | committing an empty field replays the latest command and leaves the history as it is |
| InputHistory.NextSimplyDecrements | app/src/Outlander/UI/HistoryTextField.swift:156-167 | the `lastIndex == 0` test of `next()` never fires: the down key only steps back one |
| InputHistory.MovesStayInRange | app/src/Outlander/UI/HistoryTextField.swift:137-168 | both keys keep the cursor on an entry or on the empty field |
| InputHistory.NextUndoesPrevious | app/src/Outlander/UI/HistoryTextField.swift:137-168 | the up and down keys undo each other |
| InputHistory.FromEmptyField | app/src/Outlander/UI/HistoryTextField.swift:137-168 | from the empty field the up key shows the latest entry and the down key the oldest |
| InputHistory.EmptyHistoryStays | app/src/Outlander/UI/HistoryTextField.swift:137-168 | with no history both keys leave the empty field in place |
| InputHistory.HistoryField.constructor | app/src/Outlander/UI/HistoryTextField.swift:14-20 | a new field has no history, the cursor on the empty field, at most 30 entries kept and commands of at least 3 characters recorded |
| InputHistory.HistoryField.CommitHistory | app/src/Outlander/UI/HistoryTextField.swift:111-132 | clears the field and resets the cursor, runs the replayed command when non-empty, and records it; the bound is kept |
| InputHistory.HistoryField.Previous | app/src/Outlander/UI/HistoryTextField.swift:134-150 | moves the cursor one entry older, wrapping to the empty field, and shows that entry |
| InputHistory.HistoryField.Next | app/src/Outlander/UI/HistoryTextField.swift:152-173 | moves the cursor one entry newer, from the empty field to the oldest, and shows that entry |
| InputHistory.PreviousIndex | app/src/Outlander/UI/HistoryTextField.swift:137-145 | the index `previous()` moves to: one older, back to the empty field (-1) past the oldest; `MovesStayInRange` proves it stays in range |
| InputHistory.NextIndex | app/src/Outlander/UI/HistoryTextField.swift:156-170 | the index `next()` moves to: one newer, from the empty field to the oldest; `NextSimplyDecrements` and `NextUndoesPrevious` state it |
| MapNodes.DestinationValues | app/src/Outlander/Maps/MapNode.swift:31-37 | an exit with no destination has value 0 and one leading to a numbered room has that number |
| MapNodes.DestinationValue | app/src/Outlander/Maps/MapNode.swift:31-33 | `destinationValue`: the destination as a number, 0 when it is not one; `DestinationValues` states both cases |
| MapNodes.HasDestination | app/src/Outlander/Maps/MapNode.swift:35-37 | `hasDestination`: the destination is not empty; `FilteredArcsSpec` keeps exactly these exits |
| MapNodes.BaseCost | app/src/Outlander/Maps/MapNode.swift:39-51 | a compass move costs 5, a `go` move 20, a slow move 100 and anything else 50 |
| MapNodes.MoveCost | app/src/Outlander/Maps/MapNode.swift:39-55 | the cost is a multiple of 10 between 50 and 1500 |
| MapNodes.HiddenCostsMore | app/src/Outlander/Maps/MapNode.swift:53-55 | hiding an exit adds 500 to its cost |
| MapNodes.CompassMovesCheapest | app/src/Outlander/Maps/MapNode.swift:39-55 | a compass move costs no more than any equally hidden move: 50, or 550 hidden |
| MapNodes.FilteredArcsSpec | app/src/Outlander/Maps/MapNode.swift:104-108 | `filteredArcs` holds exactly the exits with a destination, as often as in the room, cheapest first |
| MapNodes.FilteredArcs | app/src/Outlander/Maps/MapNode.swift:104-108 | `filteredArcs`: the exits with a destination sorted by cost; `FilteredArcsSpec` proves it a sorted permutation of those exits |
| MapNodes.ArcTo | app/src/Outlander/Maps/MapNode.swift:114-116 | `arc(with:)` finds an exit exactly when one leads to the room, and it is the first such exit |
| MapNodes.ArcWith | app/src/Outlander/Maps/MapNode.swift:114-116 | `arc(with:)` on a room: `ArcTo` over its exits, the first exit leading to the room |
| MapNodes.ExitsPartition | app/src/Outlander/Maps/MapNode.swift:118-124 | the compass and non-compass exits share out the room's exits |
| MapNodes.NonCardinalExits | app/src/Outlander/Maps/MapNode.swift:118-120 | `nonCardinalExists`: the exits that are not compass directions, in order; `ExitsPartition` proves they and the compass exits share out the room's exits |
| MapNodes.CardinalExitsSpec | app/src/Outlander/Maps/MapNode.swift:122-124 | `cardinalExits` is sorted, holds only compass directions, and names every compass exit as often as it occurs |
| MapNodes.CardinalExits | app/src/Outlander/Maps/MapNode.swift:122-124 | `cardinalExits`: the compass exits' names, sorted; `CardinalExitsSpec` proves it sorted and complete |
| MapNodes.HasMatchingDescription | app/src/Outlander/Maps/MapNode.swift:146-155 | true exactly when some stored description starts with the query stripped of quotes and semicolons |
| MapNodes.StrippedQuerySpec | app/src/Outlander/Maps/MapNode.swift:147 | the stripped query holds no semicolon, and a query without quotes or semicolons is used as is |
| MapNodes.StrippedQuery | app/src/Outlander/Maps/MapNode.swift:147 | the query with double quotes and semicolons removed; `StrippedQuerySpec` proves no semicolon is left and a clean query is kept |
| MapNodes.MatchingDescription | app/src/Outlander/Maps/MapNode.swift:146-155 | some stored description starts with the stripped query; `HasMatchingDescription` computes it by a scan |
| MapNodes.EmptyQueryMatchesAny | app/src/Outlander/Maps/MapNode.swift:146-155 | a query of only quotes and semicolons fits any room with a description |
| MapNodes.MatchesSpec | app/src/Outlander/Maps/MapNode.swift:132-144 | a room matches when it is not a skipped transfer, has the name and a description starting with the query, and, when exits are given, exactly those sorted compass exits; this unfolds the rule, and the partner lemmas are `MatchesWithoutExits` and `AutoMapper.FuzzyFromMatches` |
| MapNodes.Matches | app/src/Outlander/Maps/MapNode.swift:132-144 | `matches(name:description:exits:ignoreTransfers:)`, guard by guard; `MatchesSpec` states it as one condition |
| MapNodes.MatchesExits | app/src/Outlander/Maps/MapNode.swift:126-130 | `matchesExits`: the sorted compass exits equal the given list element by element |
| MapNodes.IsTransfer | app/src/Outlander/Maps/MapNode.swift:110-112 | `isTransfer`: the notes exist and mention `.xml`; `TransfersSkipped` proves `Matches` rejects exactly these rooms when transfers are ignored |
| MapNodes.TransfersSkipped | app/src/Outlander/Maps/MapNode.swift:132-135 | ignoring transfers rejects exactly the rooms whose notes mention `.xml`, leaves every other room's match unchanged, and a room without notes is never a transfer |
| MapNodes.MatchesWithoutExits | app/src/Outlander/Maps/MapNode.swift:132-144 | a match with exits is still a match without them, or without skipping transfers |
| AutoMapper.FindRoomSpec | app/src/Outlander/Plugins/AutoMapperPlugin.swift:132-136 | `findRoom` gives the first room of the zone that matches, and nothing exactly when no room matches |
| AutoMapper.FindRoom | app/src/Outlander/Plugins/AutoMapperPlugin.swift:132-136 | `findRoom`: the first room of the zone that matches; `FindRoomSpec` proves it first and complete |
| AutoMapper.FindRoomFuzyFrom | app/src/Outlander/Plugins/AutoMapperPlugin.swift:114-130 | the scan computes `FuzzyFrom`: the room behind the first exit of the previous room that leads to a match, else the zone's first match |
| AutoMapper.FuzzyFromSpec | app/src/Outlander/Plugins/AutoMapperPlugin.swift:114-130 | when some exit of the known previous room leads to a match, the result is the room behind the first such exit; otherwise it is `findRoom` |
| AutoMapper.FuzzyFrom | app/src/Outlander/Plugins/AutoMapperPlugin.swift:114-130 | `findRoomFuzyFrom` on values: the room behind the first exit of the previous room that leads to a match, else `findRoom`; `FuzzyFromSpec`, `FuzzyFromMatches` and `FuzzyFromUnknown` state it |
| AutoMapper.FuzzyFromMatches | app/src/Outlander/Plugins/AutoMapperPlugin.swift:114-130 | any room `findRoomFuzyFrom` gives matches the name, description and exits |
| AutoMapper.FuzzyFromUnknown | app/src/Outlander/Plugins/AutoMapperPlugin.swift:115-117 | with no known previous room, `findRoomFuzyFrom` is `findRoom` |
| AutoMapper.PassThrough | app/src/Outlander/Plugins/AutoMapperPlugin.swift:45-47 | typed input and game text pass through unchanged; this unfolds the rule, which is all the source does |
| AutoMapper.ParseInput | app/src/Outlander/Plugins/AutoMapperPlugin.swift:45-47 | `parse(input:)` returns the typed command; `PassThrough` states it |
| AutoMapper.ParseText | app/src/Outlander/Plugins/AutoMapperPlugin.swift:108-110 | `parse(text:)` returns the game text; `PassThrough` states it |
| AutoMapper.ParsedXmlInserts | app/src/Outlander/Plugins/AutoMapperPlugin.swift:50-105 | the XML is returned unchanged, or with the exits line inserted before the first `<prompt`, only when the room has non-compass exits |
| AutoMapper.ParsedXml | app/src/Outlander/Plugins/AutoMapperPlugin.swift:50-105 | `parse(xml:)` on values: the text, the two flags and the room id to assign; `ParsedXmlInserts` and `ParsedXmlFlags` state what it does |
| AutoMapper.InsertedBefore | app/src/Outlander/Plugins/AutoMapperPlugin.swift:101-103 | the inserted line can be taken out again and the prompt follows it |
| AutoMapper.NoOtherExitsNoList | app/src/Outlander/Plugins/AutoMapperPlugin.swift:93-100 | a room with only compass exits has an empty exit list, so nothing is inserted |
| AutoMapper.FirstPrompt | app/src/Outlander/Plugins/AutoMapperPlugin.swift:60 | the insertion point is the first `<prompt` |
| AutoMapper.ParsedXmlFlags | app/src/Outlander/Plugins/AutoMapperPlugin.swift:50-72 | `<nav` raises the moved flag and `<compass` the compass flag; both are lowered, and the room id may be set, only when both were raised, a prompt arrived and there is a context |
| AutoMapper.AutoMapperPlugin.constructor | app/src/Outlander/Plugins/AutoMapperPlugin.swift:24-28 | a new plugin has both flags lowered, no host yet, and has assigned and sent nothing |
| AutoMapper.AutoMapperPlugin.Initialize | app/src/Outlander/Plugins/AutoMapperPlugin.swift:30-33 | `initialize(host:)` keeps the host and sends `#mapper reload` once, changing nothing else |
| AutoMapper.AutoMapperPlugin.ParseXml | app/src/Outlander/Plugins/AutoMapperPlugin.swift:50-105 | returns the text and new flags that `ParsedXml` gives, and records its `roomid` assignment only when a host is present (`host?.set`) |

## Left out

- The clock is a parameter. Only `gametimeupdate` reads the clock (`Date()`, GameStream.swift:585); here that reading is the parameter `now`. The roundtime reads no clock: it is kept as the epoch seconds of the `value` attribute, not as a `Date` (GameStream.swift:588-591).
- The regular-expression engine is abstract:
  - the monster-count ignore pattern is a predicate on text;
  - `matchre`/`replacere` go through `FunctionExecutor.Host`, and `def` reads the host's global variables;
  - `SubstituteLoader.load` receives the list of matches, or `None` when the file is missing, is not UTF-8 or the expression does not compile;
  - `MapNode.transferMap` is not modelled, because it is a regex lookup on the notes.
- Floating point is a parameter or left out:
  - `floor`/`ceil`/`round` and the `Double` branches of `evaluateStrValue`/`evaluateValue` are functions of `FunctionEvaluator.Engine`;
  - `formattedNumber` and the `CGFloat` extension are not modelled.
- `ExpressionEvaluator`, `Script`, the command processor and most of `GameContext` are not part of this model. They appear only as the parameters `simplify`, `logic`, `strValue` and `numValue`, as the `globalVars` map and as the `substitutes` list.
- Strings are sequences of characters with ASCII case mapping. Swift's grapheme clusters and Unicode case folding are not modelled, so `"\r\n"` counts as two characters here, not one `Character`.
- `GameStream.stream(_ data: Data)`, which decodes bytes to a string first, is not modelled.
- Tokenizer.StreamContext.ParseAttributes requires `AttributesAt(...)` to finish: the source loops forever on an attribute with an empty key.
- Tokenizer.TagMode.Read requires `TagAt(...)` to finish: the source loops forever on a tag left open at the end of the text, and traps on a lone character after `<` in a child position.
- Tokenizer.TagMode.ReadNext requires `TagRest(...)` to finish, for the same reasons.
- Tokenizer.TagMode.ReadChildren requires `ChildrenAt(...)` to finish, for the same reasons.
- Tokenizer.TagMode.IsClosingTagNext requires that the text is not exactly one character long, because `second` traps there.
- Tokenizer.Read requires `Tokens(text)` to finish. The inputs on which the source never returns or traps are described by the `Diverges`/`Crashes` outcomes and the lemmas in `TokenizerProps`, not run.
- Tokenizer.Read: `ReaderBase`'s stack of reader modes is modelled as the alternation of text mode and tag mode that it performs.
- Streams.GameStream.ProcessCompass requires every `compass` direction code to be a key of the compass map, because the source force-unwraps the lookup (GameStream.swift:679).
- Streams.GameStream.ProcessVitals requires every `dialogdata` progress value to be an integer, because the source force-unwraps `Int(value)` (GameStream.swift:712).
- Streams.GameStream.ProcessToken requires `ProcessOk`, the two conditions above.
- Streams.GameStream.Stream requires `StreamOk`: the text tokenizes without a trap, and every token satisfies `ProcessOk`.
- FunctionExecutor.Execute runs the corrected `Substring` for `substring`/`substr`, not the code as written (see Findings). It therefore returns `lo` for `substring("hello", 3, 2)` where the source throws the end-index error, and returns the end-index error for `substring("hello", 2, 4)` where the source traps. `SubstringAsWritten` models the code as written.
- FunctionExecutor.SubstringAliases states the corrected `Substring` for the table. It also proves that the table agrees with the code as written wherever that code returns a text or the start-index error.
- Substitutes.SaveLoadRoundTrip assumes the expression's match on a saved line is `SavedMatch`. The regular expression is not modelled, so a field holding a brace or a line break is outside the lemma.
- The `subscript(i: Int) -> Character` of app/src/Outlander/Infrastructure/StringExtensions.swift:11-13 is Dafny's own `s[i]` under `0 <= i < |s|`; Swift traps outside that range, so it has no member of its own.
- StringExt.Slice requires `RangeOk`, the inputs on which the Swift subscript does not trap: the lower bound is at most the upper bound, the start clamped at 0 is inside the string, and the end (the clamped start plus the smaller of `count - lower` and `upper - lower`) is inside the string. A negative lower bound and an upper bound past the end are accepted.
- FunctionExecutor.Unregistered writes the name between double quotes as it is; Swift's description of the `Symbol` would escape a `"` or `\` in the name.
- InputHistory.HistoryField: drawing, key codes and the deferred caret move (`DispatchQueue.main.async`) are left out. `executeCommand` is modelled as the log `executed`.
- AutoMapper.AutoMapperPlugin.ParseXml receives the room the lookup settles on as the parameter `located`. `findRoomInZones`, `swapMaps`, `resetMap`, `trimmedRoomTitle` and `variableChanged` work on map data and on `GameContext`, which this model does not include. The host is modelled by whether it is present and the commands sent to it.
- MapNodes: a room's colour, position and `description` text are left out.
- LinkedLists.Node: `prev` is a weak reference in Swift. That matters only for memory management, so it is an ordinary field here.
- LinkedLists.LinkedList.Filter models the intended head update; the code as written is `FilterAsWritten` (see Findings).
- Splitters.ArgumentsSeperated models the code as written; `IntendedArgumentsSeparated` is the corrected scan (see Findings).
- Substitutes: reading and writing `substitutes.cfg` and building its path from the profile are left out. `Save` returns the text it would write.
- `LoginWindow`, `BookmarkHelper`, `PresetLoader` and the gag, highlight and window command handlers are not modelled. They are AppKit, keychain and file-loader plumbing without logic of their own to verify.

## Findings

| source | as written | input that shows it | evidently intended | confidence | as-written member | corrected member |
|---|---|---|---|---|---|---|
| app/src/Outlander/Scripting/FunctionEvaluator.swift:207-225 | the third argument of `substring` is checked as an end index (`start <= end <= count`) but used as a length (`start + end`) | `substring("hello", 2, 4)` passes both checks and then offsets past the end (a trap); `substring("hello", 3, 2)` is refused although the two characters exist | the `n` characters from `start`, with the end error exactly when `n < 0` or `start + n > count` | high, not executed | FunctionExecutor.SubstringAsWrittenTraps | FunctionExecutor.Substring |
| app/src/Outlander/Infrastructure/LinkedList.swift:39-58 | `filter` compares each removed node with the `first` captured on entry, so only removing that node moves `self.first` | a list whose first two values both fail the comparator: `first` is left on the second node, which has been unlinked | `first` follows the removals and is the first node that passes | high, not executed | LinkedLists.LinkedList.FilterAsWritten | LinkedLists.LinkedList.Filter |
| app/src/Outlander/Infrastructure/StringExtensions.swift:121-143 | a space outside quotes does not update `previous`, so a backslash before the space still escapes the next `"` | `a\ "b c"`: the `"` after `\ ` is kept as text and does not open a quoted argument | a backslash escapes only the character right after it | medium, not executed | Splitters.QuoteAfterBackslashSpace | Splitters.IntendedQuoteAfterSpace |
| app/src/Outlander/Infrastructure/StringExtensions.swift:196-230 | a `\` or `%` that arrives while an escape is open joins it; once the escape holds four characters without being converted, it only grows | `\x4\x41z`: nothing is written for it or for anything after it | an incomplete escape is written out as text when a new one starts | medium, not executed | HexDecode.RestartedEscapeSwallowsRest | HexDecode.IntendedRestartKeepsText |
