# Voice conversation about an image: a Dafny model

This project models the core of a small React application. In it a child holds a spoken, turn-based conversation with an AI tutor about an image shown in a carousel. It has three parts:

- **VoiceConversation** (`voice_conversation.dfy`) models the turn orchestrator. It is a class `Conversation` whose fields are the component's state:
  - the conversation flag;
  - the rendered processing flag and the processing ref that guards turns;
  - the listening flag;
  - the message log;
  - the displayed text;
  - the live transcript.

  Each `await` of the component splits its operation into two methods: one that runs up to the `await` and one that resumes after it. The module also holds the `onresult` aggregation loop and the tool-call interpreter.
- **OpenAIService** (`openai_service.dfy`) models the request builder and the response post-processor of `callOpenAIAPI`. It covers:
  - the key check;
  - the visual context and Devanagari detection;
  - the outgoing message list;
  - extraction and stripping of the `EMOJIS:` line;
  - the praise-triggered `update_ui` tool call;
  - the shaping of success and error results.

  It is built on two helper modules:
  - **JsStrings** (`js_strings.dfy`) holds the JavaScript white-space and line-terminator classes, `trim`, `includes` and the ASCII case folding of a non-Unicode `/i` pattern.
  - **Patterns** (`patterns.dfy`) models the two regular expressions `/EMOJIS:\s*(.+)/i` and `/\nEMOJIS:\s*.+/i` as JavaScript runs them:
    - the leftmost start wins;
    - `\s*` is greedy and may cross line breaks;
    - `.+` is greedy and stops at a line terminator.

    `FirstMatch` is proved against a declarative definition of that match.
- **ImageDisplay** (`image_display.dfy`) models the carousel. Its index updaters are functions over the fixed ring of five images. A class `Carousel` holds the current index.

`wrappers.dfy` holds the `Option` type.

Stand-ins for the browser and the network:

- Speech recognition's `start()` and `stop()` calls are counters.
- Speech synthesis is a log of the texts handed to it. Playback completes in a separate method (`ReplySpoken`, `GreetingSpoken`).
- `Date.now()` is a `now` parameter that never goes backwards.
- The 500 ms restart timer is a count of restarts scheduled. `RecognitionRestart` fires one.
- The HTTP exchange is a `Transport` value: a reply's content, or a thrown error with the provider's message.
- `Math.random()` is a parameter `u` in [0, 1).

What the code does, and so what the model does, at the points where a reader might expect more:

- The code has no session timer, although the help text at QUICK_REFERENCE.js:59 advertises a 60-second one.
- A final transcript is not compared with the one being processed. The only guard is the processing ref, which drops any transcript that arrives during a turn.
- `endConversation` does not cancel speech synthesis.
- A reply that arrives after the end is still logged (`EndDuringTurn`).
- Recognition restarts on a timer after a turn. The only check is whether the conversation is active when the restart is scheduled, which happens after playback. When the timer fires, it starts recognition without checking again.

## Model

| member | source | states |
|---|---|---|
| `JsStrings.Trim` | src/services/openaiService.ts:141-143 | `trim` removes exactly the white space at both ends: the result is a slice with only white space outside it and none at either of its ends; it is empty exactly when the string is all white space |
| `JsStrings.TrimPadded` | src/services/openaiService.ts:141-143 | trimming a string padded on both sides with white space gives back exactly the padded part |
| `JsStrings.FoldCase` | src/services/openaiService.ts:139 | the `/i` flag folds ASCII capitals to lower case and leaves every other character alone |
| `JsStrings.Includes` | src/services/openaiService.ts:150 | `includes` is true exactly when the word occurs at some position, case-sensitively |
| `Patterns.MatchAt` | src/services/openaiService.ts:139 | backtracking at a fixed start finds a match exactly when one exists, and the one it finds has the greediest `\s*` and then the greediest `.+` |
| `Patterns.FirstMatch` | src/services/openaiService.ts:139 | `match` returns the leftmost greedy match of `lit\s*(.+)` when there is one, and nothing exactly when no start position matches |
| `Patterns.RemoveFirstMatch` | src/services/openaiService.ts:143 | `replace` cuts out the first match only and leaves the string alone when nothing matches |
| `Patterns.FirstMatchIs` | src/services/openaiService.ts:139 | a first occurrence of the literal, followed by white space, a non-blank character and the rest of that line, is the reported match |
| `OpenAIService.VisualContext` | src/services/openaiService.ts:35 | the title, followed by ": " and the description exactly when the description is non-empty |
| `OpenAIService.ContainsDevanagari` | src/services/openaiService.ts:38 | true exactly when some character lies in U+0900 to U+097F |
| `OpenAIService.Prompt` | src/services/openaiService.ts:38-97 | the prompt names the title, the description or "An educational image", includes the Hindi block quoting the user message exactly when that message holds Devanagari, and asks for a greeting exactly on the initial call |
| `OpenAIService.BuildMessages` | src/services/openaiService.ts:99-120 | the system message first, the history in its order, then exactly one user turn: the "I'm looking at an image titled…" marker on the initial call, the user message verbatim otherwise |
| `OpenAIService.DuplicatedUserTurn` | src/services/openaiService.ts:99-105 | a history that already ends with the user message produces a request whose last two turns are that same user message |
| `OpenAIService.EmojisOf` | src/services/openaiService.ts:139-141 | the background emojis hold no line break and are non-empty only when the marker occurs |
| `OpenAIService.ExtractEmojis` | src/services/openaiService.ts:136-144 | when `/EMOJIS:\s*(.+)/i` matches nowhere, for instance "Hi EMOJIS:", the display text is the raw reply, untrimmed, and there are no emojis; when it matches, the display text is the reply with the first newline-preceded emoji line cut out and then trimmed, and the emojis are the trimmed capture; the emojis never span a line |
| `OpenAIService.ExtractFormatted` | src/services/openaiService.ts:136-144 | for a reply `body + "\nEMOJIS: " + emojis + rest` the emojis are the trimmed emoji text and the display text is the trimmed reply with the emoji line cut out |
| `OpenAIService.FormattedMatches` | src/services/openaiService.ts:139-143 | in such a reply both patterns match at the emoji line, the first from the marker and the second from the newline before it, and both end with that line |
| `OpenAIService.FormattedMarkerMatch` | src/services/openaiService.ts:139 | in such a reply `/EMOJIS:\s*(.+)/i` matches from the marker, captures the emoji text and ends with its line |
| `OpenAIService.FormattedLineMatch` | src/services/openaiService.ts:143 | in such a reply `/\nEMOJIS:\s*.+/i` matches from the newline before the marker to the end of the emoji line |
| `OpenAIService.BareMarkerIsKept` | src/services/openaiService.ts:139-144 | a reply whose only `EMOJIS:` marker ends it, as in "Hi EMOJIS:", is no match: it is displayed as it is, untrimmed, with no emojis |
| `OpenAIService.NullContentIsEmptySuccess` | src/services/openaiService.ts:133 | a reply with null content is a success with no text, no tool calls and no emojis |
| `OpenAIService.FormattedReplyResult` | src/services/openaiService.ts:132-162 | a configured call whose reply is in the prompted format succeeds with the trimmed reply minus its emoji line, the trimmed emojis, and the tool calls of the raw reply |
| `OpenAIService.NoMarkerBefore` | src/services/openaiService.ts:139-143 | a body without the marker puts no earlier match of either pattern in front of the emoji line |
| `OpenAIService.MarkerAtStartMatches` | src/services/openaiService.ts:139-143 | in a reply that starts with `EMOJIS:` the first pattern matches at the start and the newline-preceded pattern matches nowhere |
| `OpenAIService.MarkerAtStartStays` | src/services/openaiService.ts:139-143 | a marker with no newline before it is extracted but stays in the display text |
| `OpenAIService.SynthesizeToolCalls` | src/services/openaiService.ts:147-155 | exactly one `update_ui` call showing "⭐ " and the display text when the raw reply contains "Great", "Wonderful" or "Excellent", and no call otherwise |
| `OpenAIService.PraiseSeenOnRawText` | src/services/openaiService.ts:150 | praise that appears only on the emoji line still triggers the tool call, although the displayed message then holds no praise |
| `OpenAIService.PraiseNeedsCapital` | src/services/openaiService.ts:150 | the keyword test is case-sensitive: a reply without the capitals G, W and E makes no tool call |
| `OpenAIService.ShapeReply` | src/services/openaiService.ts:132-162 | every reply, including one with null content, becomes a success whose text and emojis are those extracted from the content and whose tool calls are those made up from the raw content and that text |
| `OpenAIService.ThrownErrorText` | src/services/openaiService.ts:163-168 | a thrown error yields the provider's message when it is present and non-empty, and the fixed fallback text otherwise |
| `OpenAIService.CallApi` | src/services/openaiService.ts:20-170 | without a key nothing is sent and the result is the configuration error; with a key the request is the built message list, a reply is shaped into a success and a thrown error becomes a failure with its error text; every failure has a non-empty text |
| `ImageDisplay.NextIndex` | src/components/ImageDisplay.tsx:50-52 | next stays in bounds and moves one place forward around the ring of five |
| `ImageDisplay.PreviousIndex` | src/components/ImageDisplay.tsx:46-48 | previous stays in bounds and moves one place back around the ring of five |
| `ImageDisplay.NextThenPrevious` | src/components/ImageDisplay.tsx:46-52 | next then previous returns to the starting index |
| `ImageDisplay.PreviousThenNext` | src/components/ImageDisplay.tsx:46-52 | previous then next returns to the starting index |
| `ImageDisplay.NextTimesRotates` | src/components/ImageDisplay.tsx:50-52 | pressing next `k` times moves `k` places around the ring |
| `ImageDisplay.FullTurnIsIdentity` | src/components/ImageDisplay.tsx:50-52 | pressing next once per image comes back to the same image |
| `ImageDisplay.RandomIndex` | src/components/ImageDisplay.tsx:55 | `Math.floor(Math.random() * length)` is always a valid index |
| `ImageDisplay.SubjectIdentifiesImage` | src/components/ImageDisplay.tsx:12-38 | no two images share a title, so the reported subject identifies the image |
| `ImageDisplay.MoveChangesSubject` | src/components/ImageDisplay.tsx:46-52 | previous and next always hand a different subject to the conversation |
| `ImageDisplay.Carousel.constructor` | src/components/ImageDisplay.tsx:9-16 | the index starts at 0, whose image has the title and description the application starts with |
| `ImageDisplay.Carousel.CurrentImage` | src/components/ImageDisplay.tsx:40 | the current image is the image at the current index |
| `ImageDisplay.Carousel.ReportedSubject` | src/components/ImageDisplay.tsx:42-44 | the subject handed to `onImageChange` is the current image's title and description |
| `ImageDisplay.Carousel.Counter` | src/components/ImageDisplay.tsx:104-106 | the counter shows a position from 1 to 5 out of 5, and that position holds the current image |
| `ImageDisplay.Carousel.HandlePrevious` | src/components/ImageDisplay.tsx:46-48 | the index stays in bounds and becomes the previous index, whose subject is then reported |
| `ImageDisplay.Carousel.HandleNext` | src/components/ImageDisplay.tsx:50-52 | the index stays in bounds and becomes the next index, whose subject is then reported |
| `ImageDisplay.Carousel.HandleRandomImage` | src/components/ImageDisplay.tsx:54-56 | the index stays in bounds and becomes the drawn index |
| `VoiceConversation.ToChat` | src/components/VoiceConversation.tsx:56-59 | the history handed to the service keeps every entry's role and content, in order |
| `VoiceConversation.AppendKeepsChronological` | src/components/VoiceConversation.tsx:40-46 | appending a message stamped with the current time keeps the log in time order |
| `VoiceConversation.ToolCallText` | src/components/VoiceConversation.tsx:153-163 | `update_ui` displays its message, `show_image_feedback` displays "Great observation about the <subject>!", and every other kind displays nothing |
| `VoiceConversation.LastRecognisedWins` | src/components/VoiceConversation.tsx:72-76 | after the calls run in order, the last recognised call decides the displayed text; with none, the reply text stays |
| `VoiceConversation.LastRecognisedExists` | src/components/VoiceConversation.tsx:153-163 | when some call is recognised, one of them is the last recognised call |
| `VoiceConversation.ToolCallsIdempotent` | src/components/VoiceConversation.tsx:153-163 | running the same calls twice shows what running them once shows |
| `VoiceConversation.PraiseShowsStar` | src/components/VoiceConversation.tsx:72-76 | after a successful turn the display is the reply's display text, behind a star exactly when the raw reply praises |
| `VoiceConversation.FinalTextNonEmpty` | src/components/VoiceConversation.tsx:119-126 | the final text is non-empty exactly when some pending fragment is final, and it then ends with a space |
| `VoiceConversation.Aggregate` | src/components/VoiceConversation.tsx:116-126 | the loop from `resultIndex` on concatenates the final fragments, each followed by a space, and separately the interim fragments; a `resultIndex` past the end gives two empty texts |
| `VoiceConversation.TurnRequestRepeatsUtterance` | src/components/VoiceConversation.tsx:56-62 | the request of a turn ends with the utterance twice: once from the history and once appended by the builder |
| `VoiceConversation.Conversation.constructor` | src/components/VoiceConversation.tsx:21-29 | the component starts inactive, not processing, not listening, with an empty log, display and transcript |
| `VoiceConversation.Conversation.HandleUserMessage` | src/components/VoiceConversation.tsx:36-62 | a blank transcript, or one that arrives during a turn, changes nothing; otherwise the user message is logged before the call, the transcript is cleared, both processing flags are set, recognition is stopped, and the history sent ends with the new message; nothing else changes |
| `VoiceConversation.Conversation.FinishTurn` | src/components/VoiceConversation.tsx:82-96 | the turn ends with both processing flags cleared, and a restart is scheduled exactly when recognition exists and the conversation is active |
| `VoiceConversation.Conversation.CompleteTurn` | src/components/VoiceConversation.tsx:64-96 | a success logs exactly one assistant message after the user's, displays the reply after its tool calls and speaks a non-empty reply; a failure logs nothing, displays "Error: " and the error, clears processing and schedules no restart |
| `VoiceConversation.Conversation.FailTurn` | src/components/VoiceConversation.tsx:90-96 | a thrown error shows the fixed notice, logs nothing, schedules no restart and clears processing |
| `VoiceConversation.Conversation.ReplySpoken` | src/components/VoiceConversation.tsx:78-96 | after playback, a restart is scheduled only if the conversation is still active, and processing is cleared |
| `VoiceConversation.Conversation.RecognitionRestart` | src/components/VoiceConversation.tsx:83-85 | a scheduled restart starts recognition once |
| `VoiceConversation.Conversation.ProcessToolCalls` | src/components/VoiceConversation.tsx:153-163 | the calls run in order over the displayed text |
| `VoiceConversation.Conversation.OnResult` | src/components/VoiceConversation.tsx:115-133 | the live transcript is the final text, or the interim text when there is no final text; the turn handler is called only when the final text is non-empty, with that text trimmed; a turn starts exactly when the final text is not blank and no turn is in flight, so a blank final text or one that arrives during a turn starts none; when a turn starts, the request, both processing flags, the phase and the stop count are those of `HandleUserMessage`; otherwise nothing but the live transcript changes |
| `VoiceConversation.Conversation.OnError` | src/components/VoiceConversation.tsx:135-138 | a recognition error is displayed after "Error: " |
| `VoiceConversation.Conversation.OnStart` | src/components/VoiceConversation.tsx:111-113 | recognition starting sets the listening flag |
| `VoiceConversation.Conversation.OnEnd` | src/components/VoiceConversation.tsx:140-142 | recognition ending clears the listening flag |
| `VoiceConversation.Conversation.StartConversation` | src/components/VoiceConversation.tsx:165-187 | start marks the conversation active, clears the log and display, shows processing and sends the "start" greeting request with no history |
| `VoiceConversation.Conversation.FinishGreeting` | src/components/VoiceConversation.tsx:173-206 | processing is cleared and recognition is started when it exists |
| `VoiceConversation.Conversation.CompleteGreeting` | src/components/VoiceConversation.tsx:189-206 | a successful greeting replaces the log with exactly one assistant message stamped now and displays it; a failed one leaves the log, display and clock alone; unless the greeting is being spoken, processing is cleared and recognition started |
| `VoiceConversation.Conversation.GreetingSpoken` | src/components/VoiceConversation.tsx:173-206 | after the greeting is spoken, processing is cleared and recognition started |
| `VoiceConversation.Conversation.EndConversation` | src/components/VoiceConversation.tsx:209-215 | ending marks the conversation inactive, stops recognition and shows "Conversation ended! Great job!" |
| `VoiceConversation.StartAndGreet` | src/components/VoiceConversation.tsx:165-206 | after start and a greeting, the log holds exactly the greeting on success and is empty on failure, and recognition has been started unless the greeting is still being spoken |
| `VoiceConversation.EndDuringTurn` | src/components/VoiceConversation.tsx:64-86 | a turn in flight when the conversation ends still logs its reply but schedules no restart |
| `VoiceConversation.SingleFlightTurn` | src/components/VoiceConversation.tsx:36-49 | a second transcript during a turn is dropped; the turn then logs the user and assistant messages, or only the user message with the error displayed |

## Left out

- Browser speech recognition is not modelled. Its construction and configuration (continuous mode, interim results, language) and the `abort` on unmount are left out. Its calls are counted, and its events are the `OnStart`, `OnEnd`, `OnResult` and `OnError` methods.
- `src/hooks/useAudioPlayback.ts` is not part of this model. Playback is a log of spoken texts plus a completion method (`ReplySpoken`, `GreetingSpoken`). `playTextSpeech` settles only in the utterance's `onend` and sets no `onerror`. A synthesis error that never fires `end` therefore leaves the turn or greeting suspended with processing set. In the model that hang is a `ReplySpoken` or `GreetingSpoken` that is never called, and no contract promises that it will be.
- The HTTP call, its URL and headers, the model name, the temperature and the token limit are not modelled. The call's outcome is the `Transport` parameter.
- The wording of the system prompt is not modelled. Only the parts that vary with the input are: the title, the content line, the Hindi block and the closing instruction.
- `Date.now()` is the `now` parameter. The 500 ms delay is a scheduled-restart counter, with no timing.
- `Math.random()` is the parameter `u`.
- JSX rendering is not modelled, nor is React's batching of state updates or its closure capture.
  - The history sent with a turn is the log itself, not the `messages` value the render captured.
  - `conversationActiveRef` is the conversation flag itself.
  - The precondition of `StartConversation` is the rendering rule for the start button: it is shown only while the conversation is inactive and is disabled while processing.
- `src/App.tsx` is wiring, and `QUICK_REFERENCE.js` only prints help text. Only the application's initial subject is used: the carousel's constructor is checked against it.
- Strings are sequences of code points, while JavaScript strings are UTF-16. For characters outside the Basic Multilingual Plane, this changes positions but not contents.
- The `backgroundEmojis` of a result is computed, but the component never uses it.
- `Conversation.FailTurn` is the `catch` path. Of the turn's awaits, only the service call could throw. `callOpenAIAPI` itself catches every error of its request, so this path is reachable only through an error the service does not catch. `initiateAIGreeting`'s `catch` ends the same way as a failed greeting, so `CompleteGreeting` with a failure covers it.
