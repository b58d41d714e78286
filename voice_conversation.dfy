/**
 * The voice conversation component: a state machine over the conversation
 * flag, the two processing flags (the rendered state and the ref that
 * guards turns), the listening flag, the message log, the displayed text and
 * the live transcript. Every `await` splits an operation into the method
 * that runs up to it and the method that resumes after it. Speech
 * recognition, speech synthesis, the clock and the 500 ms restart timer are
 * stand-ins: counters of start and stop calls, a log of the texts handed to
 * synthesis, a `now` parameter, and a count of restarts scheduled.
 */
module VoiceConversation {
  import opened Wrappers
  import opened JsStrings
  import opened OpenAIService

  /** An entry of the message log. */
  datatype Message = Message(role: Role, content: string, timestamp: nat)

  /** An entry of `event.results`: its first alternative's transcript and whether it is final. */
  datatype RecognitionResult = RecognitionResult(transcript: string, isFinal: bool)

  /** Where an in-flight `handleUserMessage` is suspended. */
  datatype TurnPhase = NoTurn | AwaitingReply | SpeakingReply

  const GreetingUtterance: string := "start"
  const ErrorPrefix: string := "Error: "
  const ThrownText: string := "An error occurred. Please try again."
  const EndedText: string := "Conversation ended! Great job!"

  /** The log as the service receives it: role and content of every entry, in order. */
  function ToChat(log: seq<Message>): (r: seq<ChatMessage>)
    ensures |r| == |log|
    ensures forall i :: 0 <= i < |log| ==> r[i] == ChatMessage(log[i].role, log[i].content)
  {
    seq(|log|, i requires 0 <= i < |log| => ChatMessage(log[i].role, log[i].content))
  }

  /** The log's timestamps never decrease and none is later than `clock`. */
  ghost predicate Chronological(log: seq<Message>, clock: nat) {
    && (forall i, j :: 0 <= i < j < |log| ==> log[i].timestamp <= log[j].timestamp)
    && (forall i :: 0 <= i < |log| ==> log[i].timestamp <= clock)
  }

  /** Appending an entry stamped no earlier than the clock keeps the log in time order. */
  lemma AppendKeepsChronological(log: seq<Message>, clock: nat, m: Message)
    requires Chronological(log, clock) && clock <= m.timestamp
    ensures Chronological(log + [m], m.timestamp)
  {
    var log' := log + [m];
    forall i, j | 0 <= i < j < |log'| ensures log'[i].timestamp <= log'[j].timestamp {
      if j < |log| { assert log'[i] == log[i] && log'[j] == log[j]; }
      else { assert log'[i] == log[i]; }
    }
  }

  // ----- tool calls -----

  /** The text a recognised tool call displays; other kinds display nothing. */
  function ToolCallText(call: ToolCall): (r: Option<string>)
    ensures r.None? <==> call.OtherTool?
    ensures call.UpdateUi? ==> r == Some(call.message)
    ensures call.ShowImageFeedback? ==> r == Some("Great observation about the " + call.subject + "!")
  {
    match call
    case UpdateUi(message) => Some(message)
    case ShowImageFeedback(subject) => Some("Great observation about the " + subject + "!")
    case OtherTool(_) => None
  }

  /** The displayed text after one call of `processToolCalls`' loop body. */
  function ApplyToolCall(display: string, call: ToolCall): string {
    match ToolCallText(call)
    case Some(text) => text
    case None => display
  }

  /** The displayed text after the calls have run in order. */
  function ApplyToolCalls(display: string, calls: seq<ToolCall>): string {
    if calls == [] then display
    else ApplyToolCall(ApplyToolCalls(display, calls[..|calls| - 1]), calls[|calls| - 1])
  }

  /**
   * The last recognised call decides the displayed text; with none, the
   * text stays as it was.
   */
  lemma {:induction false} LastRecognisedWins(display: string, calls: seq<ToolCall>)
    ensures (forall i :: 0 <= i < |calls| ==> calls[i].OtherTool?) ==> ApplyToolCalls(display, calls) == display
    ensures forall i :: 0 <= i < |calls| && !calls[i].OtherTool? && (forall j :: i < j < |calls| ==> calls[j].OtherTool?) ==>
      ApplyToolCalls(display, calls) == ToolCallText(calls[i]).value
  {
    if calls != [] {
      var init := calls[..|calls| - 1];
      LastRecognisedWins(display, init);
      assert forall i :: 0 <= i < |init| ==> init[i] == calls[i];
    }
  }

  /** Running the same calls twice shows what running them once shows. */
  lemma ToolCallsIdempotent(display: string, calls: seq<ToolCall>)
    ensures ApplyToolCalls(ApplyToolCalls(display, calls), calls) == ApplyToolCalls(display, calls)
  {
    var once := ApplyToolCalls(display, calls);
    LastRecognisedWins(display, calls);
    LastRecognisedWins(once, calls);
    if exists i :: 0 <= i < |calls| && !calls[i].OtherTool? {
      var i :| 0 <= i < |calls| && !calls[i].OtherTool? && forall j :: i < j < |calls| ==> calls[j].OtherTool?
        by { LastRecognisedExists(calls); }
    }
  }

  /** When some call is recognised, one of them is the last. */
  lemma {:induction false} LastRecognisedExists(calls: seq<ToolCall>)
    requires exists i :: 0 <= i < |calls| && !calls[i].OtherTool?
    ensures exists i :: 0 <= i < |calls| && !calls[i].OtherTool? && forall j :: i < j < |calls| ==> calls[j].OtherTool?
  {
    var k := |calls| - 1;
    if calls[k].OtherTool? {
      var init := calls[..k];
      var i :| 0 <= i < |calls| && !calls[i].OtherTool?;
      assert init[i] == calls[i];
      LastRecognisedExists(init);
      var m :| 0 <= m < |init| && !init[m].OtherTool? && forall j :: m < j < |init| ==> init[j].OtherTool?;
      assert calls[m] == init[m];
      assert forall j :: m < j < |calls| ==> calls[j].OtherTool? by {
        forall j | m < j < |calls| ensures calls[j].OtherTool? {
          if j < k { assert calls[j] == init[j]; }
        }
      }
    }
  }

  /**
   * What a successful turn finally displays: the reply's display text,
   * behind a star exactly when the raw reply praises.
   */
  lemma PraiseShowsStar(content: Option<string>)
    ensures var r := ShapeReply(content);
      var raw := if content.Some? then content.value else "";
      && (MentionsPraise(raw) ==> ApplyToolCalls(r.text, r.toolCalls) == Star + r.text)
      && (!MentionsPraise(raw) ==> ApplyToolCalls(r.text, r.toolCalls) == r.text)
  {
    var r := ShapeReply(content);
    LastRecognisedWins(r.text, r.toolCalls);
  }

  // ----- result aggregation -----

  /** The final fragments of `rs`, each followed by a space. */
  function FinalText(rs: seq<RecognitionResult>): string {
    if rs == [] then ""
    else
      var last := rs[|rs| - 1];
      FinalText(rs[..|rs| - 1]) + (if last.isFinal then last.transcript + " " else "")
  }

  /** The interim fragments of `rs`, concatenated. */
  function InterimText(rs: seq<RecognitionResult>): string {
    if rs == [] then ""
    else
      var last := rs[|rs| - 1];
      InterimText(rs[..|rs| - 1]) + (if last.isFinal then "" else last.transcript)
  }

  /** The results the loop visits: those from `resultIndex` on. */
  function Pending(results: seq<RecognitionResult>, resultIndex: nat): (r: seq<RecognitionResult>)
    ensures resultIndex <= |results| ==> r == results[resultIndex..]
    ensures resultIndex > |results| ==> r == []
  {
    if resultIndex <= |results| then results[resultIndex..] else []
  }

  /**
   * The final text is non-empty exactly when some fragment is final, and it
   * then ends with the space that follows every final fragment.
   */
  lemma {:induction false} FinalTextNonEmpty(rs: seq<RecognitionResult>)
    ensures FinalText(rs) != "" <==> exists i :: 0 <= i < |rs| && rs[i].isFinal
    ensures FinalText(rs) != "" ==> FinalText(rs)[|FinalText(rs)| - 1] == ' '
  {
    if rs != [] {
      var init := rs[..|rs| - 1];
      FinalTextNonEmpty(init);
      assert forall i :: 0 <= i < |init| ==> init[i] == rs[i];
    }
  }

  /** The loop of `onresult`: the final and the interim text of the results from `resultIndex` on. */
  method Aggregate(results: seq<RecognitionResult>, resultIndex: nat) returns (finalText: string, interimText: string)
    ensures finalText == FinalText(Pending(results, resultIndex))
    ensures interimText == InterimText(Pending(results, resultIndex))
  {
    finalText, interimText := "", "";
    var i := resultIndex;
    while i < |results|
      invariant resultIndex <= |results| ==> resultIndex <= i <= |results|
      invariant resultIndex <= |results| ==> finalText == FinalText(results[resultIndex..i])
      invariant resultIndex <= |results| ==> interimText == InterimText(results[resultIndex..i])
      invariant resultIndex > |results| ==> i == resultIndex && finalText == "" && interimText == ""
    {
      var transcript := results[i].transcript;
      if results[i].isFinal {
        finalText := finalText + transcript + " ";
      } else {
        interimText := interimText + transcript;
      }
      assert results[resultIndex..i + 1][..i - resultIndex] == results[resultIndex..i];
      i := i + 1;
    }
    if resultIndex <= |results| {
      assert results[resultIndex..i] == results[resultIndex..];
    }
  }

  /** The component's state. */
  class Conversation {
    /** Whether the browser provides speech recognition (`recognitionRef.current` is set). */
    const hasRecognition: bool

    var conversationActive: bool
    /** The rendered processing state (`isProcessing`). */
    var isProcessing: bool
    /** `isProcessingRef.current`, which guards turns. */
    var processingRef: bool
    var isListening: bool
    var messages: seq<Message>
    var uiMessage: string
    var currentTranscript: string

    /** The latest `Date.now()` the component has read. */
    var clock: nat
    /** How often recognition's `start()` and `stop()` have been called. */
    var recognitionStarts: nat
    var recognitionStops: nat
    /** Restarts scheduled 500 ms ahead that have not yet fired. */
    var pendingRestarts: nat
    /** The texts handed to speech synthesis, in order. */
    var spoken: seq<string>
    /** Where the turn in flight, if any, is suspended. */
    var turn: TurnPhase
    /** Greetings waiting for their reply, and greetings whose reply is being spoken. */
    var greetingsAwaiting: nat
    var greetingsSpeaking: nat

    /** The guard is set exactly while a turn is in flight, and the log is in time order. */
    ghost predicate Valid()
      reads this
    {
      && (processingRef <==> !turn.NoTurn?)
      && Chronological(messages, clock)
    }

    constructor (hasRecognition: bool)
      ensures Valid() && this.hasRecognition == hasRecognition
      ensures !conversationActive && !isProcessing && !processingRef && !isListening
      ensures messages == [] && uiMessage == "" && currentTranscript == ""
      ensures recognitionStarts == 0 && recognitionStops == 0 && pendingRestarts == 0 && spoken == []
      ensures turn == NoTurn && greetingsAwaiting == 0 && greetingsSpeaking == 0
    {
      this.hasRecognition := hasRecognition;
      conversationActive, isProcessing, processingRef, isListening := false, false, false, false;
      messages, uiMessage, currentTranscript := [], "", "";
      clock, recognitionStarts, recognitionStops, pendingRestarts, spoken := 0, 0, 0, 0, [];
      turn, greetingsAwaiting, greetingsSpeaking := NoTurn, 0, 0;
    }

    /**
     * `handleUserMessage` up to its `await`: a blank transcript, or one that
     * arrives while a turn is in flight, changes nothing. Otherwise the user
     * message is logged, the transcript cleared, both processing flags set,
     * recognition stopped, and the returned arguments go to the service with
     * a history that ends with the new user message.
     */
    method HandleUserMessage(transcript: string, now: nat, imageTitle: string, imageDescription: string)
      returns (args: Option<ApiArgs>)
      requires Valid() && clock <= now
      modifies this
      ensures Valid()
      ensures AllWhitespace(transcript) || old(processingRef) ==> args == None && unchanged(this)
      ensures !AllWhitespace(transcript) && !old(processingRef) ==>
        && messages == old(messages) + [Message(User, transcript, now)]
        && args == Some(ApiArgs(transcript, ToChat(messages), imageTitle, imageDescription, false))
        && currentTranscript == "" && isProcessing && processingRef && turn == AwaitingReply
        && recognitionStops == old(recognitionStops) + (if hasRecognition then 1 else 0)
        && clock == now
        && unchanged(this`conversationActive, this`isListening, this`uiMessage, this`recognitionStarts)
        && unchanged(this`pendingRestarts, this`spoken, this`greetingsAwaiting, this`greetingsSpeaking)
    {
      if Trim(transcript) == "" || processingRef {
        return None;
      }
      AppendKeepsChronological(messages, clock, Message(User, transcript, now));
      messages := messages + [Message(User, transcript, now)];
      clock := now;
      currentTranscript := "";
      isProcessing, processingRef := true, true;
      turn := AwaitingReply;
      if hasRecognition {
        recognitionStops := recognitionStops + 1;
      }
      args := Some(ApiArgs(transcript, ToChat(messages), imageTitle, imageDescription, false));
    }

    /** The `finally` of a turn, with the restart scheduled when recognition exists and the conversation is active. */
    method FinishTurn()
      requires Valid() && !turn.NoTurn?
      modifies this
      ensures Valid() && turn == NoTurn && !processingRef && !isProcessing
      ensures pendingRestarts == old(pendingRestarts) + (if hasRecognition && conversationActive then 1 else 0)
      ensures unchanged(this`conversationActive, this`isListening, this`messages, this`uiMessage, this`currentTranscript)
      ensures unchanged(this`clock, this`recognitionStarts, this`recognitionStops, this`spoken)
      ensures unchanged(this`greetingsAwaiting, this`greetingsSpeaking)
    {
      if hasRecognition && conversationActive {
        pendingRestarts := pendingRestarts + 1;
      }
      isProcessing, processingRef := false, false;
      turn := NoTurn;
    }

    /**
     * `handleUserMessage` resumed with the service's result. A success logs
     * exactly one assistant message after the user's, shows the reply, runs
     * the tool calls over it and hands a non-empty reply to synthesis; with
     * nothing to speak the turn ends at once. A failure logs nothing, shows
     * "Error: " and the error, and ends the turn without a restart.
     */
    method CompleteTurn(result: ApiResult, now: nat)
      requires Valid() && turn == AwaitingReply && clock <= now
      modifies this
      ensures Valid()
      ensures result.Success? ==>
        && messages == old(messages) + [Message(Assistant, result.text, now)]
        && uiMessage == ApplyToolCalls(result.text, result.toolCalls)
        && spoken == old(spoken) + (if result.text != "" then [result.text] else [])
        && clock == now
      ensures result.Success? && result.text != "" ==>
        && turn == SpeakingReply && processingRef && isProcessing == old(isProcessing)
        && pendingRestarts == old(pendingRestarts)
      ensures result.Success? && result.text == "" ==>
        && turn == NoTurn && !processingRef && !isProcessing
        && pendingRestarts == old(pendingRestarts) + (if hasRecognition && conversationActive then 1 else 0)
      ensures result.Failure? ==>
        && messages == old(messages) && uiMessage == ErrorPrefix + result.error && spoken == old(spoken)
        && turn == NoTurn && !processingRef && !isProcessing && pendingRestarts == old(pendingRestarts)
        && clock == old(clock)
      ensures unchanged(this`conversationActive, this`isListening, this`currentTranscript)
      ensures unchanged(this`recognitionStarts, this`recognitionStops, this`greetingsAwaiting, this`greetingsSpeaking)
    {
      if result.Success? {
        AppendKeepsChronological(messages, clock, Message(Assistant, result.text, now));
        messages := messages + [Message(Assistant, result.text, now)];
        clock := now;
        uiMessage := result.text;
        if |result.toolCalls| > 0 {
          ProcessToolCalls(result.toolCalls);
        }
        if result.text != "" {
          spoken := spoken + [result.text];
          turn := SpeakingReply;
        } else {
          FinishTurn();
        }
      } else {
        uiMessage := ErrorPrefix + result.error;
        isProcessing, processingRef := false, false;
        turn := NoTurn;
      }
    }

    /** The `catch` of a turn whose awaited call threw: a fixed notice, nothing logged, no restart. */
    method FailTurn()
      requires Valid() && turn == AwaitingReply
      modifies this
      ensures Valid() && turn == NoTurn && !processingRef && !isProcessing
      ensures uiMessage == ThrownText
      ensures unchanged(this`conversationActive, this`isListening, this`messages, this`currentTranscript, this`clock)
      ensures unchanged(this`recognitionStarts, this`recognitionStops, this`pendingRestarts, this`spoken)
      ensures unchanged(this`greetingsAwaiting, this`greetingsSpeaking)
    {
      uiMessage := ThrownText;
      isProcessing, processingRef := false, false;
      turn := NoTurn;
    }

    /**
     * Playback of the reply has finished: recognition is scheduled to
     * restart only if the conversation is still active, and the turn ends.
     */
    method ReplySpoken()
      requires Valid() && turn == SpeakingReply
      modifies this
      ensures Valid() && turn == NoTurn && !processingRef && !isProcessing
      ensures pendingRestarts == old(pendingRestarts) + (if hasRecognition && conversationActive then 1 else 0)
      ensures unchanged(this`conversationActive, this`isListening, this`messages, this`uiMessage, this`currentTranscript)
      ensures unchanged(this`clock, this`recognitionStarts, this`recognitionStops, this`spoken)
      ensures unchanged(this`greetingsAwaiting, this`greetingsSpeaking)
    {
      FinishTurn();
    }

    /** A scheduled restart fires: recognition is started, whatever the conversation's state by then. */
    method RecognitionRestart()
      requires Valid() && pendingRestarts > 0
      modifies this`pendingRestarts, this`recognitionStarts
      ensures Valid()
      ensures pendingRestarts == old(pendingRestarts) - 1 && recognitionStarts == old(recognitionStarts) + 1
    {
      pendingRestarts := pendingRestarts - 1;
      recognitionStarts := recognitionStarts + 1;
    }

    /** `processToolCalls`: the calls run in order over the displayed text. */
    method ProcessToolCalls(calls: seq<ToolCall>)
      modifies this`uiMessage
      ensures uiMessage == ApplyToolCalls(old(uiMessage), calls)
    {
      var i := 0;
      while i < |calls|
        invariant 0 <= i <= |calls|
        invariant uiMessage == ApplyToolCalls(old(uiMessage), calls[..i])
      {
        match calls[i] {
          case UpdateUi(message) => uiMessage := message;
          case ShowImageFeedback(subject) => uiMessage := "Great observation about the " + subject + "!";
          case OtherTool(_) =>
        }
        assert calls[..i + 1][..i] == calls[..i];
        i := i + 1;
      }
      assert calls[..|calls|] == calls;
    }

    /**
     * `onresult`: the live transcript becomes the final text, or the interim
     * text when there is no final text; the turn handler is called with the
     * trimmed final text only when the final text is non-empty.
     */
    method OnResult(results: seq<RecognitionResult>, resultIndex: nat, now: nat, imageTitle: string, imageDescription: string)
      returns (args: Option<ApiArgs>)
      requires Valid() && clock <= now
      modifies this
      ensures Valid()
      ensures var final := FinalText(Pending(results, resultIndex));
        var interim := InterimText(Pending(results, resultIndex));
        && (args.Some? ==>
              && final != "" && currentTranscript == "" && messages == old(messages) + [Message(User, Trim(final), now)]
              && args == Some(ApiArgs(Trim(final), ToChat(messages), imageTitle, imageDescription, false))
              && isProcessing && processingRef && turn == AwaitingReply && clock == now
              && recognitionStops == old(recognitionStops) + (if hasRecognition then 1 else 0))
        && (args.None? ==>
              && currentTranscript == (if final != "" then final else interim) && messages == old(messages)
              && isProcessing == old(isProcessing) && processingRef == old(processingRef) && turn == old(turn)
              && clock == old(clock) && recognitionStops == old(recognitionStops))
        && (final == "" ==> args == None)
        && (final != "" && !AllWhitespace(final) && !old(processingRef) ==> args.Some?)
        && (AllWhitespace(final) || old(processingRef) ==> args == None)
      ensures unchanged(this`conversationActive, this`isListening, this`uiMessage, this`recognitionStarts)
      ensures unchanged(this`pendingRestarts, this`spoken, this`greetingsAwaiting, this`greetingsSpeaking)
    {
      var finalText, interimText := Aggregate(results, resultIndex);
      currentTranscript := if finalText != "" then finalText else interimText;
      args := None;
      if finalText != "" {
        assert AllWhitespace(Trim(finalText)) <==> AllWhitespace(finalText);
        args := HandleUserMessage(Trim(finalText), now, imageTitle, imageDescription);
      }
    }

    /** `onerror`: the recognition error is shown. */
    method OnError(error: string)
      modifies this`uiMessage
      ensures uiMessage == ErrorPrefix + error
    {
      uiMessage := ErrorPrefix + error;
    }

    /** `onstart` and `onend`: recognition reports that it is, or no longer is, listening. */
    method OnStart()
      modifies this`isListening
      ensures isListening
    {
      isListening := true;
    }

    method OnEnd()
      modifies this`isListening
      ensures !isListening
    {
      isListening := false;
    }

    /**
     * `startConversation` and `initiateAIGreeting` up to the greeting's
     * `await`: the conversation becomes active with an empty log and display,
     * processing is shown, and the greeting request is returned. The start
     * button exists only while no conversation is active and is disabled
     * while processing is shown.
     */
    method StartConversation(imageTitle: string, imageDescription: string) returns (args: ApiArgs)
      requires Valid() && !conversationActive && !isProcessing
      modifies this
      ensures Valid()
      ensures conversationActive && messages == [] && uiMessage == "" && isProcessing
      ensures greetingsAwaiting == old(greetingsAwaiting) + 1
      ensures args == ApiArgs(GreetingUtterance, [], imageTitle, imageDescription, true)
      ensures unchanged(this`processingRef, this`isListening, this`currentTranscript, this`clock, this`turn)
      ensures unchanged(this`recognitionStarts, this`recognitionStops, this`pendingRestarts, this`spoken)
      ensures unchanged(this`greetingsSpeaking)
    {
      conversationActive := true;
      messages := [];
      uiMessage := "";
      isProcessing := true;
      greetingsAwaiting := greetingsAwaiting + 1;
      args := ApiArgs(GreetingUtterance, [], imageTitle, imageDescription, true);
    }

    /** The end of `initiateAIGreeting` and the rest of `startConversation`: processing cleared, recognition started. */
    method FinishGreeting()
      requires Valid()
      modifies this`isProcessing, this`recognitionStarts
      ensures Valid() && !isProcessing
      ensures recognitionStarts == old(recognitionStarts) + (if hasRecognition then 1 else 0)
    {
      isProcessing := false;
      if hasRecognition {
        recognitionStarts := recognitionStarts + 1;
      }
    }

    /**
     * The greeting resumed with the service's result. A success replaces the
     * log with exactly one assistant message and shows the reply (its tool
     * calls are not run); a non-empty reply is handed to synthesis and the
     * greeting waits for it. A failure leaves the log and display alone. In
     * every case that does not wait, processing is cleared and recognition
     * started.
     */
    method CompleteGreeting(result: ApiResult, now: nat)
      requires Valid() && greetingsAwaiting > 0 && clock <= now
      modifies this
      ensures Valid()
      ensures greetingsAwaiting == old(greetingsAwaiting) - 1
      ensures result.Success? ==>
        && messages == [Message(Assistant, result.text, now)] && uiMessage == result.text
        && spoken == old(spoken) + (if result.text != "" then [result.text] else [])
        && clock == now
      ensures result.Failure? ==>
        messages == old(messages) && uiMessage == old(uiMessage) && spoken == old(spoken) && clock == old(clock)
      ensures result.Success? && result.text != "" ==>
        && greetingsSpeaking == old(greetingsSpeaking) + 1
        && isProcessing == old(isProcessing) && recognitionStarts == old(recognitionStarts)
      ensures result.Failure? || result.text == "" ==>
        && greetingsSpeaking == old(greetingsSpeaking) && !isProcessing
        && recognitionStarts == old(recognitionStarts) + (if hasRecognition then 1 else 0)
      ensures unchanged(this`conversationActive, this`processingRef, this`isListening, this`currentTranscript)
      ensures unchanged(this`recognitionStops, this`pendingRestarts, this`turn)
    {
      greetingsAwaiting := greetingsAwaiting - 1;
      if result.Success? {
        messages := [Message(Assistant, result.text, now)];
        clock := now;
        uiMessage := result.text;
        if result.text != "" {
          spoken := spoken + [result.text];
          greetingsSpeaking := greetingsSpeaking + 1;
          return;
        }
      }
      FinishGreeting();
    }

    /** Playback of the greeting has finished: processing is cleared and recognition started. */
    method GreetingSpoken()
      requires Valid() && greetingsSpeaking > 0
      modifies this`greetingsSpeaking, this`isProcessing, this`recognitionStarts
      ensures Valid() && greetingsSpeaking == old(greetingsSpeaking) - 1 && !isProcessing
      ensures recognitionStarts == old(recognitionStarts) + (if hasRecognition then 1 else 0)
    {
      greetingsSpeaking := greetingsSpeaking - 1;
      FinishGreeting();
    }

    /**
     * `endConversation`: the conversation becomes inactive, recognition is
     * stopped and the closing notice shown; a turn in flight is not touched.
     */
    method EndConversation()
      requires Valid()
      modifies this`conversationActive, this`recognitionStops, this`uiMessage
      ensures Valid() && !conversationActive && uiMessage == EndedText
      ensures recognitionStops == old(recognitionStops) + (if hasRecognition then 1 else 0)
    {
      conversationActive := false;
      if hasRecognition {
        recognitionStops := recognitionStops + 1;
      }
      uiMessage := EndedText;
    }
  }

  /**
   * The request of a turn carries the utterance twice: once as the last
   * entry of the history, which already holds the new user message, and once
   * as the turn the request builder appends.
   */
  lemma TurnRequestRepeatsUtterance(log: seq<Message>, transcript: string, now: nat, imageTitle: string, imageDescription: string)
    ensures var args := ApiArgs(transcript, ToChat(log + [Message(User, transcript, now)]), imageTitle, imageDescription, false);
      var sent := BuildMessages(args);
      && |sent| == |log| + 3
      && sent[|sent| - 2] == sent[|sent| - 1] == Chat(ChatMessage(User, transcript))
  {
    var args := ApiArgs(transcript, ToChat(log + [Message(User, transcript, now)]), imageTitle, imageDescription, false);
    assert args.history[|args.history| - 1] == ChatMessage(User, transcript);
    DuplicatedUserTurn(args);
  }

  /**
   * Starting a conversation and completing its greeting: the log holds
   * exactly the greeting after a success and nothing after a failure, and
   * unless the greeting is still being spoken, processing is cleared and
   * recognition started.
   */
  method StartAndGreet(c: Conversation, result: ApiResult, now: nat)
    requires c.Valid() && !c.conversationActive && !c.isProcessing && c.clock <= now
    modifies c
    ensures c.Valid() && c.conversationActive
    ensures result.Success? ==> c.messages == [Message(Assistant, result.text, now)] && c.uiMessage == result.text
    ensures result.Failure? ==> c.messages == [] && c.uiMessage == ""
    ensures result.Failure? || result.text == "" ==>
      !c.isProcessing && c.recognitionStarts == old(c.recognitionStarts) + (if c.hasRecognition then 1 else 0)
    ensures result.Success? && result.text != "" ==> c.isProcessing && c.spoken == old(c.spoken) + [result.text]
  {
    var args := c.StartConversation("", "");
    c.CompleteGreeting(result, now);
  }

  /**
   * A turn that is still in flight when the conversation ends still logs its
   * reply, but schedules no restart of recognition.
   */
  method EndDuringTurn(c: Conversation, transcript: string, reply: string, t1: nat, t2: nat)
    requires c.Valid() && c.conversationActive && !c.processingRef && c.clock <= t1 <= t2
    requires !AllWhitespace(transcript) && reply != ""
    modifies c
    ensures c.Valid() && !c.conversationActive && c.turn == NoTurn
    ensures c.messages == old(c.messages) + [Message(User, transcript, t1), Message(Assistant, reply, t2)]
    ensures c.pendingRestarts == old(c.pendingRestarts)
  {
    var args := c.HandleUserMessage(transcript, t1, "", "");
    c.EndConversation();
    c.CompleteTurn(Success(reply, [], ""), t2);
    c.ReplySpoken();
  }

  /**
   * A second final transcript while a turn is in flight is dropped, not
   * queued; a successful turn then logs `[..., user, assistant]`, and a
   * failed one only `[..., user]`.
   */
  method SingleFlightTurn(c: Conversation, first: string, second: string, result: ApiResult, t1: nat, t2: nat, t3: nat)
    requires c.Valid() && !c.processingRef && c.clock <= t1 <= t2 <= t3
    requires !AllWhitespace(first)
    modifies c
    ensures c.Valid() && c.turn != AwaitingReply
    ensures result.Success? ==>
      c.messages == old(c.messages) + [Message(User, first, t1), Message(Assistant, result.text, t3)]
    ensures result.Failure? ==>
      c.messages == old(c.messages) + [Message(User, first, t1)] && c.uiMessage == ErrorPrefix + result.error
  {
    var args1 := c.HandleUserMessage(first, t1, "", "");
    assert args1.Some?;
    var args2 := c.HandleUserMessage(second, t2, "", "");
    assert args2 == None;
    c.CompleteTurn(result, t3);
  }
}
