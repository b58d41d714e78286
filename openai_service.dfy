/**
 * `callOpenAIAPI` without its HTTP round trip: the configuration check, the
 * pieces of the system prompt that depend on the input, the outgoing message
 * list, and the post-processing of the reply text (the `EMOJIS:` line and the
 * praise-triggered `update_ui` tool call) into the result the caller sees.
 * The HTTP exchange itself is a parameter: what the provider replied, or
 * what was thrown.
 */
module OpenAIService {
  import opened Wrappers
  import opened JsStrings
  import opened Patterns

  datatype Role = User | Assistant

  /** A conversation turn as the service receives it and sends it on: role and content only. */
  datatype ChatMessage = ChatMessage(role: Role, content: string)

  /** The arguments of `callOpenAIAPI`. */
  datatype ApiArgs = ApiArgs(
    userMessage: string,
    history: seq<ChatMessage>,
    imageTitle: string,
    imageDescription: string,
    isInitial: bool)

  /** Whether the closing instruction of the system prompt asks for a greeting or a continuation. */
  datatype Opening = Greet | Continue

  /**
   * The parts of the system prompt that vary with the input; the fixed
   * instruction text around them is not modelled. `hindiBlock` holds the
   * user message quoted by the Hindi-teaching block when that block is present.
   */
  datatype SystemPrompt = SystemPrompt(
    title: string,
    content: string,
    hindiBlock: Option<string>,
    opening: Opening)

  /** One entry of the request's `messages` array. */
  datatype Outgoing = System(prompt: SystemPrompt) | Chat(message: ChatMessage)

  /** A tool call: the two kinds the interface handles and any other `type`. */
  datatype ToolCall = UpdateUi(message: string) | ShowImageFeedback(subject: string) | OtherTool(kind: string)

  /** The `GroqResponse` object. */
  datatype ApiResult =
    | Success(text: string, toolCalls: seq<ToolCall>, backgroundEmojis: string)
    | Failure(error: string)

  /**
   * What the HTTP exchange produced: the reply's `message.content` (absent
   * when null), or a thrown error carrying the provider's error message if it
   * sent one.
   */
  datatype Transport = Replied(content: Option<string>) | Threw(providerMessage: Option<string>)

  /** The request that went out, if any, and the result returned to the caller. */
  datatype ApiCall = ApiCall(sent: Option<seq<Outgoing>>, result: ApiResult)

  /** The display text and the background emojis taken from a reply. */
  datatype Extracted = Extracted(displayText: string, backgroundEmojis: string)

  const ConfigError: string :=
    "Groq API key not configured. Please set VITE_GROQ_API_KEY in .env.local. Get a free key from https://console.groq.com"
  const FallbackError: string :=
    "Failed to get response from Groq API. Make sure your API key is valid and you have rate limit availability."
  const DefaultContent: string := "An educational image"
  const EmojiMarker: string := "EMOJIS:"
  const EmojiLine: string := "\nEMOJIS:"
  const Star: string := "\U{2B50} "

  /** The key is configured when it is neither undefined nor empty; undefined is modelled as "". */
  predicate IsConfigured(apiKey: string) {
    apiKey != ""
  }

  /** The subject as the initial marker describes it: the title, then ": " and the description if there is one. */
  function VisualContext(title: string, description: string): (r: string)
    ensures |r| >= |title| && r[..|title|] == title
    ensures description == "" <==> r == title
    ensures description != "" ==> r[|title|..] == ": " + description
  {
    if description != "" then title + ": " + description else title
  }

  /** A character of the Devanagari block, U+0900 to U+097F. */
  predicate IsDevanagari(c: char) {
    '\U{0900}' <= c <= '\U{097F}'
  }

  /** `/[ऀ-ॿ]/.test(s)`. */
  function ContainsDevanagari(s: string): (b: bool)
    ensures b <==> exists i :: 0 <= i < |s| && IsDevanagari(s[i])
  {
    if s == [] then false
    else IsDevanagari(s[0]) || (assert forall i :: 0 < i < |s| ==> s[i] == s[1..][i - 1]; ContainsDevanagari(s[1..]))
  }

  /** The input-dependent parts of the system prompt. */
  function Prompt(args: ApiArgs): (p: SystemPrompt)
    ensures p.title == args.imageTitle
    ensures p.content == if args.imageDescription != "" then args.imageDescription else DefaultContent
    ensures p.hindiBlock.Some? <==> exists i :: 0 <= i < |args.userMessage| && IsDevanagari(args.userMessage[i])
    ensures p.hindiBlock.Some? ==> p.hindiBlock.value == args.userMessage
    ensures p.opening == Greet <==> args.isInitial
  {
    SystemPrompt(
      args.imageTitle,
      if args.imageDescription != "" then args.imageDescription else DefaultContent,
      if ContainsDevanagari(args.userMessage) then Some(args.userMessage) else None,
      if args.isInitial then Greet else Continue)
  }

  /** The synthetic first user turn of a greeting request. */
  function InitialMarker(title: string, visualContext: string): string {
    "I'm looking at an image titled \"" + title + "\" showing: " + visualContext + ". Let's talk about it!"
  }

  /** The content of the user turn the request ends with. */
  function NewTurnContent(args: ApiArgs): string {
    if args.isInitial then InitialMarker(args.imageTitle, VisualContext(args.imageTitle, args.imageDescription))
    else args.userMessage
  }

  /**
   * The request's `messages`: the system prompt, the history in its original
   * order, then exactly one new user turn.
   */
  function BuildMessages(args: ApiArgs): (r: seq<Outgoing>)
    ensures |r| == |args.history| + 2
    ensures r[0] == System(Prompt(args))
    ensures forall i :: 0 <= i < |args.history| ==> r[i + 1] == Chat(args.history[i])
    ensures r[|r| - 1] == Chat(ChatMessage(User, NewTurnContent(args)))
  {
    [System(Prompt(args))]
    + seq(|args.history|, i requires 0 <= i < |args.history| => Chat(args.history[i]))
    + [Chat(ChatMessage(User, NewTurnContent(args)))]
  }

  /**
   * When the history handed in already ends with the user's utterance, as
   * the conversation component's does, the request carries that utterance
   * twice in a row.
   */
  lemma DuplicatedUserTurn(args: ApiArgs)
    requires !args.isInitial
    requires args.history != [] && args.history[|args.history| - 1] == ChatMessage(User, args.userMessage)
    ensures var r := BuildMessages(args);
      r[|r| - 2] == r[|r| - 1] == Chat(ChatMessage(User, args.userMessage))
  {
    var r := BuildMessages(args);
    assert r[|r| - 2] == r[(|args.history| - 1) + 1];
  }

  /** The text of the first `EMOJIS:` line, if the marker matches. */
  function EmojisOf(raw: string): (r: string)
    ensures NoLineTerminator(r)
    ensures r != "" ==> exists p: nat :: LiteralAt(raw, EmojiMarker, p)
  {
    match FirstMatch(raw, EmojiMarker)
    case None => ""
    case Some(m) =>
      var t := Trim(raw[m.capStart..m.end]);
      assert NoLineTerminator(raw[m.capStart..m.end]);
      t
  }

  /**
   * The emoji extraction: when `EMOJIS:` matches, the background emojis are
   * the trimmed rest of its line and the display text is the reply with the
   * first newline-preceded `EMOJIS:` line removed, then trimmed; otherwise
   * the display text is the reply as it is.
   */
  function ExtractEmojis(raw: string): (r: Extracted)
    ensures (forall p: nat :: !MatchesAt(raw, EmojiMarker, p)) ==> r == Extracted(raw, "")
    ensures (exists p: nat :: MatchesAt(raw, EmojiMarker, p)) ==>
      r == Extracted(Trim(RemoveFirstMatch(raw, EmojiLine)), EmojisOf(raw))
    ensures NoLineTerminator(r.backgroundEmojis)
  {
    match FirstMatch(raw, EmojiMarker)
    case None => Extracted(raw, "")
    case Some(m) =>
      assert MatchesAt(raw, EmojiMarker, m.start) by {
        assert IsMatch(raw, EmojiMarker, Match(m.start, m.capStart, m.end));
      }
      Extracted(Trim(RemoveFirstMatch(raw, EmojiLine)), EmojisOf(raw))
  }

  /** `raw` holds one of "Great", "Wonderful", "Excellent", case-sensitively. */
  ghost predicate MentionsPraise(raw: string) {
    exists i :: OccursAt(raw, "Great", i) || OccursAt(raw, "Wonderful", i) || OccursAt(raw, "Excellent", i)
  }

  /**
   * The tool calls made up from a reply: one `update_ui` call showing the
   * display text behind a star exactly when the raw reply praises.
   */
  function SynthesizeToolCalls(raw: string, displayText: string): (r: seq<ToolCall>)
    ensures |r| <= 1
    ensures r != [] <==> MentionsPraise(raw)
    ensures r != [] ==> r[0] == UpdateUi(Star + displayText)
  {
    if Includes(raw, "Great") || Includes(raw, "Wonderful") || Includes(raw, "Excellent") then
      [UpdateUi(Star + displayText)]
    else []
  }

  /**
   * The success result made from the reply's content, null content counting
   * as "": the display text and emojis extracted from it, and the tool calls
   * made up from the raw content and that display text.
   */
  function ShapeReply(content: Option<string>): (r: ApiResult)
    ensures r.Success?
    ensures var raw := if content.Some? then content.value else "";
      && r.text == ExtractEmojis(raw).displayText
      && r.backgroundEmojis == ExtractEmojis(raw).backgroundEmojis
      && r.toolCalls == SynthesizeToolCalls(raw, r.text)
  {
    var raw := if content.Some? then content.value else "";
    var extracted := ExtractEmojis(raw);
    Success(extracted.displayText, SynthesizeToolCalls(raw, extracted.displayText), extracted.backgroundEmojis)
  }

  /** The failure text of a thrown error: the provider's message when it is non-empty, else the fixed fallback. */
  function ThrownErrorText(providerMessage: Option<string>): (r: string)
    ensures r != ""
    ensures providerMessage.Some? && providerMessage.value != "" ==> r == providerMessage.value
    ensures !(providerMessage.Some? && providerMessage.value != "") ==> r == FallbackError
  {
    if providerMessage.Some? && providerMessage.value != "" then providerMessage.value else FallbackError
  }

  /**
   * `callOpenAIAPI`: without a key nothing is sent and the result is the
   * configuration error; otherwise the request is built and the transport's
   * outcome is shaped into a success or a failure.
   */
  function CallApi(apiKey: string, args: ApiArgs, transport: Transport): (r: ApiCall)
    ensures !IsConfigured(apiKey) ==> r == ApiCall(None, Failure(ConfigError))
    ensures IsConfigured(apiKey) ==> r.sent == Some(BuildMessages(args))
    ensures IsConfigured(apiKey) ==> (r.result.Success? <==> transport.Replied?)
    ensures IsConfigured(apiKey) && transport.Replied? ==> r.result == ShapeReply(transport.content)
    ensures IsConfigured(apiKey) && transport.Threw? ==> r.result == Failure(ThrownErrorText(transport.providerMessage))
    ensures r.result.Failure? ==> r.result.error != ""
  {
    if !IsConfigured(apiKey) then ApiCall(None, Failure(ConfigError))
    else
      var sent := Some(BuildMessages(args));
      match transport
      case Replied(content) => ApiCall(sent, ShapeReply(content))
      case Threw(message) => ApiCall(sent, Failure(ThrownErrorText(message)))
  }

  /**
   * A marker with nothing after it, as in "Hi EMOJIS:", is no match: the
   * reply is displayed as it is, untrimmed, with no emojis.
   */
  lemma BareMarkerIsKept(raw: string)
    requires forall p: nat :: LiteralAt(raw, EmojiMarker, p) ==> p + |EmojiMarker| == |raw|
    ensures ExtractEmojis(raw) == Extracted(raw, "")
  {
    forall p: nat, j: nat, k: nat ensures !IsMatch(raw, EmojiMarker, Match(p, j, k)) {
    }
  }

  /** A reply with null content is an empty success: no text, no tool calls, no emojis. */
  lemma NullContentIsEmptySuccess()
    ensures ShapeReply(None) == Success("", [], "")
  {
    assert forall p: nat :: !LiteralAt("", EmojiMarker, p);
    assert !MentionsPraise("");
  }

  /**
   * A configured call whose reply is in the format the prompt asks for
   * succeeds with the trimmed reply minus its emoji line as text, the
   * trimmed emojis as background, and the tool calls of the raw reply.
   */
  lemma FormattedReplyResult(apiKey: string, args: ApiArgs, body: string, emojis: string, rest: string)
    requires IsConfigured(apiKey)
    requires forall p: nat :: !LiteralAt(body, EmojiMarker, p)
    requires emojis != [] && !IsWhitespace(emojis[0]) && NoLineTerminator(emojis)
    requires rest == [] || IsLineTerminator(rest[0])
    ensures var raw := body + "\nEMOJIS: " + emojis + rest;
      CallApi(apiKey, args, Replied(Some(raw))).result
        == Success(Trim(body + rest), SynthesizeToolCalls(raw, Trim(body + rest)), Trim(emojis))
  {
    ExtractFormatted(body, emojis, rest);
  }

  /** No case variant of `EMOJIS:` and no newline before one occurs before `body + "\nEMOJIS: "`'s marker. */
  lemma {:induction false} NoMarkerBefore(body: string, tail: string)
    requires forall p: nat :: !LiteralAt(body, EmojiMarker, p)
    requires |tail| >= 8 && tail[..8] == EmojiLine
    ensures forall p: nat :: p < |body| + 1 ==> !LiteralAt(body + tail, EmojiMarker, p)
    ensures forall p: nat :: p < |body| ==> !LiteralAt(body + tail, EmojiLine, p)
  {
    var raw := body + tail;
    var n := |body|;
    assert raw[n] == '\n';
    assert forall i :: 0 <= i < 7 ==> FoldCase(EmojiMarker[i]) != '\n';
    forall p: nat | p < n + 1 ensures !LiteralAt(raw, EmojiMarker, p) {
      if p + 7 <= n {
        if LiteralAt(raw, EmojiMarker, p) {
          forall i | 0 <= i < 7 ensures FoldCase(body[p + i]) == FoldCase(EmojiMarker[i]) {
            assert raw[p + i] == body[p + i];
          }
          assert LiteralAt(body, EmojiMarker, p);
        }
      } else {
        assert FoldCase(raw[p + (n - p)]) != FoldCase(EmojiMarker[n - p]);
      }
    }
    forall p: nat | p < n ensures !LiteralAt(raw, EmojiLine, p) {
      if p + 8 <= n {
        if LiteralAt(raw, EmojiLine, p) {
          forall i | 0 <= i < 7 ensures FoldCase(body[p + 1 + i]) == FoldCase(EmojiMarker[i]) {
            assert raw[p + 1 + i] == body[p + 1 + i] && EmojiLine[i + 1] == EmojiMarker[i];
          }
          assert LiteralAt(body, EmojiMarker, p + 1);
        }
      } else {
        assert FoldCase(raw[p + (n - p)]) != FoldCase(EmojiLine[n - p]);
      }
    }
  }

  /** Where the two patterns match in a reply written in the format the prompt asks for. */
  lemma {:induction false} FormattedMatches(body: string, emojis: string, rest: string)
    requires forall p: nat :: !LiteralAt(body, EmojiMarker, p)
    requires emojis != [] && !IsWhitespace(emojis[0]) && NoLineTerminator(emojis)
    requires rest == [] || IsLineTerminator(rest[0])
    ensures var raw := body + "\nEMOJIS: " + emojis + rest;
      var end := |body| + 9 + |emojis|;
      && FirstMatch(raw, EmojiMarker) == Some(Match(|body| + 1, |body| + 9, end))
      && FirstMatch(raw, EmojiLine) == Some(Match(|body|, |body| + 9, end))
  {
    FormattedMarkerMatch(body, emojis, rest);
    FormattedLineMatch(body, emojis, rest);
  }

  /** The characters of a formatted reply around its emoji line. */
  lemma FormattedLayout(body: string, emojis: string, rest: string)
    requires emojis != [] && NoLineTerminator(emojis)
    requires rest == [] || IsLineTerminator(rest[0])
    ensures var raw := body + "\nEMOJIS: " + emojis + rest;
      var n := |body|;
      var end := n + 9 + |emojis|;
      && end <= |raw|
      && raw[..n] == body && raw[n..n + 8] == EmojiLine && raw[n + 1..n + 8] == EmojiMarker
      && raw[n + 8] == ' ' && raw[n + 9..end] == emojis && raw[n + 9] == emojis[0]
      && (end < |raw| ==> raw[end] == rest[0])
  {
  }

  /** In a formatted reply the first pattern matches from the marker to the end of the emoji line. */
  lemma FormattedMarkerMatch(body: string, emojis: string, rest: string)
    requires forall p: nat :: !LiteralAt(body, EmojiMarker, p)
    requires emojis != [] && !IsWhitespace(emojis[0]) && NoLineTerminator(emojis)
    requires rest == [] || IsLineTerminator(rest[0])
    ensures var raw := body + "\nEMOJIS: " + emojis + rest;
      FirstMatch(raw, EmojiMarker) == Some(Match(|body| + 1, |body| + 9, |body| + 9 + |emojis|))
  {
    var tail := "\nEMOJIS: " + emojis + rest;
    var raw := body + tail;
    assert raw == body + "\nEMOJIS: " + emojis + rest;
    var n := |body|;
    var end := n + 9 + |emojis|;
    NoMarkerBefore(body, tail);
    FormattedLayout(body, emojis, rest);
    assert IsMatch(raw, EmojiMarker, Match(n + 1, n + 9, end));
    FirstMatchIs(raw, EmojiMarker, Match(n + 1, n + 9, end));
  }

  /** In a formatted reply the second pattern matches from the newline before the marker to the end of the emoji line. */
  lemma FormattedLineMatch(body: string, emojis: string, rest: string)
    requires forall p: nat :: !LiteralAt(body, EmojiMarker, p)
    requires emojis != [] && !IsWhitespace(emojis[0]) && NoLineTerminator(emojis)
    requires rest == [] || IsLineTerminator(rest[0])
    ensures var raw := body + "\nEMOJIS: " + emojis + rest;
      FirstMatch(raw, EmojiLine) == Some(Match(|body|, |body| + 9, |body| + 9 + |emojis|))
  {
    var tail := "\nEMOJIS: " + emojis + rest;
    var raw := body + tail;
    assert raw == body + "\nEMOJIS: " + emojis + rest;
    var n := |body|;
    var end := n + 9 + |emojis|;
    NoMarkerBefore(body, tail);
    FormattedLayout(body, emojis, rest);
    assert IsMatch(raw, EmojiLine, Match(n, n + 9, end));
    FirstMatchIs(raw, EmojiLine, Match(n, n + 9, end));
  }

  /**
   * A reply in the format the prompt asks for, a body followed by a line
   * "EMOJIS: " and the emojis, gives back the trimmed body as display text
   * and the trimmed emojis; anything after the emoji line stays in the
   * display text.
   */
  lemma {:induction false} ExtractFormatted(body: string, emojis: string, rest: string)
    requires forall p: nat :: !LiteralAt(body, EmojiMarker, p)
    requires emojis != [] && !IsWhitespace(emojis[0]) && NoLineTerminator(emojis)
    requires rest == [] || IsLineTerminator(rest[0])
    ensures ExtractEmojis(body + "\nEMOJIS: " + emojis + rest) == Extracted(Trim(body + rest), Trim(emojis))
  {
    var raw := body + "\nEMOJIS: " + emojis + rest;
    var n := |body|;
    var end := n + 9 + |emojis|;
    FormattedMatches(body, emojis, rest);
    assert raw[n + 9..end] == emojis;
    assert raw[..n] + raw[end..] == body + rest;
  }

  /** Occurrences of a word in a slice are occurrences in the whole string. */
  lemma {:induction false} OccursInSlice(s: string, w: string, lo: nat, hi: nat, i: nat)
    requires lo <= hi <= |s| && OccursAt(s[lo..hi], w, i)
    ensures OccursAt(s, w, lo + i)
  {
    var t := s[lo..hi];
    assert forall k :: i <= k < i + |w| ==> t[k] == s[lo + k];
    assert t[i..i + |w|] == s[lo + i..lo + i + |w|];
  }

  /**
   * A marker that no newline precedes is extracted but stays in the display
   * text: the reply "EMOJIS: " followed by emojis shows as itself, and the
   * emojis become the background.
   */
  lemma {:induction false} MarkerAtStartStays(emojis: string)
    requires emojis != [] && !IsWhitespace(emojis[0]) && !IsWhitespace(emojis[|emojis| - 1])
    requires NoLineTerminator(emojis)
    ensures ExtractEmojis("EMOJIS: " + emojis) == Extracted("EMOJIS: " + emojis, emojis)
  {
    var raw := "EMOJIS: " + emojis;
    MarkerAtStartMatches(emojis);
    TrimPadded([], raw, []);
    TrimPadded([], emojis, []);
    assert [] + raw + [] == raw && [] + emojis + [] == emojis;
    assert raw[8..|raw|] == emojis;
  }

  /** Where the two patterns match in "EMOJIS: " followed by emojis: the first at the start, the second nowhere. */
  lemma {:induction false} MarkerAtStartMatches(emojis: string)
    requires emojis != [] && !IsWhitespace(emojis[0]) && NoLineTerminator(emojis)
    ensures var raw := "EMOJIS: " + emojis;
      FirstMatch(raw, EmojiMarker) == Some(Match(0, 8, |raw|)) && FirstMatch(raw, EmojiLine) == None
  {
    var raw := "EMOJIS: " + emojis;
    assert raw[..7] == EmojiMarker && raw[7] == ' ' && raw[8] == emojis[0];
    assert raw[8..] == emojis;
    assert IsMatch(raw, EmojiMarker, Match(0, 8, |raw|));
    FirstMatchIs(raw, EmojiMarker, Match(0, 8, |raw|));
    forall p: nat ensures !LiteralAt(raw, EmojiLine, p) {
      if p < |raw| {
        if p < 8 { assert raw[p] == "EMOJIS: "[p]; } else { assert raw[p] == emojis[p - 8]; }
        assert FoldCase(raw[p]) != FoldCase(EmojiLine[0]);
      }
    }
  }

  /**
   * Praise is looked for in the raw reply, not in the display text: praise
   * that appears only on the emoji line still produces the `update_ui` call,
   * whose message then holds no praise.
   */
  lemma {:induction false} PraiseSeenOnRawText(body: string, emojis: string)
    requires forall p: nat :: !LiteralAt(body, EmojiMarker, p)
    requires !MentionsPraise(body)
    requires emojis != [] && !IsWhitespace(emojis[0]) && NoLineTerminator(emojis)
    requires MentionsPraise(emojis)
    ensures var r := ShapeReply(Some(body + "\nEMOJIS: " + emojis));
      && r.toolCalls == [UpdateUi(Star + r.text)]
      && !MentionsPraise(r.text)
  {
    var raw := body + "\nEMOJIS: " + emojis;
    assert raw == body + "\nEMOJIS: " + emojis + [];
    ExtractFormatted(body, emojis, []);
    assert body + [] == body;
    assert raw[|body| + 9..] == emojis;
    PraiseInSlice(raw, |body| + 9, |raw|);
    TrimAddsNoPraise(body);
  }

  /** Praise in a slice is praise in the whole string. */
  lemma PraiseInSlice(s: string, lo: nat, hi: nat)
    requires lo <= hi <= |s| && MentionsPraise(s[lo..hi])
    ensures MentionsPraise(s)
  {
    var t := s[lo..hi];
    var i: nat :| OccursAt(t, "Great", i) || OccursAt(t, "Wonderful", i) || OccursAt(t, "Excellent", i);
    if OccursAt(t, "Great", i) { OccursInSlice(s, "Great", lo, hi, i); }
    else if OccursAt(t, "Wonderful", i) { OccursInSlice(s, "Wonderful", lo, hi, i); }
    else { OccursInSlice(s, "Excellent", lo, hi, i); }
  }

  /** Trimming cannot introduce praise. */
  lemma TrimAddsNoPraise(s: string)
    requires !MentionsPraise(s)
    ensures !MentionsPraise(Trim(s))
  {
    var text := Trim(s);
    var lo: nat, hi: nat :| TrimmedAt(s, text, lo, hi);
    if MentionsPraise(text) {
      PraiseInSlice(s, lo, hi);
    }
  }

  /**
   * The praise test is case-sensitive: a reply without the capitals that
   * begin "Great", "Wonderful" and "Excellent" makes no tool call.
   */
  lemma PraiseNeedsCapital(raw: string, displayText: string)
    requires forall i :: 0 <= i < |raw| ==> raw[i] != 'G' && raw[i] != 'W' && raw[i] != 'E'
    ensures SynthesizeToolCalls(raw, displayText) == []
  {
    forall i: nat ensures !(OccursAt(raw, "Great", i) || OccursAt(raw, "Wonderful", i) || OccursAt(raw, "Excellent", i)) {
      if i + 5 <= |raw| { assert raw[i..i + 5][0] == raw[i]; }
      if i + 9 <= |raw| { assert raw[i..i + 9][0] == raw[i]; }
    }
  }
}
