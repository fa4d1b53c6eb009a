/** The browser-side client of the application's chat gateway: it posts a
    prompt with its request type and token budget, decodes the gateway's
    reply, and turns every failure into one fixed message per request kind. */
module SecureApi {
  import opened Wrappers
  import opened JsText
  import opened BibleTypes
  import opened Prompts

  /** The token budget a request carries when its caller names none. */
  const DefaultMaxTokens: nat := 2000

  /** The JSON body posted to the gateway. */
  datatype ApiRequest = ApiRequest(prompt: string, kind: string, maxTokens: nat)

  /** `callSecureApi(prompt, type, maxTokens = 2000)`'s request body. */
  function RequestBody(prompt: string, kind: string, maxTokens: Option<nat>): (req: ApiRequest)
    ensures req.prompt == prompt && req.kind == kind
    ensures maxTokens.None? ==> req.maxTokens == DefaultMaxTokens
    ensures maxTokens.Some? ==> req.maxTokens == maxTokens.value
  {
    ApiRequest(prompt, kind, maxTokens.GetOr(DefaultMaxTokens))
  }

  /** The fields of the gateway's JSON reply that the client reads. */
  datatype ApiBody = ApiBody(success: bool, response: Option<string>, error: Option<string>)

  /** What the `fetch` of the gateway produced: a failure before any
      response, or a response with its `ok` flag, its status and its body,
      parsed or the parser's error. */
  datatype HttpReply =
    | Unreachable(failure: Thrown)
    | Received(ok: bool, status: int, body: Result<ApiBody, Thrown>)

  const HttpErrorPrefix := "HTTP error! status: "

  /** `callSecureApi`'s decoding of the reply: the response text, or the
      error it throws (a failure of `fetch` or of the JSON parser passes
      through unchanged). */
  function CallSecureApi(reply: HttpReply): (r: Result<string, Thrown>)
    ensures reply.Unreachable? ==> r == Err(reply.failure)
    ensures reply.Received? && !reply.ok ==> r == Err(Error(HttpErrorPrefix + IntToString(reply.status)))
    ensures reply.Received? && reply.ok && reply.body.Err? ==> r == Err(reply.body.error)
    ensures reply.Received? && reply.ok && reply.body.Ok? && !reply.body.value.success ==>
      r == Err(Error(OrElse(reply.body.value.error, "API request failed")))
    ensures r.Ok? <==> reply.Received? && reply.ok && reply.body.Ok? && reply.body.value.success
    ensures r.Ok? ==> r.value == OrElse(reply.body.value.response, "No response generated.") && r.value != ""
  {
    match reply
    case Unreachable(e) => Err(e)
    case Received(ok, status, body) =>
      if !ok then Err(Error(HttpErrorPrefix + IntToString(status)))
      else
        match body
        case Err(e) => Err(e)
        case Ok(data) =>
          if !data.success then Err(Error(OrElse(data.error, "API request failed")))
          else Ok(OrElse(data.response, "No response generated."))
  }

  /** The status of a failed reply can be read back from the error: the
      message is the fixed prefix followed by the status in decimal. */
  lemma HttpStatusRecoverable(status: int, body: Result<ApiBody, Thrown>)
    ensures var r := CallSecureApi(Received(false, status, body));
      r.Err? && r.error.Error? && |r.error.message| > |HttpErrorPrefix|
      && r.error.message[..|HttpErrorPrefix|] == HttpErrorPrefix
      && ParseInt(r.error.message[|HttpErrorPrefix|..]) == Some(status)
  {
    var m := HttpErrorPrefix + IntToString(status);
    assert m[|HttpErrorPrefix|..] == IntToString(status);
    assert m[..|HttpErrorPrefix|] == HttpErrorPrefix;
    IntToStringRoundTrip(status);
  }

  const ChatOpening := "The user is currently studying "

  const ChatContext := ". The full text of the chapter is provided here for your context:\n\n"

  const ChatQuestion := "\n\nUser question: "

  /** The chat prompt: the passage under study, its full text, and the
      user's question. */
  function ChatPrompt(reference: string, chapterText: string, message: string): string {
    ChatOpening + reference + ChatContext + chapterText + ChatQuestion + message
  }

  /** The chat prompt names the passage first, then holds the chapter's full
      text, and ends with the question, each unchanged at a fixed place. */
  lemma ChatPromptCarries(reference: string, chapterText: string, message: string)
    ensures var r, a := ChatPrompt(reference, chapterText, message), |ChatOpening|;
      var b := a + |reference| + |ChatContext|;
      |r| == b + |chapterText| + |ChatQuestion| + |message|
      && r[a..a + |reference|] == reference
      && r[b..b + |chapterText|] == chapterText
      && r[|r| - |message|..] == message
  {
    PartsInPlace(ChatOpening, reference, ChatContext, chapterText, ChatQuestion, message);
  }

  /** In `h + x + m + y + q + z`, the parts `x`, `y` and `z` stand at the
      offsets the lengths before them give. */
  lemma PartsInPlace(h: string, x: string, m: string, y: string, q: string, z: string)
    ensures var s, b := h + x + m + y + q + z, |h| + |x| + |m|;
      |s| == b + |y| + |q| + |z|
      && s[|h|..|h| + |x|] == x && s[b..b + |y|] == y && s[|s| - |z|..] == z
  {
    var s, b := h + x + m + y + q + z, |h| + |x| + |m|;
    assert s[|h|..|h| + |x|] == x;
    assert s[b..b + |y|] == y;
    assert s[|s| - |z|..] == z;
  }

  /** The request each intent is sent as: its prompt, its `type` tag and its
      token budget. */
  function RequestFor(intent: Intent): ApiRequest {
    match intent
    case Insight(query) => RequestBody(InsightPrompt(query), "theological_insight", Some(2778))
    case Summary(text, reference) => RequestBody(SummaryPrompt(text, reference), "chapter_summary", Some(1000))
    case ChapterCommentary(text, reference, p) =>
      RequestBody(ChapterCommentaryPrompt(text, reference, p), "commentary", Some(2000))
    case SelectionCommentary(selection, reference, p) =>
      RequestBody(SelectionCommentaryPrompt(selection, reference, p), "commentary", Some(1500))
    case ChatTurn(reference, text, message) => RequestBody(ChatPrompt(reference, text, message), "chat", Some(1500))
  }

  /** The request table: each intent's `type` tag and token budget, and
      the prompt it is sent with. */
  lemma RequestTable(intent: Intent)
    ensures var req := RequestFor(intent);
      (intent.Insight? ==> req == ApiRequest(InsightPrompt(intent.query), "theological_insight", 2778))
      && (intent.Summary? ==> req == ApiRequest(SummaryPrompt(intent.chapterText, intent.reference), "chapter_summary", 1000))
      && (intent.ChapterCommentary? ==>
            req == ApiRequest(ChapterCommentaryPrompt(intent.chapterText, intent.reference, intent.perspective), "commentary", 2000))
      && (intent.SelectionCommentary? ==>
            req == ApiRequest(SelectionCommentaryPrompt(intent.selection, intent.reference, intent.perspective), "commentary", 1500))
      && (intent.ChatTurn? ==> req == ApiRequest(ChatPrompt(intent.reference, intent.chapterText, intent.message), "chat", 1500))
  {
  }

  /** The message an intent's failure is reported with. Only the insight
      request keeps the underlying message. */
  function FailureMessage(intent: Intent, cause: Thrown): string {
    match intent
    case Insight(_) =>
      (match cause
       case Error(m) => "Theological Insight Error: " + m
       case NonError => "An unexpected error occurred while fetching theological insights.")
    case Summary(_, _) => "Failed to summarize chapter."
    case ChapterCommentary(_, _, _) => "Failed to generate commentary."
    case SelectionCommentary(_, _, _) => "Failed to generate commentary."
    case ChatTurn(_, _, _) => "Failed to process chat message."
  }

  /** One of `summarizeChapter`, `generateChapterCommentary`,
      `generateSelectionCommentary`, a chat's `sendMessage`, or the text part
      of `fetchGroundedResponse`, given the gateway's reply to `RequestFor(intent)`. */
  function Dispatch(intent: Intent, reply: HttpReply): Result<string, Thrown> {
    match CallSecureApi(reply)
    case Ok(text) => Ok(text)
    case Err(cause) => Err(Error(FailureMessage(intent, cause)))
  }

  /** A request succeeds exactly when the gateway reports success, with the
      text `callSecureApi` decoded; otherwise every failure of a summary,
      commentary or chat request reads the same, whatever its cause. */
  lemma DispatchMeaning(intent: Intent, reply: HttpReply, other: HttpReply)
    ensures Dispatch(intent, reply).Ok? <==> CallSecureApi(reply).Ok?
    ensures Dispatch(intent, reply).Ok? ==> Dispatch(intent, reply).value == CallSecureApi(reply).value
    ensures !intent.Insight? && Dispatch(intent, reply).Err? && Dispatch(intent, other).Err? ==>
      Dispatch(intent, reply) == Dispatch(intent, other)
  {
  }

  /** An insight failure keeps the underlying error's message after a fixed
      prefix. */
  lemma InsightKeepsCause(query: string, reply: HttpReply)
    requires CallSecureApi(reply).Err? && CallSecureApi(reply).error.Error?
    ensures Dispatch(Insight(query), reply) == Err(Error("Theological Insight Error: " + CallSecureApi(reply).error.message))
  {
  }

  /** `fetchGroundedResponse`: the insight text with the fixed sources. */
  function FetchGroundedResponse(query: string, reply: HttpReply): (r: Result<GeminiResponse, Thrown>)
    ensures r.Ok? <==> Dispatch(Insight(query), reply).Ok?
    ensures r.Ok? ==> r.value.text == Dispatch(Insight(query), reply).value && r.value.sources == FixedSources
    ensures r.Err? ==> r.error == Dispatch(Insight(query), reply).error
  {
    match Dispatch(Insight(query), reply)
    case Ok(text) => Ok(GeminiResponse(text, FixedSources))
    case Err(e) => Err(e)
  }
}
