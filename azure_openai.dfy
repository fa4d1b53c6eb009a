/** The direct Azure OpenAI client: it builds one SDK client on first use,
    refuses to build it without an API key, sends one chat completion per
    request, and turns every failure into one fixed message per request
    kind. The SDK's `chat.completions.create` is not modelled; its outcome
    is an input. */
module AzureOpenAI {
  import opened Wrappers
  import opened JsText
  import opened BibleTypes
  import opened Prompts

  /** `getEnvVar(name, fallback = '')`: the variable's value when the
      environment exists and the value is non-empty, the fallback otherwise.
      `env` is `None` where there is no `process` or no `process.env`. */
  function GetEnvVar(env: Option<map<string, string>>, name: string, fallback: string): (r: string)
    ensures env.Some? && name in env.value && env.value[name] != "" ==> r == env.value[name]
    ensures !(env.Some? && name in env.value && env.value[name] != "") ==> r == fallback
  {
    if env.Some? && name in env.value then OrElse(Some(env.value[name]), fallback) else fallback
  }

  const DefaultEndpoint := "https://biblestudyopenai.openai.azure.com/"
  const DefaultDeployment := "gpt-4o-mini"
  const ApiVersion := "2025-01-01-preview"
  const MissingKeyMessage := "Azure OpenAI API key is not configured. Please check your environment variables."

  /** The base URL of a deployment's completion endpoints. */
  function BaseUrl(endpoint: string, deployment: string): (url: string)
    ensures |url| == |endpoint| + |"openai/deployments/"| + |deployment|
    ensures url[..|endpoint|] == endpoint && url[|url| - |deployment|..] == deployment
  {
    var url := endpoint + "openai/deployments/" + deployment;
    assert url[..|endpoint|] == endpoint;
    assert url[|url| - |deployment|..] == deployment;
    url
  }

  /** The SDK client, as far as what it is built with. */
  class OpenAIClient {
    const apiKey: string
    const baseUrl: string
    const apiVersion: string

    constructor(apiKey: string, baseUrl: string)
      ensures this.apiKey == apiKey && this.baseUrl == baseUrl && apiVersion == ApiVersion
    {
      this.apiKey := apiKey;
      this.baseUrl := baseUrl;
      apiVersion := ApiVersion;
    }
  }

  /** One chat completion request. Temperature and top-p are fixed
      fractions, held here in tenths and hundredths. */
  datatype CompletionRequest = CompletionRequest(
    model: string, system: string, user: string,
    maxTokens: int, temperatureTenths: nat, topPHundredths: nat)

  /** What `chat.completions.create` produced: the first choice's message
      content (`None` when there is no choice, no message or no content), or
      the error it threw. */
  datatype Completion = Completed(content: Option<string>) | Failed(cause: Thrown)

  /** The chat system message: the passage under study and its full text. */
  const ChatHead := "You are a helpful and knowledgeable Bible assistant. The user is currently studying "

  const ChatMiddle := ". Be helpful and informative. The full text of the chapter is provided here for your context:\n\n"

  function ChatSystem(reference: string, chapterText: string): string {
    ChatHead + reference + ChatMiddle + chapterText
  }

  /** The completion each intent is sent as. */
  function CompletionFor(deployment: string, intent: Intent): (req: CompletionRequest)
    ensures req.model == deployment && req.topPHundredths == 95
  {
    match intent
    case Insight(query) =>
      CompletionRequest(deployment, TheologianSystem, InsightPrompt(query), 2778, 7, 95)
    case Summary(text, reference) =>
      CompletionRequest(deployment, ScholarSystem, SummaryPrompt(text, reference), 1000, 3, 95)
    case ChapterCommentary(text, reference, p) =>
      CompletionRequest(deployment, CommentatorSystem, ChapterCommentaryPrompt(text, reference, p), 2000, 6, 95)
    case SelectionCommentary(selection, reference, p) =>
      CompletionRequest(deployment, CommentatorSystem, SelectionCommentaryPrompt(selection, reference, p), 1500, 6, 95)
    case ChatTurn(reference, text, message) =>
      CompletionRequest(deployment, ChatSystem(reference, text), message, 1500, 7, 95)
  }

  /** The completion table: each intent's system message, token budget and
      temperature, with the prompt as the user message. */
  lemma CompletionTable(deployment: string, intent: Intent)
    ensures var req := CompletionFor(deployment, intent);
      (intent.Insight? ==> req == CompletionRequest(deployment, TheologianSystem, InsightPrompt(intent.query), 2778, 7, 95))
      && (intent.Summary? ==>
            req == CompletionRequest(deployment, ScholarSystem, SummaryPrompt(intent.chapterText, intent.reference), 1000, 3, 95))
      && (intent.ChapterCommentary? ==>
            req == CompletionRequest(deployment, CommentatorSystem,
                                     ChapterCommentaryPrompt(intent.chapterText, intent.reference, intent.perspective), 2000, 6, 95))
      && (intent.SelectionCommentary? ==>
            req == CompletionRequest(deployment, CommentatorSystem,
                                     SelectionCommentaryPrompt(intent.selection, intent.reference, intent.perspective), 1500, 6, 95))
      && (intent.ChatTurn? ==>
            req == CompletionRequest(deployment, ChatSystem(intent.reference, intent.chapterText), intent.message, 1500, 7, 95))
  {
  }

  /** The text an intent answers with when the completion has no content. */
  function Fallback(intent: Intent): (s: string)
    ensures s != ""
  {
    match intent
    case Insight(_) => "No response generated."
    case Summary(_, _) => "Unable to generate summary."
    case ChapterCommentary(_, _, _) => "Unable to generate commentary."
    case SelectionCommentary(_, _, _) => "Unable to generate commentary."
    case ChatTurn(_, _, _) => "I'm sorry, I couldn't generate a response."
  }

  /** The message an intent's failure is reported with. Only the insight
      request keeps the underlying message. */
  function FailureMessage(intent: Intent, cause: Thrown): string {
    match intent
    case Insight(_) =>
      (match cause
       case Error(m) => "Azure OpenAI API Error: " + m
       case NonError => "An unexpected error occurred while fetching data from Azure OpenAI.")
    case Summary(_, _) => "Failed to summarize chapter with Azure OpenAI."
    case ChapterCommentary(_, _, _) => "Failed to generate commentary with Azure OpenAI."
    case SelectionCommentary(_, _, _) => "Failed to generate commentary with Azure OpenAI."
    case ChatTurn(_, _, _) => "Failed to process chat message with Azure OpenAI."
  }

  /** What `getOpenAIClient` throws, or `None` when it returns a client: the
      key check comes first, and an existing client is reused without
      building another. `construction` is what building one would throw. */
  function ClientFailure(apiKey: string, built: bool, construction: Option<Thrown>): Option<Thrown> {
    if apiKey == "" then Some(Error(MissingKeyMessage))
    else if built then None
    else construction
  }

  /** An intent's answer, given what obtaining the client threw and what the
      completion produced. */
  function Answer(intent: Intent, clientFailure: Option<Thrown>, completion: Completion): Result<string, Thrown> {
    if clientFailure.Some? then Err(Error(FailureMessage(intent, clientFailure.value)))
    else
      match completion
      case Failed(cause) => Err(Error(FailureMessage(intent, cause)))
      case Completed(content) => Ok(OrElse(content, Fallback(intent)))
  }

  /** An answer is the completion's non-empty content, or the intent's
      fallback text; a failure always carries the intent's message. */
  lemma AnswerMeaning(intent: Intent, clientFailure: Option<Thrown>, completion: Completion)
    ensures var r := Answer(intent, clientFailure, completion);
      (r.Ok? <==> clientFailure.None? && completion.Completed?)
      && (r.Ok? ==>
            r.value != ""
            && if completion.content.Some? && completion.content.value != "" then r.value == completion.content.value
               else r.value == Fallback(intent))
      && (r.Err? ==>
            r.error.Error?
            && r.error.message == FailureMessage(intent, if clientFailure.Some? then clientFailure.value else completion.cause))
  {
  }

  /** Without an API key every request fails, whatever the SDK would have
      done: the insight request says why, the others give their fixed
      message. */
  lemma MissingKeyFails(intent: Intent, built: bool, construction: Option<Thrown>, completion: Completion)
    ensures var r := Answer(intent, ClientFailure("", built, construction), completion);
      r.Err? && (intent.Insight? ==> r.error == Error("Azure OpenAI API Error: " + MissingKeyMessage))
      && (!intent.Insight? ==> r.error == Answer(intent, Some(NonError), completion).error)
  {
  }

  /** Every failure of a summary, commentary or chat request reads the
      same, whatever its cause. */
  lemma FailuresCollapse(intent: Intent, f1: Option<Thrown>, c1: Completion, f2: Option<Thrown>, c2: Completion)
    requires !intent.Insight?
    requires Answer(intent, f1, c1).Err? && Answer(intent, f2, c2).Err?
    ensures Answer(intent, f1, c1) == Answer(intent, f2, c2)
  {
  }

  /** The chat system message names the passage and ends with its full
      text; the user's message is sent as it is. */
  lemma ChatCarriesPassage(deployment: string, reference: string, chapterText: string, message: string)
    ensures var req := CompletionFor(deployment, ChatTurn(reference, chapterText, message));
      req.user == message
      && |req.system| >= |ChatHead| + |reference| + |chapterText|
      && req.system[|ChatHead|..|ChatHead| + |reference|] == reference
      && req.system[|req.system| - |chapterText|..] == chapterText
  {
    Framed(ChatHead, reference, ChatMiddle, chapterText);
  }

  /** In `h + r + m + t`, `r` stands right after `h` and `t` ends the text. */
  lemma Framed(h: string, r: string, m: string, t: string)
    ensures var s := h + r + m + t;
      |s| >= |h| + |r| + |t| && s[|h|..|h| + |r|] == r && s[|s| - |t|..] == t
  {
    var s := h + r + m + t;
    assert s[|h|..|h| + |r|] == r;
    assert s[|s| - |t|..] == t;
  }

  /** The service: the configuration read from the environment when the
      module loads, and the client once it is built. */
  class AzureOpenAIService {
    const endpoint: string
    const deployment: string
    const apiKey: string
    var openaiInstance: OpenAIClient?

    constructor(env: Option<map<string, string>>)
      ensures endpoint == GetEnvVar(env, "AZURE_OPENAI_ENDPOINT", DefaultEndpoint)
      ensures deployment == GetEnvVar(env, "DEPLOYMENT_NAME", DefaultDeployment)
      ensures apiKey == GetEnvVar(env, "AZURE_OPENAI_API_KEY", "")
      ensures openaiInstance == null
    {
      endpoint := GetEnvVar(env, "AZURE_OPENAI_ENDPOINT", DefaultEndpoint);
      deployment := GetEnvVar(env, "DEPLOYMENT_NAME", DefaultDeployment);
      apiKey := GetEnvVar(env, "AZURE_OPENAI_API_KEY", "");
      openaiInstance := null;
    }

    /** `getOpenAIClient`: fail without a key before building anything;
        otherwise return the client, building it on first use. */
    method GetOpenAIClient(construction: Option<Thrown>) returns (r: Result<OpenAIClient, Thrown>)
      modifies this
      ensures var failure := ClientFailure(apiKey, old(openaiInstance) != null, construction);
        (r.Err? <==> failure.Some?) && (r.Err? ==> r.error == failure.value)
      ensures old(openaiInstance) != null && apiKey != "" ==> r.Ok? && r.value == old(openaiInstance)
      ensures r.Err? || old(openaiInstance) != null ==> openaiInstance == old(openaiInstance)
      ensures r.Ok? ==> openaiInstance == r.value
      ensures r.Ok? && old(openaiInstance) == null ==>
        fresh(r.value) && r.value.apiKey == apiKey && r.value.baseUrl == BaseUrl(endpoint, deployment)
    {
      if apiKey == "" {
        return Err(Error(MissingKeyMessage));
      }
      if openaiInstance == null {
        if construction.Some? {
          return Err(construction.value);
        }
        openaiInstance := new OpenAIClient(apiKey, BaseUrl(endpoint, deployment));
      }
      r := Ok(openaiInstance);
    }

    /** One of `summarizeChapter`, `generateChapterCommentary`,
        `generateSelectionCommentary`, a chat's `sendMessage`, or the text
        part of `fetchGroundedResponse`: obtain the client, send the intent's
        completion (`sent`, `None` when none is sent), and answer. */
    method Complete(intent: Intent, construction: Option<Thrown>, completion: Completion)
      returns (r: Result<string, Thrown>, sent: Option<CompletionRequest>)
      modifies this
      ensures var failure := ClientFailure(apiKey, old(openaiInstance) != null, construction);
        r == Answer(intent, failure, completion)
        && sent == (if failure.None? then Some(CompletionFor(deployment, intent)) else None)
      ensures old(openaiInstance) != null || ClientFailure(apiKey, false, construction).Some? ==>
        openaiInstance == old(openaiInstance)
      ensures old(openaiInstance) == null && ClientFailure(apiKey, false, construction).None? ==>
        openaiInstance != null && fresh(openaiInstance)
        && openaiInstance.apiKey == apiKey && openaiInstance.baseUrl == BaseUrl(endpoint, deployment)
    {
      ghost var failure := ClientFailure(apiKey, openaiInstance != null, construction);
      var client := GetOpenAIClient(construction);
      if client.Err? {
        assert failure == Some(client.error);
        assert Answer(intent, failure, completion) == Err(Error(FailureMessage(intent, client.error)));
        return Err(Error(FailureMessage(intent, client.error))), None;
      }
      assert failure.None?;
      sent := Some(CompletionFor(deployment, intent));
      match completion
      case Failed(cause) =>
        r := Err(Error(FailureMessage(intent, cause)));
        assert r == Answer(intent, failure, completion);
      case Completed(content) =>
        r := Ok(OrElse(content, Fallback(intent)));
        assert r == Answer(intent, failure, completion);
    }

    /** `fetchGroundedResponse`: the insight answer with the fixed sources. */
    method FetchGroundedResponse(query: string, construction: Option<Thrown>, completion: Completion)
      returns (r: Result<GeminiResponse, Thrown>, sent: Option<CompletionRequest>)
      modifies this
      ensures var failure := ClientFailure(apiKey, old(openaiInstance) != null, construction);
        var answer := Answer(Insight(query), failure, completion);
        (r.Ok? <==> answer.Ok?)
        && (r.Ok? ==> r.value == GeminiResponse(answer.value, FixedSources))
        && (r.Err? ==> r.error == answer.error)
        && sent == (if failure.None? then Some(CompletionFor(deployment, Insight(query))) else None)
      ensures old(openaiInstance) != null || ClientFailure(apiKey, false, construction).Some? ==>
        openaiInstance == old(openaiInstance)
      ensures old(openaiInstance) == null && ClientFailure(apiKey, false, construction).None? ==>
        openaiInstance != null && fresh(openaiInstance)
        && openaiInstance.apiKey == apiKey && openaiInstance.baseUrl == BaseUrl(endpoint, deployment)
    {
      var text;
      text, sent := Complete(Insight(query), construction, completion);
      match text
      case Ok(t) => r := Ok(GeminiResponse(t, FixedSources));
      case Err(e) => r := Err(e);
    }
  }
}
