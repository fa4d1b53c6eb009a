/** The serverless chat gateway (`api/chat/index.js`): it answers a CORS
    preflight, accepts only POST, checks its configuration and the request
    body, picks a system prompt and temperature by request type, forwards
    one chat completion upstream, and maps upstream failures to HTTP
    statuses. The SDK is not modelled: what constructing its client throws
    and what the completion call produces are inputs. */
module ChatGateway {
  import opened Wrappers
  import opened JsText
  import opened Prompts
  import AzureOpenAI

  /** The response headers every path sets. */
  const CorsHeaders: seq<(string, string)> := [
    ("Access-Control-Allow-Origin", "*"),
    ("Access-Control-Allow-Methods", "GET, POST, OPTIONS"),
    ("Access-Control-Allow-Headers", "Content-Type, Authorization")
  ]

  const DefaultDeployment := "gpt-4o-mini"
  const DefaultMaxTokens := 2000

  /** The fields of a JSON request body the gateway reads, each `None` when
      absent. */
  datatype Fields = Fields(prompt: Option<string>, kind: Option<string>, maxTokens: Option<int>)

  /** The parsed request body: missing, JSON `null`, or an object. */
  datatype RequestBody = NoBody | NullBody | ObjectBody(fields: Fields)

  /** What the SDK throws: its HTTP `status`, its `code` and its `message`,
      each possibly absent. */
  datatype UpstreamError = UpstreamError(status: Option<int>, code: Option<string>, message: Option<string>)

  /** The token usage the completion reports; passed through as it is. */
  datatype Usage = Usage(promptTokens: int, completionTokens: int, totalTokens: int)

  /** What `chat.completions.create` produced: the first choice's content
      (`None` when there is none) with the usage, or the error it threw. */
  datatype Reply = Replied(content: Option<string>, usage: Option<Usage>) | Rejected(failure: UpstreamError)

  /** The body of a response. */
  datatype ResponseBody =
    | Refusal(error: string)
    | Answered(response: string, usage: Option<Usage>)
    | ErrorReport(error: string, details: Option<string>, statusCode: Option<int>)

  /** `context.res`: headers, and the status and body once a path sets them. */
  datatype Response = Response(headers: seq<(string, string)>, status: Option<int>, body: Option<ResponseBody>)

  /** What the whole handler produces: the status, the body, and the
      completion it sent upstream (`None` when it sent none). */
  datatype Outcome = Outcome(status: int, body: Option<ResponseBody>, sent: Option<AzureOpenAI.CompletionRequest>)

  const ConfigurationError := "Server configuration error: Azure OpenAI credentials are not set."
  const MissingFieldsError := "Missing \"prompt\" or \"type\" in request body."
  const InvalidTypeError := "Invalid \"type\" parameter."

  /** A variable that is missing or empty counts as not set. */
  predicate IsSet(env: map<string, string>, name: string) {
    name in env && env[name] != ""
  }

  function EnvOr(env: map<string, string>, name: string, fallback: string): (r: string)
    ensures IsSet(env, name) ==> r == env[name]
    ensures !IsSet(env, name) ==> r == fallback
  {
    if name in env then OrElse(Some(env[name]), fallback) else fallback
  }

  /** The system prompt and temperature (in tenths) of a request type the
      gateway knows; `None` for any other type. */
  function TypeSettings(kind: string): (r: Option<(string, nat)>)
    ensures r.Some? <==> kind in {"theological_insight", "chapter_summary", "commentary", "chat"}
  {
    if kind == "theological_insight" then Some((TheologianSystem, 7))
    else if kind == "chapter_summary" then Some((ScholarSystem, 3))
    else if kind == "commentary" then Some((CommentatorSystem, 6))
    else if kind == "chat" then Some(("You are a helpful and knowledgeable Bible assistant. Be helpful and informative.", 7))
    else None
  }

  /** The gateway's type table: each request type's system message and
      temperature, in tenths. */
  lemma TypeTable()
    ensures TypeSettings("theological_insight") == Some((TheologianSystem, 7))
    ensures TypeSettings("chapter_summary") == Some((ScholarSystem, 3))
    ensures TypeSettings("commentary") == Some((CommentatorSystem, 6))
    ensures TypeSettings("chat").Some? && TypeSettings("chat").value.1 == 7
  {
    assert |"chapter_summary"| != |"theological_insight"|;
    assert |"commentary"| != |"theological_insight"| && |"commentary"| != |"chapter_summary"|;
    assert |"chat"| != |"theological_insight"| && |"chat"| != |"chapter_summary"| && |"chat"| != |"commentary"|;
  }

  const AccessDenied := "Access Denied. This could be a Firewall or IAM Role issue on your Azure OpenAI resource. Check your Azure Function and Azure OpenAI networking and access control settings."
  const AuthenticationFailed := "Authentication Failed. The API Key is likely invalid or expired."
  const ResourceNotFound := "Resource Not Found. Check if the Azure OpenAI endpoint or deployment name is correct."
  const QuotaExceeded := "Azure OpenAI quota exceeded. Please check your usage limits."
  const GenericError := "An error occurred while processing your request."

  /** The message the catch block reports with each status it can set. */
  function StatusMessage(status: int): string {
    if status == 403 then AccessDenied
    else if status == 401 then AuthenticationFailed
    else if status == 404 then ResourceNotFound
    else if status == 429 then QuotaExceeded
    else GenericError
  }

  /** The status and message an upstream failure is reported with; the
      status is checked before the code. */
  function ErrorStatus(e: UpstreamError): (r: (int, string))
    ensures r.0 in {403, 401, 404, 429, 500}
    ensures e.status in {Some(403), Some(401), Some(404)} ==> r.0 == e.status.value
    ensures e.status !in {Some(403), Some(401), Some(404)} ==>
      (r.0 == 429 <==> e.code == Some("insufficient_quota")) && (r.0 == 500 <==> e.code != Some("insufficient_quota"))
    ensures r.1 == StatusMessage(r.0)
  {
    if e.status == Some(403) then (403, AccessDenied)
    else if e.status == Some(401) then (401, AuthenticationFailed)
    else if e.status == Some(404) then (404, ResourceNotFound)
    else if e.code == Some("insufficient_quota") then (429, QuotaExceeded)
    else (500, GenericError)
  }

  /** The catch block's response: the mapped status and message, with the
      raw message and status of the error. */
  function Caught(e: UpstreamError): Outcome {
    Outcome(ErrorStatus(e).0, Some(ErrorReport(ErrorStatus(e).1, e.message, e.status)), None)
  }

  /** What destructuring a missing or null body throws. */
  function DestructureError(body: RequestBody): UpstreamError
    requires !body.ObjectBody?
  {
    UpstreamError(None, None, Some(
      "Cannot destructure property 'prompt' of 'req.body' as it is " + (if body.NoBody? then "undefined" else "null") + "."))
  }

  /** The handler's decision chain: method, then configuration, then body
      fields, then client construction, then request type, then the
      upstream call. */
  function Respond(httpMethod: string, env: map<string, string>, body: RequestBody,
                   construction: Option<UpstreamError>, reply: Reply): Outcome
  {
    if httpMethod == "OPTIONS" then Outcome(204, None, None)
    else if httpMethod != "POST" then Outcome(405, Some(Refusal("Method Not Allowed")), None)
    else if !IsSet(env, "AZURE_OPENAI_API_KEY") || !IsSet(env, "AZURE_OPENAI_ENDPOINT") then
      Outcome(500, Some(Refusal(ConfigurationError)), None)
    else if !body.ObjectBody? then Caught(DestructureError(body))
    else
      var f := body.fields;
      if OrElse(f.prompt, "") == "" || OrElse(f.kind, "") == "" then Outcome(400, Some(Refusal(MissingFieldsError)), None)
      else if construction.Some? then Caught(construction.value)
      else if TypeSettings(f.kind.value).None? then Outcome(400, Some(Refusal(InvalidTypeError)), None)
      else
        var settings := TypeSettings(f.kind.value).value;
        var request := AzureOpenAI.CompletionRequest(
          EnvOr(env, "DEPLOYMENT_NAME", DefaultDeployment), settings.0, f.prompt.value,
          f.maxTokens.GetOr(DefaultMaxTokens), settings.1, 95);
        match reply
        case Rejected(e) => Caught(e).(sent := Some(request))
        case Replied(content, usage) =>
          Outcome(200, Some(Answered(OrElse(content, "No response generated."), usage)), Some(request))
  }

  /** A preflight is answered with no content, and any other method but
      POST is refused, before anything else is looked at. */
  lemma MethodComesFirst(httpMethod: string, env: map<string, string>, body: RequestBody,
                         construction: Option<UpstreamError>, reply: Reply)
    ensures httpMethod == "OPTIONS" ==> Respond(httpMethod, env, body, construction, reply) == Outcome(204, None, None)
    ensures httpMethod != "OPTIONS" && httpMethod != "POST" ==>
      Respond(httpMethod, env, body, construction, reply) == Outcome(405, Some(Refusal("Method Not Allowed")), None)
  {
  }

  /** A POST without both credentials is refused with a server error,
      whatever its body, and nothing is sent upstream. */
  lemma ConfigurationComesSecond(env: map<string, string>, body: RequestBody,
                                 construction: Option<UpstreamError>, reply: Reply)
    requires !IsSet(env, "AZURE_OPENAI_API_KEY") || !IsSet(env, "AZURE_OPENAI_ENDPOINT")
    ensures Respond("POST", env, body, construction, reply) == Outcome(500, Some(Refusal(ConfigurationError)), None)
  {
  }

  /** Once configured, a body without a non-empty prompt and type is
      refused with 400, whatever the SDK would do. */
  lemma FieldsComeThird(env: map<string, string>, f: Fields, construction: Option<UpstreamError>, reply: Reply)
    requires IsSet(env, "AZURE_OPENAI_API_KEY") && IsSet(env, "AZURE_OPENAI_ENDPOINT")
    requires f.prompt.None? || f.prompt == Some("") || f.kind.None? || f.kind == Some("")
    ensures Respond("POST", env, ObjectBody(f), construction, reply) == Outcome(400, Some(Refusal(MissingFieldsError)), None)
  {
  }

  /** An unknown request type is refused with 400 and never reaches the
      model. */
  lemma UnknownTypeRefused(env: map<string, string>, prompt: string, kind: string, maxTokens: Option<int>, reply: Reply)
    requires IsSet(env, "AZURE_OPENAI_API_KEY") && IsSet(env, "AZURE_OPENAI_ENDPOINT")
    requires prompt != "" && kind != ""
    requires kind !in {"theological_insight", "chapter_summary", "commentary", "chat"}
    ensures Respond("POST", env, ObjectBody(Fields(Some(prompt), Some(kind), maxTokens)), None, reply)
      == Outcome(400, Some(Refusal(InvalidTypeError)), None)
  {
  }

  /** A request is sent upstream exactly when it passes every check; it
      carries the prompt unchanged and the token budget asked for, 2000 when
      none is. */
  lemma SentExactlyWhenValid(httpMethod: string, env: map<string, string>, body: RequestBody,
                             construction: Option<UpstreamError>, reply: Reply)
    ensures var o := Respond(httpMethod, env, body, construction, reply);
      (o.sent.Some? <==>
         httpMethod == "POST" && IsSet(env, "AZURE_OPENAI_API_KEY") && IsSet(env, "AZURE_OPENAI_ENDPOINT")
         && body.ObjectBody? && OrElse(body.fields.prompt, "") != "" && OrElse(body.fields.kind, "") != ""
         && construction.None? && TypeSettings(body.fields.kind.value).Some?)
      && (o.sent.Some? ==>
            o.sent.value.user == body.fields.prompt.value
            && o.sent.value.maxTokens == body.fields.maxTokens.GetOr(DefaultMaxTokens)
            && o.sent.value.system == TypeSettings(body.fields.kind.value).value.0
            && o.sent.value.temperatureTenths == TypeSettings(body.fields.kind.value).value.1
            && o.sent.value.topPHundredths == 95)
  {
  }

  /** A configured gateway sends a well-formed request's completion with the
      request's prompt and budget and its type's settings. */
  lemma SendsCompletion(env: map<string, string>, prompt: string, kind: string, maxTokens: nat, reply: Reply)
    requires IsSet(env, "AZURE_OPENAI_API_KEY") && IsSet(env, "AZURE_OPENAI_ENDPOINT")
    requires prompt != "" && TypeSettings(kind).Some?
    ensures Respond("POST", env, ObjectBody(Fields(Some(prompt), Some(kind), Some(maxTokens))), None, reply).sent
      == Some(AzureOpenAI.CompletionRequest(EnvOr(env, "DEPLOYMENT_NAME", DefaultDeployment),
                                            TypeSettings(kind).value.0, prompt, maxTokens, TypeSettings(kind).value.1, 95))
  {
  }

  /** A 200 answer is exactly a completed upstream call, and its text is
      never empty; every other status comes with a failure body. */
  lemma SuccessMeaning(httpMethod: string, env: map<string, string>, body: RequestBody,
                       construction: Option<UpstreamError>, reply: Reply)
    ensures var o := Respond(httpMethod, env, body, construction, reply);
      (o.status == 200 <==> o.sent.Some? && reply.Replied?)
      && (o.status == 200 ==> o.body.Some? && o.body.value.Answered? && o.body.value.response != ""
                              && o.body.value.usage == reply.usage)
      && (o.status != 200 && o.status != 204 ==> o.body.Some? && !o.body.value.Answered?)
      && o.status in {200, 204, 400, 401, 403, 404, 405, 429, 500}
  {
  }

  /** The status is checked before the code: an upstream 403, 401 or 404
      is reported the same whatever code comes with it, and the quota code
      only decides when the status is none of these. */
  lemma StatusBeforeCode(status: Option<int>, code: Option<string>, message: Option<string>)
    ensures status in {Some(403), Some(401), Some(404)} ==>
      ErrorStatus(UpstreamError(status, code, message)) == ErrorStatus(UpstreamError(status, None, message))
    ensures status !in {Some(403), Some(401), Some(404)} ==>
      ErrorStatus(UpstreamError(status, Some("insufficient_quota"), message)) == (429, QuotaExceeded)
      && (code != Some("insufficient_quota") ==> ErrorStatus(UpstreamError(status, code, message)) == (500, GenericError))
  {
  }

  /** The Azure Functions context, whose `res` the handler fills in. */
  class Context {
    var res: Response

    constructor()
      ensures res == Response([], None, None)
    {
      res := Response([], None, None);
    }

    /** The exported handler: build `context.res` step by step and send at
        most one completion upstream. */
    method Handle(httpMethod: string, env: map<string, string>, body: RequestBody,
                  construction: Option<UpstreamError>, reply: Reply)
      returns (sent: Option<AzureOpenAI.CompletionRequest>)
      modifies this
      ensures var o := Respond(httpMethod, env, body, construction, reply);
        res == Response(CorsHeaders, Some(o.status), o.body) && sent == o.sent
    {
      res := Response(CorsHeaders, None, None);
      sent := None;
      if httpMethod == "OPTIONS" {
        res := res.(status := Some(204));
        return;
      }
      if httpMethod != "POST" {
        res := res.(status := Some(405), body := Some(Refusal("Method Not Allowed")));
        return;
      }
      var hasKey := IsSet(env, "AZURE_OPENAI_API_KEY");
      var hasEndpoint := IsSet(env, "AZURE_OPENAI_ENDPOINT");
      var deployment := EnvOr(env, "DEPLOYMENT_NAME", DefaultDeployment);
      if !hasKey || !hasEndpoint {
        res := res.(status := Some(500), body := Some(Refusal(ConfigurationError)));
        return;
      }
      var failure: Option<UpstreamError> := None;
      if !body.ObjectBody? {
        failure := Some(DestructureError(body));
      } else {
        var prompt := body.fields.prompt;
        var kind := body.fields.kind;
        var maxTokens := body.fields.maxTokens.GetOr(DefaultMaxTokens);
        if OrElse(prompt, "") == "" || OrElse(kind, "") == "" {
          res := res.(status := Some(400), body := Some(Refusal(MissingFieldsError)));
          return;
        }
        if construction.Some? {
          failure := construction;
        } else {
          var systemPrompt := "";
          var temperature := 7;
          match TypeSettings(kind.value)
          case None =>
            res := res.(status := Some(400), body := Some(Refusal(InvalidTypeError)));
            return;
          case Some(settings) =>
            systemPrompt := settings.0;
            temperature := settings.1;
          sent := Some(AzureOpenAI.CompletionRequest(deployment, systemPrompt, prompt.value, maxTokens, temperature, 95));
          match reply
          case Rejected(e) =>
            failure := Some(e);
          case Replied(content, usage) =>
            res := res.(status := Some(200), body := Some(Answered(OrElse(content, "No response generated."), usage)));
            return;
        }
      }
      var mapped := ErrorStatus(failure.value);
      res := res.(status := Some(mapped.0), body := Some(ErrorReport(mapped.1, failure.value.message, failure.value.status)));
    }
  }
}
