/** How the browser client, the gateway and the direct Azure client fit
    together: every request the client sends passes the gateway's checks
    and is completed with the same settings the direct client uses, and the
    client reads the gateway's answers back. */
module EndToEnd {
  import opened Wrappers
  import opened JsText
  import opened Prompts
  import SecureApi
  import AzureOpenAI
  import ChatGateway

  /** Every prompt the client builds is non-empty. */
  lemma PromptNonEmpty(intent: Intent)
    ensures SecureApi.RequestFor(intent).prompt != ""
  {
    match intent
    case Insight(q) =>
      InsightTopicRecoverable(q);
    case Summary(t, r) =>
      assert |SummaryPrompt(t, r)| >= |SummaryMiddle|;
    case ChapterCommentary(t, r, per) =>
      CommentaryStartsWithPerspective(t, r, per);
    case SelectionCommentary(s, r, per) =>
      SelectionIsQuoted(s, r, per);
    case ChatTurn(r, t, m) =>
      SecureApi.ChatPromptCarries(r, t, m);
  }

  /** The request body the client posts, as the gateway parses it. */
  function Posted(intent: Intent): ChatGateway.RequestBody {
    var req := SecureApi.RequestFor(intent);
    ChatGateway.ObjectBody(ChatGateway.Fields(Some(req.prompt), Some(req.kind), Some(req.maxTokens)))
  }

  /** The gateway's settings for the type tag the client sends are those the
      direct client uses for the same intent. */
  lemma SettingsAgree(intent: Intent, deployment: string)
    ensures var settings := ChatGateway.TypeSettings(SecureApi.RequestFor(intent).kind);
      var direct := AzureOpenAI.CompletionFor(deployment, intent);
      settings.Some? && settings.value.1 == direct.temperatureTenths
      && (!intent.ChatTurn? ==> settings.value.0 == direct.system)
  {
    SecureApi.RequestTable(intent);
    AzureOpenAI.CompletionTable(deployment, intent);
    ChatGateway.TypeTable();
  }

  /** A configured gateway whose SDK client builds sends every client
      request upstream: the prompt unchanged, the client's token budget, and
      the temperature the direct Azure client uses for the same intent. */
  lemma GatewayAcceptsEveryIntent(intent: Intent, env: map<string, string>, reply: ChatGateway.Reply, deployment: string)
    requires ChatGateway.IsSet(env, "AZURE_OPENAI_API_KEY") && ChatGateway.IsSet(env, "AZURE_OPENAI_ENDPOINT")
    ensures var o := ChatGateway.Respond("POST", env, Posted(intent), None, reply);
      var direct := AzureOpenAI.CompletionFor(deployment, intent);
      o.sent.Some?
      && o.sent.value.user == SecureApi.RequestFor(intent).prompt
      && o.sent.value.maxTokens == direct.maxTokens
      && o.sent.value.temperatureTenths == direct.temperatureTenths
      && o.sent.value.topPHundredths == direct.topPHundredths
      && (!intent.ChatTurn? ==> o.sent.value.system == direct.system && o.sent.value.user == direct.user)
  {
    var req := SecureApi.RequestFor(intent);
    PromptNonEmpty(intent);
    DispatchersAgree(intent, deployment);
    SettingsAgree(intent, deployment);
    ChatGateway.SendsCompletion(env, req.prompt, req.kind, req.maxTokens, reply);
  }

  /** The two dispatchers agree on every intent's token budget and, for all
      but the chat, on its prompt. */
  lemma DispatchersAgree(intent: Intent, deployment: string)
    ensures AzureOpenAI.CompletionFor(deployment, intent).maxTokens == SecureApi.RequestFor(intent).maxTokens
    ensures !intent.ChatTurn? ==> AzureOpenAI.CompletionFor(deployment, intent).user == SecureApi.RequestFor(intent).prompt
  {
  }

  /** The reply the client's `fetch` sees for a gateway outcome. A response
      without a body fails to parse. */
  function Delivered(o: ChatGateway.Outcome): SecureApi.HttpReply {
    var ok := 200 <= o.status <= 299;
    if o.body.None? then SecureApi.Received(ok, o.status, Err(Error("Unexpected end of JSON input")))
    else
      var b := o.body.value;
      if b.Answered? then SecureApi.Received(ok, o.status, Ok(SecureApi.ApiBody(true, Some(b.response), None)))
      else SecureApi.Received(ok, o.status, Ok(SecureApi.ApiBody(false, None, Some(b.error))))
  }

  /** The client returns the gateway's answer text when it succeeds, and
      reports any other POST outcome by its status alone. */
  lemma ClientReadsGateway(env: map<string, string>, body: ChatGateway.RequestBody,
                           construction: Option<ChatGateway.UpstreamError>, reply: ChatGateway.Reply)
    ensures var o := ChatGateway.Respond("POST", env, body, construction, reply);
      var r := SecureApi.CallSecureApi(Delivered(o));
      (o.status == 200 ==> r == Ok(o.body.value.response))
      && (o.status != 200 ==> r == Err(Error(SecureApi.HttpErrorPrefix + IntToString(o.status))))
  {
    ChatGateway.SuccessMeaning("POST", env, body, construction, reply);
  }
}
