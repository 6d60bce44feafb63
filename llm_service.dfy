/** LlmService (app/services/llm_service.rb): turns an agent, a history and a
    user message into a provider request, and the provider's reply into a
    response or an LlmError-family exception. The provider itself (HTTP,
    JSON, retries) is the `transport` parameter. */
module LlmService {
  import opened Wrappers
  import opened Agents
  import opened Messages
  import opened Exceptions
  import Seqs

  /** The decoded request bodies of POST /v1/chat/completions and POST /v1/messages. */
  datatype Request =
    | OpenAiRequest(model: string, messages: seq<Turn>, temperature: real, maxTokens: int)
    | AnthropicRequest(model: string, system: string, messages: seq<Turn>, temperature: real, maxTokens: int)

  /** The fields of a parsed response body that the service digs out; a
      missing field is None. */
  datatype Body =
    | OpenAiBody(content: Option<string>, finishReason: Option<string>, totalTokens: Option<int>)
    | AnthropicBody(text: Option<string>, inputTokens: Option<int>, outputTokens: Option<int>, stopReason: Option<string>)

  /** The Faraday error classes `send_message` rescues, most specific first. */
  datatype FaradayError = TooManyRequests | BadRequest | OtherFaradayError

  /** What a provider call yields: a parsed body, a body JSON.parse rejects, or a
      Faraday error with its message. */
  datatype Reply =
    | Delivered(body: Body)
    | Unparseable(detail: string)
    | Raised(error: FaradayError, message: string)

  type Transport = Request -> Reply

  /** The `{ content:, tokens_used:, finish_reason: }` hash. */
  datatype LlmResponse = LlmResponse(content: Option<string>, tokensUsed: int, finishReason: Option<string>)

  // ---------------------------------------------------------------- messages

  /** `build_openai_messages`: the system prompt, the history as it is, then
      the user message. */
  function OpenAiMessages(systemPrompt: string, userMessage: string, history: seq<Turn>): seq<Turn> {
    [Turn("system", systemPrompt)] + history + [Turn("user", userMessage)]
  }

  lemma OpenAiMessagesShape(systemPrompt: string, userMessage: string, history: seq<Turn>)
    ensures var r := OpenAiMessages(systemPrompt, userMessage, history);
      && |r| == |history| + 2
      && r[0] == Turn("system", systemPrompt)
      && r[1..|r| - 1] == history
      && r[|r| - 1] == Turn("user", userMessage)
  {
  }

  method BuildOpenAiMessages(systemPrompt: string, userMessage: string, history: seq<Turn>)
    returns (messages: seq<Turn>)
    ensures messages == OpenAiMessages(systemPrompt, userMessage, history)
  {
    messages := [Turn("system", systemPrompt)];
    for i := 0 to |history|
      invariant messages == [Turn("system", systemPrompt)] + history[..i]
    {
      messages := messages + [Turn(history[i].role, history[i].content)];
    }
    messages := messages + [Turn("user", userMessage)];
  }

  function NotSystem(t: Turn): bool {
    t.role != "system"
  }

  /** `build_anthropic_messages`: the history without its system-role entries,
      then the user message (the prompt travels in the separate `system` field). */
  function AnthropicMessages(userMessage: string, history: seq<Turn>): seq<Turn> {
    Seqs.Filter(history, NotSystem) + [Turn("user", userMessage)]
  }

  /** The Anthropic list never holds a system-role entry, keeps every other
      history entry, and ends with the user message. */
  lemma AnthropicMessagesShape(userMessage: string, history: seq<Turn>)
    ensures var r := AnthropicMessages(userMessage, history);
      && |r| <= |history| + 1
      && (forall i :: 0 <= i < |r| ==> r[i].role != "system")
      && (forall t :: t in history && t.role != "system" ==> t in r)
      && r[|r| - 1] == Turn("user", userMessage)
  {
    var r := AnthropicMessages(userMessage, history);
    forall t | t in history && t.role != "system" ensures t in r {
      var k :| 0 <= k < |history| && history[k] == t;
      assert NotSystem(history[k]);
    }
  }

  /** Without system-role entries in the history, both providers receive the
      same turns after the OpenAI system entry. */
  lemma {:induction false} ProvidersAgreeWithoutSystemTurns(systemPrompt: string, userMessage: string, history: seq<Turn>)
    requires forall i :: 0 <= i < |history| ==> history[i].role != "system"
    ensures OpenAiMessages(systemPrompt, userMessage, history)[1..] == AnthropicMessages(userMessage, history)
  {
    Seqs.FilterAllPass(history, NotSystem);
  }

  method BuildAnthropicMessages(userMessage: string, history: seq<Turn>) returns (messages: seq<Turn>)
    ensures messages == AnthropicMessages(userMessage, history)
  {
    messages := [];
    for i := 0 to |history|
      invariant messages == Seqs.Filter(history[..i], NotSystem)
    {
      assert history[..i + 1][..i] == history[..i];
      if history[i].role != "system" {
        messages := messages + [Turn(history[i].role, history[i].content)];
      }
    }
    assert history[..|history|] == history;
    messages := messages + [Turn("user", userMessage)];
  }

  // ---------------------------------------------------------------- replies

  /** The fields `send_openai_request` digs out: content and finish reason of
      the first choice, total tokens or 0. A body of the other shape has none
      of the keys. */
  function OpenAiResult(body: Body): (r: LlmResponse)
    ensures body.OpenAiBody? ==>
      r.content == body.content && r.finishReason == body.finishReason
      && r.tokensUsed == (if body.totalTokens.Some? then body.totalTokens.value else 0)
    ensures body.AnthropicBody? ==> r == LlmResponse(None, 0, None)
  {
    match body
    case OpenAiBody(content, finishReason, totalTokens) => LlmResponse(content, totalTokens.GetOr(0), finishReason)
    case AnthropicBody(_, _, _, _) => LlmResponse(None, 0, None)
  }

  /** The fields `send_anthropic_request` digs out: the first content block's
      text, input plus output tokens (nil.to_i is 0), and the stop reason. */
  function AnthropicResult(body: Body): (r: LlmResponse)
    ensures body.AnthropicBody? ==>
      r.content == body.text && r.finishReason == body.stopReason
      && r.tokensUsed == (if body.inputTokens.Some? then body.inputTokens.value else 0)
                       + (if body.outputTokens.Some? then body.outputTokens.value else 0)
    ensures body.OpenAiBody? ==> r == LlmResponse(None, 0, None)
  {
    match body
    case AnthropicBody(text, inputTokens, outputTokens, stopReason) =>
      LlmResponse(text, inputTokens.GetOr(0) + outputTokens.GetOr(0), stopReason)
    case OpenAiBody(_, _, _) => LlmResponse(None, 0, None)
  }

  /** The three `rescue` clauses of `send_message`: every Faraday error becomes
      an LlmError-family exception, and its class tells which rescue fired. */
  function MapFaradayError(error: FaradayError, message: string): (e: Exception)
    ensures e.IsLlmError()
    ensures e.RateLimitError? <==> error == TooManyRequests
    ensures e.InvalidRequestError? <==> error == BadRequest
    ensures e.LlmError? <==> error == OtherFaradayError
    ensures error == TooManyRequests ==> e.message == "Rate limit exceeded: " + message
    ensures error == BadRequest ==> e.message == "Invalid request: " + message
    ensures error == OtherFaradayError ==> e.message == "LLM API error: " + message
  {
    match error
    case TooManyRequests => RateLimitError("Rate limit exceeded: " + message)
    case BadRequest => InvalidRequestError("Invalid request: " + message)
    case OtherFaradayError => LlmError("LLM API error: " + message)
  }

  /** A provider reply as `send_message` returns or raises it. */
  function HandleReply(reply: Reply, openAi: bool): (r: Result<LlmResponse, Exception>)
    ensures r.Failure? <==> !reply.Delivered?
    ensures r.Failure? ==> (r.error.IsLlmError() <==> reply.Raised?)
    ensures reply.Delivered? && openAi ==> r == Success(OpenAiResult(reply.body))
    ensures reply.Delivered? && !openAi ==> r == Success(AnthropicResult(reply.body))
    ensures reply.Unparseable? ==> r == Failure(ParserError(reply.detail))
    ensures reply.Raised? ==> r == Failure(MapFaradayError(reply.error, reply.message))
  {
    match reply
    case Delivered(body) => Success(if openAi then OpenAiResult(body) else AnthropicResult(body))
    case Unparseable(detail) => Failure(ParserError(detail))
    case Raised(error, message) => Failure(MapFaradayError(error, message))
  }

  // ---------------------------------------------------------------- dispatch

  predicate Supported(provider: string) {
    provider == "openai" || provider == "anthropic"
  }

  /** The request the agent's provider is sent. */
  function RequestFor(agent: Agent, userMessage: string, history: seq<Turn>): (req: Request)
    requires Supported(agent.llmProvider)
    ensures req.model == agent.llmModel && req.temperature == agent.temperature && req.maxTokens == agent.maxTokens
    ensures |req.messages| >= 1 && req.messages[|req.messages| - 1] == Turn("user", userMessage)
    ensures agent.llmProvider == "openai" <==> req.OpenAiRequest?
    ensures req.OpenAiRequest? ==> req.messages == OpenAiMessages(agent.systemPrompt, userMessage, history)
    ensures req.AnthropicRequest? ==>
      req.system == agent.systemPrompt && req.messages == AnthropicMessages(userMessage, history)
  {
    if agent.llmProvider == "openai" then
      OpenAiRequest(agent.llmModel, OpenAiMessages(agent.systemPrompt, userMessage, history),
                    agent.temperature, agent.maxTokens)
    else
      AnthropicRequest(agent.llmModel, agent.systemPrompt, AnthropicMessages(userMessage, history),
                       agent.temperature, agent.maxTokens)
  }

  /** What `send_message` returns or raises. */
  function SendOutcome(agent: Agent, userMessage: string, history: seq<Turn>, transport: Transport)
    : (r: Result<LlmResponse, Exception>)
    ensures !Supported(agent.llmProvider) ==>
      r == Failure(LlmError("Unsupported LLM provider: " + agent.llmProvider))
    ensures r.Failure? ==> r.error.IsLlmError() || r.error.ParserError?
    ensures Supported(agent.llmProvider) ==>
      (r.Success? <==> transport(RequestFor(agent, userMessage, history)).Delivered?)
    ensures Supported(agent.llmProvider) ==>
      r == HandleReply(transport(RequestFor(agent, userMessage, history)), agent.llmProvider == "openai")
  {
    if Supported(agent.llmProvider) then
      HandleReply(transport(RequestFor(agent, userMessage, history)), agent.llmProvider == "openai")
    else
      Failure(LlmError("Unsupported LLM provider: " + agent.llmProvider))
  }

  method SendMessage(agent: Agent, userMessage: string, transport: Transport, history: seq<Turn> := [])
    returns (r: Result<LlmResponse, Exception>)
    ensures r == SendOutcome(agent, userMessage, history, transport)
  {
    if agent.llmProvider == "openai" {
      var messages := BuildOpenAiMessages(agent.systemPrompt, userMessage, history);
      var reply := transport(OpenAiRequest(agent.llmModel, messages, agent.temperature, agent.maxTokens));
      r := HandleReply(reply, true);
    } else if agent.llmProvider == "anthropic" {
      var messages := BuildAnthropicMessages(userMessage, history);
      var reply := transport(AnthropicRequest(agent.llmModel, agent.systemPrompt, messages,
                                              agent.temperature, agent.maxTokens));
      r := HandleReply(reply, false);
    } else {
      r := Failure(LlmError("Unsupported LLM provider: " + agent.llmProvider));
    }
  }

  /** Agent#execute_prompt_sync (app/models/agent.rb): a single `send_message`. */
  method ExecutePromptSync(agent: Agent, userMessage: string, transport: Transport, history: seq<Turn> := [])
    returns (r: Result<LlmResponse, Exception>)
    ensures r == SendOutcome(agent, userMessage, history, transport)
    ensures agent.llmProvider == "custom" ==> r.Failure? && r.error.LlmError?
  {
    r := SendMessage(agent, userMessage, transport, history);
  }

  /** A custom agent passes validation yet every message to it fails, whatever
      the provider would have answered. */
  lemma CustomAgentAlwaysFails(agent: Agent, userMessage: string, history: seq<Turn>, transport: Transport)
    requires agent.llmProvider == "custom"
    ensures SendOutcome(agent, userMessage, history, transport)
         == Failure(LlmError("Unsupported LLM provider: custom"))
  {
    assert "Unsupported LLM provider: " + agent.llmProvider == "Unsupported LLM provider: custom";
  }

  // ---------------------------------------------------------------- scenarios

  /** The OpenAI reply of the service's own test: 25 tokens, finish reason "stop". */
  lemma OpenAiScenario(agent: Agent, history: seq<Turn>, transport: Transport)
    requires agent.llmProvider == "openai"
    requires transport(RequestFor(agent, "Hello!", history))
          == Delivered(OpenAiBody(Some("Hello from OpenAI!"), Some("stop"), Some(25)))
    ensures SendOutcome(agent, "Hello!", history, transport)
         == Success(LlmResponse(Some("Hello from OpenAI!"), 25, Some("stop")))
  {
  }

  /** The Anthropic reply of the service's own test: 10 input plus 15 output
      tokens, stop reason "end_turn". */
  lemma AnthropicScenario(agent: Agent, history: seq<Turn>, transport: Transport)
    requires agent.llmProvider == "anthropic"
    requires transport(RequestFor(agent, "Hello!", history))
          == Delivered(AnthropicBody(Some("Hello from Claude!"), Some(10), Some(15), Some("end_turn")))
    ensures SendOutcome(agent, "Hello!", history, transport)
         == Success(LlmResponse(Some("Hello from Claude!"), 25, Some("end_turn")))
  {
  }

  /** A too-many-requests reply raises RateLimitError. */
  lemma RateLimitScenario(agent: Agent, history: seq<Turn>, transport: Transport, m: string)
    requires Supported(agent.llmProvider)
    requires transport(RequestFor(agent, "Hello!", history)) == Raised(TooManyRequests, m)
    ensures SendOutcome(agent, "Hello!", history, transport) == Failure(RateLimitError("Rate limit exceeded: " + m))
  {
  }

  // ---------------------------------------------------------------- the connection

  /** What the Faraday adapter hands back for a request: a response with its
      status and the body's fields (None when `JSON.parse` rejects the body; an
      empty body, as a bare 429 has, is rejected), or no response at all, which
      the adapter raises as Faraday::ConnectionFailed, TimeoutError or SSLError,
      all subclasses of Faraday::Error. */
  datatype HttpResponse =
    | Response(status: int, body: Option<Body>)
    | NoResponse(message: string)

  type Http = Request -> HttpResponse

  // DecimalString and StatusMessage model the text of Faraday's own error
  // middleware, not code of the application.

  /** The decimal digits of `n`. */
  function DecimalString(n: nat): string
    decreases n
  {
    if n < 10 then [('0' as int + n) as char]
    else DecimalString(n / 10) + [('0' as int + n % 10) as char]
  }

  /** The message Faraday's error middleware gives an error status. */
  function StatusMessage(status: nat): string {
    "the server responded with status " + DecimalString(status)
  }

  /** The connections as `openai_client` and `anthropic_client` build them: the
      retry middleware and the adapter only, no `raise_error`, so a response of
      any status reaches `JSON.parse`; only an adapter failure is raised, as a
      generic Faraday::Error. */
  function ReplyAsWritten(response: HttpResponse): (reply: Reply)
    ensures reply.Raised? <==> response.NoResponse?
    ensures response.NoResponse? ==> reply == Raised(OtherFaradayError, response.message)
    ensures response.Response? && response.body.Some? ==> reply == Delivered(response.body.value)
    ensures response.Response? && response.body.None? ==> reply.Unparseable?
  {
    match response
    case NoResponse(message) => Raised(OtherFaradayError, message)
    case Response(_, Some(body)) => Delivered(body)
    case Response(_, None) => Unparseable("")
  }

  /** The connections with Faraday's `raise_error` response middleware, which
      the rescue clauses of `send_message` presuppose: 429 raises
      TooManyRequestsError, 400 BadRequestError, and any other 4xx or 5xx
      status another Faraday::Error. Adapter failures are raised as before. */
  function ReplyWithRaiseError(response: HttpResponse): (reply: Reply)
    ensures reply.Raised? <==> response.NoResponse? || 400 <= response.status < 600
    ensures reply.Raised? && reply.error == TooManyRequests <==> response.Response? && response.status == 429
    ensures reply.Raised? && reply.error == BadRequest <==> response.Response? && response.status == 400
    ensures response.Response? && reply.Raised? ==> reply.message == StatusMessage(response.status)
    ensures response.NoResponse? || !reply.Raised? ==> reply == ReplyAsWritten(response)
  {
    if response.NoResponse? then ReplyAsWritten(response)
    else if response.status == 429 then Raised(TooManyRequests, StatusMessage(response.status))
    else if response.status == 400 then Raised(BadRequest, StatusMessage(response.status))
    else if 400 <= response.status < 600 then Raised(OtherFaradayError, StatusMessage(response.status))
    else ReplyAsWritten(response)
  }

  /** As written, no HTTP response reaches the TooManyRequests or BadRequest
      clauses: when a supported provider's call fails, whatever the status, it
      fails with the generic LlmError exactly when no response arrived, and
      with a parse error otherwise. */
  lemma AsWrittenNoTypedLlmErrors(agent: Agent, userMessage: string, history: seq<Turn>, http: Http)
    requires Supported(agent.llmProvider)
    ensures var r := SendOutcome(agent, userMessage, history, (req: Request) => ReplyAsWritten(http(req)));
      r.Failure? ==> !r.error.RateLimitError? && !r.error.InvalidRequestError?
    ensures var r := SendOutcome(agent, userMessage, history, (req: Request) => ReplyAsWritten(http(req)));
      r.Failure? && r.error.IsLlmError() <==> http(RequestFor(agent, userMessage, history)).NoResponse?
    ensures var r := SendOutcome(agent, userMessage, history, (req: Request) => ReplyAsWritten(http(req)));
      r.Failure? && !r.error.IsLlmError() ==> r.error.ParserError?
  {
    var transport := (req: Request) => ReplyAsWritten(http(req));
    var request := RequestFor(agent, userMessage, history);
    assert transport(request) == ReplyAsWritten(http(request));
  }

  /** As written, the rate-limit case of the service's own test (a bare 429)
      raises JSON::ParserError, not RateLimitError. */
  lemma AsWrittenRateLimit(agent: Agent, history: seq<Turn>, http: Http)
    requires Supported(agent.llmProvider)
    requires http(RequestFor(agent, "Hello!", history)) == Response(429, None)
    ensures SendOutcome(agent, "Hello!", history, (req: Request) => ReplyAsWritten(http(req)))
         == Failure(ParserError(""))
  {
  }

  /** Faraday's message for a 429. */
  lemma TooManyRequestsMessage()
    ensures StatusMessage(429) == "the server responded with status 429"
  {
    assert DecimalString(42) == "42" by {
      assert DecimalString(4) == "4";
    }
  }

  /** With `raise_error`, a 429 raises RateLimitError carrying Faraday's
      message, whatever the body. */
  lemma WithRaiseErrorRateLimit(agent: Agent, userMessage: string, history: seq<Turn>, http: Http)
    requires Supported(agent.llmProvider)
    requires http(RequestFor(agent, userMessage, history)).Response?
    requires http(RequestFor(agent, userMessage, history)).status == 429
    ensures SendOutcome(agent, userMessage, history, (req: Request) => ReplyWithRaiseError(http(req)))
         == Failure(RateLimitError("Rate limit exceeded: " + StatusMessage(429)))
  {
    var transport := (req: Request) => ReplyWithRaiseError(http(req));
    var request := RequestFor(agent, userMessage, history);
    assert transport(request) == ReplyWithRaiseError(http(request));
  }

  /** With `raise_error`, `send_message` raises an error of the LlmError family
      exactly when the provider answers with a 4xx or 5xx status or does not
      answer at all. */
  lemma WithRaiseErrorHttpErrors(agent: Agent, userMessage: string, history: seq<Turn>, http: Http)
    requires Supported(agent.llmProvider)
    ensures var r := SendOutcome(agent, userMessage, history, (req: Request) => ReplyWithRaiseError(http(req)));
      var response := http(RequestFor(agent, userMessage, history));
      response.NoResponse? || 400 <= response.status < 600 <==> r.Failure? && r.error.IsLlmError()
  {
    var transport := (req: Request) => ReplyWithRaiseError(http(req));
    var request := RequestFor(agent, userMessage, history);
    assert transport(request) == ReplyWithRaiseError(http(request));
  }
}
