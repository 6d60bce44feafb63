# AI agent platform: conversations, LLM dispatch and record validation in Dafny

This project models the core of a multi-tenant Rails platform. On that platform, tenants configure AI agents and connect them to messaging channels. Each agent is backed by an OpenAI or Anthropic model.

The model covers:

- **Conversation orchestration.** `process_user_message` stores the user's message and reads the last 20 messages as context. It then calls the provider, stores the assistant's reply, and returns `{message, content, tokens_used}`. On an `LlmError` of any class, it stores a system message `"Error: <message>"` and raises the error again. `find_or_create_conversation` returns the active conversation for (agent, channel type, channel user), or creates one.
- **Conversation.** `add_message` (`messages.create!`), `message_history`, `total_tokens`, the status transitions `archive!`, `pause!` and `activate!`, the attribute validations, and the `active` scope.
- **LlmService.** Dispatch on the agent's provider, the OpenAI and Anthropic message builders, request contents, the extraction of content, token counts and finish reason from each provider's response body, and the mapping of Faraday errors onto `RateLimitError`, `InvalidRequestError` and `LlmError`. Also `Agent#execute_prompt_sync`, which delegates to `send_message`.
- **Record validations.** Agent, AgentChannel, Message, Tenant and User. Each record's errors are a list of (attribute, error kind) pairs. A record is valid exactly when the list is empty. The normalising `before_validation` callbacks of Tenant and User are included.
- **Ruby string helpers over ASCII.** `blank?` and `present?`, `downcase` and `strip`.

Modelling choices:

- Each source file is one module. `Conversation`, `Tenant` and `User` are classes because the source updates their fields in place. The `conversations` table is a `ConversationStore` class holding a sequence in creation order. `Message`, `Agent` and `AgentChannel` are values.
- The HTTP round trip is a parameter, `Transport = Request -> Reply`. A reply is one of three things:
  - a parsed body whose fields may be missing;
  - an unparseable body, which gives `JSON::ParserError`;
  - a raised Faraday error of class too-many-requests, bad-request or other.
- The step-by-step methods (the builders, `send_message`, `process_user_message`) are proved equal to a specification function. The properties the source promises are then proved about that function as lemmas. `find_or_create_conversation` states its new table and result directly, through the lookup `FirstActiveMatch`.
- Faraday's `raise_error` response middleware is modelled separately, as two ways of turning an HTTP response into a reply: the connection as the source builds it, and the connection the rescue clauses presuppose. See "## Findings".
- `nil` content from a provider becomes the empty string when stored. Both fail the `content` presence validation, so both give the same `RecordInvalid`.

## Model

| member | source | states |
|---|---|---|
| `ConversationService.ProcessUserMessage` | app/services/conversation_service.rb:12-46 | The new log and the returned or raised value are exactly those of the step-by-step outcome: store the user message, send it with the last 20 messages, store the reply or the error entry. A stored conversation stays valid. |
| `ConversationService.ProcessOutcome` | app/services/conversation_service.rb:12-46 | What a call does to a log: it only appends, at most two entries, leaves the earlier entries unchanged, and every entry it stores passes Message validation. |
| `ConversationService.Respond` | app/services/conversation_service.rb:27-45 | After the user message is stored, at most one more entry is appended, and it is valid. On success it is the assistant reply; on failure it is the system entry `"Error: " + message`. |
| `ConversationService.ProcessSuccess` | app/services/conversation_service.rb:12-38 | On success, exactly the user message and then the assistant message are appended. The result carries the provider's content and token count. The conversation's token total grows by that count. |
| `ConversationService.ProcessLlmFailure` | app/services/conversation_service.rb:39-45 | Conversely, whenever a call fails with an LlmError-family error, that error came from the provider, and the log gained the user message and the `"Error: " + message` system entry. |
| `ConversationService.ProviderLlmErrorLogged` | app/services/conversation_service.rb:39-45 | For every present message: if the provider fails with an LlmError-family error `e`, the user message and the system entry `"Error: " + e.message` are stored, and `e` itself is raised again. |
| `ConversationService.ProviderOtherErrorPropagates` | app/services/conversation_service.rb:24-45 | For every present message: if the provider fails with an error outside the LlmError family (a JSON parse error), only the user message is stored and the error propagates unrescued. |
| `ConversationService.ProviderReplyStored` | app/services/conversation_service.rb:27-38 | For every present message: if the provider replies with present content and a non-negative token count, the user and the assistant messages are stored, and the reply's content and tokens are returned. |
| `ConversationService.ProviderBlankReplyRejected` | app/services/conversation_service.rb:27-31 | For every present message: if the reply has no content or blank content, the user message stays stored and saving the assistant message raises RecordInvalid. |
| `ConversationService.ProcessOtherFailure` | app/services/conversation_service.rb:39 | Any other exception, such as a parse error or an invalid message, is not rescued. No system or assistant entry is stored; at most the user message is. |
| `ConversationService.BlankMessageStoresNothing` | app/services/conversation_service.rb:14-17 | A blank message raises RecordInvalid from `create!` before anything is stored or sent. |
| `ConversationService.ContextEndsWithUserMessage` | app/services/conversation_service.rb:14-24 | The history read after saving has 1 to 20 turns and ends with the new user message. The request to either provider therefore carries that message twice in its last two turns. |
| `ConversationService.ErrorEntryIsValid` | app/services/conversation_service.rb:41-44 | The `"Error: ..."` system entry always passes Message validation, so logging the error cannot itself raise. |
| `ConversationService.OpenAiExchange` | spec/services/llm_service_spec.rb:30-36 | For an OpenAI agent, "Hello!" on an empty conversation with the stubbed reply gives content "Hello from OpenAI!" and 25 tokens. It leaves exactly the user and assistant messages. |
| `ConversationService.RateLimitExchange` | spec/services/llm_service_spec.rb:67-77 | A too-many-requests error becomes RateLimitError. The log gains the user message and the system error entry. |
| `ConversationService.FirstActiveMatch` | app/services/conversation_service.rb:49-54 | The lookup finds an active conversation with the same agent, channel type and channel user, or none exactly when there is no such conversation. When there are several, `find_by` leaves the choice open; the model picks the earliest created. |
| `ConversationService.Matches` | app/services/conversation_service.rb:49-54 | The `find_by` conditions: same agent, channel type and channel user, and status "active". |
| `ConversationService.UniqueMatchFound` | app/services/conversation_service.rb:49-54 | While at most one active conversation exists per key, the lookup returns that conversation wherever it sits in the table. The order that `find_by` leaves open then makes no difference. |
| `ConversationService.InsertIntoNoMatch` | app/services/conversation_service.rb:56-61 | When no active conversation matched, a newly created one becomes the conversation the lookup finds. There is still at most one active conversation per key. |
| `ConversationService.FindOrCreateConversation` | app/services/conversation_service.rb:48-62 | An existing active match is returned and the table is unchanged. Otherwise a fresh active conversation with the given fields and no messages is appended, or RecordInvalid is raised with nothing inserted. The lookup afterwards finds the result. At most one active conversation per key is kept. |
| `ConversationService.CreateConversation` | app/services/conversation_service.rb:56-61 | `create!` appends a new active conversation with no messages when its attributes are valid. Otherwise it raises RecordInvalid with the validation errors and inserts nothing. |
| `ConversationService.FindOrCreateTwice` | app/services/conversation_service.rb:48-62 | Two calls in a row with the same key return the same conversation and create at most one. |
| `Conversations.AttributeErrors` | app/models/conversation.rb:31-33 | No errors exactly when the channel type is one of slack, telegram, sms or web, the channel user id is present, and the status is active, paused or archived. |
| `Conversations.Conversation.AddMessage` | app/models/conversation.rb:41-47 | A valid message, with tokens_used defaulting to 0, is appended and returned. An invalid one raises RecordInvalid with its errors and leaves the log unchanged. The conversation stays valid. |
| `Conversations.History` | app/models/conversation.rb:49-56 | The last `min(limit, n)` messages of the log, oldest first, as role and content pairs. |
| `Conversations.Conversation.MessageHistory` | app/models/conversation.rb:49-56 | With the default limit of 20: never more than `limit` turns; the whole log when it is no longer than `limit`; always ending with the newest message. |
| `Conversations.Conversation.TotalTokens` | app/models/conversation.rb:58-60 | A stored conversation's token sum is never negative. |
| `Conversations.TotalTokensAppend` | app/models/conversation.rb:58-60 | Adding one message raises the token sum by exactly that message's tokens. |
| `Conversations.Conversation.Archive` | app/models/conversation.rb:62-64 | The status becomes archived. The conversation stays valid, so `update!` cannot raise. |
| `Conversations.Conversation.Pause` | app/models/conversation.rb:66-68 | The status becomes paused. The conversation stays valid. |
| `Conversations.Conversation.Activate` | app/models/conversation.rb:70-72 | The status becomes active. The conversation stays valid. |
| `Conversations.Conversation.constructor` | app/models/conversation.rb:10 | A new conversation has the column default status "active" and no messages. |
| `Conversations.ActiveConversations` | app/models/conversation.rb:36 | The `active` scope keeps exactly the active conversations: each as many times as it occurs in the table, and nothing else. |
| `Conversations.ConversationStore.constructor` | app/models/conversation.rb:21 | The conversations table starts empty, and every stored conversation is valid. |
| `LlmService.SendOutcome` | app/services/llm_service.rb:21-36 | An unsupported provider raises `LlmError("Unsupported LLM provider: <p>")`. A supported provider's result is the reply to the request built for it, handled as `HandleReply` states for that provider. The call succeeds exactly when a body was delivered. Every failure is of the LlmError family or a JSON parse error. |
| `LlmService.SendMessage` | app/services/llm_service.rb:21-36 | The dispatching method returns exactly the outcome above for every agent, history and transport. The history defaults to empty. |
| `LlmService.MapFaradayError` | app/services/llm_service.rb:30-35 | Too-many-requests maps to RateLimitError, bad-request to InvalidRequestError, and any other Faraday error to LlmError. Each is in the LlmError family, and the mapping holds in both directions. The messages are "Rate limit exceeded: ", "Invalid request: " and "LLM API error: " followed by Faraday's message. |
| `LlmService.HandleReply` | app/services/llm_service.rb:30-85 | A delivered body gives the OpenAI or the Anthropic extraction, according to the provider. An unparseable body raises `JSON::ParserError`. A Faraday error raises the class its rescue clause maps it to. A reply fails exactly when no body was delivered, and the failure is in the LlmError family exactly when Faraday raised. |
| `LlmService.Supported` | app/services/llm_service.rb:22-29 | The providers the `case` dispatches on: "openai" and "anthropic". Any other provider takes the `else` branch. |
| `LlmService.RequestFor` | app/services/llm_service.rb:40-77 | The request carries the agent's model, temperature and max tokens, and ends with the user's message. It is an OpenAI request exactly for the openai provider, and its messages are then the OpenAI list. An Anthropic request's messages are the Anthropic list, and it carries the system prompt as its separate `system` field. |
| `LlmService.OpenAiMessagesShape` | app/services/llm_service.rb:88-97 | The OpenAI messages are the system prompt, then every history turn in order, then the user message. |
| `LlmService.BuildOpenAiMessages` | app/services/llm_service.rb:88-97 | The loop builds exactly the OpenAI message list. |
| `LlmService.AnthropicMessagesShape` | app/services/llm_service.rb:99-109 | The Anthropic messages contain no system turns from the history and keep every other history turn. They end with the user message. |
| `LlmService.BuildAnthropicMessages` | app/services/llm_service.rb:99-109 | The loop that skips system turns builds exactly the Anthropic message list. |
| `LlmService.ProvidersAgreeWithoutSystemTurns` | app/services/llm_service.rb:88-109 | For a history without system turns, the two providers get the same conversation messages; OpenAI's list only adds its leading system prompt. |
| `LlmService.OpenAiResult` | app/services/llm_service.rb:56-60 | Content and finish reason come from the first choice, and tokens from `usage.total_tokens`, defaulting to 0 when absent. |
| `LlmService.AnthropicResult` | app/services/llm_service.rb:81-85 | Content comes from the first content block's text. Tokens are input plus output tokens, each absent count taken as 0. The finish reason comes from `stop_reason`. |
| `LlmService.ExecutePromptSync` | app/models/agent.rb:53-56 | `execute_prompt_sync` returns the `send_message` outcome. A custom-provider agent always gets LlmError. |
| `LlmService.CustomAgentAlwaysFails` | app/services/llm_service.rb:27-28 | A valid custom agent can never be sent a message: the call raises "Unsupported LLM provider: custom". |
| `LlmService.OpenAiScenario` | spec/services/llm_service_spec.rb:30-36 | The stubbed OpenAI body gives content "Hello from OpenAI!", 25 tokens and finish reason "stop". |
| `LlmService.AnthropicScenario` | spec/services/llm_service_spec.rb:58-64 | The stubbed Anthropic body gives "Hello from Claude!", 10 + 15 = 25 tokens and "end_turn". |
| `LlmService.RateLimitScenario` | spec/services/llm_service_spec.rb:67-77 | A too-many-requests error raises RateLimitError with "Rate limit exceeded: " and the message. |
| `LlmService.ReplyAsWritten` | app/services/llm_service.rb:111-123 | The connection as built, with no `raise_error`: every response reaches `JSON.parse` whatever its status. Only an adapter failure with no response (connection, timeout, SSL) is raised, as a generic Faraday error. |
| `LlmService.ReplyWithRaiseError` | app/services/llm_service.rb:30-35 | With `raise_error`: a reply raises exactly for 4xx and 5xx statuses. It raises the too-many-requests error exactly for 429 and the bad-request error exactly for 400, with Faraday's status message. Any other status, and an adapter failure with no response, behaves as the connection as built. |
| `LlmService.AsWrittenNoTypedLlmErrors` | app/services/llm_service.rb:21-36 | As built, no HTTP response reaches the too-many-requests or bad-request clauses, so `send_message` never raises RateLimitError or InvalidRequestError. When it fails, it raises the generic LlmError exactly when no response arrived (the `Faraday::Error` clause still catches adapter failures), and a JSON parse error otherwise. |
| `LlmService.AsWrittenRateLimit` | spec/services/llm_service_spec.rb:67-77 | As built, the test's bare 429 raises `JSON::ParserError`, not RateLimitError. |
| `LlmService.TooManyRequestsMessage` | app/services/llm_service.rb:30-31 | Faraday's message for a 429 is "the server responded with status 429". |
| `LlmService.WithRaiseErrorRateLimit` | app/services/llm_service.rb:30-31 | With `raise_error`, a 429 raises RateLimitError with "Rate limit exceeded: " and Faraday's message, whatever the body. |
| `LlmService.WithRaiseErrorHttpErrors` | app/services/llm_service.rb:30-35 | With `raise_error`, `send_message` raises an LlmError-family error exactly when the provider answers with a 4xx or 5xx status or no response arrives. |
| `Agents.Errors` | app/models/agent.rb:35-42 | No errors exactly when all of these hold: the name is present with 2 to 100 characters; the provider is openai, anthropic or custom; the model is present; the system prompt is present with at least 10 characters; the temperature is in [0, 2]; max tokens is in (0, 100000]; and the model is on its provider's list. |
| `Agents.ModelForProviderErrors` | app/models/agent.rb:60-71 | OpenAI models must be on the OpenAI list, and Anthropic models on the Anthropic list. Any other provider adds no error here. |
| `Agents.CustomAgentAcceptsAnyModel` | app/models/agent.rb:60-71 | A valid custom agent stays valid with any present model name. |
| `Agents.ActiveAgents` | app/models/agent.rb:45 | The `active` scope keeps exactly the active agents: each as many times as it occurs in the list, and nothing else. |
| `AgentChannels.ConfigurationErrors` | app/models/agent_channel.rb:37-72 | Slack needs bot_token and signing_secret; telegram needs bot_token; sms needs both Twilio credentials; web needs webhook_url. In each case the requirement is both necessary and sufficient. An unknown type adds no configuration error. At most one error is added. |
| `AgentChannels.Errors` | app/models/agent_channel.rb:27-29 | No errors exactly when the type is known, not already used by the same agent, and its configuration is complete. |
| `AgentChannels.TypeTaken` | app/models/agent_channel.rb:28 | `uniqueness: { scope: :agent_id }`: another channel of the same agent has this type. |
| `AgentChannels.UnknownTypeOnlyInclusion` | app/models/agent_channel.rb:38-47 | An unknown channel type gives the inclusion error alone. |
| `AgentChannels.ExtraKeysAccepted` | app/models/agent_channel.rb:50-72 | Extra configuration keys never make a complete configuration invalid. |
| `AgentChannels.InsertKeepsUnique` | app/models/agent_channel.rb:28 | Inserting a channel that passed validation keeps channel types unique per agent. |
| `JsonValue.Present` | app/models/agent_channel.rb:51-69 | `present?` on a jsonb value: nil and false are blank, true and numbers are present, strings are present unless blank, arrays and hashes unless empty. |
| `JsonValue.PresentAt` | app/models/agent_channel.rb:51-69 | `configuration[key].present?`: the key exists and its value is present; a missing key reads as nil. |
| `Exceptions.Exception.IsLlmError` | app/services/llm_service.rb:9-11 | `is_a?(LlmService::LlmError)`: LlmError, RateLimitError and InvalidRequestError, the classes `rescue LlmService::LlmError` catches. |
| `Messages.Errors` | app/models/message.rb:28-30 | No errors exactly when the role is user, assistant or system, the content is present, and tokens_used is at least 0. Blank content always reports `content` as blank. |
| `Messages.ExactlyOneRole` | app/models/message.rb:39-49 | Every valid message answers true to exactly one of `user_message?`, `assistant_message?` and `system_message?`. |
| `Messages.ByRole` | app/models/message.rb:33 | The `by_role` scope keeps exactly the log's messages with that role: each as many times as it occurs in the log, and nothing else. |
| `Messages.TotalTokens` | app/models/conversation.rb:58-60 | `sum(:tokens_used)`: the sum is never negative when no message has negative tokens, and a one-message log sums to that message's tokens. |
| `Messages.IsUserMessage` | app/models/message.rb:39-41 | `user_message?`: the role is "user". |
| `Messages.IsAssistantMessage` | app/models/message.rb:43-45 | `assistant_message?`: the role is "assistant". |
| `Messages.IsSystemMessage` | app/models/message.rb:47-49 | `system_message?`: the role is "system". |
| `Messages.TotalTokensConcat` | app/models/conversation.rb:58-60 | The token sum of two logs laid end to end is the sum of their token sums. |
| `Tenants.NameErrors` | app/models/tenant.rb:20 | No errors exactly when the name is present with 2 to 100 characters. |
| `Tenants.MatchesSubdomainFormat` | app/models/tenant.rb:23 | `/\A[a-z0-9-]+\z/`: one or more characters, each a lowercase letter, a digit or '-'. |
| `Tenants.SubdomainTaken` | app/models/tenant.rb:22 | `uniqueness: { case_sensitive: false }`: some other tenant's subdomain equals this one once both are downcased. |
| `Tenants.Tenant.constructor` | app/models/tenant.rb:18-23 | A new tenant holds the given name, subdomain and active flag. |
| `Tenants.SubdomainErrors` | app/models/tenant.rb:21-23 | No errors exactly when the subdomain is non-empty, uses only a-z, 0-9 and '-', and no existing subdomain equals it ignoring case. A format failure reports the declared message "only allows lowercase letters, numbers, and hyphens". |
| `Tenants.NormalizedSubdomainAccepted` | app/models/tenant.rb:21-29 | After normalisation, the subdomain is accepted exactly when its normalised form has the required format and is not taken. |
| `Tenants.InsertKeepsDistinct` | app/models/tenant.rb:22 | Inserting an accepted subdomain keeps all subdomains distinct ignoring case. |
| `Tenants.Tenant.NormalizeSubdomain` | app/models/tenant.rb:46-48 | A present subdomain becomes its downcased, stripped form. A blank one is left as it is. |
| `Tenants.Tenant.Errors` | app/models/tenant.rb:20-23 | No errors exactly when both the name and the subdomain validations pass. |
| `Tenants.Tenant.Validate` | app/models/tenant.rb:20-29 | Runs the normalising callback, then reports exactly the tenant's validation errors. |
| `Tenants.ActiveTenants` | app/models/tenant.rb:33 | The `active` scope keeps exactly the active tenants: each as many times as it occurs in the list, and nothing else. |
| `Users.AttributeErrors` | app/models/user.rb:26-30 | No errors exactly when all of these hold: the email is present and not taken in the same tenant ignoring case; the role is admin or member; the password is blank or at least 8 characters. The validations `has_secure_password` adds are left out (see "## Left out"). |
| `Users.EmailTaken` | app/models/user.rb:28 | `uniqueness: { scope: :tenant_id, case_sensitive: false }`: a user of the same tenant has this email once both are downcased. Users of other tenants never count. |
| `Users.InsertKeepsDistinctEmails` | app/models/user.rb:28 | Inserting a user that passed validation keeps emails distinct per tenant, ignoring case. |
| `Users.User.constructor` | db/migrate/20250101000002_create_users.rb:7 | A new user has the column default role "member". |
| `Users.User.NormalizeEmail` | app/models/user.rb:56-58 | A present email becomes its downcased, stripped form. A blank one is left as it is. |
| `Users.User.Errors` | app/models/user.rb:26-30 | The user's attribute validations, against the other users of the table. |
| `Users.User.Validate` | app/models/user.rb:26-33 | Runs the normalising callback, then reports exactly the user's validation errors. |
| `Users.WithRole` | app/models/user.rb:36-37 | `where(role:)` keeps exactly the users with that role: each as many times as it occurs in the list, and nothing else. |
| `Users.Admins` | app/models/user.rb:36 | The `admins` scope keeps exactly the users for which `admin?` holds, each as many times as it occurs in the list. |
| `Users.Members` | app/models/user.rb:37 | The `members` scope keeps exactly the users whose role is "member", each as many times as it occurs in the list. |
| `Users.User.IsAdmin` | app/models/user.rb:40-42 | `admin?`: the role is "admin". |
| `Users.AdminsMembersPartition` | app/models/user.rb:36-42 | Among users with a valid role, each is in exactly one of admins and members, and in admins exactly when `admin?` holds. |
| `RubyString.Downcase` | app/models/tenant.rb:47 | ASCII `downcase` maps each character on its own: A-Z to a-z, everything else unchanged. It keeps the length, yields lowercase, and keeps blankness. |
| `RubyString.IsBlank` | app/models/conversation.rb:32 | `blank?` on a string: empty, or made only of `[[:space:]]` characters. |
| `RubyString.IsPresent` | app/models/message.rb:29 | `present?`: not blank. |
| `RubyString.Strip` | app/models/tenant.rb:47 | `strip` returns the part of the input between its maximal leading run and its maximal trailing run of whitespace and NUL characters: everything after the result is strippable, and the result neither starts nor ends with a strippable character. It is empty exactly when the input holds nothing else. |
| `RubyString.StripIdempotent` | app/models/tenant.rb:47 | Stripping twice is stripping once. |
| `RubyString.Normalize` | app/models/tenant.rb:46-48 | `x.downcase.strip if x.present?`: a blank value is kept as it is. A present value becomes `Strip(Downcase(x))`, which is lowercase and already stripped. |
| `RubyString.NormalizeIdempotent` | app/models/user.rb:56-58 | Normalising an email or subdomain twice gives the same result as normalising it once. |
| `Seqs.Filter` | app/services/llm_service.rb:102-105 | Keeps exactly the entries the test accepts: each as many times as it occurs, no other entry, never a longer list. |
| `Seqs.FilterConcat` | app/services/llm_service.rb:102-105 | Skipping entries over two concatenated lists is skipping over each and concatenating. |
| `Validation.Presence` | app/models/message.rb:29 | `presence: true` on a string adds the blank error exactly when the value is blank. |
| `Validation.InclusionIn` | app/models/message.rb:28 | `inclusion: { in: ... }` adds the inclusion error exactly when the value is outside the list. |
| `Validation.MinimumLength` | app/models/user.rb:30 | `length: { minimum: n }` adds the too-short error exactly when the value has fewer than n characters. |
| `Validation.LengthBetween` | app/models/agent.rb:35 | `length: { minimum: lo, maximum: hi }` adds no error exactly when the length is within [lo, hi], and at most one error otherwise. |

## Left out

- HTTP controllers, JWT authentication (`generate_jwt`), `has_secure_password`/bcrypt, and tenant switching (`switch_tenant`, `reset_tenant`, `ActsAsTenant`). These are framework and crypto plumbing outside the core. The model's tables are simply those of one tenant.
- The Faraday connection is replaced by the `Transport` parameter. Left out with it are the endpoint URLs, headers, `ENV` API keys, JSON encoding, the retry middleware and the memoised clients. `send_message` and `process_user_message` take the kind of failure from the transport, as the source's rescue clauses and its test expect. The missing `raise_error` middleware is under "## Findings".
- Faraday versions that add the method and URL to the status message are not modelled. `JSON::ParserError` messages are not modelled either; the as-built connection reports an empty one.
- `Agent#execute_prompt` and the Sidekiq jobs. These are asynchronous queueing outside the core.
- Logging (`Rails.logger`) and the `after_create` schema callback of Tenant, which only logs.
- Concurrent `find_or_create_conversation` calls. Two processes racing can create two active conversations, since no unique index exists. The model runs calls one at a time.
- `ConversationService.FirstActiveMatch`: `find_by` sets no order, so with several active conversations for one key the source returns an unspecified one. The model pins it to the earliest created. The source does not keep the key unique among active conversations. Duplicates arise from `activate!` on a paused conversation whose key has a newer active one (app/models/conversation.rb:70-72), from the API's create and update, which permit `status` (app/controllers/api/v1/conversations_controller.rb:92-95), and from `AgentExecutionJob`'s `create!` of a ('web', 'system') conversation on every run without a conversation id (app/jobs/agent_execution_job.rb:16-21). `FindOrCreateConversation` keeps the invariant itself. `ConversationService.FindOrCreateTwice` returns the same conversation twice only under this pinned choice. `UniqueMatchFound` shows the choice matters only when the invariant is broken.
- A conversation holds a copy of its agent's attributes (`Conversations.Conversation.agent`), where `belongs_to` holds a reference. An update to the agent after the conversation is loaded does not reach it in the model.
- The scopes `by_channel`, `recent`, `by_provider`, `user_messages`, `assistant_messages`, `chronological`, and AgentChannel's `active` and `by_type`. These are plain `where`/`order` filters. Logs are kept in creation order, so `chronological` is the identity on a log.
- Timestamps are left out; creation order is the position in a sequence.
- `Agents.Errors`: temperature is a `real`, and only its numeric range is checked. Non-numeric input and `nil` are not modelled.
- `Users.AttributeErrors`: does not check the `URI::MailTo::EMAIL_REGEXP` email format. That regular expression is library code outside this model.
- `Users.AttributeErrors`: does not model the validations `has_secure_password` adds: a password required on create, at most 72 bytes, and equal to its confirmation when one is given. Password digests are bcrypt plumbing outside this model.
- `Users.User.Errors`: inherits the missing email format check and the missing `has_secure_password` validations from `Users.AttributeErrors`.
- `Users.User.Validate`: inherits the missing email format check and the missing `has_secure_password` validations from `Users.AttributeErrors`.
- `nil` attributes are not modelled, except a provider's missing content, which is stored as "" and fails presence in the same way. A missing OpenAI `total_tokens` or Anthropic usage count is modelled as 0.
- JSON numbers are integers. Only the values `present?` sees are distinguished.
- `downcase`, `strip` and `blank?` are ASCII only. Unicode case mapping and Unicode whitespace are left out.
- Validation errors are (attribute, error key) pairs, and the rendered full-message text is left out. The custom messages of `errors.add` and of the subdomain format are kept as written.

## Findings

| source | as written | input that shows it | evidently intended | confidence | as-written member | corrected member |
|---|---|---|---|---|---|---|
| app/services/llm_service.rb:111-123 | The Faraday clients install only the retry middleware and the adapter, with no `raise_error`. A 4xx or 5xx response is handed to `JSON.parse` like any other, so no HTTP response reaches the too-many-requests or bad-request clauses at lines 30-33. The generic clause at lines 34-35 still catches adapter failures. | The rate-limit test's bare 429 (spec/services/llm_service_spec.rb:67-77): an empty body, so `send_message` raises `JSON::ParserError` instead of `RateLimitError`. | `f.response :raise_error` on both clients: a 429 raises `TooManyRequestsError`, which becomes `RateLimitError`, and any 4xx or 5xx raises an LlmError-family error. | not executed; medium (depends on the Faraday version's defaults) | `LlmService.AsWrittenRateLimit` | `LlmService.WithRaiseErrorRateLimit` |
