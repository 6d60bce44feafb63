/** ConversationService (app/services/conversation_service.rb): turns one user
    message into log entries around a provider call, and resolves the active
    conversation of an external identity. */
module ConversationService {
  import opened Wrappers
  import opened RubyString
  import opened Exceptions
  import opened Messages
  import opened Conversations
  import Agents
  import JsonValue
  import LlmService

  /** `process_user_message` reads the last 20 messages as context. */
  const HISTORY_LIMIT: nat := 20

  /** The `{ message:, content:, tokens_used: }` hash. */
  datatype ProcessResult = ProcessResult(message: Message, content: Option<string>, tokensUsed: int)

  /** The log after a call, and what the call returned or raised. */
  datatype Exchange = Exchange(log: seq<Message>, result: Result<ProcessResult, Exception>)

  /** What `process_user_message(content)` does to a conversation of `agent`
      whose log is `log`: every entry it stores passes validation, and the
      entries already there stay as they are. */
  function ProcessOutcome(agent: Agents.Agent, log: seq<Message>, content: string, transport: LlmService.Transport)
    : (x: Exchange)
    ensures |log| <= |x.log| <= |log| + 2 && x.log[..|log|] == log
    ensures forall i :: |log| <= i < |x.log| ==> Messages.Valid(x.log[i])
  {
    var user := Message("user", content, 0);
    if !Messages.Valid(user) then Exchange(log, Failure(RecordInvalid(Messages.Errors(user))))
    else
      var log1 := log + [user];
      var x := Respond(log1, LlmService.SendOutcome(agent, content, History(log1, HISTORY_LIMIT), transport));
      assert x.log[..|log|] == x.log[..|log1|][..|log|];
      x
  }

  /** The rest of the call once the user message is stored in `log1`: the
      provider's answer is stored as an assistant message (a response without
      content is added as "", which fails the presence validation exactly as
      nil does), and an LlmError-family failure as a system entry. */
  function Respond(log1: seq<Message>, response: Result<LlmService.LlmResponse, Exception>): (x: Exchange)
    ensures |log1| <= |x.log| <= |log1| + 1 && x.log[..|log1|] == log1
    ensures forall i :: |log1| <= i < |x.log| ==> Messages.Valid(x.log[i])
    ensures |x.log| == |log1| + 1 ==> x.log[|log1|].role == (if response.Success? then "assistant" else "system")
    ensures |x.log| == |log1| + 1 && response.Failure? ==>
      response.error.IsLlmError() && x.log[|log1|].content == "Error: " + response.error.message
  {
    match response
    case Failure(e) =>
      if e.IsLlmError() then
        ErrorEntryIsValid(e.message);
        Exchange(log1 + [Message("system", "Error: " + e.message, 0)], Failure(e))
      else Exchange(log1, Failure(e))
    case Success(response) =>
      var assistant := Message("assistant", response.content.GetOr(""), response.tokensUsed);
      if !Messages.Valid(assistant) then Exchange(log1, Failure(RecordInvalid(Messages.Errors(assistant))))
      else Exchange(log1 + [assistant], Success(ProcessResult(assistant, response.content, response.tokensUsed)))
  }

  /** The history the provider is given: the last messages up to and including
      the new user message. */
  function ContextFor(log: seq<Message>, content: string): seq<Turn> {
    History(log + [Message("user", content, 0)], HISTORY_LIMIT)
  }

  lemma ErrorEntryIsValid(message: string)
    ensures Messages.Valid(Message("system", "Error: " + message, 0))
  {
    assert !IsSpace(("Error: " + message)[0]);
  }

  method ProcessUserMessage(conversation: Conversation, content: string, transport: LlmService.Transport)
    returns (r: Result<ProcessResult, Exception>)
    requires conversation.Valid()
    modifies conversation`messages
    ensures conversation.Valid()
    ensures var x := ProcessOutcome(conversation.agent, old(conversation.messages), content, transport);
      conversation.messages == x.log && r == x.result
  {
    var saved := conversation.AddMessage("user", content);
    if saved.Failure? {
      return Failure(saved.error);
    }
    var history := conversation.MessageHistory(HISTORY_LIMIT);
    var response := LlmService.SendMessage(conversation.agent, content, transport, history);
    if response.Failure? {
      if response.error.IsLlmError() {
        ErrorEntryIsValid(response.error.message);
        var logged := conversation.AddMessage("system", "Error: " + response.error.message);
      }
      return Failure(response.error);
    }
    var assistant := conversation.AddMessage("assistant", response.value.content.GetOr(""),
                                             response.value.tokensUsed);
    if assistant.Failure? {
      return Failure(assistant.error);
    }
    r := Success(ProcessResult(assistant.value, response.value.content, response.value.tokensUsed));
  }

  // ------------------------------------------------- properties of a call

  /** On success exactly two messages are appended, the user's then the
      assistant's, the result repeats the provider's content and tokens, and
      the token total grows by the provider's count. */
  lemma {:induction false} ProcessSuccess(agent: Agents.Agent, log: seq<Message>, content: string,
                                          transport: LlmService.Transport)
    requires ProcessOutcome(agent, log, content, transport).result.Success?
    ensures var x := ProcessOutcome(agent, log, content, transport);
      var response := LlmService.SendOutcome(agent, content, ContextFor(log, content), transport);
      && response.Success? && response.value.content.Some?
      && x.result.value.message == Message("assistant", response.value.content.value, response.value.tokensUsed)
      && x.result.value.content == response.value.content
      && x.result.value.tokensUsed == response.value.tokensUsed
      && x.log == log + [Message("user", content, 0), x.result.value.message]
      && Messages.TotalTokens(x.log) == Messages.TotalTokens(log) + response.value.tokensUsed
  {
    var x := ProcessOutcome(agent, log, content, transport);
    var user := Message("user", content, 0);
    Messages.TotalTokensConcat(log, [user, x.result.value.message]);
    TotalTokensAppend([user], x.result.value.message);
    assert [user] + [x.result.value.message] == [user, x.result.value.message];
    assert TotalTokens([user]) == TotalTokens([]) + 0 by { assert [user][..0] == []; }
  }

  /** On an LlmError-family failure the user message and a system message
      "Error: <message>" are appended, no assistant message, and the provider's
      own exception is raised again. */
  lemma ProcessLlmFailure(agent: Agents.Agent, log: seq<Message>, content: string, transport: LlmService.Transport)
    requires var x := ProcessOutcome(agent, log, content, transport);
      x.result.Failure? && x.result.error.IsLlmError()
    ensures var x := ProcessOutcome(agent, log, content, transport);
      && x.log == log + [Message("user", content, 0), Message("system", "Error: " + x.result.error.message, 0)]
      && LlmService.SendOutcome(agent, content, ContextFor(log, content), transport) == Failure(x.result.error)
  {
  }

  /** Any other failure appends no system and no assistant message: at most the
      user message was stored. */
  lemma ProcessOtherFailure(agent: Agents.Agent, log: seq<Message>, content: string, transport: LlmService.Transport)
    requires var x := ProcessOutcome(agent, log, content, transport);
      x.result.Failure? && !x.result.error.IsLlmError()
    ensures var x := ProcessOutcome(agent, log, content, transport);
      x.log == log || x.log == log + [Message("user", content, 0)]
  {
  }

  /** A provider failure of the LlmError family on a present message: the user
      message and the system entry "Error: <message>" are stored, and that same
      exception is raised again. */
  lemma ProviderLlmErrorLogged(agent: Agents.Agent, log: seq<Message>, content: string,
                               transport: LlmService.Transport, e: Exception)
    requires IsPresent(content)
    requires LlmService.SendOutcome(agent, content, ContextFor(log, content), transport) == Failure(e)
    requires e.IsLlmError()
    ensures ProcessOutcome(agent, log, content, transport)
         == Exchange(log + [Message("user", content, 0), Message("system", "Error: " + e.message, 0)], Failure(e))
  {
  }

  /** Any other provider failure (a JSON parse error) on a present message:
      only the user message is stored, and the exception propagates. */
  lemma ProviderOtherErrorPropagates(agent: Agents.Agent, log: seq<Message>, content: string,
                                     transport: LlmService.Transport, e: Exception)
    requires IsPresent(content)
    requires LlmService.SendOutcome(agent, content, ContextFor(log, content), transport) == Failure(e)
    requires !e.IsLlmError()
    ensures ProcessOutcome(agent, log, content, transport) == Exchange(log + [Message("user", content, 0)], Failure(e))
  {
  }

  /** A provider reply with present content and a token count on a present
      message: the user and the assistant messages are stored and the reply is
      returned. */
  lemma ProviderReplyStored(agent: Agents.Agent, log: seq<Message>, content: string,
                            transport: LlmService.Transport, response: LlmService.LlmResponse)
    requires IsPresent(content)
    requires LlmService.SendOutcome(agent, content, ContextFor(log, content), transport) == Success(response)
    requires response.content.Some? && IsPresent(response.content.value) && response.tokensUsed >= 0
    ensures var assistant := Message("assistant", response.content.value, response.tokensUsed);
      ProcessOutcome(agent, log, content, transport)
        == Exchange(log + [Message("user", content, 0), assistant],
                    Success(ProcessResult(assistant, response.content, response.tokensUsed)))
  {
  }

  /** A provider reply without content, or with blank content: the user
      message is stored, then saving the assistant message raises RecordInvalid. */
  lemma ProviderBlankReplyRejected(agent: Agents.Agent, log: seq<Message>, content: string,
                                   transport: LlmService.Transport, response: LlmService.LlmResponse)
    requires IsPresent(content)
    requires LlmService.SendOutcome(agent, content, ContextFor(log, content), transport) == Success(response)
    requires response.content.None? || IsBlank(response.content.value)
    ensures var x := ProcessOutcome(agent, log, content, transport);
      x.log == log + [Message("user", content, 0)] && x.result.Failure? && x.result.error.RecordInvalid?
  {
  }

  /** A blank message is rejected before anything is stored or sent. */
  lemma BlankMessageStoresNothing(agent: Agents.Agent, log: seq<Message>, content: string,
                                  transport: LlmService.Transport)
    requires IsBlank(content)
    ensures var x := ProcessOutcome(agent, log, content, transport);
      x.log == log && x.result.Failure? && x.result.error.RecordInvalid?
  {
  }

  /** The user message is stored before the provider is called: the context
      ends with it, and the request sent repeats it, since the builders append
      the user message once more. */
  lemma {:induction false} ContextEndsWithUserMessage(agent: Agents.Agent, log: seq<Message>, content: string)
    requires IsPresent(content)
    ensures var h := ContextFor(log, content);
      && 1 <= |h| <= HISTORY_LIMIT
      && h[|h| - 1] == Turn("user", content)
    ensures LlmService.Supported(agent.llmProvider) ==>
      var m := LlmService.RequestFor(agent, content, ContextFor(log, content)).messages;
      |m| >= 2 && m[|m| - 2] == Turn("user", content) && m[|m| - 1] == Turn("user", content)
  {
    var h := ContextFor(log, content);
    assert h[|h| - 1] == Turn("user", content);
    if agent.llmProvider == "anthropic" {
      var kept := LlmService.AnthropicMessages(content, h);
      assert h == h[..|h| - 1] + [h[|h| - 1]];
      Seqs.FilterConcat(h[..|h| - 1], [h[|h| - 1]], LlmService.NotSystem);
      assert Seqs.Filter([h[|h| - 1]], LlmService.NotSystem) == [Turn("user", content)];
    }
  }

  // ------------------------------------------------- the service's own scenarios

  /** The OpenAI scenario: "Hello!" on an empty conversation, the provider
      answers "Hello from OpenAI!" with 25 tokens; two messages result. */
  lemma OpenAiExchange(agent: Agents.Agent, transport: LlmService.Transport)
    requires agent.llmProvider == "openai"
    requires transport(LlmService.RequestFor(agent, "Hello!", ContextFor([], "Hello!")))
          == LlmService.Delivered(LlmService.OpenAiBody(Some("Hello from OpenAI!"), Some("stop"), Some(25)))
    ensures var x := ProcessOutcome(agent, [], "Hello!", transport);
      && x.result == Success(ProcessResult(Message("assistant", "Hello from OpenAI!", 25), Some("Hello from OpenAI!"), 25))
      && x.log == [Message("user", "Hello!", 0), Message("assistant", "Hello from OpenAI!", 25)]
  {
    assert !IsSpace("Hello!"[0]);
    assert !IsSpace("Hello from OpenAI!"[0]);
  }

  /** The rate-limit scenario: the exception is RateLimitError and the log
      gains the user message and a system error entry. */
  lemma RateLimitExchange(agent: Agents.Agent, transport: LlmService.Transport, m: string)
    requires LlmService.Supported(agent.llmProvider)
    requires transport(LlmService.RequestFor(agent, "Hello!", ContextFor([], "Hello!")))
          == LlmService.Raised(LlmService.TooManyRequests, m)
    ensures var x := ProcessOutcome(agent, [], "Hello!", transport);
      && x.result == Failure(RateLimitError("Rate limit exceeded: " + m))
      && x.log == [Message("user", "Hello!", 0), Message("system", "Error: Rate limit exceeded: " + m, 0)]
  {
    assert !IsSpace("Hello!"[0]);
    assert "Error: " + ("Rate limit exceeded: " + m) == "Error: Rate limit exceeded: " + m;
  }

  // ------------------------------------------------- find_or_create_conversation

  predicate Matches(c: Conversation, agentId: int, channelType: string, channelUserId: string)
    reads c
  {
    c.agent.id == agentId && c.channelType == channelType && c.channelUserId == channelUserId
    && c.status == "active"
  }

  /** `Conversation.find_by(agent:, channel_type:, channel_user_id:, status: 'active')`.
      `find_by` sets no order, so when several active rows share the key the
      row it returns is unspecified; the model takes the earliest created one.
      While at most one active row exists per key there is no choice to make
      (`UniqueMatchFound`). */
  function FirstActiveMatch(conversations: seq<Conversation>, agentId: int, channelType: string,
                            channelUserId: string): (r: Option<nat>)
    reads conversations
    ensures r.Some? ==>
      && r.value < |conversations|
      && Matches(conversations[r.value], agentId, channelType, channelUserId)
      && forall j :: 0 <= j < r.value ==> !Matches(conversations[j], agentId, channelType, channelUserId)
    ensures r.None? ==>
      forall j :: 0 <= j < |conversations| ==> !Matches(conversations[j], agentId, channelType, channelUserId)
    decreases |conversations|
  {
    if conversations == [] then None
    else if Matches(conversations[0], agentId, channelType, channelUserId) then Some(0)
    else match FirstActiveMatch(conversations[1..], agentId, channelType, channelUserId)
      case None => None
      case Some(k) => Some(k + 1)
  }

  /** No two active conversations share (agent, channel type, channel user). */
  ghost predicate AtMostOneActivePerKey(conversations: seq<Conversation>)
    reads conversations
  {
    forall i, j :: 0 <= i < j < |conversations| && conversations[i].status == "active" ==>
      !Matches(conversations[j], conversations[i].agent.id, conversations[i].channelType, conversations[i].channelUserId)
  }

  /** With at most one active conversation per key, the lookup finds the
      matching conversation wherever it sits: the order `find_by` leaves open
      does not matter. */
  lemma UniqueMatchFound(conversations: seq<Conversation>, k: nat)
    requires AtMostOneActivePerKey(conversations)
    requires k < |conversations| && conversations[k].status == "active"
    ensures var c := conversations[k];
      FirstActiveMatch(conversations, c.agent.id, c.channelType, c.channelUserId) == Some(k)
  {
    var c := conversations[k];
    assert Matches(c, c.agent.id, c.channelType, c.channelUserId);
  }

  /** Inserting a matching conversation where none was active makes it the one
      the lookup finds, and keeps active conversations unique per key. */
  lemma InsertIntoNoMatch(conversations: seq<Conversation>, c: Conversation, agentId: int, channelType: string,
                          channelUserId: string)
    requires FirstActiveMatch(conversations, agentId, channelType, channelUserId).None?
    requires Matches(c, agentId, channelType, channelUserId)
    ensures FirstActiveMatch(conversations + [c], agentId, channelType, channelUserId) == Some(|conversations|)
    ensures AtMostOneActivePerKey(conversations) ==> AtMostOneActivePerKey(conversations + [c])
  {
    var all := conversations + [c];
    var f := FirstActiveMatch(all, agentId, channelType, channelUserId);
    assert Matches(all[|conversations|], agentId, channelType, channelUserId);
    if AtMostOneActivePerKey(conversations) {
      forall i, j | 0 <= i < j < |all| && all[i].status == "active"
        ensures !Matches(all[j], all[i].agent.id, all[i].channelType, all[i].channelUserId)
      {
        if j == |conversations| {
          assert all[i] == conversations[i];
        } else {
          assert all[i] == conversations[i] && all[j] == conversations[j];
        }
      }
    }
  }

  method FindOrCreateConversation(store: ConversationStore, agent: Agents.Agent, channelType: string,
                                  channelUserId: string, metadata: map<string, JsonValue.Json> := map[])
    returns (r: Result<Conversation, Exception>)
    requires store.Valid()
    modifies store`conversations
    ensures store.Valid()
    ensures var found := old(FirstActiveMatch(store.conversations, agent.id, channelType, channelUserId));
      found.Some? ==> r == Success(old(store.conversations)[found.value]) && store.conversations == old(store.conversations)
    ensures var found := old(FirstActiveMatch(store.conversations, agent.id, channelType, channelUserId));
      var errors := AttributeErrors(channelType, channelUserId, DEFAULT_STATUS);
      found.None? ==>
        if errors == [] then
          && r.Success? && fresh(r.value)
          && store.conversations == old(store.conversations) + [r.value]
          && r.value.agent == agent && r.value.channelType == channelType
          && r.value.channelUserId == channelUserId && r.value.metadata == metadata
          && r.value.status == "active" && r.value.messages == []
        else
          r == Failure(RecordInvalid(errors)) && store.conversations == old(store.conversations)
    ensures r.Success? ==> Matches(r.value, agent.id, channelType, channelUserId)
    ensures r.Success? ==>
      FirstActiveMatch(store.conversations, agent.id, channelType, channelUserId).Some?
      && store.conversations[FirstActiveMatch(store.conversations, agent.id, channelType, channelUserId).value] == r.value
    ensures old(AtMostOneActivePerKey(store.conversations)) ==> AtMostOneActivePerKey(store.conversations)
  {
    var found := FirstActiveMatch(store.conversations, agent.id, channelType, channelUserId);
    if found.Some? {
      return Success(store.conversations[found.value]);
    }
    ghost var before := store.conversations;
    r := CreateConversation(store, agent, channelType, channelUserId, metadata);
    if r.Success? {
      InsertIntoNoMatch(before, r.value, agent.id, channelType, channelUserId);
    }
  }

  /** `Conversation.create!`: validate, then insert a new active conversation
      with no messages, or raise RecordInvalid and insert nothing. */
  method CreateConversation(store: ConversationStore, agent: Agents.Agent, channelType: string,
                            channelUserId: string, metadata: map<string, JsonValue.Json> := map[])
    returns (r: Result<Conversation, Exception>)
    requires store.Valid()
    modifies store`conversations
    ensures store.Valid()
    ensures var errors := AttributeErrors(channelType, channelUserId, DEFAULT_STATUS);
      if errors == [] then
        && r.Success? && fresh(r.value)
        && store.conversations == old(store.conversations) + [r.value]
        && r.value.agent == agent && r.value.channelType == channelType
        && r.value.channelUserId == channelUserId && r.value.metadata == metadata
        && r.value.status == "active" && r.value.messages == []
      else
        r == Failure(RecordInvalid(errors)) && store.conversations == old(store.conversations)
  {
    var errors := AttributeErrors(channelType, channelUserId, DEFAULT_STATUS);
    if errors != [] {
      return Failure(RecordInvalid(errors));
    }
    var c := new Conversation(agent, channelType, channelUserId, metadata);
    store.conversations := store.conversations + [c];
    r := Success(c);
  }

  /** Two calls with the same key in a row return the same conversation and
      create at most one. */
  method FindOrCreateTwice(store: ConversationStore, agent: Agents.Agent, channelType: string,
                           channelUserId: string, metadata: map<string, JsonValue.Json> := map[])
    returns (first: Result<Conversation, Exception>, second: Result<Conversation, Exception>)
    requires store.Valid()
    modifies store`conversations
    ensures store.Valid()
    ensures first == second
    ensures |old(store.conversations)| <= |store.conversations| <= |old(store.conversations)| + 1
  {
    first := FindOrCreateConversation(store, agent, channelType, channelUserId, metadata);
    second := FindOrCreateConversation(store, agent, channelType, channelUserId, metadata);
  }
}
