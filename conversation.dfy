/** Conversation (app/models/conversation.rb): one thread between an external
    identity and an agent over a channel, holding its ordered message log. */
module Conversations {
  import opened Wrappers
  import opened RubyString
  import opened Validation
  import opened Exceptions
  import opened Messages
  import Agents
  import JsonValue
  import Seqs

  const CHANNEL_TYPES: seq<string> := ["slack", "telegram", "sms", "web"]
  const STATUSES: seq<string> := ["active", "paused", "archived"]
  const DEFAULT_STATUS: string := "active"
  const DEFAULT_HISTORY_LIMIT: nat := 20

  /** The model's validations, in declaration order. */
  function AttributeErrors(channelType: string, channelUserId: string, status: string): (r: seq<FieldError>)
    ensures r == [] <==> channelType in CHANNEL_TYPES && IsPresent(channelUserId) && status in STATUSES
  {
    InclusionIn("channel_type", channelType, CHANNEL_TYPES)
      + Presence("channel_user_id", channelUserId)
      + InclusionIn("status", status, STATUSES)
  }

  /** `message_history(limit:)`: the last `limit` messages of the log, oldest
      first, as (role, content) pairs. */
  function History(log: seq<Message>, limit: nat): (r: seq<Turn>)
    ensures |r| == Seqs.Min(limit, |log|)
    ensures forall i :: 0 <= i < |r| ==> r[i] == ToTurn(log[|log| - |r| + i])
  {
    var k := Seqs.Min(limit, |log|);
    seq(k, i requires 0 <= i < k => ToTurn(log[|log| - k + i]))
  }

  /** Appending one message: the total grows by exactly its tokens. */
  lemma TotalTokensAppend(log: seq<Message>, m: Message)
    ensures Messages.TotalTokens(log + [m]) == Messages.TotalTokens(log) + m.tokensUsed
  {
    assert (log + [m])[..|log|] == log;
  }

  class Conversation {
    const agent: Agents.Agent
    const channelType: string
    const channelUserId: string
    const metadata: map<string, JsonValue.Json>
    var status: string
    var messages: seq<Message>

    /** A stored conversation passed validation, and so did each of its messages. */
    ghost predicate Valid()
      reads this
    {
      && AttributeErrors(channelType, channelUserId, status) == []
      && forall i :: 0 <= i < |messages| ==> Messages.Valid(messages[i])
    }

    /** A new conversation takes the column default status and has no messages. */
    constructor (agent: Agents.Agent, channelType: string, channelUserId: string,
                 metadata: map<string, JsonValue.Json>)
      ensures this.agent == agent && this.channelType == channelType
      ensures this.channelUserId == channelUserId && this.metadata == metadata
      ensures status == DEFAULT_STATUS && messages == []
    {
      this.agent := agent;
      this.channelType := channelType;
      this.channelUserId := channelUserId;
      this.metadata := metadata;
      status := DEFAULT_STATUS;
      messages := [];
    }

    /** `add_message`: `messages.create!` appends one valid message or raises
        RecordInvalid and appends nothing. */
    method AddMessage(role: string, content: string, tokensUsed: int := 0) returns (r: Result<Message, Exception>)
      requires Valid()
      modifies this`messages
      ensures Valid()
      ensures var m := Message(role, content, tokensUsed);
        if Messages.Valid(m) then r == Success(m) && messages == old(messages) + [m]
        else r == Failure(RecordInvalid(Messages.Errors(m))) && messages == old(messages)
    {
      var m := Message(role, content, tokensUsed);
      var errors := Messages.Errors(m);
      if errors == [] {
        messages := messages + [m];
        r := Success(m);
      } else {
        r := Failure(RecordInvalid(errors));
      }
    }

    /** `message_history(limit: 20)`: never more than `limit` turns, the whole
        log when it is short enough, and always ending with the newest message. */
    function MessageHistory(limit: nat := DEFAULT_HISTORY_LIMIT): (r: seq<Turn>)
      reads this
      ensures |r| <= limit
      ensures |messages| <= limit ==> |r| == |messages| && forall i :: 0 <= i < |r| ==> r[i] == ToTurn(messages[i])
      ensures limit > 0 && messages != [] ==> |r| > 0 && r[|r| - 1] == ToTurn(messages[|messages| - 1])
    {
      History(messages, limit)
    }

    /** `total_tokens`: a stored conversation never has a negative total. */
    function TotalTokens(): (r: int)
      requires Valid()
      reads this
      ensures r >= 0
    {
      Messages.TotalTokens(messages)
    }

    /** `archive!`: `update!` cannot fail here, since the rest of a stored
        conversation is valid and "archived" is a valid status. */
    method Archive()
      requires Valid()
      modifies this`status
      ensures Valid() && status == "archived"
    {
      status := "archived";
    }

    /** `pause!` */
    method Pause()
      requires Valid()
      modifies this`status
      ensures Valid() && status == "paused"
    {
      status := "paused";
    }

    /** `activate!` */
    method Activate()
      requires Valid()
      modifies this`status
      ensures Valid() && status == "active"
    {
      status := "active";
    }
  }

  /** The `active` scope. */
  function ActiveConversations(conversations: seq<Conversation>): (r: seq<Conversation>)
    reads conversations
    ensures forall i :: 0 <= i < |r| ==> r[i] in conversations && r[i].status == "active"
    ensures forall i :: 0 <= i < |conversations| && conversations[i].status == "active" ==> conversations[i] in r
    ensures forall c {:trigger multiset(r)[c]} :: c in conversations ==> multiset(r)[c] == (if c.status == "active" then multiset(conversations)[c] else 0)
  {
    if conversations == [] then []
    else
      var rest := ActiveConversations(conversations[..|conversations| - 1]);
      var last := conversations[|conversations| - 1];
      assert conversations == conversations[..|conversations| - 1] + [last];
      if last.status == "active" then rest + [last] else rest
  }

  /** The `conversations` table, in creation order. */
  class ConversationStore {
    var conversations: seq<Conversation>

    ghost predicate Valid()
      reads this, conversations
    {
      forall i :: 0 <= i < |conversations| ==> conversations[i].Valid()
    }

    constructor ()
      ensures Valid() && conversations == []
    {
      conversations := [];
    }
  }
}
