/** Message (app/models/message.rb): one immutable entry of a conversation's log.
    Creation order is the entry's position in the log. */
module Messages {
  import opened RubyString
  import opened Validation
  import Seqs

  const ROLES: seq<string> := ["user", "assistant", "system"]

  datatype Message = Message(role: string, content: string, tokensUsed: int)

  /** The `{ role:, content: }` pair handed to the LLM service. */
  datatype Turn = Turn(role: string, content: string)

  function ToTurn(m: Message): Turn {
    Turn(m.role, m.content)
  }

  /** The model's validations, in declaration order. */
  function Errors(m: Message): (r: seq<FieldError>)
    ensures r == [] <==> m.role in ROLES && IsPresent(m.content) && m.tokensUsed >= 0
    ensures IsBlank(m.content) ==> FieldError("content", Blank) in r
  {
    InclusionIn("role", m.role, ROLES)
      + Presence("content", m.content)
      + (if m.tokensUsed >= 0 then [] else [FieldError("tokens_used", GreaterThanOrEqualTo(0.0))])
  }

  predicate Valid(m: Message) {
    Errors(m) == []
  }

  predicate IsUserMessage(m: Message) { m.role == "user" }
  predicate IsAssistantMessage(m: Message) { m.role == "assistant" }
  predicate IsSystemMessage(m: Message) { m.role == "system" }

  /** A valid message answers exactly one of the three role questions. */
  lemma ExactlyOneRole(m: Message)
    requires Valid(m)
    ensures IsUserMessage(m) || IsAssistantMessage(m) || IsSystemMessage(m)
    ensures !(IsUserMessage(m) && IsAssistantMessage(m))
    ensures !(IsUserMessage(m) && IsSystemMessage(m))
    ensures !(IsAssistantMessage(m) && IsSystemMessage(m))
  {
  }

  /** The `by_role(role)` scope over a conversation's log. */
  function ByRole(log: seq<Message>, role: string): (r: seq<Message>)
    ensures forall i :: 0 <= i < |r| ==> r[i].role == role && r[i] in log
    ensures forall m :: m in log && m.role == role ==> m in r
    ensures forall m :: multiset(r)[m] == (if m.role == role then multiset(log)[m] else 0)
  {
    Seqs.Filter(log, (m: Message) => m.role == role)
  }

  /** `sum(:tokens_used)` over a log. */
  function TotalTokens(log: seq<Message>): (r: int)
    ensures (forall i :: 0 <= i < |log| ==> log[i].tokensUsed >= 0) ==> r >= 0
    ensures |log| == 1 ==> r == log[0].tokensUsed
  {
    if log == [] then 0 else TotalTokens(log[..|log| - 1]) + log[|log| - 1].tokensUsed
  }

  /** The token total of two logs laid end to end is the sum of their totals. */
  lemma {:induction false} TotalTokensConcat(a: seq<Message>, b: seq<Message>)
    ensures TotalTokens(a + b) == TotalTokens(a) + TotalTokens(b)
    decreases |b|
  {
    if b == [] {
      assert a + b == a;
    } else {
      assert (a + b)[..|a + b| - 1] == a + b[..|b| - 1];
      TotalTokensConcat(a, b[..|b| - 1]);
    }
  }
}
