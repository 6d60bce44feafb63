/** AgentChannel (app/models/agent_channel.rb): binds an agent to a channel type
    with the credentials that channel needs. */
module AgentChannels {
  import opened Validation
  import opened JsonValue

  const CHANNEL_TYPES: seq<string> := ["slack", "telegram", "sms", "web"]

  datatype AgentChannel = AgentChannel(
    agentId: int,
    channelType: string,
    configuration: map<string, Json>,
    active: bool)

  /** `validate_channel_configuration`: the required keys per channel type; an
      unknown type is not checked here. */
  function ConfigurationErrors(channelType: string, configuration: map<string, Json>): (r: seq<FieldError>)
    ensures |r| <= 1
    ensures channelType == "slack" ==>
      (r == [] <==> PresentAt(configuration, "bot_token") && PresentAt(configuration, "signing_secret"))
    ensures channelType == "telegram" ==> (r == [] <==> PresentAt(configuration, "bot_token"))
    ensures channelType == "sms" ==>
      (r == [] <==> PresentAt(configuration, "twilio_account_sid") && PresentAt(configuration, "twilio_auth_token"))
    ensures channelType == "web" ==> (r == [] <==> PresentAt(configuration, "webhook_url"))
    ensures channelType !in CHANNEL_TYPES ==> r == []
  {
    match channelType
    case "slack" =>
      if PresentAt(configuration, "bot_token") && PresentAt(configuration, "signing_secret") then []
      else [FieldError("configuration", Custom("must include bot_token and signing_secret for Slack"))]
    case "telegram" =>
      if PresentAt(configuration, "bot_token") then []
      else [FieldError("configuration", Custom("must include bot_token for Telegram"))]
    case "sms" =>
      if PresentAt(configuration, "twilio_account_sid") && PresentAt(configuration, "twilio_auth_token") then []
      else [FieldError("configuration", Custom("must include Twilio credentials for SMS"))]
    case "web" =>
      if PresentAt(configuration, "webhook_url") then []
      else [FieldError("configuration", Custom("must include webhook_url for Web"))]
    case _ => []
  }

  /** `uniqueness: { scope: :agent_id }` on channel_type, against the other rows. */
  predicate TypeTaken(c: AgentChannel, others: seq<AgentChannel>) {
    exists o :: o in others && o.agentId == c.agentId && o.channelType == c.channelType
  }

  function Errors(c: AgentChannel, others: seq<AgentChannel>): (r: seq<FieldError>)
    ensures r == [] <==>
      && c.channelType in CHANNEL_TYPES
      && !TypeTaken(c, others)
      && ConfigurationErrors(c.channelType, c.configuration) == []
  {
    InclusionIn("channel_type", c.channelType, CHANNEL_TYPES)
      + (if TypeTaken(c, others) then [FieldError("channel_type", Taken)] else [])
      + ConfigurationErrors(c.channelType, c.configuration)
  }

  /** With only valid rows stored, a channel of an unknown type gets the
      inclusion error and nothing else. */
  lemma UnknownTypeOnlyInclusion(c: AgentChannel, others: seq<AgentChannel>)
    requires c.channelType !in CHANNEL_TYPES
    requires forall o :: o in others ==> o.channelType in CHANNEL_TYPES
    ensures Errors(c, others) == [FieldError("channel_type", Inclusion)]
  {
  }

  /** Keys beyond the required ones never cause a rejection. */
  lemma ExtraKeysAccepted(channelType: string, configuration: map<string, Json>, extra: map<string, Json>)
    requires configuration.Keys !! extra.Keys
    requires ConfigurationErrors(channelType, configuration) == []
    ensures ConfigurationErrors(channelType, configuration + extra) == []
  {
    var merged := configuration + extra;
    assert forall k :: k in configuration ==> k in merged && merged[k] == configuration[k];
  }

  /** At most one channel per (agent, channel type). */
  predicate UniquePerAgentAndType(channels: seq<AgentChannel>) {
    forall i, j :: 0 <= i < j < |channels| ==>
      channels[i].agentId != channels[j].agentId || channels[i].channelType != channels[j].channelType
  }

  /** Saving only channels that pass validation keeps the table unique. */
  lemma InsertKeepsUnique(channels: seq<AgentChannel>, c: AgentChannel)
    requires UniquePerAgentAndType(channels)
    requires Errors(c, channels) == []
    ensures UniquePerAgentAndType(channels + [c])
  {
    var all := channels + [c];
    forall i, j | 0 <= i < j < |all|
      ensures all[i].agentId != all[j].agentId || all[i].channelType != all[j].channelType
    {
      if j == |channels| {
        assert all[i] in channels;
      }
    }
  }
}
