/** The header-token version of a Slack channel (slackChanel.go): no derived token. */
module LegacySlackChannelModel {
  import opened Wrappers
  import opened Http
  import opened ClientModel
  import opened SlackPayload
  import Current = SlackChannelModel
  import NotifyRequestModel

  datatype SlackChannel = SlackChannel(name: string, webhookUrl: string)

  /** The public projection served by the channel listing: the name only. */
  datatype SlackChannelJson = SlackChannelJson(name: string)

  function NewSlackChannel(name: string, webhookUrl: string): SlackChannel
  {
    SlackChannel(name, webhookUrl)
  }

  function NewSlackChannelJson(channel: SlackChannel): SlackChannelJson
  {
    SlackChannelJson(channel.name)
  }

  /** A channel built from a name and a URL lists as that name, whatever the URL. */
  lemma ListingHidesWebhook(name: string, url1: string, url2: string)
    ensures NewSlackChannelJson(NewSlackChannel(name, url1)) == SlackChannelJson(name)
    ensures NewSlackChannelJson(NewSlackChannel(name, url1))
         == NewSlackChannelJson(NewSlackChannel(name, url2))
    ensures NewSlackChannel(name, url1).webhookUrl == url1
  {
  }

  /** Relays `message` as `client`; as in the newer version, only a transport error comes back. */
  function SendMessage(channel: SlackChannel, message: string, client: Client,
                       outcome: PostOutcome): (r: Current.SendResult)
    ensures r.post.url == channel.webhookUrl && r.post.contentType == "application/json"
    ensures r.post.payload.Keys == {"text"}
    ensures ('*' !in client.name ==>
               ParseMessage(r.post.payload["text"]) == Some((client.name, message)))
    ensures r.err.None? <==> outcome.Reply?
    ensures outcome.TransportError? ==> r.err == Some(outcome.message)
  {
    var text := MessageText(client.name, message);
    assert '*' !in client.name ==> ParseMessage(text) == Some((client.name, message)) by {
      if '*' !in client.name { ParseMessageRoundTrip(client.name, message); }
    }
    var err := match outcome
      case Reply(_) => None
      case TransportError(message) => Some(message);
    Current.SendResult(JsonPost(channel.webhookUrl, TextPayload(text)), err)
  }

  /** Both versions send the same post for the same channel, client and text. */
  lemma SendMessageAgreesAcrossVersions(channel: SlackChannel, token: string,
                                        request: NotifyRequestModel.NotifyRequest,
                                        client: Client, outcome: PostOutcome)
    ensures SendMessage(channel, request.text, client, outcome)
         == Current.SendMessage(Current.SlackChannel(channel.name, channel.webhookUrl, token),
                                request, client, outcome)
  {
  }
}
