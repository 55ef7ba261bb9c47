/** The path-token version of a Slack channel (slack_channel.go). */
module SlackChannelModel {
  import opened Wrappers
  import opened Http
  import opened ClientModel
  import opened NotifyRequestModel
  import opened SlackPayload

  /** A destination: its name, its real webhook, and the token derived from name and secret. */
  datatype SlackChannel = SlackChannel(name: string, webhookUrl: string, token: string)

  /** The post `SendMessage` makes and the error it gives back. */
  datatype SendResult = SendResult(post: Post, err: Option<string>)

  /**
   * Relays `request` as `client`: the text gains the sender prefix, every
   * other field of the request is dropped, and only a transport error is
   * reported back (the webhook's HTTP status is never inspected).
   * `json.Marshal` of a string map cannot fail, so that error path is absent.
   */
  function SendMessage(channel: SlackChannel, request: NotifyRequest, client: Client,
                       outcome: PostOutcome): (r: SendResult)
    ensures r.post.url == channel.webhookUrl && r.post.contentType == "application/json"
    ensures r.post.payload.Keys == {"text"}
    ensures ('*' !in client.name ==>
               ParseMessage(r.post.payload["text"]) == Some((client.name, request.text)))
    ensures r.err.None? <==> outcome.Reply?
    ensures outcome.TransportError? ==> r.err == Some(outcome.message)
  {
    var text := MessageText(client.name, request.text);
    assert '*' !in client.name ==> ParseMessage(text) == Some((client.name, request.text)) by {
      if '*' !in client.name { ParseMessageRoundTrip(client.name, request.text); }
    }
    var err := match outcome
      case Reply(_) => None
      case TransportError(message) => Some(message);
    SendResult(JsonPost(channel.webhookUrl, TextPayload(text)), err)
  }

  /** Username, attachments and icon of the request never reach the webhook. */
  lemma SendMessageKeepsOnlyText(channel: SlackChannel, a: NotifyRequest, b: NotifyRequest,
                                 client: Client, outcome: PostOutcome)
    requires a.text == b.text
    ensures SendMessage(channel, a, client, outcome) == SendMessage(channel, b, client, outcome)
  {
  }

  /** Every client's text is prefixed with its name, the internal `self` client included. */
  lemma SendMessagePrefixesEveryClient(channel: SlackChannel, request: NotifyRequest,
                                       client: Client, outcome: PostOutcome)
    ensures var text := SendMessage(channel, request, client, outcome).post.payload["text"];
      && text == SenderPrefix(client.name) + request.text
      && |text| == |client.name| + 5 + |request.text|
  {
  }
}
