/**
 * The path-token notification handler (server_routes.go): the route is
 * `/<notify route>/<client token>/<channel token>` and every exit writes one
 * response through `Reponse`, which counts it.
 */
module RouteModel {
  import opened Wrappers
  import opened Http
  import opened ClientModel
  import opened NotifyRequestModel
  import opened SlackPayload
  import opened SlackChannelModel
  import opened ServerModel

  /** `strings.Join(parts, "/")`. */
  function Join(parts: seq<string>): string
    decreases |parts|
  {
    if |parts| == 0 then ""
    else if |parts| == 1 then parts[0]
    else parts[0] + "/" + Join(parts[1..])
  }

  /**
   * `strings.Split(s, "/")`: the pieces between the slashes, none of which
   * holds a slash, and which join back into `s`.
   */
  function Split(s: string): (parts: seq<string>)
    ensures |parts| >= 1
    ensures forall i :: 0 <= i < |parts| ==> '/' !in parts[i]
    ensures Join(parts) == s
    decreases |s|
  {
    if |s| == 0 then [""]
    else
      var rest := Split(s[1..]);
      if s[0] == '/' then
        assert ([""] + rest)[1..] == rest;
        assert s == "" + "/" + s[1..];
        [""] + rest
      else
        var parts := [[s[0]] + rest[0]] + rest[1..];
        assert parts[1..] == rest[1..];
        assert s == [s[0]] + s[1..];
        if |rest| == 1 then parts
        else
          assert Join(rest) == rest[0] + "/" + Join(rest[1..]);
          assert Join(parts) == [s[0]] + (rest[0] + "/" + Join(rest[1..]));
          parts
  }

  /** A piece without a slash splits into itself. */
  lemma {:induction false} SplitNoSlash(p: string)
    requires '/' !in p
    ensures Split(p) == [p]
    decreases |p|
  {
    if |p| > 0 {
      assert '/' !in p[1..] by {
        assert forall i :: 0 <= i < |p[1..]| ==> p[1..][i] == p[i + 1];
      }
      SplitNoSlash(p[1..]);
      assert [p[0]] + p[1..] == p;
    }
  }

  /** A slash-free piece followed by a slash splits off as the first part. */
  lemma {:induction false} SplitAfterSlash(p: string, t: string)
    requires '/' !in p
    ensures Split(p + "/" + t) == [p] + Split(t)
    decreases |p|
  {
    var s := p + "/" + t;
    if |p| == 0 {
      assert s == "/" + t && s[1..] == t;
    } else {
      assert s[1..] == p[1..] + "/" + t;
      assert '/' !in p[1..] by {
        assert forall i :: 0 <= i < |p[1..]| ==> p[1..][i] == p[i + 1];
      }
      SplitAfterSlash(p[1..], t);
      assert [p[0]] + p[1..] == p;
    }
  }

  /** Splitting undoes joining slash-free pieces. */
  lemma {:induction false} SplitJoin(parts: seq<string>)
    requires |parts| >= 1
    requires forall i :: 0 <= i < |parts| ==> '/' !in parts[i]
    ensures Split(Join(parts)) == parts
    decreases |parts|
  {
    if |parts| == 1 {
      SplitNoSlash(parts[0]);
    } else {
      SplitJoin(parts[1..]);
      SplitAfterSlash(parts[0], Join(parts[1..]));
      assert [parts[0]] + parts[1..] == parts;
    }
  }

  /** The two tokens a well-formed route carries. */
  datatype Route = Route(clientToken: string, channelKey: string)

  /** A path is a route when it splits into exactly four parts; parts 2 and 3 are the tokens. */
  function RouteOf(path: string): Option<Route>
  {
    var parts := Split(path);
    if |parts| != 4 then None else Some(Route(parts[2], parts[3]))
  }

  /** The path of a relay URL: `/<notify route>/<client token>/<channel token>`. */
  function RoutePath(notifyRoute: string, clientToken: string, channelToken: string): string
  {
    "/" + notifyRoute + "/" + clientToken + "/" + channelToken
  }

  /**
   * A relay URL is the base URL followed by a route path, and that path
   * routes back to the client token and channel token it was built from,
   * provided none of the three pieces holds a slash.
   */
  lemma WebhookUrlRoutesBack(baseUrl: string, notifyRoute: string, clientToken: string,
                             channelToken: string)
    requires '/' !in notifyRoute && '/' !in clientToken && '/' !in channelToken
    ensures WebhookUrl(baseUrl, notifyRoute, clientToken, channelToken)
         == baseUrl + RoutePath(notifyRoute, clientToken, channelToken)
    ensures RouteOf(RoutePath(notifyRoute, clientToken, channelToken))
         == Some(Route(clientToken, channelToken))
  {
    var parts := ["", notifyRoute, clientToken, channelToken];
    assert Join(parts[3..]) == channelToken;
    assert Join(parts[2..]) == clientToken + "/" + channelToken by {
      assert parts[2..][1..] == parts[3..];
    }
    assert Join(parts[1..]) == notifyRoute + "/" + clientToken + "/" + channelToken by {
      assert parts[1..][1..] == parts[2..];
    }
    assert Join(parts) == RoutePath(notifyRoute, clientToken, channelToken);
    SplitJoin(parts);
  }

  /** What reading the request body gave: a read error, a JSON error, or the decoded body. */
  datatype BodyRead = ReadFailed | JsonFailed | Parsed(request: NotifyRequest)

  /**
   * An incoming request, with the results of the foreign parsers:
   * `r.FormValue("text")` and reading plus decoding the body.
   */
  datatype HttpRequest = HttpRequest(httpMethod: string, path: string, formText: string, body: BodyRead)

  datatype Payload = Payload(request: NotifyRequest) | BadPayload(message: string)

  /** A non-empty `text` form value wins; otherwise the body must read and decode as JSON. */
  function ReadPayload(req: HttpRequest): (p: Payload)
    ensures req.formText != "" ==> p.Payload? && p.request.text == req.formText
    ensures req.formText == "" ==> (p.Payload? <==> req.body.Parsed?)
    ensures req.formText == "" && req.body.Parsed? ==> p.request == req.body.request
    ensures req.formText == "" && req.body.ReadFailed? ==> p == BadPayload("Invalid request")
    ensures req.formText == "" && req.body.JsonFailed? ==> p == BadPayload("Error parsing JSON")
  {
    if req.formText != "" then Payload(EmptyRequest().(text := req.formText))
    else
      match req.body
      case ReadFailed => BadPayload("Invalid request")
      case JsonFailed => BadPayload("Error parsing JSON")
      case Parsed(request) => Payload(request)
  }

  /** The response the handler writes and the post it makes, if it gets that far. */
  datatype Decision = Decision(status: int, message: string, post: Option<Post>)

  /** Every check before the send passes: the only case in which a message is relayed. */
  predicate Authorized(req: HttpRequest, clients: map<string, Client>,
                       channels: map<string, SlackChannel>)
  {
    && req.httpMethod == "POST"
    && RouteOf(req.path).Some?
    && ReadPayload(req).Payload?
    && RouteOf(req.path).value.clientToken in clients
    && RouteOf(req.path).value.channelKey in channels
    && channels[RouteOf(req.path).value.channelKey].name
         in clients[RouteOf(req.path).value.clientToken].channelsAllowed
  }

  /** The decision ladder of `NotifyChannel`: one status per exit. */
  function NotifyDecision(req: HttpRequest, clients: map<string, Client>,
                          channels: map<string, SlackChannel>, outcome: PostOutcome)
    : (d: Decision)
    ensures (req.httpMethod != "POST" ==>
               d == Decision(STATUS_METHOD_NOT_ALLOWED, "Only POST method is allowed", None))
    ensures (req.httpMethod == "POST" && RouteOf(req.path).None? ==>
               d == Decision(STATUS_BAD_REQUEST, "Invalid route", None))
    ensures (req.httpMethod == "POST" && RouteOf(req.path).Some? && ReadPayload(req).BadPayload? ==>
               d == Decision(STATUS_BAD_REQUEST, ReadPayload(req).message, None))
    ensures d.status == STATUS_OK ==> d.message == "Message sent"
    ensures (d.status == STATUS_INTERNAL_SERVER_ERROR ==>
               outcome.TransportError? && d.message == "Error sending message : " + outcome.message)
    ensures d.post.Some? <==> Authorized(req, clients, channels)
    ensures d.status == STATUS_OK <==> Authorized(req, clients, channels) && outcome.Reply?
    ensures (d.status == STATUS_INTERNAL_SERVER_ERROR <==>
               Authorized(req, clients, channels) && outcome.TransportError?)
    ensures d.post.Some? ==>
              var route := RouteOf(req.path).value;
              var client := clients[route.clientToken];
              && d.post.value.url == channels[route.channelKey].webhookUrl
              && d.post.value.payload
                   == TextPayload(MessageText(client.name, ReadPayload(req).request.text))
    ensures d.status in {STATUS_OK, STATUS_BAD_REQUEST, STATUS_UNAUTHORIZED, STATUS_NOT_FOUND,
                         STATUS_METHOD_NOT_ALLOWED, STATUS_INTERNAL_SERVER_ERROR}
  {
    if req.httpMethod != "POST" then
      Decision(STATUS_METHOD_NOT_ALLOWED, "Only POST method is allowed", None)
    else if RouteOf(req.path).None? then Decision(STATUS_BAD_REQUEST, "Invalid route", None)
    else
      var route := RouteOf(req.path).value;
      match ReadPayload(req)
      case BadPayload(message) => Decision(STATUS_BAD_REQUEST, message, None)
      case Payload(request) =>
        if route.clientToken !in clients then Decision(STATUS_UNAUTHORIZED, "Unauthorized", None)
        else if route.channelKey !in channels then
          Decision(STATUS_NOT_FOUND, "Channel not found", None)
        else
          var client := clients[route.clientToken];
          var channel := channels[route.channelKey];
          if !IsAllowedChannel(client, channel.name) then
            Decision(STATUS_UNAUTHORIZED,
                     "channel " + route.channelKey + " not allowed for client " + client.name, None)
          else
            var sent := SendMessage(channel, request, client, outcome);
            if sent.err.Some? then
              Decision(STATUS_INTERNAL_SERVER_ERROR, "Error sending message : " + sent.err.value,
                       Some(sent.post))
            else Decision(STATUS_OK, "Message sent", Some(sent.post))
  }

  /** The client lookup comes first: an unknown token is refused whatever the channel. */
  lemma UnknownClientRefusedFirst(req: HttpRequest, clients: map<string, Client>,
                                  channels1: map<string, SlackChannel>,
                                  channels2: map<string, SlackChannel>, outcome: PostOutcome)
    requires req.httpMethod == "POST" && RouteOf(req.path).Some? && ReadPayload(req).Payload?
    requires RouteOf(req.path).value.clientToken !in clients
    ensures NotifyDecision(req, clients, channels1, outcome)
         == NotifyDecision(req, clients, channels2, outcome)
         == Decision(STATUS_UNAUTHORIZED, "Unauthorized", None)
  {
  }

  /**
   * A known client naming an unknown channel gets 404; a known channel it
   * may not use gets 401 naming the channel key and the client.
   */
  lemma ChannelRefusals(req: HttpRequest, clients: map<string, Client>,
                        channels: map<string, SlackChannel>, outcome: PostOutcome)
    requires req.httpMethod == "POST" && RouteOf(req.path).Some? && ReadPayload(req).Payload?
    requires RouteOf(req.path).value.clientToken in clients
    ensures var route := RouteOf(req.path).value;
            (route.channelKey !in channels ==>
               NotifyDecision(req, clients, channels, outcome)
               == Decision(STATUS_NOT_FOUND, "Channel not found", None))
    ensures var route := RouteOf(req.path).value;
            var client := clients[route.clientToken];
            (route.channelKey in channels && channels[route.channelKey].name !in client.channelsAllowed
             ==> NotifyDecision(req, clients, channels, outcome)
                 == Decision(STATUS_UNAUTHORIZED,
                             "channel " + route.channelKey + " not allowed for client " + client.name,
                             None))
  {
  }

  /**
   * The `self` client never gets a message through the relay: after a
   * successful load its token resolves to a client allowed no channel, so
   * every request carrying that token stops before `SendMessage`.
   */
  lemma SelfNeverPosts(st: ServerState, decode: TomlDecode, md5hex: Md5Hex, req: HttpRequest,
                       outcome: PostOutcome)
    requires decode.Decoded?
    requires LoadOutcome(st, decode, md5hex).err.None?
    requires RouteOf(req.path).Some?
    requires RouteOf(req.path).value.clientToken == Token("self", decode.config.secret, md5hex)
    ensures var r := LoadOutcome(st, decode, md5hex).state;
            var d := NotifyDecision(req, r.clients, r.slackChannels, outcome);
            d.post.None? && d.status != STATUS_OK
  {
    SelfClientRegistered(st, decode, md5hex);
  }

  /**
   * The handler: the same ladder with early returns, each exit answering
   * through `Reponse`, so exactly one of the two counters rises per request.
   */
  method NotifyChannel(server: Server, req: HttpRequest, outcome: PostOutcome)
    returns (response: Response, post: Option<Post>)
    modifies server
    ensures var d := NotifyDecision(req, old(server.clients), old(server.slackChannels), outcome);
            response == Response(d.status, d.message) && post == d.post
    ensures server.State() == Counted(old(server.State()), response.status)
  {
    post := None;
    if req.httpMethod != "POST" {
      response := server.Reponse(STATUS_METHOD_NOT_ALLOWED, "Only POST method is allowed");
      return;
    }

    var routeParts := Split(req.path);
    if |routeParts| != 4 {
      response := server.Reponse(STATUS_BAD_REQUEST, "Invalid route");
      return;
    }
    var clientToken := routeParts[2];
    var channelName := routeParts[3];

    var request := EmptyRequest();
    if req.formText != "" {
      request := request.(text := req.formText);
    } else {
      match req.body {
        case ReadFailed =>
          response := server.Reponse(STATUS_BAD_REQUEST, "Invalid request");
          return;
        case JsonFailed =>
          response := server.Reponse(STATUS_BAD_REQUEST, "Error parsing JSON");
          return;
        case Parsed(decoded) =>
          request := decoded;
      }
    }

    if clientToken !in server.clients {
      response := server.Reponse(STATUS_UNAUTHORIZED, "Unauthorized");
      return;
    }
    var client := server.clients[clientToken];

    if channelName !in server.slackChannels {
      response := server.Reponse(STATUS_NOT_FOUND, "Channel not found");
      return;
    }
    var channel := server.slackChannels[channelName];

    if !IsAllowedChannel(client, channel.name) {
      var message := "channel " + channelName + " not allowed for client " + client.name;
      response := server.Reponse(STATUS_UNAUTHORIZED, message);
      return;
    }

    var sent := SendMessage(channel, request, client, outcome);
    post := Some(sent.post);
    if sent.err.Some? {
      response := server.Reponse(STATUS_INTERNAL_SERVER_ERROR, "Error sending message : " + sent.err.value);
      return;
    }
    response := server.Reponse(STATUS_OK, "Message sent");
  }

  /**
   * End to end: after a successful load, posting text to the path of a
   * client's relay URL for channel `n` relays it to that channel's real
   * webhook, unless two channel names share a token.
   */
  lemma RelayUrlDelivers(st: ServerState, decode: TomlDecode, md5hex: Md5Hex, t: string,
                         n: string, text: string, body: BodyRead, outcome: PostOutcome)
    requires decode.Decoded?
    requires LoadOutcome(st, decode, md5hex).err.None?
    requires t in LoadOutcome(st, decode, md5hex).state.clients
    requires n in LoadOutcome(st, decode, md5hex).state.clients[t].webhooks
    requires '/' !in decode.config.notifyRoute && '/' !in t
    requires '/' !in Token(n, decode.config.secret, md5hex)
    requires text != ""
    ensures var r := LoadOutcome(st, decode, md5hex).state;
            var channelToken := Token(n, decode.config.secret, md5hex);
            var path := RoutePath(decode.config.notifyRoute, t, channelToken);
            && r.clients[t].webhooks[n] == r.baseUrl + path
            && channelToken in r.slackChannels
            && (r.slackChannels[channelToken].name == n ==>
                  var d := NotifyDecision(HttpRequest("POST", path, text, body),
                                          r.clients, r.slackChannels, outcome);
                  && d.post.Some?
                  && d.post.value.url == r.slackChannels[channelToken].webhookUrl
                  && (d.status == STATUS_OK <==> outcome.Reply?))
  {
    var s := decode.config;
    var r := LoadOutcome(st, decode, md5hex).state;
    var channelToken := Token(n, s.secret, md5hex);
    WebhooksAreAllowedChannels(st, decode, md5hex, t);
    RegistryKeyedByDerivedTokens(st, decode, md5hex);
    WebhookUrlRoutesBack(s.baseUrl, s.notifyRoute, t, channelToken);
    var i :| 0 <= i < |s.slackChannels| && s.slackChannels[i].name == n;
    assert channelToken in r.slackChannels;
  }
}
