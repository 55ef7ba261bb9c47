/**
 * The header-token handlers (server-routes.go): the client authenticates
 * with the `Authorization` header and names the channel in a form field;
 * two read-only routes list the registry without its secrets.
 */
module LegacyRouteModel {
  import opened Wrappers
  import opened Http
  import opened ClientModel
  import opened SlackPayload
  import opened LegacySlackChannelModel

  /** A request to the older handler, with its form fields and header already read. */
  datatype LegacyRequest = LegacyRequest(
    httpMethod: string,
    channel: string,
    message: string,
    authorization: string)

  /** The older server: clients keyed by their token, channels keyed by name. */
  class LegacyServer {
    var clients: map<string, Client>
    var slackChannels: map<string, SlackChannel>

    constructor (clients: map<string, Client>, slackChannels: map<string, SlackChannel>)
      ensures this.clients == clients && this.slackChannels == slackChannels
    {
      this.clients := clients;
      this.slackChannels := slackChannels;
    }

    /**
     * The channel listing: one entry per registered channel, in the map's
     * (unspecified) iteration order, each holding only the channel's name.
     */
    method DisplayChannels() returns (listing: seq<SlackChannelJson>, ghost order: seq<string>)
      ensures |listing| == |order| == |slackChannels|
      ensures forall i :: 0 <= i < |order| ==>
                order[i] in slackChannels && listing[i] == SlackChannelJson(slackChannels[order[i]].name)
      ensures forall k :: k in slackChannels ==> k in order
      ensures forall i, j :: 0 <= i < j < |order| ==> order[i] != order[j]
    {
      listing, order := [], [];
      var remaining := slackChannels.Keys;
      while remaining != {}
        invariant remaining <= slackChannels.Keys
        invariant |listing| == |order| && |order| + |remaining| == |slackChannels|
        invariant forall i :: 0 <= i < |order| ==>
                    order[i] in slackChannels && order[i] !in remaining
                    && listing[i] == NewSlackChannelJson(slackChannels[order[i]])
        invariant forall k :: k in slackChannels && k !in remaining ==> k in order
        invariant forall i, j :: 0 <= i < j < |order| ==> order[i] != order[j]
        decreases |remaining|
      {
        var k :| k in remaining;
        listing := listing + [NewSlackChannelJson(slackChannels[k])];
        order := order + [k];
        remaining := remaining - {k};
      }
    }

    /**
     * The client listing: one entry per registered client, each holding its
     * name and allowed channels; tokens and webhook URLs never appear.
     */
    method DisplayClients() returns (listing: seq<ClientJson>, ghost order: seq<string>)
      ensures |listing| == |order| == |clients|
      ensures forall i :: 0 <= i < |order| ==>
                && order[i] in clients
                && listing[i] == ClientJson(clients[order[i]].name, clients[order[i]].channelsAllowed)
      ensures forall k :: k in clients ==> k in order
      ensures forall i, j :: 0 <= i < j < |order| ==> order[i] != order[j]
    {
      listing, order := [], [];
      var remaining := clients.Keys;
      while remaining != {}
        invariant remaining <= clients.Keys
        invariant |listing| == |order| && |order| + |remaining| == |clients|
        invariant forall i :: 0 <= i < |order| ==>
                    order[i] in clients && order[i] !in remaining
                    && listing[i] == NewClientJson(clients[order[i]])
        invariant forall k :: k in clients && k !in remaining ==> k in order
        invariant forall i, j :: 0 <= i < j < |order| ==> order[i] != order[j]
        decreases |remaining|
      {
        var k :| k in remaining;
        listing := listing + [NewClientJson(clients[k])];
        order := order + [k];
        remaining := remaining - {k};
      }
    }

    /**
     * The older relay handler. The client lookup comes before the check for
     * a channel and a message, so an unknown token is refused first; the
     * permission failure answers 401; a send error answers 500 with the
     * error's text. It keeps no counters.
     */
    method NotifyChannel(req: LegacyRequest, outcome: PostOutcome)
      returns (response: Response, post: Option<Post>)
      ensures (req.httpMethod != "POST" ==>
                 response == Response(STATUS_METHOD_NOT_ALLOWED, "") && post == None)
      ensures (req.httpMethod == "POST" && req.authorization !in clients ==>
                 response == Response(STATUS_UNAUTHORIZED, "Unauthorized") && post == None)
      ensures (req.httpMethod == "POST" && req.authorization in clients
               && (req.channel == "" || req.message == "") ==>
                 response == Response(STATUS_BAD_REQUEST, "channel and message are required")
                 && post == None)
      ensures (req.httpMethod == "POST" && req.authorization in clients
               && req.channel != "" && req.message != "" && req.channel !in slackChannels ==>
                 response == Response(STATUS_NOT_FOUND, "channel not found") && post == None)
      ensures (req.httpMethod == "POST" && req.authorization in clients
               && req.channel != "" && req.message != "" && req.channel in slackChannels
               && req.channel !in clients[req.authorization].channelsAllowed ==>
                 response == Response(STATUS_UNAUTHORIZED,
                                      "channel " + req.channel + " not allowed for client "
                                      + clients[req.authorization].name)
                 && post == None)
      ensures (post.Some? <==>
                 && req.httpMethod == "POST" && req.authorization in clients
                 && req.channel != "" && req.message != "" && req.channel in slackChannels
                 && req.channel in clients[req.authorization].channelsAllowed)
      ensures (post.Some? ==>
                 var sent := SendMessage(slackChannels[req.channel], req.message,
                                         clients[req.authorization], outcome);
                 && post == Some(sent.post)
                 && response == (if sent.err.Some? then Response(STATUS_INTERNAL_SERVER_ERROR, sent.err.value)
                                 else Response(STATUS_OK, "message sent")))
      ensures response.status == STATUS_OK <==> post.Some? && outcome.Reply?
    {
      post := None;
      if req.httpMethod != "POST" {
        return Response(STATUS_METHOD_NOT_ALLOWED, ""), None;
      }

      var channelName := req.channel;
      var message := req.message;

      if req.authorization !in clients {
        return Response(STATUS_UNAUTHORIZED, "Unauthorized"), None;
      }
      var client := clients[req.authorization];

      if channelName == "" || message == "" {
        return Response(STATUS_BAD_REQUEST, "channel and message are required"), None;
      }

      if channelName !in slackChannels {
        return Response(STATUS_NOT_FOUND, "channel not found"), None;
      }
      var channel := slackChannels[channelName];

      if !IsAllowedChannel(client, channelName) {
        var denied := "channel " + channelName + " not allowed for client " + client.name;
        return Response(STATUS_UNAUTHORIZED, denied), None;
      }

      var sent := SendMessage(channel, message, client, outcome);
      post := Some(sent.post);
      if sent.err.Some? {
        response := Response(STATUS_INTERNAL_SERVER_ERROR, sent.err.value);
        return;
      }
      response := Response(STATUS_OK, "message sent");
    }
  }
}
