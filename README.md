# slack-proxy relay: a Dafny model

slack-proxy is a small HTTP relay that sits in front of Slack incoming
webhooks. A TOML file names the Slack channels and their real webhook URLs,
the clients, and the channels each client may post to. The server derives a
capability token for every channel and client as hex(md5(name + secret)).
It hands each client one relay URL per allowed channel:
`<base url>/<notify route>/<client token>/<channel token>`. A POST to such
a URL is checked and then forwarded to the channel's real webhook, with the
text prefixed by the sender's name in bold. The server counts delivered
messages and errors, and periodically posts a liveness message through a
built-in `self` client.

The repository carries two generations of the code side by side, and the
model keeps them apart:

- **Current.** `server.go`, `server_routes.go`, `slack_channel.go` and
  `client.go`. Tokens travel in the URL path.
- **Older.** `server-routes.go` and `slackChanel.go`. The client token
  travels in the `Authorization` header, the channel name in a form field,
  and there are two read-only listing routes.

The model has one module per source file, plus a few shared ones:

| module | file | content |
|---|---|---|
| `Wrappers` | | `Option` |
| `Http` | | status codes; the outcome of a webhook post (a reply with a status, or a transport error); the post a handler makes; the response it writes |
| `ClientModel` | `client.go` | `Client` (the union of both generations' fields); the public projection `ClientJson`; the permission check `IsAllowedChannel` |
| `NotifyRequestModel` | `server_routes.go` | the notification body records |
| `SlackPayload` | | the `"*name* :\n" + text` message both versions build; a reader-side `ParseMessage` to state that the sender is recoverable from it |
| `SlackChannelModel` | `slack_channel.go` | the current channel (with token) and its `SendMessage` |
| `LegacySlackChannelModel` | `slackChanel.go` | the older channel, its constructor and listing projection, and its `SendMessage` |
| `ServerModel` | `server.go` | below |
| `RouteModel` | `server_routes.go` | below |
| `LegacyRouteModel` | `server-routes.go` | below |

`ServerModel` holds:

- the decoded configuration;
- the configuration errors, one per `return fmt.Errorf(...)`;
- the pure specification `LoadOutcome` of a reload, staged exactly as the code writes the server's fields;
- the `Server` class. Its methods `LoadConfig`, `Reponse` and `SelfNotify` update the fields in place, with loops for the channel validation, client registration and map filling. Each method is proved equal to its specification function.

`RouteModel` holds:

- the path splitting, with a split/join round trip;
- the pure decision ladder `NotifyDecision`;
- the handler `NotifyChannel`. It updates the server's counters through `Reponse` on every exit.

`LegacyRouteModel` holds the older handler and the two listing methods on a
`LegacyServer` class.

Foreign pieces become inputs:

- **md5:** the function-typed parameter `md5hex`, never interpreted.
- **TOML decoding:** a `TomlDecode` value, either an error or a document plus its undecoded keys.
- **Form values and body reading or JSON decoding:** fields of the request value.
- **Posting to a webhook:** a `PostOutcome` parameter.
- **The clock:** an integer `now`.

Behaviour of the code worth knowing, all of it kept in the model:

- An empty allow-list allows no channel.
- Token collisions are not rejected: a later map entry overwrites an earlier one.
- `SendMessage` has no special case for a client named `self`: every sender's text gets the same prefix (slack_channel.go:19).
- The built-in `self` client never gets a message through the relay. Its allow-list is empty, so a request carrying its token is refused with 401 before `SendMessage` runs (server_routes.go:92-96). `SelfNotify` builds its own unprefixed payload and never calls `SendMessage` (server.go:179-191).
- A failed reload is not rolled back once the checks of the settings and channels have passed. An unknown key has already replaced the self client (server.go:119-127). A nameless client or a missing self channel comes after the settings and both maps have been replaced (server.go:129-172).
- A channel a client may not use is refused with 401, the same status as an unknown client.
- A malformed route gets 400.
- The webhook's HTTP status is never inspected by `SendMessage`: only a transport error counts as a failure.
- A notify route holding a '/' (say `a/b`) gives relay URLs whose path reaches the handler but splits into more than four parts, so the handler answers 400 "Invalid route" (server_routes.go:46-50).
- The handler is registered for the path pattern `"/" + notify route + "/"` (server.go:46, server.go:133). A base URL with a path of its own gives relay URLs that reach the handler only through a proxy that strips that path. Serving and routing are not part of this model.

A consequence of the code as written, stated by
`ServerModel.SelfClientRegistered`: the `self` client is created with no
allowed channels. So after every successful load its webhook map is empty,
and `SelfNotify` posts to the empty URL.

## Model

| member | source | states |
|---|---|---|
| ClientModel.ScanAllowed | client.go:31-37 | the first-match scan answers true exactly when some entry of the allow-list equals the channel |
| ClientModel.IsAllowedChannel | client.go:30-38 | a client may post to a channel iff the channel's name occurs in its allow-list |
| ClientModel.EmptyAllowsNothing | client.go:31-37 | an empty allow-list allows no channel at all |
| ClientModel.AllowedDependsOnlyOnNameSet | client.go:30-38 | two allow-lists with the same set of names (any order, any repetition) give the same answer for every channel |
| ClientModel.AllowedReadsOnlyAllowList | client.go:30-38 | the answer depends on the allow-list only, not on the name, tokens or webhooks |
| ClientModel.ClientJsonIsPublicPart | client.go:13-20 | about `NewClientJson`, the listing constructor: two clients list identically iff they have the same name and allow-list; the authorisation token, token and webhooks are not part of the listing |
| SlackPayload.ParseMessageRoundTrip | slack_channel.go:19-23 | for a sender name without '*', the relayed text splits back into exactly that name and the original text |
| SlackChannelModel.SendMessage | slack_channel.go:17-36 | posts JSON to the channel's own webhook; the payload has the single key "text"; that text names the client and carries the request text; an error comes back iff the post failed in transport, and it is that error; any HTTP reply, whatever its status, counts as success |
| SlackChannelModel.SendMessageKeepsOnlyText | slack_channel.go:21-23 | two requests with the same text give the same post and error: username, attachments and icon are dropped |
| SlackChannelModel.SendMessagePrefixesEveryClient | slack_channel.go:19-23 | the text sent is exactly "*" + name + "* :\n" + request text, for every client, one named `self` included |
| LegacySlackChannelModel.ListingHidesWebhook | slackChanel.go:21-34 | about the constructors `NewSlackChannel` and `NewSlackChannelJson`: a channel built from a name and a URL keeps both, and its listing entry is the name alone, whatever the URL |
| LegacySlackChannelModel.SendMessage | slackChanel.go:37-56 | posts JSON to the channel's webhook; the single "text" key names the client and carries the message; an error iff transport failed, and the reply status is never inspected |
| LegacySlackChannelModel.SendMessageAgreesAcrossVersions | slackChanel.go:37-56 | the older and the current channel send the same post and report the same error for the same webhook, client and text |
| ServerModel.HeaderError | server.go:84-102 | the settings pass iff base URL, secret, notify route and self channel are non-empty and the self-check interval is positive; the first failing check in that order names the error, down to the self-check interval |
| ServerModel.ValidateChannels | server.go:104-112 | no error iff every channel has a name and a webhook URL; otherwise the error is that of the first invalid channel, with the name checked before the URL |
| ServerModel.IndexBy | server.go:156-164 | the map filled by the loop has exactly the keys of the entries, and each key maps to an entry that carries that key |
| ServerModel.IndexByLastWins | server.go:156-164 | an entry whose key no later entry shares is the one the map keeps: a later duplicate token overwrites an earlier one |
| ServerModel.LoadSucceedsIff | server.go:77-175 | a reload succeeds iff decoding worked, every setting and channel is valid, no key was left undecoded, every client has a name and some channel is the self-notify channel |
| ServerModel.CheckErrorsChangeNothing | server.go:79-112 | a decode error or a failed settings or channel check returns an error and leaves the whole server state as it was |
| ServerModel.LateErrorsAreNotRolledBack | server.go:118-172 | an unknown key has already replaced the self client; a nameless client has already replaced secret and base URL and emptied both registry maps; a missing self channel leaves the new settings, the self client and both maps exactly as a successful load builds them |
| ServerModel.SelfClientRegistered | server.go:118-158 | after a successful load a client named "self" sits under md5hex("self" + secret), is the server's self client, is allowed no channel, and has no webhook, so the self-notify URL is empty |
| ServerModel.RegistryKeyedByDerivedTokens | server.go:114-163 | after a successful load every client and channel sits under its own token, md5hex(name + secret), and every configured channel's and every configured client's token is a key of its map |
| ServerModel.WebhooksAreAllowedChannels | server.go:143-152 | after a successful load each client's webhooks are exactly the configured channels it is allowed to use, each mapped to base URL + "/" + route + "/" + client token + "/" + channel token |
| ServerModel.Counted | server.go:65-70 | one response raises the sum of the counters by one; the message counter rises iff the status is 200; no other field changes |
| ServerModel.AfterSelfNotify | server.go:193-206 | only a 200 reply resets both counters and sets the timestamp to now; a transport error or any other status changes nothing |
| ServerModel.CheckChannels | server.go:104-116 | the channel loop returns the error `ValidateChannels` predicts, and on success every channel carries its derived token |
| ServerModel.BuildWebhooks | server.go:146-152 | the inner loop builds exactly the client's webhook map for the allowed channels |
| ServerModel.RegisterClients | server.go:137-154 | the client loop fails iff some client has an empty name, with that error; otherwise each client gets its token and webhook map |
| ServerModel.IndexClients | server.go:156-159 | the clients map is the last-wins index of the registered clients by token |
| ServerModel.IndexChannels | server.go:161-168 | the channel map is the last-wins index by token, and the flag is set iff some channel is named as the self channel |
| ServerModel.Server.constructor | server.go:217-227 | a new server has empty maps, zero counters, no self client and the start time as its last self notification |
| ServerModel.Server.Reponse | server.go:65-74 | writes the given status and message and updates the counters as `Counted` says, nothing else |
| ServerModel.Server.LoadConfig | server.go:77-175 | the new state and the error are those of `LoadOutcome` on the old state, with every intermediate write of the code kept when a later check fails |
| ServerModel.Server.RebuildRegistry | server.go:137-175 | the client loop, the two map loops and the self-channel check leave the state and error `Rebuild` specifies |
| ServerModel.Server.SelfNotify | server.go:178-207 | posts to the self client's webhook for the self channel (empty when absent) and updates the state as `AfterSelfNotify` says |
| RouteModel.Split | server_routes.go:46 | the path splits into at least one part, none holding a '/', and the parts joined with '/' give the path back |
| RouteModel.SplitJoin | server_routes.go:46 | splitting undoes joining any non-empty list of slash-free parts |
| RouteModel.WebhookUrlRoutesBack | server_routes.go:46-53 | a relay URL is the base URL plus a route path, and that path splits into four parts that give back the client token and channel token it was built from |
| RouteModel.ReadPayload | server_routes.go:55-74 | a non-empty `text` form value becomes the request text; otherwise the payload is read iff the body reads and decodes, and is the decoded body; a read failure gives "Invalid request" and a decode failure "Error parsing JSON" |
| RouteModel.NotifyDecision | server_routes.go:36-107 | a non-POST gets 405 and a non-4-part path gets 400 before anything else; then a bad payload gets 400 with the payload's error, before any lookup; a post is made iff every check passes; 200 iff checks pass and the webhook replied, 500 iff checks pass and transport failed; 200 answers "Message sent" and 500 "Error sending message : " + the transport error; the post goes to the channel's webhook with the prefixed text; the status is always one of the six codes |
| RouteModel.UnknownClientRefusedFirst | server_routes.go:76-82 | an unknown client token gets 401 "Unauthorized" whatever the channel map holds |
| RouteModel.ChannelRefusals | server_routes.go:84-97 | for a known client an unknown channel key gets 404, and a channel it may not use gets 401 naming the channel key and the client |
| RouteModel.SelfNeverPosts | server_routes.go:77-97 | after a successful load, a request whose route carries the token of "self" never makes a post and never gets 200: the self client is allowed no channel |
| RouteModel.NotifyChannel | server_routes.go:36-107 | the handler's response and post are those of `NotifyDecision`, and exactly one counter rises, as `Counted` says |
| RouteModel.RelayUrlDelivers | server_routes.go:46-100 | after a successful load, posting text to the path of a client's relay URL for channel n passes every check and posts to that channel's real webhook, with 200 iff the webhook replied, unless two channel names share a token; the lemma assumes that the notify route and the tokens hold no '/', and it speaks of the path the handler sees |
| LegacyRouteModel.LegacyServer.DisplayChannels | server-routes.go:10-21 | one listing entry per registered channel, no channel twice, each holding only the channel's name |
| LegacyRouteModel.LegacyServer.DisplayClients | server-routes.go:24-35 | one listing entry per registered client, no client twice, each holding only its name and allow-list |
| LegacyRouteModel.LegacyServer.NotifyChannel | server-routes.go:39-98 | non-POST gets 405 with an empty body; then an unknown Authorization token gets 401 even with channel or message missing; then 400 for a missing channel or message, 404 for an unknown channel, 401 for a channel not allowed; a post is made iff all pass; a send error gives 500 with its text, else 200 "message sent" |

## Left out

- `main.go` and `signals.go` (flag parsing, process start, reload on signals) are not part of this model. `main.go` calls functions of a version that is not present.
- `Server.Start` (with net/http's matching of request paths against the registered pattern), the `SelfCheck` sleep loop and the goroutine `NewServer` starts: network listening and timers.
- The panic in `NewServer` when the first `LoadConfig` fails: process termination. The constructor models the initial field values, and `LoadConfig` is a separate call.
- `DisplayClientsRoutes`: console printing only.
- The mutex in the handlers: each handler is one sequential method call.
- The `port` and `configFileName` fields, and `NewClientFromToml` / `NewSlackChannelFromToml`: file reading and TOML decoding are foreign. The decoded record and its undecoded keys are inputs.
- md5: an uninterpreted parameter. No hash property (such as collision resistance) is assumed, which is why `RelayUrlDelivers` keeps a hypothesis that the channel token is not shared.
- JSON encoding and decoding, `r.FormValue` and `ioutil.ReadAll`: their results are inputs. The post's payload is a string map, not encoded bytes. `json.Marshal` of a string map cannot fail, so that error return is not modelled.
- `http.Post` and the response writer: the post's outcome is an input, and the written response is a returned value.
- `time.Now`, `time.Since` and the `time.Duration` conversion of the self-check interval: the clock is an integer parameter, and the interval is kept in hours.
- ServerModel.Server.SelfNotify: does not model the liveness text, which formats the counters and the elapsed time. It models the URL chosen, the reply handling and the counter reset.
- `IsAllowedChannel` does not modify the client: a Dafny function cannot, so no separate statement is needed.
- LegacyRouteModel.LegacyServer.DisplayChannels: the order of entries is the map's iteration order, which Go leaves unspecified. The ghost `order` output names it, and only a bijection with the keys is stated.
- LegacyRouteModel.LegacyServer.DisplayClients: unspecified order, as for `DisplayChannels`.
- Aliasing: clients and channels are values. The one alias the code relies on is `selfClient`, which points at the appended self client the registration loop later updates. It is modelled by setting `selfClient` to the registered copy.
