/**
 * The relay server (server.go): the registry of clients and channels built
 * from the decoded configuration, the response counters and the periodic
 * self notification's bookkeeping.
 */
module ServerModel {
  import opened Wrappers
  import opened Http
  import opened ClientModel
  import opened SlackChannelModel

  /** md5 of a string, rendered in hex: a foreign hash, passed in and never interpreted. */
  type Md5Hex = string -> string

  /** The decoded TOML document. */
  datatype ServerToml = ServerToml(
    secret: string,
    baseUrl: string,
    notifyRoute: string,
    selfNotifyChannel: string,
    selfCheckEveryXHours: int,
    clients: seq<Client>,
    slackChannels: seq<SlackChannel>)

  /** What `toml.DecodeFile` gives back: an error, or the document and the keys it did not know. */
  datatype TomlDecode =
    | DecodeFailed(reason: string)
    | Decoded(config: ServerToml, undecoded: seq<string>)

  /** The errors `LoadConfig` returns, one per `return fmt.Errorf(...)`. */
  datatype ConfigError =
    | DecodeError(reason: string)
    | MissingBaseUrl
    | MissingSecret
    | MissingNotifyRoute
    | MissingSelfNotifyChannel
    | MissingSelfCheckInterval
    | MissingChannelName
    | MissingChannelWebhookUrl
    | UnknownFields(keys: seq<string>)
    | MissingClientName
    | SelfChannelMissing

  /** The capability token of a channel or client: hex(md5(name + secret)). */
  function Token(name: string, secret: string, md5hex: Md5Hex): string
  {
    md5hex(name + secret)
  }

  /** The relay URL handed to a client for one channel. */
  function WebhookUrl(baseUrl: string, notifyRoute: string, clientToken: string,
                      channelToken: string): string
  {
    baseUrl + "/" + notifyRoute + "/" + clientToken + "/" + channelToken
  }

  /** The checks on the scalar settings, in the order `LoadConfig` makes them. */
  function HeaderError(s: ServerToml): (e: Option<ConfigError>)
    ensures e.None? <==> (s.baseUrl != "" && s.secret != "" && s.notifyRoute != ""
                          && s.selfNotifyChannel != "" && s.selfCheckEveryXHours > 0)
    ensures s.baseUrl == "" ==> e == Some(MissingBaseUrl)
    ensures s.baseUrl != "" && s.secret == "" ==> e == Some(MissingSecret)
    ensures (s.baseUrl != "" && s.secret != "" && s.notifyRoute == "" ==>
               e == Some(MissingNotifyRoute))
    ensures (s.baseUrl != "" && s.secret != "" && s.notifyRoute != "" && s.selfNotifyChannel == ""
             ==> e == Some(MissingSelfNotifyChannel))
    ensures (s.baseUrl != "" && s.secret != "" && s.notifyRoute != "" && s.selfNotifyChannel != ""
             && s.selfCheckEveryXHours <= 0
             ==> e == Some(MissingSelfCheckInterval))
  {
    if s.baseUrl == "" then Some(MissingBaseUrl)
    else if s.secret == "" then Some(MissingSecret)
    else if s.notifyRoute == "" then Some(MissingNotifyRoute)
    else if s.selfNotifyChannel == "" then Some(MissingSelfNotifyChannel)
    else if s.selfCheckEveryXHours <= 0 then Some(MissingSelfCheckInterval)
    else None
  }

  predicate ValidChannel(channel: SlackChannel)
  {
    channel.name != "" && channel.webhookUrl != ""
  }

  /** The error for one channel: the name is checked before the webhook. */
  function ChannelError(channel: SlackChannel): ConfigError
  {
    if channel.name == "" then MissingChannelName else MissingChannelWebhookUrl
  }

  /** The channel checks, first channel first: the first invalid channel decides the error. */
  function ValidateChannels(channels: seq<SlackChannel>): (e: Option<ConfigError>)
    ensures e.None? <==> forall i :: 0 <= i < |channels| ==> ValidChannel(channels[i])
    ensures e.Some? ==> exists i :: 0 <= i < |channels| && !ValidChannel(channels[i])
                          && (forall j :: 0 <= j < i ==> ValidChannel(channels[j]))
                          && e.value == ChannelError(channels[i])
    decreases |channels|
  {
    if |channels| == 0 then None
    else if channels[0].name == "" then Some(MissingChannelName)
    else if channels[0].webhookUrl == "" then Some(MissingChannelWebhookUrl)
    else
      var e := ValidateChannels(channels[1..]);
      assert forall i :: 1 <= i < |channels| ==> channels[i] == channels[1..][i - 1];
      if e.Some? then
        var k :| 0 <= k < |channels[1..]| && !ValidChannel(channels[1..][k])
                 && (forall j :: 0 <= j < k ==> ValidChannel(channels[1..][j]))
                 && e.value == ChannelError(channels[1..][k]);
        assert !ValidChannel(channels[k + 1]) && e.value == ChannelError(channels[k + 1]);
        e
      else e
  }

  function WithToken(channel: SlackChannel, secret: string, md5hex: Md5Hex): SlackChannel
  {
    channel.(token := Token(channel.name, secret, md5hex))
  }

  /** The channels after the validation loop has written each one's token. */
  function TokenizedChannels(channels: seq<SlackChannel>, secret: string, md5hex: Md5Hex)
    : seq<SlackChannel>
  {
    seq(|channels|, i requires 0 <= i < |channels| => WithToken(channels[i], secret, md5hex))
  }

  function ChannelNames(channels: seq<SlackChannel>): set<string>
  {
    set i | 0 <= i < |channels| :: channels[i].name
  }

  /**
   * The `Webhooks` map `LoadConfig` gives a client: one relay URL for each
   * channel the client is allowed to use, keyed by channel name.
   */
  function WebhooksFor(client: Client, clientToken: string, channels: seq<SlackChannel>,
                       s: ServerToml, md5hex: Md5Hex): map<string, string>
  {
    map n | n in ChannelNames(channels) && IsAllowedChannel(client, n)
      :: WebhookUrl(s.baseUrl, s.notifyRoute, clientToken, Token(n, s.secret, md5hex))
  }

  /** A client after the registration loop: its token derived, its webhooks built. */
  function Registered(client: Client, channels: seq<SlackChannel>, s: ServerToml,
                      md5hex: Md5Hex): Client
  {
    var token := Token(client.name, s.secret, md5hex);
    client.(token := token, webhooks := WebhooksFor(client, token, channels, s, md5hex))
  }

  function RegisteredClients(clients: seq<Client>, channels: seq<SlackChannel>, s: ServerToml,
                             md5hex: Md5Hex): seq<Client>
  {
    seq(|clients|, i requires 0 <= i < |clients| => Registered(clients[i], channels, s, md5hex))
  }

  /** The synthetic client `LoadConfig` appends: named "self", allowed no channel. */
  function SelfClient(): Client
  {
    Client("self", "", [], "", map[])
  }

  function ClientToken(client: Client): string { client.token }

  function ChannelToken(channel: SlackChannel): string { channel.token }

  /**
   * The map a loop `for _, x := range xs { m[key(x)] = x }` leaves: every
   * key present, and the later of two entries with the same key wins.
   */
  function IndexBy<T>(xs: seq<T>, key: T -> string): (m: map<string, T>)
    ensures m.Keys == set i | 0 <= i < |xs| :: key(xs[i])
    ensures forall k :: k in m ==> key(m[k]) == k && m[k] in xs
    decreases |xs|
  {
    if |xs| == 0 then map[]
    else
      var prefix := xs[..|xs| - 1];
      var m := IndexBy(prefix, key);
      assert forall i :: 0 <= i < |prefix| ==> prefix[i] == xs[i];
      m[key(xs[|xs| - 1]) := xs[|xs| - 1]]
  }

  /** An entry that no later entry shares a key with is the one the map keeps. */
  lemma {:induction false} IndexByLastWins<T>(xs: seq<T>, key: T -> string, i: int)
    requires 0 <= i < |xs|
    requires forall j :: i < j < |xs| ==> key(xs[j]) != key(xs[i])
    ensures key(xs[i]) in IndexBy(xs, key) && IndexBy(xs, key)[key(xs[i])] == xs[i]
    decreases |xs|
  {
    if i < |xs| - 1 {
      var prefix := xs[..|xs| - 1];
      assert forall j :: 0 <= j < |prefix| ==> prefix[j] == xs[j];
      IndexByLastWins(prefix, key, i);
    }
  }

  /** The fields of a `Server` that the model keeps (the port, file name and mutex are left out). */
  datatype ServerState = ServerState(
    secret: string,
    baseUrl: string,
    selfClient: Option<Client>,
    clients: map<string, Client>,
    slackChannels: map<string, SlackChannel>,
    nbMessages: int,
    nbErrors: int,
    lastSelfNotify: int,
    notifyRoute: string,
    selfNotifyChannel: string,
    selfCheckHours: int)

  /** `NewServer`'s literal, before its first `LoadConfig`. */
  function InitialState(now: int): ServerState
  {
    ServerState("", "", None, map[], map[], 0, 0, now, "", "", 0)
  }

  datatype LoadResult = LoadResult(state: ServerState, err: Option<ConfigError>)

  /**
   * The server's state and the error after `LoadConfig`, step by step as
   * the code writes it: nothing changes before the self client is created;
   * an unknown key changes only the self client; from the settings
   * assignment on, a later error leaves what was written in place.
   */
  function LoadOutcome(st: ServerState, decode: TomlDecode, md5hex: Md5Hex): LoadResult
  {
    match decode
    case DecodeFailed(reason) => LoadResult(st, Some(DecodeError(reason)))
    case Decoded(s, undecoded) =>
      if HeaderError(s).Some? then LoadResult(st, HeaderError(s))
      else if ValidateChannels(s.slackChannels).Some? then
        LoadResult(st, ValidateChannels(s.slackChannels))
      else
        var st1 := st.(selfClient := Some(SelfClient()));
        if |undecoded| > 0 then LoadResult(st1, Some(UnknownFields(undecoded)))
        else Rebuild(Settings(st1, s), s, md5hex)
  }

  /** The settings `LoadConfig` copies into the server once the document has been checked. */
  function Settings(st: ServerState, s: ServerToml): ServerState
  {
    st.(secret := s.secret, baseUrl := s.baseUrl,
        clients := map[], slackChannels := map[],
        notifyRoute := "/" + s.notifyRoute + "/",
        selfNotifyChannel := s.selfNotifyChannel,
        selfCheckHours := s.selfCheckEveryXHours)
  }

  /** The registry part of `LoadOutcome`: clients, then the two maps, then the self channel. */
  function Rebuild(st: ServerState, s: ServerToml, md5hex: Md5Hex): LoadResult
  {
    if exists i :: 0 <= i < |s.clients| && s.clients[i].name == "" then
      LoadResult(st, Some(MissingClientName))
    else
      var channels := TokenizedChannels(s.slackChannels, s.secret, md5hex);
      var registered := RegisteredClients(s.clients + [SelfClient()], channels, s, md5hex);
      var st3 := st.(selfClient := Some(registered[|registered| - 1]),
                     clients := IndexBy(registered, ClientToken),
                     slackChannels := IndexBy(channels, ChannelToken));
      LoadResult(st3, if s.selfNotifyChannel in ChannelNames(s.slackChannels) then None
                      else Some(SelfChannelMissing))
  }

  /** `LoadConfig` succeeds exactly when every check passes and the self channel is configured. */
  lemma LoadSucceedsIff(st: ServerState, decode: TomlDecode, md5hex: Md5Hex)
    ensures LoadOutcome(st, decode, md5hex).err.None? <==>
      && decode.Decoded?
      && HeaderError(decode.config).None?
      && (forall i :: 0 <= i < |decode.config.slackChannels| ==>
                        ValidChannel(decode.config.slackChannels[i]))
      && |decode.undecoded| == 0
      && (forall i :: 0 <= i < |decode.config.clients| ==> decode.config.clients[i].name != "")
      && (exists i :: 0 <= i < |decode.config.slackChannels|
                        && decode.config.slackChannels[i].name == decode.config.selfNotifyChannel)
  {
    if decode.Decoded? {
      var s := decode.config;
      var names := ChannelNames(s.slackChannels);
      assert s.selfNotifyChannel in names <==> exists i :: 0 <= i < |s.slackChannels|
                                                 && s.slackChannels[i].name == s.selfNotifyChannel;
    }
  }

  /** A decode error or a failed check of the settings or channels leaves the server untouched. */
  lemma CheckErrorsChangeNothing(st: ServerState, decode: TomlDecode, md5hex: Md5Hex)
    requires || decode.DecodeFailed?
             || HeaderError(decode.config).Some?
             || ValidateChannels(decode.config.slackChannels).Some?
    ensures LoadOutcome(st, decode, md5hex).state == st
    ensures LoadOutcome(st, decode, md5hex).err.Some?
  {
  }

  /**
   * No rollback: an unknown key has already replaced the self client, and a
   * nameless client has already replaced the settings and emptied both
   * maps, so the previous registry's tokens no longer resolve.
   */
  lemma LateErrorsAreNotRolledBack(st: ServerState, decode: TomlDecode, md5hex: Md5Hex)
    requires decode.Decoded?
    ensures var r := LoadOutcome(st, decode, md5hex);
            r.err.Some? && r.err.value.UnknownFields? ==> r.state == st.(selfClient := Some(SelfClient()))
    ensures var r := LoadOutcome(st, decode, md5hex);
            r.err == Some(MissingClientName) ==>
              && r.state.secret == decode.config.secret
              && r.state.baseUrl == decode.config.baseUrl
              && r.state.clients == map[] && r.state.slackChannels == map[]
              && r.state.selfClient == Some(SelfClient())
    ensures var r := LoadOutcome(st, decode, md5hex);
            var s := decode.config;
            var channels := TokenizedChannels(s.slackChannels, s.secret, md5hex);
            var registered := RegisteredClients(s.clients + [SelfClient()], channels, s, md5hex);
            r.err == Some(SelfChannelMissing) ==>
              && r.state.secret == s.secret && r.state.baseUrl == s.baseUrl
              && r.state.notifyRoute == "/" + s.notifyRoute + "/"
              && r.state.clients == IndexBy(registered, ClientToken)
              && r.state.slackChannels == IndexBy(channels, ChannelToken)
              && r.state.selfClient == Some(registered[|registered| - 1])
  {
  }

  /** The registered form of `clients[i]` in a successful load. */
  lemma RegisteredAt(clients: seq<Client>, channels: seq<SlackChannel>, s: ServerToml,
                     md5hex: Md5Hex, c: Client)
    requires c in RegisteredClients(clients, channels, s, md5hex)
    ensures exists i :: 0 <= i < |clients| && c == Registered(clients[i], channels, s, md5hex)
  {
    var registered := RegisteredClients(clients, channels, s, md5hex);
    var i :| 0 <= i < |registered| && registered[i] == c;
    assert c == Registered(clients[i], channels, s, md5hex);
  }

  /**
   * After a successful load the self client is registered under the token
   * of "self", is the server's `selfClient`, is allowed no channel, and so
   * has no webhook at all.
   */
  lemma SelfClientRegistered(st: ServerState, decode: TomlDecode, md5hex: Md5Hex)
    requires LoadOutcome(st, decode, md5hex).err.None?
    ensures decode.Decoded?
    ensures var r := LoadOutcome(st, decode, md5hex).state;
            var t := Token("self", decode.config.secret, md5hex);
            && t in r.clients
            && r.clients[t].name == "self" && r.clients[t].token == t
            && r.clients[t].channelsAllowed == []
            && r.selfClient == Some(r.clients[t])
            && r.clients[t].webhooks == map[]
            && SelfNotifyUrl(r) == ""
  {
    var s := decode.config;
    var channels := TokenizedChannels(s.slackChannels, s.secret, md5hex);
    var all := s.clients + [SelfClient()];
    var registered := RegisteredClients(all, channels, s, md5hex);
    var last := |registered| - 1;
    assert all[last] == SelfClient();
    IndexByLastWins(registered, ClientToken, last);
    var w := WebhooksFor(SelfClient(), Token("self", s.secret, md5hex), channels, s, md5hex);
    assert w == map[] by {
      assert forall n :: !IsAllowedChannel(SelfClient(), n);
      assert w.Keys == {};
    }
  }

  /** The client index: each entry under its own derived token, and every client's token present. */
  lemma ClientIndexKeyed(all: seq<Client>, channels: seq<SlackChannel>, s: ServerToml, md5hex: Md5Hex)
    ensures var m := IndexBy(RegisteredClients(all, channels, s, md5hex), ClientToken);
            forall t :: t in m ==> m[t].token == t && t == Token(m[t].name, s.secret, md5hex)
    ensures var m := IndexBy(RegisteredClients(all, channels, s, md5hex), ClientToken);
            forall i :: 0 <= i < |all| ==> Token(all[i].name, s.secret, md5hex) in m
  {
    var registered := RegisteredClients(all, channels, s, md5hex);
    var m := IndexBy(registered, ClientToken);
    forall t | t in m
      ensures m[t].token == t && t == Token(m[t].name, s.secret, md5hex)
    {
      RegisteredAt(all, channels, s, md5hex, m[t]);
    }
    forall i | 0 <= i < |all|
      ensures Token(all[i].name, s.secret, md5hex) in m
    {
      assert ClientToken(registered[i]) == Token(all[i].name, s.secret, md5hex);
    }
  }

  /** The channel index: each entry under its own derived token, and every channel's token present. */
  lemma ChannelIndexKeyed(channels: seq<SlackChannel>, secret: string, md5hex: Md5Hex)
    ensures var m := IndexBy(TokenizedChannels(channels, secret, md5hex), ChannelToken);
            forall t :: t in m ==> m[t].token == t && t == Token(m[t].name, secret, md5hex)
    ensures var m := IndexBy(TokenizedChannels(channels, secret, md5hex), ChannelToken);
            forall i :: 0 <= i < |channels| ==> Token(channels[i].name, secret, md5hex) in m
  {
    var tokenized := TokenizedChannels(channels, secret, md5hex);
    var m := IndexBy(tokenized, ChannelToken);
    forall t | t in m
      ensures m[t].token == t && t == Token(m[t].name, secret, md5hex)
    {
      var i :| 0 <= i < |tokenized| && tokenized[i] == m[t];
    }
    forall i | 0 <= i < |channels|
      ensures Token(channels[i].name, secret, md5hex) in m
    {
      assert ChannelToken(tokenized[i]) == Token(channels[i].name, secret, md5hex);
    }
  }

  /** The two registry maps a successful load leaves. */
  lemma LoadedRegistry(st: ServerState, decode: TomlDecode, md5hex: Md5Hex)
    requires decode.Decoded?
    requires LoadOutcome(st, decode, md5hex).err.None?
    ensures var s := decode.config;
            var channels := TokenizedChannels(s.slackChannels, s.secret, md5hex);
            var r := LoadOutcome(st, decode, md5hex).state;
            && r.clients == IndexBy(RegisteredClients(s.clients + [SelfClient()], channels, s, md5hex),
                                    ClientToken)
            && r.slackChannels == IndexBy(channels, ChannelToken)
  {
  }

  /**
   * After a successful load every registry entry sits under the token
   * derived from its own name and the secret, and every configured client
   * and channel has its token in the registry.
   */
  lemma RegistryKeyedByDerivedTokens(st: ServerState, decode: TomlDecode, md5hex: Md5Hex)
    requires decode.Decoded?
    requires LoadOutcome(st, decode, md5hex).err.None?
    ensures var r := LoadOutcome(st, decode, md5hex).state;
            forall t :: t in r.clients ==>
              r.clients[t].token == t && t == Token(r.clients[t].name, decode.config.secret, md5hex)
    ensures var r := LoadOutcome(st, decode, md5hex).state;
            forall t :: t in r.slackChannels ==>
              r.slackChannels[t].token == t
              && t == Token(r.slackChannels[t].name, decode.config.secret, md5hex)
    ensures var r := LoadOutcome(st, decode, md5hex).state;
            forall i :: 0 <= i < |decode.config.slackChannels| ==>
              Token(decode.config.slackChannels[i].name, decode.config.secret, md5hex)
                in r.slackChannels
    ensures var r := LoadOutcome(st, decode, md5hex).state;
            forall i :: 0 <= i < |decode.config.clients| ==>
              Token(decode.config.clients[i].name, decode.config.secret, md5hex) in r.clients
  {
    var s := decode.config;
    var channels := TokenizedChannels(s.slackChannels, s.secret, md5hex);
    var all := s.clients + [SelfClient()];
    LoadedRegistry(st, decode, md5hex);
    ClientIndexKeyed(all, channels, s, md5hex);
    ChannelIndexKeyed(s.slackChannels, s.secret, md5hex);
    assert forall i :: 0 <= i < |s.clients| ==> all[i] == s.clients[i];
  }

  /**
   * After a successful load each registered client's webhooks are exactly
   * the configured channels it is allowed to use, each mapped to the relay
   * URL built from the client's token and the channel's token.
   */
  lemma WebhooksAreAllowedChannels(st: ServerState, decode: TomlDecode, md5hex: Md5Hex, t: string)
    requires decode.Decoded?
    requires LoadOutcome(st, decode, md5hex).err.None?
    requires t in LoadOutcome(st, decode, md5hex).state.clients
    ensures var s := decode.config;
            var c := LoadOutcome(st, decode, md5hex).state.clients[t];
            && (forall n :: n in c.webhooks <==>
                  n in ChannelNames(s.slackChannels) && IsAllowedChannel(c, n))
            && (forall n :: n in c.webhooks ==>
                  c.webhooks[n] == WebhookUrl(s.baseUrl, s.notifyRoute, t, Token(n, s.secret, md5hex)))
  {
    var s := decode.config;
    var channels := TokenizedChannels(s.slackChannels, s.secret, md5hex);
    var all := s.clients + [SelfClient()];
    var c := LoadOutcome(st, decode, md5hex).state.clients[t];
    RegisteredAt(all, channels, s, md5hex, c);
    var i :| 0 <= i < |all| && c == Registered(all[i], channels, s, md5hex);
    assert ChannelNames(channels) == ChannelNames(s.slackChannels) by {
      assert forall k :: 0 <= k < |channels| ==> channels[k].name == s.slackChannels[k].name;
    }
    assert forall n :: IsAllowedChannel(c, n) == IsAllowedChannel(all[i], n);
  }

  /** `Reponse`'s bookkeeping: a 200 counts as a message, anything else as an error. */
  function Counted(st: ServerState, status: int): (r: ServerState)
    ensures r.nbMessages + r.nbErrors == st.nbMessages + st.nbErrors + 1
    ensures r.nbMessages >= st.nbMessages && r.nbErrors >= st.nbErrors
    ensures r.nbMessages > st.nbMessages <==> status == STATUS_OK
    ensures r.(nbMessages := st.nbMessages, nbErrors := st.nbErrors) == st
  {
    if status == STATUS_OK then st.(nbMessages := st.nbMessages + 1)
    else st.(nbErrors := st.nbErrors + 1)
  }

  /** Where `SelfNotify` posts: the self client's webhook for the self channel, "" when absent. */
  function SelfNotifyUrl(st: ServerState): string
    requires st.selfClient.Some?
  {
    var webhooks := st.selfClient.value.webhooks;
    if st.selfNotifyChannel in webhooks then webhooks[st.selfNotifyChannel] else ""
  }

  /** Only a 200 reply to the self notification resets the counters and the timestamp. */
  function AfterSelfNotify(st: ServerState, outcome: PostOutcome, now: int): (r: ServerState)
    ensures outcome != Reply(STATUS_OK) ==> r == st
    ensures outcome == Reply(STATUS_OK) ==> r.nbMessages == 0 && r.nbErrors == 0
                                             && r.lastSelfNotify == now
    ensures r.(nbMessages := st.nbMessages, nbErrors := st.nbErrors,
               lastSelfNotify := st.lastSelfNotify) == st
  {
    if outcome == Reply(STATUS_OK) then st.(lastSelfNotify := now, nbErrors := 0, nbMessages := 0)
    else st
  }

  class Server {
    var secret: string
    var baseUrl: string
    var selfClient: Option<Client>
    var clients: map<string, Client>
    var slackChannels: map<string, SlackChannel>
    var nbMessages: int
    var nbErrors: int
    var lastSelfNotify: int
    var notifyRoute: string
    var selfNotifyChannel: string
    var selfCheckHours: int

    function State(): ServerState
      reads this
    {
      ServerState(secret, baseUrl, selfClient, clients, slackChannels, nbMessages, nbErrors,
                  lastSelfNotify, notifyRoute, selfNotifyChannel, selfCheckHours)
    }

    /** The fields `NewServer` sets; its call to `LoadConfig` is a separate step. */
    constructor (now: int)
      ensures State() == InitialState(now)
    {
      secret, baseUrl, selfClient := "", "", None;
      clients, slackChannels := map[], map[];
      nbMessages, nbErrors, lastSelfNotify := 0, 0, now;
      notifyRoute, selfNotifyChannel, selfCheckHours := "", "", 0;
    }

    /** Writes the response and counts it (the name is the source's spelling). */
    method Reponse(status: int, message: string) returns (response: Response)
      modifies this`nbMessages, this`nbErrors
      ensures response == Response(status, message)
      ensures State() == Counted(old(State()), status)
    {
      if status == STATUS_OK {
        nbMessages := nbMessages + 1;
      } else {
        nbErrors := nbErrors + 1;
      }
      response := Response(status, message);
    }

    /**
     * Rebuilds the registry from the decoded configuration. The state is
     * updated in the order the code updates it and is not rolled back on a
     * late error.
     */
    method LoadConfig(decode: TomlDecode, md5hex: Md5Hex) returns (err: Option<ConfigError>)
      modifies this
      ensures LoadResult(State(), err) == LoadOutcome(old(State()), decode, md5hex)
    {
      if decode.DecodeFailed? {
        return Some(DecodeError(decode.reason));
      }
      var s := decode.config;
      if s.baseUrl == "" {
        return Some(MissingBaseUrl);
      }
      if s.secret == "" {
        return Some(MissingSecret);
      }
      if s.notifyRoute == "" {
        return Some(MissingNotifyRoute);
      }
      if s.selfNotifyChannel == "" {
        return Some(MissingSelfNotifyChannel);
      }
      if s.selfCheckEveryXHours <= 0 {
        return Some(MissingSelfCheckInterval);
      }

      var channels;
      err, channels := CheckChannels(s.slackChannels, s.secret, md5hex);
      if err.Some? {
        return;
      }

      var self := SelfClient();
      selfClient := Some(self);
      var all := s.clients + [self];

      if |decode.undecoded| > 0 {
        return Some(UnknownFields(decode.undecoded));
      }

      ghost var settled := Settings(State(), s);
      assert LoadOutcome(old(State()), decode, md5hex) == Rebuild(settled, s, md5hex);
      secret := s.secret;
      baseUrl := s.baseUrl;
      clients := map[];
      slackChannels := map[];
      notifyRoute := "/" + s.notifyRoute + "/";
      selfNotifyChannel := s.selfNotifyChannel;
      selfCheckHours := s.selfCheckEveryXHours;
      assert State() == settled;

      err := RebuildRegistry(s, all, channels, md5hex);
    }

    /**
     * The part of `LoadConfig` after the settings are written: the client
     * loop, then the two registry maps, then the self channel check.
     */
    method RebuildRegistry(s: ServerToml, all: seq<Client>, channels: seq<SlackChannel>,
                           md5hex: Md5Hex)
      returns (err: Option<ConfigError>)
      requires all == s.clients + [SelfClient()]
      requires channels == TokenizedChannels(s.slackChannels, s.secret, md5hex)
      modifies this
      ensures LoadResult(State(), err) == Rebuild(old(State()), s, md5hex)
    {
      var registered;
      err, registered := RegisterClients(all, channels, s, md5hex);
      if err.Some? {
        assert exists i :: 0 <= i < |s.clients| && s.clients[i].name == "" by {
          var i :| 0 <= i < |all| && all[i].name == "";
          assert i < |s.clients| && all[i] == s.clients[i];
        }
        return;
      }
      assert forall i :: 0 <= i < |s.clients| ==> s.clients[i].name != "" by {
        assert forall i :: 0 <= i < |s.clients| ==> all[i] == s.clients[i];
      }
      // `selfClient` points at the appended client, which the loop updated in place.
      selfClient := Some(registered[|registered| - 1]);

      clients := IndexClients(registered);

      var selfChannelExists;
      slackChannels, selfChannelExists := IndexChannels(channels, s.selfNotifyChannel);
      assert ChannelNames(channels) == ChannelNames(s.slackChannels) by {
        assert forall i :: 0 <= i < |channels| ==> channels[i].name == s.slackChannels[i].name;
      }

      if !selfChannelExists {
        return Some(SelfChannelMissing);
      }
      return None;
    }

    /** The periodic liveness post; on a 200 reply the counters start again from zero. */
    method SelfNotify(outcome: PostOutcome, now: int) returns (url: string)
      requires selfClient.Some?
      modifies this`nbMessages, this`nbErrors, this`lastSelfNotify
      ensures url == SelfNotifyUrl(old(State()))
      ensures State() == AfterSelfNotify(old(State()), outcome, now)
    {
      var webhooks := selfClient.value.webhooks;
      url := if selfNotifyChannel in webhooks then webhooks[selfNotifyChannel] else "";
      if outcome.TransportError? {
        return;
      }
      if outcome.status != STATUS_OK {
        return;
      }
      lastSelfNotify := now;
      nbErrors := 0;
      nbMessages := 0;
    }
  }

  /** The channel loop: validate each channel in order and write its token. */
  method CheckChannels(channels: seq<SlackChannel>, secret: string, md5hex: Md5Hex)
    returns (err: Option<ConfigError>, tokenized: seq<SlackChannel>)
    ensures err == ValidateChannels(channels)
    ensures err.None? ==> tokenized == TokenizedChannels(channels, secret, md5hex)
  {
    tokenized := channels;
    var i := 0;
    while i < |tokenized|
      invariant 0 <= i <= |channels| == |tokenized|
      invariant ValidateChannels(channels) == ValidateChannels(channels[i..])
      invariant forall j :: 0 <= j < i ==> tokenized[j] == WithToken(channels[j], secret, md5hex)
      invariant forall j :: i <= j < |channels| ==> tokenized[j] == channels[j]
    {
      assert channels[i..][0] == channels[i] && channels[i..][1..] == channels[i + 1..];
      if tokenized[i].name == "" {
        return Some(MissingChannelName), tokenized;
      }
      if tokenized[i].webhookUrl == "" {
        return Some(MissingChannelWebhookUrl), tokenized;
      }
      tokenized := tokenized[i := WithToken(tokenized[i], secret, md5hex)];
      i := i + 1;
    }
    assert channels[i..] == [];
    err := None;
  }

  /** The inner loop over channels: one relay URL per channel the client may use. */
  method BuildWebhooks(client: Client, clientToken: string, channels: seq<SlackChannel>,
                       s: ServerToml, md5hex: Md5Hex)
    returns (webhooks: map<string, string>)
    requires forall j :: 0 <= j < |channels|
               ==> channels[j].token == Token(channels[j].name, s.secret, md5hex)
    ensures webhooks == WebhooksFor(client, clientToken, channels, s, md5hex)
  {
    webhooks := map[];
    var k := 0;
    while k < |channels|
      invariant 0 <= k <= |channels|
      invariant webhooks == WebhooksFor(client, clientToken, channels[..k], s, md5hex)
    {
      var channel := channels[k];
      assert ChannelNames(channels[..k + 1]) == ChannelNames(channels[..k]) + {channel.name} by {
        assert forall j :: 0 <= j < k ==> channels[..k + 1][j] == channels[..k][j];
        assert channels[..k + 1][k] == channel;
      }
      if IsAllowedChannel(client, channel.name) {
        webhooks := webhooks[channel.name
                             := WebhookUrl(s.baseUrl, s.notifyRoute, clientToken, channel.token)];
      }
      k := k + 1;
    }
    assert channels[..k] == channels;
  }

  /** The client loop: reject an empty name, otherwise derive the token and build the webhooks. */
  method RegisterClients(clients: seq<Client>, channels: seq<SlackChannel>, s: ServerToml,
                         md5hex: Md5Hex)
    returns (err: Option<ConfigError>, registered: seq<Client>)
    requires forall j :: 0 <= j < |channels|
               ==> channels[j].token == Token(channels[j].name, s.secret, md5hex)
    ensures err.None? <==> forall i :: 0 <= i < |clients| ==> clients[i].name != ""
    ensures err.Some? ==> err == Some(MissingClientName)
    ensures err.None? ==> registered == RegisteredClients(clients, channels, s, md5hex)
  {
    registered := clients;
    var j := 0;
    while j < |registered|
      invariant 0 <= j <= |clients| == |registered|
      invariant forall i :: 0 <= i < j ==> clients[i].name != ""
      invariant forall i :: 0 <= i < j ==> registered[i] == Registered(clients[i], channels, s, md5hex)
      invariant forall i :: j <= i < |clients| ==> registered[i] == clients[i]
    {
      var client := registered[j];
      if client.name == "" {
        return Some(MissingClientName), registered;
      }
      var token := Token(client.name, s.secret, md5hex);
      var webhooks := BuildWebhooks(client, token, channels, s, md5hex);
      registered := registered[j := client.(token := token, webhooks := webhooks)];
      j := j + 1;
    }
    err := None;
  }

  /** `server.Clients[client.Token] = client` for each client in order. */
  method IndexClients(registered: seq<Client>) returns (m: map<string, Client>)
    ensures m == IndexBy(registered, ClientToken)
  {
    m := map[];
    var t := 0;
    while t < |registered|
      invariant 0 <= t <= |registered|
      invariant m == IndexBy(registered[..t], ClientToken)
    {
      assert registered[..t + 1][..t] == registered[..t];
      m := m[registered[t].token := registered[t]];
      t := t + 1;
    }
    assert registered[..t] == registered;
  }

  /** `server.SlackChannels[channel.Token] = channel` for each channel, noting the self channel. */
  method IndexChannels(channels: seq<SlackChannel>, selfNotifyChannel: string)
    returns (m: map<string, SlackChannel>, selfChannelExists: bool)
    ensures m == IndexBy(channels, ChannelToken)
    ensures selfChannelExists <==> selfNotifyChannel in ChannelNames(channels)
  {
    m := map[];
    selfChannelExists := false;
    var u := 0;
    while u < |channels|
      invariant 0 <= u <= |channels|
      invariant m == IndexBy(channels[..u], ChannelToken)
      invariant selfChannelExists <==> exists v :: 0 <= v < u && channels[v].name == selfNotifyChannel
    {
      assert channels[..u + 1][..u] == channels[..u];
      m := m[channels[u].token := channels[u]];
      if channels[u].name == selfNotifyChannel {
        selfChannelExists := true;
      }
      u := u + 1;
    }
    assert channels[..u] == channels;
  }
}
