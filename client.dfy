/** A client of the relay (client.go) and its channel permission check. */
module ClientModel {

  /**
   * A sender identity. The repository holds two versions of this struct:
   * the header-token one has `authorisationToken`, the path-token one
   * (used by server.go) also has the derived `token` and the `webhooks`
   * map from channel name to relay URL. This record is their union.
   */
  datatype Client = Client(
    name: string,
    authorisationToken: string,
    channelsAllowed: seq<string>,
    token: string,
    webhooks: map<string, string>)

  /** The public projection served by the client listing: no token, no URL. */
  datatype ClientJson = ClientJson(name: string, channelsAllowed: seq<string>)

  function NewClientJson(client: Client): ClientJson
  {
    ClientJson(client.name, client.channelsAllowed)
  }

  /** The listing reveals exactly the public fields of a client and nothing else. */
  lemma ClientJsonIsPublicPart(a: Client, b: Client)
    ensures NewClientJson(a) == NewClientJson(b)
        <==> a.name == b.name && a.channelsAllowed == b.channelsAllowed
  {
  }

  /**
   * The scan of `IsAllowedChannel`: the first entry equal to `channel`
   * answers true; reaching the end answers false.
   */
  function ScanAllowed(allowed: seq<string>, channel: string): (found: bool)
    ensures found <==> exists i :: 0 <= i < |allowed| && allowed[i] == channel
    decreases |allowed|
  {
    if |allowed| == 0 then false
    else if allowed[0] == channel then true
    else
      var found := ScanAllowed(allowed[1..], channel);
      assert forall i :: 1 <= i < |allowed| ==> allowed[i] == allowed[1..][i - 1];
      found
  }

  /** Whether `client` may post to the channel called `channel`: plain membership. */
  function IsAllowedChannel(client: Client, channel: string): (allowed: bool)
    ensures allowed <==> channel in client.channelsAllowed
  {
    ScanAllowed(client.channelsAllowed, channel)
  }

  /** An empty allow-list allows nothing (it does not mean "every channel"). */
  lemma EmptyAllowsNothing(client: Client, channel: string)
    requires client.channelsAllowed == []
    ensures !IsAllowedChannel(client, channel)
  {
  }

  /** Only the set of allowed names matters: not their order, not repetitions. */
  lemma AllowedDependsOnlyOnNameSet(a: Client, b: Client, channel: string)
    requires (set n | n in a.channelsAllowed) == (set n | n in b.channelsAllowed)
    ensures IsAllowedChannel(a, channel) == IsAllowedChannel(b, channel)
  {
    var names := set n | n in a.channelsAllowed;
    assert channel in a.channelsAllowed <==> channel in names;
    assert channel in b.channelsAllowed <==> channel in names;
    assert IsAllowedChannel(a, channel) == (channel in a.channelsAllowed);
    assert IsAllowedChannel(b, channel) == (channel in b.channelsAllowed);
  }

  /** The answer reads only `channelsAllowed`: the other fields never change it. */
  lemma AllowedReadsOnlyAllowList(a: Client, b: Client, channel: string)
    requires a.channelsAllowed == b.channelsAllowed
    ensures IsAllowedChannel(a, channel) == IsAllowedChannel(b, channel)
  {
  }
}
