/**
 * The Slack message both versions of `SendMessage` build: the sender's name
 * in bold, a colon and a line break, then the text, as the single "text"
 * key of a JSON object posted to the channel's webhook.
 */
module SlackPayload {
  import opened Wrappers
  import opened Http

  /** `fmt.Sprintf("*%s* :\n", client.Name)`: the same for every client, `self` included. */
  function SenderPrefix(name: string): string
  {
    "*" + name + "* :\n"
  }

  function MessageText(name: string, text: string): string
  {
    SenderPrefix(name) + text
  }

  /** `map[string]string{"text": text}`. */
  function TextPayload(text: string): map<string, string>
  {
    map["text" := text]
  }

  function JsonPost(url: string, payload: map<string, string>): Post
  {
    Post(url, "application/json", payload)
  }

  /** The first '*' in `s` at or after `from`, or `|s|` when there is none. */
  function FirstStar(s: string, from: nat): (i: nat)
    requires from <= |s|
    ensures from <= i <= |s|
    ensures i < |s| ==> s[i] == '*'
    ensures forall j :: from <= j < i ==> s[j] != '*'
    decreases |s| - from
  {
    if from == |s| || s[from] == '*' then from else FirstStar(s, from + 1)
  }

  /**
   * What a reader of the channel sees: the sender's name and the text, when
   * `s` has the shape of a relayed message. The name ends at its first '*'.
   */
  function ParseMessage(s: string): Option<(string, string)>
  {
    if |s| == 0 || s[0] != '*' then None
    else
      var i := FirstStar(s, 1);
      if i + 4 <= |s| && s[i..i + 4] == "* :\n" then Some((s[1..i], s[i + 4..]))
      else None
  }

  /** A relayed message names its sender unambiguously when the name holds no '*'. */
  lemma ParseMessageRoundTrip(name: string, text: string)
    requires '*' !in name
    ensures ParseMessage(MessageText(name, text)) == Some((name, text))
  {
    var s := MessageText(name, text);
    var n := |name|;
    assert s == ['*'] + name + ['*', ' ', ':', '\n'] + text;
    assert forall j :: 1 <= j < 1 + n ==> s[j] == name[j - 1];
    assert s[1 + n] == '*';
    var i := FirstStar(s, 1);
    assert i == 1 + n;
    assert s[1..i] == name;
    assert s[i..i + 4] == "* :\n";
    assert s[i + 4..] == text;
  }
}
