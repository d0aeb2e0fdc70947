/**
 The configuration both viewer pages derive from their form fields when the
 user saves it (`saveConfigAndConnect`): the channel name is the second
 `/`-separated segment of the signaling-channel ARN, the MQTT topic is
 `doorbell/<name>/ring`, and an empty session-token field becomes `null`.
 */
module PageConfig {
  import opened Common

  const Separator: char := '/'

  /** The index of the first occurrence of `c` in `s`. */
  function IndexOf(s: string, c: char): (i: nat)
    requires c in s
    ensures i < |s| && s[i] == c && c !in s[..i]
  {
    if s[0] == c then 0
    else
      assert s == [s[0]] + s[1..];
      var j := IndexOf(s[1..], c);
      assert s[..j + 1] == [s[0]] + s[1..][..j];
      1 + j
  }

  /** JavaScript's `s.split(sep)` for a one-character separator: the pieces
      between consecutive occurrences of `sep`, including empty ones. */
  function Split(s: string, sep: char): (parts: seq<string>)
    ensures |parts| >= 1
    ensures forall k :: 0 <= k < |parts| ==> sep !in parts[k]
    ensures |parts| == 1 <==> sep !in s
    decreases |s|
  {
    if sep !in s then [s]
    else
      var i := IndexOf(s, sep);
      [s[..i]] + Split(s[i + 1..], sep)
  }

  /** JavaScript's `parts.join(sep)`. */
  function Join(parts: seq<string>, sep: char): string
    requires |parts| >= 1
  {
    if |parts| == 1 then parts[0] else parts[0] + [sep] + Join(parts[1..], sep)
  }

  /** Joining the pieces of a split gives the original string back. */
  lemma {:induction false} JoinSplit(s: string, sep: char)
    ensures Join(Split(s, sep), sep) == s
    decreases |s|
  {
    if sep in s {
      var i := IndexOf(s, sep);
      var parts := Split(s, sep);
      assert parts == [s[..i]] + Split(s[i + 1..], sep);
      assert parts[1..] == Split(s[i + 1..], sep);
      assert Join(parts, sep) == s[..i] + [sep] + Join(parts[1..], sep);
      JoinSplit(s[i + 1..], sep);
      assert s == s[..i] + [sep] + s[i + 1..];
    }
  }

  /** The first occurrence of `c` is the one at `k` when no earlier one exists. */
  lemma {:induction false} IndexOfAt(s: string, c: char, k: nat)
    requires k < |s| && s[k] == c && c !in s[..k]
    ensures IndexOf(s, c) == k
  {
    if k > 0 {
      assert s[0] == s[..k][0];
      assert s[1..][..k - 1] == s[..k][1..];
      IndexOfAt(s[1..], c, k - 1);
    }
  }

  /** Splitting pieces that were joined gives the pieces back. */
  lemma {:induction false} SplitJoin(parts: seq<string>, sep: char)
    requires |parts| >= 1
    requires forall k :: 0 <= k < |parts| ==> sep !in parts[k]
    ensures Split(Join(parts, sep), sep) == parts
  {
    if |parts| > 1 {
      var s := Join(parts, sep);
      var p := parts[0];
      assert s == p + [sep] + Join(parts[1..], sep);
      assert s[..|p|] == p;
      IndexOfAt(s, sep, |p|);
      assert s[|p| + 1..] == Join(parts[1..], sep);
      SplitJoin(parts[1..], sep);
      assert parts == [p] + parts[1..];
    }
  }

  /** `channelArn.split('/')[1]`: `None` stands for JavaScript's `undefined`,
      the value of index 1 of a one-element array. */
  function ChannelName(arn: string): (name: Option<string>)
    ensures name.None? <==> Separator !in arn
    ensures name.Some? ==> Separator !in name.value
  {
    var parts := Split(arn, Separator);
    if |parts| >= 2 then Some(parts[1]) else None
  }

  /** An ARN of the form `<prefix>/<name>` or `<prefix>/<name>/<more>`
      (a signaling-channel ARN ends in `channel/<name>/<creation time>`)
      names the channel `<name>`, whatever follows it. */
  lemma ChannelNameOfArn(prefix: string, name: string, rest: string)
    requires Separator !in prefix && Separator !in name
    requires rest == [] || rest[0] == Separator
    ensures ChannelName(prefix + [Separator] + name + rest) == Some(name)
  {
    var arn := prefix + [Separator] + name + rest;
    assert arn[..|prefix|] == prefix;
    IndexOfAt(arn, Separator, |prefix|);
    var tail := arn[|prefix| + 1..];
    assert tail == name + rest;
    assert Split(arn, Separator) == [arn[..|prefix|]] + Split(tail, Separator);
    if rest != [] {
      assert tail[..|name|] == name;
      IndexOfAt(tail, Separator, |name|);
      assert Split(tail, Separator)[0] == name;
    } else {
      assert tail == name;
      assert Split(tail, Separator) == [name];
    }
  }

  /** The text a template literal `${v}` produces. */
  function TemplateText(v: Option<string>): (text: string)
    ensures v.Some? ==> text == v.value
    ensures v.None? ==> text == "undefined"
  {
    match v
    case None => "undefined"
    case Some(s) => s
  }

  /** The topic `doorbell/${channelName}/ring` the viewer subscribes to. */
  function TopicFor(channelName: Option<string>): (topic: string)
    ensures |topic| == |TemplateText(channelName)| + 14
    ensures topic[..9] == "doorbell/" && topic[|topic| - 5..] == "/ring"
  {
    "doorbell/" + TemplateText(channelName) + "/ring"
  }

  /** Distinct channel names give distinct topics: the name can be read
      back from the topic. */
  lemma TopicNameReadBack(channelName: Option<string>)
    ensures var t := TopicFor(channelName); t[9..|t| - 5] == TemplateText(channelName)
  {
    var t := TopicFor(channelName);
    assert t == "doorbell/" + TemplateText(channelName) + "/ring";
  }

  /** An ARN without a `/` makes the viewer subscribe to the literal topic
      `doorbell/undefined/ring`; derivation does not fail. */
  lemma TopicOfArnWithoutSeparator(arn: string)
    requires Separator !in arn
    ensures TopicFor(ChannelName(arn)) == "doorbell/undefined/ring"
  {
  }

  /** `document.getElementById('sessionToken').value || null`. */
  function SessionTokenOf(field: string): (token: Option<string>)
    ensures token.None? <==> field == ""
    ensures token.Some? ==> token.value == field
  {
    if field == "" then None else Some(field)
  }

  /** `CONFIG.AWS_SESSION_TOKEN || ''`: the text `loadConfig` puts back into
      the session-token field. */
  function TokenFieldText(token: Option<string>): (text: string)
    ensures text == "" <==> token.None? || token == Some("")
    ensures token.Some? ==> text == token.value
  {
    match token
    case None => ""
    case Some(s) => s
  }

  /** Saving a field and loading it back restores the field, and a stored
      token that saving can produce survives a load and a new save. */
  lemma TokenRoundTrip(field: string, token: Option<string>)
    ensures TokenFieldText(SessionTokenOf(field)) == field
    ensures token != Some("") ==> SessionTokenOf(TokenFieldText(token)) == token
  {
  }

  /** The values of the configuration form. */
  datatype Form = Form(
    region: string,
    iotEndpoint: string,
    channelArn: string,
    accessKeyId: string,
    secretAccessKey: string,
    sessionToken: string)

  /** The page's `CONFIG` object. */
  datatype Config = Config(
    region: string,
    iotEndpoint: string,
    topic: string,
    channelArn: string,
    accessKeyId: string,
    secretAccessKey: string,
    sessionToken: Option<string>)

  /** The `CONFIG` object `saveConfigAndConnect` builds from the form. */
  function DeriveConfig(form: Form): (config: Config)
    ensures config.channelArn == form.channelArn && config.region == form.region
    ensures config.iotEndpoint == form.iotEndpoint
    ensures config.accessKeyId == form.accessKeyId && config.secretAccessKey == form.secretAccessKey
    ensures config.topic == TopicFor(ChannelName(form.channelArn))
    ensures config.sessionToken.None? <==> form.sessionToken == ""
    ensures TokenFieldText(config.sessionToken) == form.sessionToken
  {
    Config(
      form.region,
      form.iotEndpoint,
      TopicFor(ChannelName(form.channelArn)),
      form.channelArn,
      form.accessKeyId,
      form.secretAccessKey,
      SessionTokenOf(form.sessionToken))
  }

  /** For an ARN `<prefix>/<name>...` the saved topic is `doorbell/<name>/ring`. */
  lemma DeriveConfigTopic(form: Form, prefix: string, name: string, rest: string)
    requires Separator !in prefix && Separator !in name
    requires rest == [] || rest[0] == Separator
    requires form.channelArn == prefix + [Separator] + name + rest
    ensures DeriveConfig(form).topic == "doorbell/" + name + "/ring"
  {
    ChannelNameOfArn(prefix, name, rest);
  }

  /** The credentials every SDK client of a page is built with. */
  function CredentialsOf(config: Config): (credentials: Credentials)
    ensures credentials.accessKeyId == config.accessKeyId
    ensures credentials.secretAccessKey == config.secretAccessKey
    ensures credentials.sessionToken == config.sessionToken
  {
    Credentials(config.accessKeyId, config.secretAccessKey, config.sessionToken)
  }

  /** The options `connectMQTT` passes to `awsIot.device`; the pages differ
      only in `debug`. */
  function DeviceOptions(config: Config, clientId: string, debug: bool): (options: MqttClient)
    ensures options.region == config.region && options.host == config.iotEndpoint
    ensures options.accessKeyId == config.accessKeyId && options.secretKey == config.secretAccessKey
    ensures options.clientId == clientId && options.debug == debug
    ensures options.protocol == "wss" && options.maximumReconnectTimeMs == 8000
  {
    MqttClient(config.region, config.iotEndpoint, clientId, "wss", 8000, debug,
               config.accessKeyId, config.secretAccessKey)
  }
}
