/**
 The doorbell master: its settings read from the environment, the ring
 message it publishes on a button press, the check `main` makes before
 connecting, and the poll loop that watches the command file and unlocks
 the door on an `OPEN_DOOR` command.
 */
module DoorbellMaster {
  import opened Common
  import PageConfig
  import RingEvent
  import ViewerPage

  const DefaultChannelName: string := "doorbell-channel"
  const DefaultRegion: string := "us-east-1"
  const DefaultClientId: string := "doorbell-master"

  /** `os.getenv(key, default)`: a variable that is set, even to the empty
      string, wins over the default. */
  function Getenv(env: map<string, string>, key: string, default: string): (value: string)
    ensures key in env ==> value == env[key]
    ensures key !in env ==> value == default
  {
    if key in env then env[key] else default
  }

  /** The topic `f"doorbell/{CHANNEL_NAME}/ring"`. */
  function RingTopic(channelName: string): (topic: string)
    ensures topic == PageConfig.TopicFor(Some(channelName))
  {
    "doorbell/" + channelName + "/ring"
  }

  /** The module-level settings of the master. */
  datatype Settings = Settings(
    iotEndpoint: Option<string>,
    channelName: string,
    region: string,
    clientId: string,
    topic: string)

  function SettingsOf(env: map<string, string>): (s: Settings)
    ensures s.iotEndpoint.Some? <==> "IOT_ENDPOINT" in env
    ensures s.iotEndpoint.Some? ==> s.iotEndpoint.value == env["IOT_ENDPOINT"]
    ensures "KVS_CHANNEL_NAME" in env ==> s.channelName == env["KVS_CHANNEL_NAME"]
    ensures s.region == if "AWS_REGION" in env then env["AWS_REGION"] else DefaultRegion
    ensures s.clientId == if "CLIENT_ID" in env then env["CLIENT_ID"] else DefaultClientId
    ensures "KVS_CHANNEL_NAME" !in env ==> s.channelName == DefaultChannelName
    ensures s.topic == PageConfig.TopicFor(Some(s.channelName))
  {
    var channelName := Getenv(env, "KVS_CHANNEL_NAME", DefaultChannelName);
    Settings(
      if "IOT_ENDPOINT" in env then Some(env["IOT_ENDPOINT"]) else None,
      channelName,
      Getenv(env, "AWS_REGION", DefaultRegion),
      Getenv(env, "CLIENT_ID", DefaultClientId),
      RingTopic(channelName))
  }

  /** A viewer configured with an ARN whose channel name is `<name>`
      subscribes to exactly the topic the master publishes on when `<name>`
      is the master's `CHANNEL_NAME`, and to a different topic string
      otherwise; a viewer whose ARN has no `/` subscribes to
      `doorbell/undefined/ring`, which only a master named `undefined` uses.
      This compares topic strings: MQTT wildcard matching is not modelled. */
  lemma ViewerListensOnMasterTopic(arn: string, channelName: string)
    ensures PageConfig.TopicFor(PageConfig.ChannelName(arn)) == RingTopic(channelName)
            <==> PageConfig.TemplateText(PageConfig.ChannelName(arn)) == channelName
  {
    var name := PageConfig.ChannelName(arn);
    PageConfig.TopicNameReadBack(name);
    PageConfig.TopicNameReadBack(Some(channelName));
  }

  /** What `main` does before anything else: without a non-empty
      `IOT_ENDPOINT` it returns; otherwise it goes on to connect to it. */
  datatype Startup = MissingEndpoint | Connect(endpoint: string)

  function MainStartup(env: map<string, string>): (s: Startup)
    ensures s.MissingEndpoint? <==> "IOT_ENDPOINT" !in env || env["IOT_ENDPOINT"] == ""
    ensures s.Connect? ==> s.endpoint == env["IOT_ENDPOINT"]
  {
    match SettingsOf(env).iotEndpoint
    case None => MissingEndpoint
    case Some(endpoint) => if endpoint == "" then MissingEndpoint else Connect(endpoint)
  }

  /** Python's `int(x)` on a float: truncation toward zero. */
  function TruncateToInt(x: real): (n: int)
    ensures x >= 0.0 ==> n as real <= x < n as real + 1.0
    ensures x < 0.0 ==> n as real - 1.0 < x <= n as real
  {
    if x >= 0.0 then x.Floor else -((-x).Floor)
  }

  datatype Qos = AtMostOnce | AtLeastOnce | ExactlyOnce

  /** A `client.publish` call: topic, JSON payload and quality of service. */
  datatype Publish = Publish(topic: string, payload: Json, qos: Qos)

  /** `send_doorbell_ring`: the message `{"event": "ring", "channel":
      CHANNEL_NAME, "timestamp": int(time.time())}` published at least once
      on `TOPIC`; `now` is the value of `time.time()`. */
  function SendDoorbellRing(settings: Settings, now: real): (p: Publish)
    ensures p.topic == settings.topic && p.qos == AtLeastOnce
    ensures p.payload.JObject? && p.payload.fields.Keys == {"event", "channel", "timestamp"}
    ensures p.payload.fields["event"] == JString("ring")
    ensures p.payload.fields["channel"] == JString(settings.channelName)
    ensures p.payload.fields["timestamp"].JNumber?
    ensures now >= 0.0 ==> var t := p.payload.fields["timestamp"].n; t as real <= now < t as real + 1.0
  {
    var message := map["event" := JString("ring"),
                        "channel" := JString(settings.channelName),
                        "timestamp" := JNumber(TruncateToInt(now))];
    Publish(settings.topic, JObject(message), AtLeastOnce)
  }

  /** Every ring the master publishes is one the viewers' `message` handler
      recognises as a ring. */
  lemma RingIsRecognisedByViewer(settings: Settings, now: real)
    ensures RingEvent.DispatchOf(Some(SendDoorbellRing(settings, now).payload)).Ring?
  {
  }

  /** `data.get('command') == 'OPEN_DOOR'` on the parsed command file. */
  predicate IsOpenDoor(data: Json): (b: bool)
    ensures b ==> data.JObject? && "command" in data.fields && data.fields["command"].JString?
    ensures b ==> data.fields["command"].s == "OPEN_DOOR"
    ensures data.JObject? && "command" in data.fields && data.fields["command"] == JString("OPEN_DOOR") ==> b
  {
    data.JObject? && "command" in data.fields && data.fields["command"] == JString("OPEN_DOOR")
  }

  /** The command the viewer sends over its data channel is the one the
      master acts on. */
  lemma ViewerCommandUnlocks()
    ensures IsOpenDoor(ViewerPage.OpenDoorCommand)
  {
  }

  /** The outcome of `open` and `json.load` on the command file. */
  datatype ReadResult = ReadFailed | Loaded(data: Json)

  /** What one iteration of the poll loop observes of the command file:
      it does not exist, `os.path.getmtime` raised, or it exists with a
      modification time and readable (or unreadable) contents. */
  datatype Observation = Absent | StatFailed | Present(mtime: real, content: ReadResult)

  /** The state after one poll: the new `last_mtime` and whether the door
      was unlocked. */
  datatype PollResult = PollResult(lastMtime: real, unlocked: bool)

  /** A poll that reaches `last_mtime = mtime`: the file is newer than the
      last version handled, it was read and parsed, and it parsed to an
      object (on any other value `data.get` raises AttributeError). */
  predicate Handles(lastMtime: real, observation: Observation)
  {
    observation.Present? && observation.mtime > lastMtime &&
    observation.content.Loaded? && observation.content.data.JObject?
  }

  /** One iteration of the `while True` loop of `monitor_commands`; every
      exception is swallowed by the bare `except`. */
  function Poll(lastMtime: real, observation: Observation): (r: PollResult)
    ensures r.lastMtime >= lastMtime
    ensures r.lastMtime == if Handles(lastMtime, observation) then observation.mtime else lastMtime
    ensures r.unlocked <==> Handles(lastMtime, observation) && IsOpenDoor(observation.content.data)
  {
    match observation
    case Absent => PollResult(lastMtime, false)
    case StatFailed => PollResult(lastMtime, false)
    case Present(mtime, content) =>
      if !(mtime > lastMtime) then PollResult(lastMtime, false)
      else
        match content
        case ReadFailed => PollResult(lastMtime, false)
        case Loaded(data) =>
          match data
          case JObject(fields) =>
            var command := if "command" in fields then Some(fields["command"]) else None;
            PollResult(mtime, command == Some(JString("OPEN_DOOR")))
          case _ => PollResult(lastMtime, false)
  }

  /** A version of the file no newer than `last_mtime` changes nothing,
      whatever it contains. */
  lemma StaleVersionIgnored(lastMtime: real, mtime: real, content: ReadResult)
    requires mtime <= lastMtime
    ensures Poll(lastMtime, Present(mtime, content)) == PollResult(lastMtime, false)
  {
  }

  /** A version of the file, once handled, is not handled again: in a run
      of polls, a poll after the one that handled modification time `m`
      ignores any file whose modification time is at most `m`. */
  lemma {:induction false} HandledAtMostOnce(polls: seq<Observation>, i: nat, j: nat)
    requires i < j < |polls|
    requires Handles(LastMtimeAfter(polls[..i]), polls[i])
    requires polls[j].Present? && polls[j].mtime <= polls[i].mtime
    ensures Poll(LastMtimeAfter(polls[..j]), polls[j]) == PollResult(LastMtimeAfter(polls[..j]), false)
  {
    assert polls[..i + 1][..i] == polls[..i];
    assert LastMtimeAfter(polls[..i + 1]) == polls[i].mtime;
    LastMtimeMonotone(polls, i + 1, j);
    StaleVersionIgnored(LastMtimeAfter(polls[..j]), polls[j].mtime, polls[j].content);
  }

  /** A file that could not be read or parsed leaves `last_mtime` as it was,
      so the same version is handled by a later poll that can read it. */
  lemma RetriedAfterFailure(lastMtime: real, mtime: real, data: Json)
    requires mtime > lastMtime && data.JObject?
    ensures Poll(lastMtime, Present(mtime, ReadFailed)).lastMtime == lastMtime
    ensures Poll(lastMtime, Present(mtime, Loaded(data))).lastMtime == mtime
  {
  }

  /** `last_mtime` after a sequence of polls, starting from `0`. */
  function LastMtimeAfter(polls: seq<Observation>): real
  {
    if polls == [] then 0.0 else Poll(LastMtimeAfter(polls[..|polls| - 1]), polls[|polls| - 1]).lastMtime
  }

  /** `last_mtime` never decreases and never drops below its start value. */
  lemma {:induction false} LastMtimeMonotone(polls: seq<Observation>, i: nat, j: nat)
    requires i <= j <= |polls|
    ensures 0.0 <= LastMtimeAfter(polls[..i]) <= LastMtimeAfter(polls[..j])
  {
    if i < j {
      LastMtimeMonotone(polls, i, j - 1);
      assert polls[..j][..j - 1] == polls[..j - 1];
    } else if i > 0 {
      LastMtimeMonotone(polls, i - 1, i);
    }
  }

  /** The indices of the polls, among `polls`, that unlock the door. */
  function UnlockingPolls(polls: seq<Observation>): (unlocks: seq<nat>)
    ensures forall a :: 0 <= a < |unlocks| ==> unlocks[a] < |polls|
  {
    if polls == [] then []
    else
      var n := |polls| - 1;
      UnlockingPolls(polls[..n]) + (if Poll(LastMtimeAfter(polls[..n]), polls[n]).unlocked then [n] else [])
  }

  /** Poll `k` unlocks the door exactly when it finds an `OPEN_DOOR` object
      in a file newer than the `last_mtime` the earlier polls left. */
  lemma {:induction false} UnlockingPollsMeaning(polls: seq<Observation>, k: nat)
    ensures k in UnlockingPolls(polls) <==> k < |polls| && Poll(LastMtimeAfter(polls[..k]), polls[k]).unlocked
  {
    if polls != [] {
      var n := |polls| - 1;
      var front := polls[..n];
      UnlockingPollsMeaning(front, k);
      if k < n {
        assert front[..k] == polls[..k];
      }
    }
  }

  /** The modification time a poll saw, `0` when it saw none. */
  function MtimeOf(observation: Observation): real
  {
    if observation.Present? then observation.mtime else 0.0
  }

  /** `monitor_commands` over a finite run of polls: returns the final
      `last_mtime` and the indices of the polls that unlocked the door. */
  method MonitorCommands(polls: seq<Observation>) returns (lastMtime: real, unlocks: seq<nat>)
    ensures lastMtime == LastMtimeAfter(polls)
    ensures unlocks == UnlockingPolls(polls)
    ensures forall a :: 0 <= a < |unlocks| ==>
      unlocks[a] < |polls| && polls[unlocks[a]].Present? && polls[unlocks[a]].content.Loaded? &&
      IsOpenDoor(polls[unlocks[a]].content.data)
    ensures forall a, b :: 0 <= a < b < |unlocks| ==>
      unlocks[a] < unlocks[b] && MtimeOf(polls[unlocks[a]]) < MtimeOf(polls[unlocks[b]])
  {
    lastMtime := 0.0;
    unlocks := [];
    var i := 0;
    while i < |polls|
      invariant 0 <= i <= |polls|
      invariant lastMtime == LastMtimeAfter(polls[..i])
      invariant unlocks == UnlockingPolls(polls[..i])
      invariant forall a :: 0 <= a < |unlocks| ==>
        unlocks[a] < i && polls[unlocks[a]].Present? && polls[unlocks[a]].content.Loaded? &&
        IsOpenDoor(polls[unlocks[a]].content.data) && MtimeOf(polls[unlocks[a]]) <= lastMtime
      invariant forall a, b :: 0 <= a < b < |unlocks| ==>
        unlocks[a] < unlocks[b] && MtimeOf(polls[unlocks[a]]) < MtimeOf(polls[unlocks[b]])
    {
      var r := Poll(lastMtime, polls[i]);
      assert polls[..i + 1][..i] == polls[..i];
      if r.unlocked {
        assert MtimeOf(polls[i]) == r.lastMtime > lastMtime;
        unlocks := unlocks + [i];
      }
      lastMtime := r.lastMtime;
      i := i + 1;
    }
    assert polls[..i] == polls;
  }
}
