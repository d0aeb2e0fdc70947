# Doorbell with a WebRTC viewer: a Dafny model

This project models the core of a video doorbell built on Amazon Kinesis
Video Streams WebRTC and AWS IoT MQTT. It covers three programs.

- **The doorbell master** (`master/doorbell-master.py`) reads its settings
  from the environment. When the button is pressed it publishes a ring
  message on `doorbell/<channel>/ring`. A poll loop watches a command file
  and unlocks the door when it finds an `OPEN_DOOR` command.
- **The "working" viewer page** (`viewer/working-viewer.js`) subscribes to
  the ring topic and shows a notification. On pickup it describes the
  signaling channel, resolves its endpoints, fetches the ICE configuration
  and opens a WebRTC call as a viewer.
- **The viewer page with a command channel** (`viewer/viewer.js`) does the
  same, with these differences:
  - it joins the configured ARN directly, without describing the channel;
  - it builds the ICE list from the remote configuration only;
  - it creates a `commands` data channel over which `openDoor` sends
    `{"command":"OPEN_DOOR"}`;
  - `closeCall` closes the peer connection before the signaling client;
  - its MQTT `message` handler has no `try`;
  - `connectMQTT` returns early when the IoT SDK is not loaded;
  - the MQTT device is created with `debug: true`.

## How the model is built

- `common.dfy` (`Common`) holds the shared values:
  - an `Option` type, which stands for JavaScript's `undefined`/`null` and
    Python's `None`;
  - a JSON value type;
  - the SDK objects a page holds (signaling client, peer connection, data
    channel, MQTT device);
  - `SdkCall`, the calls a page makes into those SDKs.
- `page_config.dfy` (`PageConfig`) covers how a page derives its
  configuration from the form:
  - the channel name is segment 1 of the ARN split on `/`, and `None` stands
    for `undefined`;
  - the topic is a template literal, so an `undefined` name is written as
    the text `undefined`;
  - an empty session token becomes `null`, and `loadConfig` turns it back
    into an empty field.
- `ring_event.dfy` (`RingEvent`) decides what the MQTT `message` handler
  does with a payload, including the failures of `JSON.parse` and of
  reading `.event` on `null`.
- `signaling_setup.dfy` (`SignalingSetup`) shapes the service responses:
  - `reduce` builds the protocol-to-endpoint map, and the last entry wins;
  - the working page builds its ICE list with a loop: the fallback STUN
    server first, then the remote servers;
  - `viewer.js` builds its ICE list with `map`.
- `working_viewer.dfy` and `viewer.dfy` model each page as a class.
  - Its fields are the page's module-level globals. The calls the page makes
    are recorded in order in the field `calls`.
  - Each event handler is a method whose contract gives the exact new state.
  - The SDKs are outside the model, so every SDK response is a parameter
    to the handler. A `Call` value is a response that either rejects or
    resolves.
  - An `Engine` value states whether the foreign constructors accept their
    configuration. `KVSWebRTC.SignalingClient` and `RTCPeerConnection` are
    such constructors.
  - A handler's `Outcome` says whether it completed, threw and was caught
    and logged inside the page, or let an exception escape.
  - The multi-step async functions `startViewer` and `joinChannel` are
    specified by the two-state predicates `StartedViewer` and
    `JoinedChannel`. Each names the new slots and the exact request trace
    for every way the function can end.
- `doorbell_master.dfy` (`DoorbellMaster`) models the master:
  - its settings and startup check;
  - the ring message;
  - one iteration of the command poll as a function;
  - the poll loop over a finite run of observations of the command file, as
    a method proved against that function.
  - Lemmas connect the master to the viewers: the master's ring is
    recognised by the viewers, the command object the viewer sends passes
    the master's `OPEN_DOOR` test, and a viewer subscribes to exactly the
    topic the master publishes on when the channel names agree.

Behaviour of the code worth knowing:

- A channel ARN without a `/` is not rejected. The viewer subscribes to
  `doorbell/undefined/ring` (`PageConfig.TopicOfArnWithoutSeparator`).
- `viewer.js` has no fallback STUN server. Its ICE list is exactly the
  remote list, which may be empty.
- If `IceServerList` is absent, the map throws after the signaling client
  has been assigned. The new signaling client stays assigned, and the peer
  connection global keeps whatever it held before, which may be the
  previous call's connection (`ViewerPage.Viewer.JoinedChannel`).
- Remote ICE candidates are handed to the peer connection at once, with no
  buffering. SDP answers are applied every time they arrive.
- `openDoor` on a data channel that is not open sends nothing and raises no
  error. After `closeCall` the data channel is closed, so unlocking after
  hanging up sends nothing.
- The `viewer.js` MQTT `message` handler has no `try`. A malformed payload
  escapes the handler.
- A new pickup overwrites the page's slots without closing the previous
  call.
- Nothing is retried with a bound: the MQTT SDK reconnects by itself, and
  the master polls forever.

## Model

| member | source | states |
|---|---|---|
| PageConfig.Split | viewer/working-viewer.js:14 | `split` yields at least one part, no part contains the separator, and there is one part exactly when the separator does not occur |
| PageConfig.JoinSplit | viewer/working-viewer.js:14 | joining the parts of a split with the separator gives back the original string |
| PageConfig.SplitJoin | viewer/working-viewer.js:14 | splitting a join of separator-free parts gives back the parts |
| PageConfig.ChannelName | viewer/working-viewer.js:14 | the channel name is `undefined` exactly when the ARN has no `/`; a defined name contains no `/` |
| PageConfig.ChannelNameOfArn | viewer/viewer.js:19 | for an ARN `<prefix>/<name>` followed by nothing or by `/...`, the channel name is `<name>` |
| PageConfig.TopicFor | viewer/working-viewer.js:19 | the topic starts with `doorbell/`, ends with `/ring`, and is 14 characters longer than the name's text |
| PageConfig.TemplateText | viewer/working-viewer.js:19 | the text `${channelName}` renders: the name itself, or `undefined` when there is none |
| PageConfig.TopicNameReadBack | viewer/viewer.js:24 | the name's text can be read back from the topic, so distinct names give distinct topics |
| PageConfig.TopicOfArnWithoutSeparator | viewer/working-viewer.js:14-19 | an ARN without `/` gives the topic `doorbell/undefined/ring` instead of failing |
| PageConfig.SessionTokenOf | viewer/working-viewer.js:23 | an empty session-token field becomes `null`; any other field is kept as it is |
| PageConfig.TokenRoundTrip | viewer/viewer.js:51 | a saved field that `loadConfig` puts back is the original field; a token other than `""` survives a load and a save |
| PageConfig.TokenFieldText | viewer/viewer.js:51 | the text `loadConfig` puts back into the session-token field: empty exactly for a `null` or empty token, otherwise the token itself |
| PageConfig.DeriveConfig | viewer/working-viewer.js:16-24 | `CONFIG` keeps the form's region, IoT endpoint, ARN and both keys; its topic is the one built from the ARN's channel name; its token is `null` exactly when the field is empty, with the field restorable from it |
| PageConfig.DeriveConfigTopic | viewer/viewer.js:21-29 | for an ARN `<prefix>/<name>...` the saved topic is `doorbell/<name>/ring` |
| PageConfig.CredentialsOf | viewer/working-viewer.js:140-144 | the `credentials` object every SDK client gets: the configured access key, secret key and session token |
| PageConfig.DeviceOptions | viewer/working-viewer.js:51-60 | the `awsIot.device` options: configured region, IoT endpoint as host and both keys, the given client id and `debug` flag, protocol `wss`, reconnect limit 8000 ms |
| RingEvent.PropertyOf | viewer/working-viewer.js:80 | reading `.event` throws exactly on `null`, and yields a value exactly on an object that has the key |
| RingEvent.DispatchOf | viewer/working-viewer.js:72-86 | a ring is dispatched exactly for a parsed object whose `event` is the string `ring`; a parse failure and a `null` payload are the two failure cases |
| SignalingSetup.LastEndpointForMeaning | viewer/working-viewer.js:170-173 | a protocol has an endpoint exactly when some entry carries it, and the endpoint is that of the last such entry |
| SignalingSetup.EndpointsByProtocol | viewer/viewer.js:161-164 | the map the `reduce` builds gives, for every protocol, the endpoint of the last entry with that protocol, or none |
| SignalingSetup.EndpointMapMeaning | viewer/working-viewer.js:170-173 | the map's keys are exactly the protocols in the list, and each maps to the endpoint of its last entry |
| SignalingSetup.Lookup | viewer/working-viewer.js:213 | `endpointsByProtocol.WSS`: an endpoint exactly when the protocol is a key of the map, and then the mapped endpoint |
| SignalingSetup.MapIceServers | viewer/viewer.js:223-229 | one ICE server per remote entry, in order, with `Uris`, `Username` and `Password` carried over |
| SignalingSetup.ToIceServer | viewer/viewer.js:224-228 | one remote entry as an ICE server: its `Uris` as the URL list, `Username` as username and `Password` as credential |
| SignalingSetup.FallbackStunUrl | viewer/working-viewer.js:197 | the URL `stun:stun.kinesisvideo.<region>.amazonaws.com:443`, with the region readable back from it |
| SignalingSetup.FallbackIceServer | viewer/working-viewer.js:197 | the fallback entry: only the region's STUN URL, with no username and no credential |
| SignalingSetup.BuildIceServers | viewer/working-viewer.js:196-206 | the region's STUN server is always first; without `IceServerList` it is the only entry, otherwise the remote servers follow in order |
| WorkingViewerPage.WorkingViewer.constructor | viewer/working-viewer.js:34-45 | a loaded page holds the saved `CONFIG` and no client, call, notification or trace |
| WorkingViewerPage.WorkingViewer.SaveConfigAndConnect | viewer/working-viewer.js:12-32 | stores the derived `CONFIG`, then creates the MQTT device with `debug: false`, or keeps the old client if creation fails |
| WorkingViewerPage.WorkingViewer.ConnectMqtt | viewer/working-viewer.js:47-104 | the device is created with region, endpoint, `wss`, an 8000 ms reconnect limit and the keys; any failure leaves `mqttClient` unchanged |
| WorkingViewerPage.WorkingViewer.OnMqttConnect | viewer/working-viewer.js:64-70 | on connect the page subscribes to `CONFIG.TOPIC` and to nothing else |
| WorkingViewerPage.WorkingViewer.OnMqttMessage | viewer/working-viewer.js:72-86 | a ring shows the notification and arms pickup; other messages change nothing; failures are caught, never thrown |
| WorkingViewerPage.WorkingViewer.StartViewer | viewer/working-viewer.js:118-314 | describe, then endpoint, then ICE requests, each failure caught at its stage; on success the signaling client uses the last `WSS` endpoint, the peer gets the fallback plus the remote ICE servers, and the signaling client is opened |
| WorkingViewerPage.WorkingViewer.Pickup | viewer/working-viewer.js:106-115 | before a ring, pickup does nothing; after one it hides the notification and starts the viewer |
| WorkingViewerPage.WorkingViewer.OnSignalingOpen | viewer/working-viewer.js:263-274 | the offer is committed as the local description, then that local description is sent; with no peer connection or signaling client it throws and sends nothing |
| WorkingViewerPage.WorkingViewer.OnSdpAnswer | viewer/working-viewer.js:276-279 | the answer becomes the remote description; with no peer connection it throws |
| WorkingViewerPage.WorkingViewer.OnRemoteIceCandidate | viewer/working-viewer.js:281-284 | each remote candidate is added to the peer connection at once |
| WorkingViewerPage.WorkingViewer.OnLocalIceCandidate | viewer/working-viewer.js:299-304 | a local candidate is sent to signaling; the end-of-candidates event sends nothing |
| WorkingViewerPage.WorkingViewer.CloseCall | viewer/working-viewer.js:316-328 | closes the signaling client, then the peer connection, each only if set, and clears both |
| WorkingViewerPage.CloseCallTwice | viewer/working-viewer.js:316-328 | closing twice has the effect of closing once; only the trace and the two slots may change |
| WorkingViewerPage.PickUpWithEmptyIceList | viewer/working-viewer.js:111-114 | after a ring, a pickup whose requests all succeed with an empty `IceServerList` makes the describe, endpoint, ICE and open requests in that order, and the peer gets exactly the fallback STUN server |
| WorkingViewerPage.SaveRingAndPickup | viewer/working-viewer.js:12-115 | save the form, connect MQTT, receive a ring, pick up: the first request is the subscription to the topic derived from the form's ARN, then the call's requests follow |
| WorkingViewerPage.RingToHangUp | viewer/working-viewer.js:12-328 | save, connect, ring, pickup with an empty remote ICE list, open, answer, candidate, hang-up: the peer has exactly the fallback STUN server, and the exact request trace is fixed, from the subscription through offer-after-open to the closes |
| ViewerPage.Viewer.constructor | viewer/viewer.js:42-53 | a loaded page holds the saved `CONFIG` and no client, call, data channel, notification or trace |
| ViewerPage.Viewer.SaveConfigAndConnect | viewer/viewer.js:17-40 | stores the derived `CONFIG`, then creates the MQTT device with `debug: true`, or keeps the old client if creation fails |
| ViewerPage.Viewer.ConnectMqtt | viewer/viewer.js:61-90 | returns without creating a device when the IoT SDK is not loaded, and likewise when creation throws; otherwise creates it with the configured options |
| ViewerPage.Viewer.OnMqttConnect | viewer/viewer.js:92-98 | on connect the page subscribes to `CONFIG.TOPIC` and to nothing else |
| ViewerPage.Viewer.OnMqttMessage | viewer/viewer.js:100-108 | a ring shows the notification and arms pickup; other messages change nothing; a malformed payload escapes the handler |
| ViewerPage.Viewer.JoinChannel | viewer/viewer.js:131-295 | endpoint, then ICE requests for the given ARN; the signaling client is set before the ICE list is read; on success the peer has exactly the mapped remote ICE servers, a `commands` data channel exists, and the signaling client is opened |
| ViewerPage.Viewer.Pickup | viewer/viewer.js:121-129 | after a ring, pickup hides the notification and joins `CONFIG.CHANNEL_ARN`, and throws when there is no `CONFIG`; before a ring it does nothing |
| ViewerPage.Viewer.OnSignalingOpen | viewer/viewer.js:239-251 | the offer is committed as the local description, then that local description is sent; with no peer connection or signaling client it throws and sends nothing |
| ViewerPage.Viewer.OnSdpAnswer | viewer/viewer.js:262-265 | the answer becomes the remote description; with no peer connection it throws |
| ViewerPage.Viewer.OnRemoteIceCandidate | viewer/viewer.js:267-270 | each remote candidate is added to the peer connection at once |
| ViewerPage.Viewer.OnLocalIceCandidate | viewer/viewer.js:278-283 | a local candidate is sent to signaling; the end-of-candidates event sends nothing |
| ViewerPage.Viewer.DataChannelStateChanged | viewer/viewer.js:234-235 | the data channel, if any, takes the new ready state |
| ViewerPage.Viewer.OpenDoor | viewer/viewer.js:310-317 | the unlock command is sent, once, exactly when a data channel exists and is open |
| ViewerPage.Viewer.CloseCall | viewer/viewer.js:297-308 | closes the peer connection, then the signaling client, each only if set, and clears both; closing the peer connection closes its data channel, whose global stays set |
| ViewerPage.CloseCallTwice | viewer/viewer.js:297-308 | closing twice has the effect of closing once, including on the data channel; only the trace, the two slots and the data channel may change |
| ViewerPage.SaveRingAndPickup | viewer/viewer.js:17-129 | save the form, connect MQTT, receive a ring naming any channel, pick up: after the subscription to the topic derived from the form's ARN, the page joins the form's ARN and its data channel is connecting |
| ViewerPage.RingToUnlock | viewer/viewer.js:17-317 | save, connect, ring, pickup, open, data channel open, unlock, hang-up, unlock again: exactly one unlock command is sent, none after hanging up, and the exact request trace is fixed, from the subscription to the closes |
| ViewerPage.UnlockTooEarly | viewer/viewer.js:310-317 | after save, connect, ring and pickup, unlocking before the data channel opens sends nothing |
| DoorbellMaster.SettingsOf | master/doorbell-master.py:11-20 | the endpoint is present exactly when set, with the variable's value; channel name, region and client id take a set variable's value, even an empty one, and otherwise `doorbell-channel`, `us-east-1` and `doorbell-master`; the topic is the one a viewer builds from the channel name |
| DoorbellMaster.Getenv | master/doorbell-master.py:15-19 | `os.getenv(key, default)`: a set variable's value, even an empty one, else the default |
| DoorbellMaster.RingTopic | master/doorbell-master.py:20 | the master's `TOPIC` is exactly the topic a viewer builds from the same channel name |
| DoorbellMaster.ViewerListensOnMasterTopic | master/doorbell-master.py:20 | a viewer's topic string equals the master's topic string exactly when the viewer's channel-name text equals `CHANNEL_NAME` |
| DoorbellMaster.MainStartup | master/doorbell-master.py:66-69 | `main` stops exactly when `IOT_ENDPOINT` is unset or empty, and otherwise connects to it |
| DoorbellMaster.TruncateToInt | master/doorbell-master.py:56 | `int()` on a float truncates toward zero |
| DoorbellMaster.SendDoorbellRing | master/doorbell-master.py:51-63 | publishes at least once on `TOPIC` an object with exactly `event: "ring"`, the channel name and the whole-second timestamp |
| DoorbellMaster.RingIsRecognisedByViewer | master/doorbell-master.py:53-57 | every ring the master publishes is dispatched as a ring by the viewers |
| DoorbellMaster.ViewerCommandUnlocks | master/doorbell-master.py:33 | the command object the viewer sends passes the master's `OPEN_DOOR` test |
| DoorbellMaster.IsOpenDoor | master/doorbell-master.py:33 | holds exactly for an object whose `command` key holds the string `OPEN_DOOR`; other keys are allowed |
| DoorbellMaster.Poll | master/doorbell-master.py:27-38 | `last_mtime` never decreases and advances only when a newer file is read and parsed to an object; the door unlocks exactly then, when the object's command is `OPEN_DOOR` |
| DoorbellMaster.StaleVersionIgnored | master/doorbell-master.py:30 | a file no newer than `last_mtime` changes nothing, whatever it contains |
| DoorbellMaster.HandledAtMostOnce | master/doorbell-master.py:30-35 | in a run of polls, once a version with modification time `m` has been handled, no later poll handles a file with modification time at most `m` |
| DoorbellMaster.RetriedAfterFailure | master/doorbell-master.py:31-37 | a failed read leaves `last_mtime` unchanged, so a later successful read of the same version is handled |
| DoorbellMaster.LastMtimeMonotone | master/doorbell-master.py:25-35 | over a run of polls, `last_mtime` starts at 0 and never decreases |
| DoorbellMaster.UnlockingPolls | master/doorbell-master.py:26-35 | every unlocking poll is a poll of the run |
| DoorbellMaster.UnlockingPollsMeaning | master/doorbell-master.py:26-35 | poll `k` unlocks exactly when, from the `last_mtime` the earlier polls left, it finds a newer `OPEN_DOOR` object |
| DoorbellMaster.MonitorCommands | master/doorbell-master.py:23-38 | the loop's final `last_mtime` and unlocks are those of the poll function; every unlock read an `OPEN_DOOR` object, and unlocks come from strictly newer versions of the file |

## Left out

- `viewer/aws-iot-wrapper.js` is not part of this model.
- The SigV4 signing inside `getSignedURL` is a foreign call into `KVSWebRTC.SigV4RequestSigner` and is not modelled. Neither are the clients `KinesisVideoClient` and `KinesisVideoSignalingClient`; only the requests made through them are recorded, and their responses are parameters.
- The `ChannelInfo.ChannelARN` path of the `DescribeSignalingChannel` response is reduced to one value that either arrives or is missing (a rejected call).
- WebRTC engine internals are left out. Offer creation is modelled by passing in the offer it yields. The `track` and `connectionstatechange` listeners only touch the DOM or log. The engine's own changes of the data channel's `readyState` are modelled by `DataChannelStateChanged`, which does not stop a closed channel from reopening. The closing of the data channel by `RTCPeerConnection.close()` follows the W3C WebRTC 1.0 specification, not these files.
- Nothing in the modelled code carries the viewer's data-channel message into the master's command file (`/tmp/doorbell_commands.json`). That transport is not part of this model. `DoorbellMaster.ViewerCommandUnlocks` relates only the two JSON values.
- The MQTT `error`, `offline`, `reconnect` and `close` handlers only log or set status text. The SDK's own reconnect is not modelled.
- DOM updates, status text, `log`, `console`, `window.onerror` and the `localStorage` write are left out. `loadConfig` is modelled as the saved `CONFIG` passed to the constructor.
- Random client ids (`Math.random`, `Date.now`) and `time.time()` are parameters.
- The master's I/O is left out: `print`, `input`, `time.sleep`, the thread, the `mtls_from_path` connection, the MQTT publish transport, and `start_kvs_master`, which launches an external process.
- `DoorbellMaster.MonitorCommands`: the `while True` loop is modelled over a finite run of observations of the file. What each iteration sees is an `Observation`.
- Await points inside a handler are modelled as one atomic step. The order of the SDK calls is kept, but another event cannot interleave between them.
- JSON text is modelled as parsed values. `JSON.parse` and `json.load` are given as their results. `OpenDoorMessage` is the serialised text of `OpenDoorCommand`, but this is stated and not derived. Numbers are integers only.
- `openDoor` in `viewer/working-viewer.js` only logs, and is not modelled.
- MQTT topic-filter matching is reduced to string equality. A channel name containing the wildcards `+` or `#` (for example from an ARN `x/+/y`) makes the viewer's subscription a filter that matches other masters' topics, and a master whose `CHANNEL_NAME` contains them publishes to an invalid topic; `DoorbellMaster.ViewerListensOnMasterTopic` compares topic strings only.
- JavaScript object-key quirks of the `reduce` accumulator (for example a protocol named `__proto__`) are not modelled.
