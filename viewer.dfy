/**
 The viewer page with the command channel: its globals `signalingClient`,
 `peerConnection`, `dataChannel`, `mqttClient` and `CONFIG`, the ring
 notification, `joinChannel`, the handlers of the call, `openDoor` and
 `closeCall`. SDK responses and the outcome of foreign constructors are
 parameters; the calls the page makes into the SDKs are recorded, in order,
 in `calls`.
 */
module ViewerPage {
  import opened Common
  import opened PageConfig
  import opened RingEvent
  import opened SignalingSetup

  /** The door-unlock command as a JSON value ... */
  const OpenDoorCommand: Json := JObject(map["command" := JString("OPEN_DOOR")])

  /** ... and the text `JSON.stringify` makes of it, which `openDoor` sends. */
  const OpenDoorMessage: string := "{\"command\":\"OPEN_DOOR\"}"

  /** The label of the data channel `joinChannel` creates. */
  const CommandsLabel: string := "commands"

  class Viewer {
    var config: Option<Config>
    var mqttClient: Option<MqttClient>
    var signalingClient: Option<SignalingClient>
    var peerConnection: Option<PeerConnection>
    var dataChannel: Option<DataChannel>
    var notificationShown: bool
    var pickupArmed: bool
    var calls: seq<SdkCall>

    /** Page load: `loadConfig` restores a saved `CONFIG`, if any. */
    constructor (saved: Option<Config>)
      ensures config == saved && mqttClient.None?
      ensures signalingClient.None? && peerConnection.None? && dataChannel.None?
      ensures !notificationShown && !pickupArmed && calls == []
    {
      config := saved;
      mqttClient := None;
      signalingClient := None;
      peerConnection := None;
      dataChannel := None;
      notificationShown := false;
      pickupArmed := false;
      calls := [];
    }

    /** `saveConfigAndConnect`: derive and store `CONFIG`, then connect. */
    method SaveConfigAndConnect(form: Form, sdk: DeviceSdk, clientId: string)
      modifies this`config, this`mqttClient
      ensures config == Some(DeriveConfig(form))
      ensures mqttClient == if sdk.DeviceCreated? then Some(DeviceOptions(DeriveConfig(form), clientId, true))
                            else old(mqttClient)
    {
      config := Some(DeriveConfig(form));
      ConnectMqtt(sdk, clientId);
    }

    /** `connectMQTT`: returns early, before any client is created, when the
        global `awsIot` is undefined; a throwing `awsIot.device` call (or an
        unset `CONFIG`) is caught and also leaves `mqttClient` as it was. */
    method ConnectMqtt(sdk: DeviceSdk, clientId: string)
      modifies this`mqttClient
      ensures sdk.NotLoaded? ==> mqttClient == old(mqttClient)
      ensures mqttClient == if sdk.DeviceCreated? && config.Some? then Some(DeviceOptions(config.value, clientId, true))
                            else old(mqttClient)
    {
      if sdk.NotLoaded? {
        return;
      }
      if sdk.DeviceThrows? || config.None? {
        return;
      }
      mqttClient := Some(DeviceOptions(config.value, clientId, true));
    }

    /** The MQTT `connect` handler subscribes to `CONFIG.TOPIC`. */
    method OnMqttConnect()
      modifies this`calls
      ensures calls == if mqttClient.Some? && config.Some? then old(calls) + [Subscribe(config.value.topic)]
                       else old(calls)
    {
      if mqttClient.Some? && config.Some? {
        calls := calls + [Subscribe(config.value.topic)];
      }
    }

    /** The MQTT `message` handler. A ring message calls
        `showRingNotification(data.channel)`, which shows the notification
        and arms the pickup button but does not keep the channel it is
        given; any other well-formed message does nothing. There is no
        `try` here: a payload that is not JSON, or that parses to `null`,
        makes the handler throw. */
    method OnMqttMessage(payload: Option<Json>) returns (outcome: Outcome)
      modifies this`notificationShown, this`pickupArmed
      ensures DispatchOf(payload).Ring? ==> notificationShown && pickupArmed
      ensures !DispatchOf(payload).Ring? ==>
        notificationShown == old(notificationShown) && pickupArmed == old(pickupArmed)
      ensures outcome.Done? <==> DispatchOf(payload).Ring? || DispatchOf(payload).Ignore?
      ensures outcome != CaughtAndLogged
    {
      match DispatchOf(payload)
      case Ring =>
        notificationShown, pickupArmed := true, true;
        outcome := Done;
      case Ignore =>
        outcome := Done;
      case _ =>
        outcome := Threw;
    }

    /** What `joinChannel(channelArn)` does to the slots and the SDK calls,
        given the responses of `GetSignalingChannelEndpoint` (its
        `ResourceEndpointList`, `None` when absent) and `GetIceServerConfig`
        (its `IceServerList`, `None` when absent). Every failure is caught
        inside `joinChannel`; the signaling client is assigned before the
        ICE configuration is built, so a missing `IceServerList` leaves it
        assigned; the peer connection global keeps what it held before,
        which may be the previous call's connection. */
    twostate predicate JoinedChannel(channelArn: string, endpointList: Call<Option<seq<ResourceEndpoint>>>,
                                     ice: Call<Option<seq<RemoteIceServer>>>, clientId: string, engine: Engine,
                                     outcome: Outcome)
      reads this
    {
      (dataChannel == if outcome == Done then Some(DataChannel(CommandsLabel, Connecting)) else old(dataChannel)) &&
      match old(config)
      case None =>
        outcome == CaughtAndLogged && calls == old(calls) &&
        signalingClient == old(signalingClient) && peerConnection == old(peerConnection)
      case Some(c) =>
        var endpointRequest := [GetSignalingChannelEndpoint(channelArn)];
        if endpointList.Rejected? || endpointList.response.None? then
          outcome == CaughtAndLogged && calls == old(calls) + endpointRequest &&
          signalingClient == old(signalingClient) && peerConnection == old(peerConnection)
        else
          var requests := endpointRequest + [GetIceServerConfig(channelArn)];
          if ice.Rejected? || engine.RejectsSignalingConfig? then
            outcome == CaughtAndLogged && calls == old(calls) + requests &&
            signalingClient == old(signalingClient) && peerConnection == old(peerConnection)
          else
            signalingClient == Some(SignalingClient(channelArn, LastEndpointFor(endpointList.response.value, "WSS"),
                                                    clientId, c.region, CredentialsOf(c))) &&
            if ice.response.None? || engine.RejectsPeerConfig? then
              outcome == CaughtAndLogged && calls == old(calls) + requests &&
              peerConnection == old(peerConnection)
            else
              outcome == Done && calls == old(calls) + requests + [OpenSignaling] &&
              peerConnection == Some(PeerConnection(MapIceServers(ice.response.value), None, None))
    }

    /** `joinChannel`. The slots are overwritten without closing what they
        held before. */
    method JoinChannel(channelArn: string, endpointList: Call<Option<seq<ResourceEndpoint>>>,
                       ice: Call<Option<seq<RemoteIceServer>>>, clientId: string, engine: Engine)
      returns (outcome: Outcome)
      modifies this`calls, this`signalingClient, this`peerConnection, this`dataChannel
      ensures JoinedChannel(channelArn, endpointList, ice, clientId, engine, outcome)
    {
      if config.None? {
        return CaughtAndLogged;
      }
      var c := config.value;
      calls := calls + [GetSignalingChannelEndpoint(channelArn)];
      if endpointList.Rejected? || endpointList.response.None? {
        return CaughtAndLogged;
      }
      var endpointsByProtocol := EndpointsByProtocol(endpointList.response.value);
      calls := calls + [GetIceServerConfig(channelArn)];
      if ice.Rejected? || engine.RejectsSignalingConfig? {
        return CaughtAndLogged;
      }
      signalingClient := Some(SignalingClient(channelArn, Lookup(endpointsByProtocol, "WSS"),
                                              clientId, c.region, CredentialsOf(c)));
      if ice.response.None? || engine.RejectsPeerConfig? {
        return CaughtAndLogged;
      }
      peerConnection := Some(PeerConnection(MapIceServers(ice.response.value), None, None));
      dataChannel := Some(DataChannel(CommandsLabel, Connecting));
      calls := calls + [OpenSignaling];
      outcome := Done;
    }

    /** The pickup button's `onclick`, assigned by `showRingNotification`:
        hide the notification and join `CONFIG.CHANNEL_ARN`, the configured
        channel, whatever channel the ring message named. Before a ring the
        button has no handler. */
    method Pickup(endpointList: Call<Option<seq<ResourceEndpoint>>>, ice: Call<Option<seq<RemoteIceServer>>>,
                  clientId: string, engine: Engine)
      returns (outcome: Outcome)
      modifies this`notificationShown, this`calls, this`signalingClient, this`peerConnection, this`dataChannel
      ensures !old(pickupArmed) ==>
        outcome == Done && notificationShown == old(notificationShown) && calls == old(calls) &&
        signalingClient == old(signalingClient) && peerConnection == old(peerConnection) &&
        dataChannel == old(dataChannel)
      ensures old(pickupArmed) ==> !notificationShown
      ensures old(pickupArmed) && config.None? ==>
        outcome == Threw && calls == old(calls) && signalingClient == old(signalingClient) &&
        peerConnection == old(peerConnection) && dataChannel == old(dataChannel)
      ensures old(pickupArmed) && config.Some? ==>
        JoinedChannel(config.value.channelArn, endpointList, ice, clientId, engine, outcome)
    {
      if !pickupArmed {
        return Done;
      }
      notificationShown := false;
      if config.None? {
        return Threw;
      }
      outcome := JoinChannel(config.value.channelArn, endpointList, ice, clientId, engine);
    }

    /** The signaling `open` handler: commit the offer the engine created as
        the local description, then send the committed local description.
        It reads the globals when it runs, so after `closeCall` it throws. */
    method OnSignalingOpen(offer: Sdp) returns (outcome: Outcome)
      modifies this`peerConnection, this`calls
      ensures old(peerConnection).None? ==>
        outcome == Threw && peerConnection == old(peerConnection) && calls == old(calls)
      ensures old(peerConnection).Some? ==>
        peerConnection == Some(old(peerConnection).value.(localDescription := Some(offer)))
      ensures old(peerConnection).Some? && signalingClient.Some? ==>
        outcome == Done && calls == old(calls) + [SendSdpOffer(peerConnection.value.localDescription.value)]
      ensures signalingClient.None? ==> outcome == Threw && calls == old(calls)
    {
      if peerConnection.None? {
        return Threw;
      }
      peerConnection := Some(peerConnection.value.(localDescription := Some(offer)));
      if signalingClient.None? {
        return Threw;
      }
      calls := calls + [SendSdpOffer(peerConnection.value.localDescription.value)];
      outcome := Done;
    }

    /** The signaling `sdpAnswer` handler applies the answer as the remote
        description. */
    method OnSdpAnswer(answer: Sdp) returns (outcome: Outcome)
      modifies this`peerConnection
      ensures old(peerConnection).None? ==> outcome == Threw && peerConnection.None?
      ensures old(peerConnection).Some? ==>
        outcome == Done && peerConnection == Some(old(peerConnection).value.(remoteDescription := Some(answer)))
    {
      if peerConnection.None? {
        return Threw;
      }
      peerConnection := Some(peerConnection.value.(remoteDescription := Some(answer)));
      outcome := Done;
    }

    /** The signaling `iceCandidate` handler hands each remote candidate to
        the peer connection at once; nothing is buffered. */
    method OnRemoteIceCandidate(candidate: Candidate) returns (outcome: Outcome)
      modifies this`calls
      ensures peerConnection.None? ==> outcome == Threw && calls == old(calls)
      ensures peerConnection.Some? ==> outcome == Done && calls == old(calls) + [AddIceCandidate(candidate)]
    {
      if peerConnection.None? {
        return Threw;
      }
      calls := calls + [AddIceCandidate(candidate)];
      outcome := Done;
    }

    /** The peer connection's `icecandidate` listener forwards a local
        candidate to signaling only when `event.candidate` is set. */
    method OnLocalIceCandidate(candidate: Option<Candidate>) returns (outcome: Outcome)
      modifies this`calls
      ensures candidate.None? ==> outcome == Done && calls == old(calls)
      ensures candidate.Some? && signalingClient.None? ==> outcome == Threw && calls == old(calls)
      ensures candidate.Some? && signalingClient.Some? ==>
        outcome == Done && calls == old(calls) + [SendIceCandidate(candidate.value)]
    {
      if candidate.None? {
        return Done;
      }
      if signalingClient.None? {
        return Threw;
      }
      calls := calls + [SendIceCandidate(candidate.value)];
      outcome := Done;
    }

    /** The WebRTC engine moves the data channel to a new `readyState`. */
    method DataChannelStateChanged(state: ReadyState)
      modifies this`dataChannel
      ensures dataChannel == if old(dataChannel).Some? then Some(old(dataChannel).value.(readyState := state))
                             else None
    {
      if dataChannel.Some? {
        dataChannel := Some(dataChannel.value.(readyState := state));
      }
    }

    /** `openDoor`: send `{"command":"OPEN_DOOR"}` exactly when a data
        channel exists and is open; otherwise send nothing. */
    method OpenDoor() returns (sent: bool)
      modifies this`calls
      ensures sent <==> dataChannel.Some? && dataChannel.value.readyState == Open
      ensures calls == old(calls) + (if sent then [DataChannelSend(OpenDoorMessage)] else [])
    {
      sent := dataChannel.Some? && dataChannel.value.readyState == Open;
      if sent {
        calls := calls + [DataChannelSend(OpenDoorMessage)];
      }
    }

    /** `closeCall`: close the peer connection, then the signaling client,
        each only if its global is set, and clear both. Closing a peer
        connection moves its data channel to `closed` (the `close()`
        algorithm of the W3C WebRTC 1.0 specification); the `dataChannel`
        global itself is not cleared. */
    method CloseCall()
      modifies this`calls, this`signalingClient, this`peerConnection, this`dataChannel
      ensures signalingClient.None? && peerConnection.None?
      ensures dataChannel == if old(peerConnection).Some? && old(dataChannel).Some?
                             then Some(old(dataChannel).value.(readyState := Closed))
                             else old(dataChannel)
      ensures calls == old(calls) + (if old(peerConnection).Some? then [ClosePeerConnection] else [])
                                  + (if old(signalingClient).Some? then [CloseSignaling] else [])
    {
      if peerConnection.Some? {
        calls := calls + [ClosePeerConnection];
        peerConnection := None;
        if dataChannel.Some? {
          dataChannel := Some(dataChannel.value.(readyState := Closed));
        }
      }
      if signalingClient.Some? {
        calls := calls + [CloseSignaling];
        signalingClient := None;
      }
    }
  }

  /** Closing twice has the effect of closing once: the second call finds
      both globals empty, closes nothing and leaves the data channel as the
      first call left it. */
  method CloseCallTwice(viewer: Viewer)
    modifies viewer`calls, viewer`signalingClient, viewer`peerConnection, viewer`dataChannel
    ensures viewer.signalingClient.None? && viewer.peerConnection.None?
    ensures viewer.dataChannel == if old(viewer.peerConnection).Some? && old(viewer.dataChannel).Some?
                                  then Some(old(viewer.dataChannel).value.(readyState := Closed))
                                  else old(viewer.dataChannel)
    ensures viewer.calls == old(viewer.calls)
                          + (if old(viewer.peerConnection).Some? then [ClosePeerConnection] else [])
                          + (if old(viewer.signalingClient).Some? then [CloseSignaling] else [])
  {
    viewer.CloseCall();
    ghost var afterFirst := viewer.calls;
    ghost var channelAfterFirst := viewer.dataChannel;
    viewer.CloseCall();
    assert viewer.calls == afterFirst && viewer.dataChannel == channelAfterFirst;
  }

  /** The start of every call: the user saves the configuration form, the
      MQTT device is created and connects, a ring message naming some
      channel arrives, and the user picks up. The page subscribes to the
      topic derived from the form's ARN, then joins the configured channel
      whatever the ring message named. */
  method SaveRingAndPickup(form: Form, mqttId: string, ringChannel: string, endpoints: seq<ResourceEndpoint>,
                           iceList: seq<RemoteIceServer>, clientId: string)
    returns (viewer: Viewer)
    ensures fresh(viewer)
    ensures viewer.calls == [Subscribe(TopicFor(ChannelName(form.channelArn))),
                             GetSignalingChannelEndpoint(form.channelArn), GetIceServerConfig(form.channelArn),
                             OpenSignaling]
    ensures viewer.signalingClient.Some? && viewer.peerConnection.Some?
    ensures viewer.dataChannel == Some(DataChannel(CommandsLabel, Connecting))
  {
    viewer := new Viewer(None);
    viewer.SaveConfigAndConnect(form, DeviceCreated, mqttId);
    var config := DeriveConfig(form);
    viewer.OnMqttConnect();
    assert viewer.config == Some(config) && viewer.calls == [Subscribe(config.topic)];
    var ring := JObject(map["event" := JString("ring"), "channel" := JString(ringChannel)]);
    assert IsRingMessage(ring);
    var outcome := viewer.OnMqttMessage(Some(ring));
    outcome := viewer.Pickup(Resolved(Some(endpoints)), Resolved(Some(iceList)), clientId, AcceptsAll);
  }

  /** A whole call: after the start above, the signaling channel opens, the
      data channel opens, the user unlocks the door and hangs up. The page
      sends the offer only after the channel opened, sends exactly one
      unlock command, closes the peer connection before the signaling
      client, and sends nothing when the user presses unlock again after
      hanging up. */
  method RingToUnlock(form: Form, mqttId: string, ringChannel: string, endpoints: seq<ResourceEndpoint>,
                      iceList: seq<RemoteIceServer>, clientId: string, offer: Sdp)
    returns (calls: seq<SdkCall>, unlocked: bool, unlockedAfterHangUp: bool)
    ensures unlocked && !unlockedAfterHangUp
    ensures calls == [Subscribe(TopicFor(ChannelName(form.channelArn))),
                      GetSignalingChannelEndpoint(form.channelArn), GetIceServerConfig(form.channelArn),
                      OpenSignaling, SendSdpOffer(offer), DataChannelSend(OpenDoorMessage),
                      ClosePeerConnection, CloseSignaling]
  {
    var viewer := SaveRingAndPickup(form, mqttId, ringChannel, endpoints, iceList, clientId);
    var outcome := viewer.OnSignalingOpen(offer);
    viewer.DataChannelStateChanged(Open);
    unlocked := viewer.OpenDoor();
    viewer.CloseCall();
    unlockedAfterHangUp := viewer.OpenDoor();
    calls := viewer.calls;
  }

  /** Unlocking after pickup but before the data channel has opened sends
      nothing. */
  method UnlockTooEarly(form: Form, mqttId: string, ringChannel: string, endpoints: seq<ResourceEndpoint>,
                        iceList: seq<RemoteIceServer>, clientId: string)
    returns (calls: seq<SdkCall>, unlocked: bool)
    ensures !unlocked
    ensures calls == [Subscribe(TopicFor(ChannelName(form.channelArn))),
                      GetSignalingChannelEndpoint(form.channelArn), GetIceServerConfig(form.channelArn),
                      OpenSignaling]
  {
    var viewer := SaveRingAndPickup(form, mqttId, ringChannel, endpoints, iceList, clientId);
    unlocked := viewer.OpenDoor();
    calls := viewer.calls;
  }
}
