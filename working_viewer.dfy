/**
 The "working" viewer page: its module-level `viewer` slots (signaling
 client and peer connection), `CONFIG` and `mqttClient`, the ring
 notification, and the handlers that run the call. SDK responses and the
 outcome of foreign constructors are parameters; the calls the page makes
 into the SDKs are recorded, in order, in `calls`.
 */
module WorkingViewerPage {
  import opened Common
  import opened PageConfig
  import opened RingEvent
  import opened SignalingSetup

  class WorkingViewer {
    var config: Option<Config>
    var mqttClient: Option<MqttClient>
    var signalingClient: Option<SignalingClient>
    var peerConnection: Option<PeerConnection>
    var notificationShown: bool
    var pickupArmed: bool
    var calls: seq<SdkCall>

    /** Page load: `loadConfig` restores a saved `CONFIG`, if any. */
    constructor (saved: Option<Config>)
      ensures config == saved && mqttClient.None?
      ensures signalingClient.None? && peerConnection.None?
      ensures !notificationShown && !pickupArmed && calls == []
    {
      config := saved;
      mqttClient := None;
      signalingClient := None;
      peerConnection := None;
      notificationShown := false;
      pickupArmed := false;
      calls := [];
    }

    /** `saveConfigAndConnect`: derive and store `CONFIG`, then connect. */
    method SaveConfigAndConnect(form: Form, sdk: DeviceSdk, clientId: string)
      modifies this`config, this`mqttClient
      ensures config == Some(DeriveConfig(form))
      ensures mqttClient == if sdk.DeviceCreated? then Some(DeviceOptions(DeriveConfig(form), clientId, false))
                            else old(mqttClient)
    {
      config := Some(DeriveConfig(form));
      ConnectMqtt(sdk, clientId);
    }

    /** `connectMQTT`: everything, including the lookup of the global
        `awsIot` and the reads of `CONFIG`, runs inside one `try`, so a
        failure of any of them leaves `mqttClient` as it was. */
    method ConnectMqtt(sdk: DeviceSdk, clientId: string)
      modifies this`mqttClient
      ensures mqttClient == if sdk.DeviceCreated? && config.Some? then Some(DeviceOptions(config.value, clientId, false))
                            else old(mqttClient)
    {
      if sdk.DeviceCreated? && config.Some? {
        mqttClient := Some(DeviceOptions(config.value, clientId, false));
      }
    }

    /** The MQTT `connect` handler subscribes to `CONFIG.TOPIC`. */
    method OnMqttConnect()
      modifies this`calls
      ensures calls == if mqttClient.Some? && config.Some? then old(calls) + [Subscribe(config.value.topic)]
                       else old(calls)
    {
      if mqttClient.Some? && config.Some? {
        calls := calls + [Subscribe(config.value.topic)];
      }
    }

    /** The MQTT `message` handler. A ring message shows the notification
        and arms the pickup button; any other well-formed message does
        nothing; a payload that is not JSON, or whose `.event` cannot be
        read, is caught and logged. */
    method OnMqttMessage(payload: Option<Json>) returns (outcome: Outcome)
      modifies this`notificationShown, this`pickupArmed
      ensures DispatchOf(payload).Ring? ==> notificationShown && pickupArmed
      ensures !DispatchOf(payload).Ring? ==>
        notificationShown == old(notificationShown) && pickupArmed == old(pickupArmed)
      ensures outcome.Done? <==> DispatchOf(payload).Ring? || DispatchOf(payload).Ignore?
      ensures outcome != Threw
    {
      match DispatchOf(payload)
      case Ring =>
        notificationShown, pickupArmed := true, true;
        outcome := Done;
      case Ignore =>
        outcome := Done;
      case _ =>
        outcome := CaughtAndLogged;
    }

    /** What `startViewer` does to the slots and the SDK calls, given the
        responses of `DescribeSignalingChannel` (the channel's ARN),
        `GetSignalingChannelEndpoint` (its `ResourceEndpointList`, `None`
        when absent) and `GetIceServerConfig` (its `IceServerList`, `None`
        when absent). Every failure is caught inside `startViewer`. */
    twostate predicate StartedViewer(describe: Call<string>, endpointList: Call<Option<seq<ResourceEndpoint>>>,
                                     ice: Call<Option<seq<RemoteIceServer>>>, clientId: string, engine: Engine,
                                     outcome: Outcome)
      reads this
    {
      match old(config)
      case None =>
        outcome == CaughtAndLogged && calls == old(calls) &&
        signalingClient == old(signalingClient) && peerConnection == old(peerConnection)
      case Some(c) =>
        var describeRequest := [DescribeSignalingChannel(ChannelName(c.channelArn))];
        if describe.Rejected? then
          outcome == CaughtAndLogged && calls == old(calls) + describeRequest &&
          signalingClient == old(signalingClient) && peerConnection == old(peerConnection)
        else
          var arn := describe.response;
          var endpointRequests := describeRequest + [GetSignalingChannelEndpoint(arn)];
          if endpointList.Rejected? || endpointList.response.None? then
            outcome == CaughtAndLogged && calls == old(calls) + endpointRequests &&
            signalingClient == old(signalingClient) && peerConnection == old(peerConnection)
          else
            var requests := endpointRequests + [GetIceServerConfig(arn)];
            if ice.Rejected? || engine.RejectsSignalingConfig? then
              outcome == CaughtAndLogged && calls == old(calls) + requests &&
              signalingClient == old(signalingClient) && peerConnection == old(peerConnection)
            else
              signalingClient == Some(SignalingClient(arn, LastEndpointFor(endpointList.response.value, "WSS"),
                                                      clientId, c.region, CredentialsOf(c))) &&
              if engine.RejectsPeerConfig? then
                outcome == CaughtAndLogged && calls == old(calls) + requests &&
                peerConnection == old(peerConnection)
              else
                outcome == Done && calls == old(calls) + requests + [OpenSignaling] &&
                peerConnection.Some? && peerConnection.value.localDescription.None? &&
                peerConnection.value.remoteDescription.None? &&
                var servers := peerConnection.value.iceServers;
                |servers| >= 1 && servers[0] == FallbackIceServer(c.region) &&
                servers[1..] == (if ice.response.Some? then MapIceServers(ice.response.value) else [])
    }

    /** `startViewer`. The slots are overwritten without closing what they
        held before. */
    method StartViewer(describe: Call<string>, endpointList: Call<Option<seq<ResourceEndpoint>>>,
                       ice: Call<Option<seq<RemoteIceServer>>>, clientId: string, engine: Engine)
      returns (outcome: Outcome)
      modifies this`calls, this`signalingClient, this`peerConnection
      ensures StartedViewer(describe, endpointList, ice, clientId, engine, outcome)
    {
      if config.None? {
        return CaughtAndLogged;
      }
      var c := config.value;
      var channelName := ChannelName(c.channelArn);
      calls := calls + [DescribeSignalingChannel(channelName)];
      if describe.Rejected? {
        return CaughtAndLogged;
      }
      var channelArn := describe.response;
      calls := calls + [GetSignalingChannelEndpoint(channelArn)];
      if endpointList.Rejected? || endpointList.response.None? {
        return CaughtAndLogged;
      }
      var endpointsByProtocol := EndpointsByProtocol(endpointList.response.value);
      calls := calls + [GetIceServerConfig(channelArn)];
      if ice.Rejected? {
        return CaughtAndLogged;
      }
      var iceServers := BuildIceServers(c.region, ice.response);
      if engine.RejectsSignalingConfig? {
        return CaughtAndLogged;
      }
      signalingClient := Some(SignalingClient(channelArn, Lookup(endpointsByProtocol, "WSS"),
                                              clientId, c.region, CredentialsOf(c)));
      if engine.RejectsPeerConfig? {
        return CaughtAndLogged;
      }
      peerConnection := Some(PeerConnection(iceServers, None, None));
      calls := calls + [OpenSignaling];
      outcome := Done;
    }

    /** The pickup button's `onclick`, assigned by `showRingNotification`:
        hide the notification and start the viewer. Before a ring the
        button has no handler. */
    method Pickup(describe: Call<string>, endpointList: Call<Option<seq<ResourceEndpoint>>>,
                  ice: Call<Option<seq<RemoteIceServer>>>, clientId: string, engine: Engine)
      returns (outcome: Outcome)
      modifies this`notificationShown, this`calls, this`signalingClient, this`peerConnection
      ensures !old(pickupArmed) ==>
        outcome == Done && notificationShown == old(notificationShown) && calls == old(calls) &&
        signalingClient == old(signalingClient) && peerConnection == old(peerConnection)
      ensures old(pickupArmed) ==>
        !notificationShown && StartedViewer(describe, endpointList, ice, clientId, engine, outcome)
    {
      if !pickupArmed {
        return Done;
      }
      notificationShown := false;
      outcome := StartViewer(describe, endpointList, ice, clientId, engine);
    }

    /** The signaling `open` handler: commit the offer the engine created as
        the local description, then send the committed local description.
        It reads the slots when it runs, so after `closeCall` it throws. */
    method OnSignalingOpen(offer: Sdp) returns (outcome: Outcome)
      modifies this`peerConnection, this`calls
      ensures old(peerConnection).None? ==>
        outcome == Threw && peerConnection == old(peerConnection) && calls == old(calls)
      ensures old(peerConnection).Some? ==>
        peerConnection == Some(old(peerConnection).value.(localDescription := Some(offer)))
      ensures old(peerConnection).Some? && signalingClient.Some? ==>
        outcome == Done && calls == old(calls) + [SendSdpOffer(peerConnection.value.localDescription.value)]
      ensures signalingClient.None? ==> outcome == Threw && calls == old(calls)
    {
      if peerConnection.None? {
        return Threw;
      }
      peerConnection := Some(peerConnection.value.(localDescription := Some(offer)));
      if signalingClient.None? {
        return Threw;
      }
      calls := calls + [SendSdpOffer(peerConnection.value.localDescription.value)];
      outcome := Done;
    }

    /** The signaling `sdpAnswer` handler applies the answer as the remote
        description. */
    method OnSdpAnswer(answer: Sdp) returns (outcome: Outcome)
      modifies this`peerConnection
      ensures old(peerConnection).None? ==> outcome == Threw && peerConnection.None?
      ensures old(peerConnection).Some? ==>
        outcome == Done && peerConnection == Some(old(peerConnection).value.(remoteDescription := Some(answer)))
    {
      if peerConnection.None? {
        return Threw;
      }
      peerConnection := Some(peerConnection.value.(remoteDescription := Some(answer)));
      outcome := Done;
    }

    /** The signaling `iceCandidate` handler hands each remote candidate to
        the peer connection at once; nothing is buffered. */
    method OnRemoteIceCandidate(candidate: Candidate) returns (outcome: Outcome)
      modifies this`calls
      ensures peerConnection.None? ==> outcome == Threw && calls == old(calls)
      ensures peerConnection.Some? ==> outcome == Done && calls == old(calls) + [AddIceCandidate(candidate)]
    {
      if peerConnection.None? {
        return Threw;
      }
      calls := calls + [AddIceCandidate(candidate)];
      outcome := Done;
    }

    /** The peer connection's `icecandidate` listener forwards a local
        candidate to signaling only when `event.candidate` is set (`None`
        is the end-of-candidates event). */
    method OnLocalIceCandidate(candidate: Option<Candidate>) returns (outcome: Outcome)
      modifies this`calls
      ensures candidate.None? ==> outcome == Done && calls == old(calls)
      ensures candidate.Some? && signalingClient.None? ==> outcome == Threw && calls == old(calls)
      ensures candidate.Some? && signalingClient.Some? ==>
        outcome == Done && calls == old(calls) + [SendIceCandidate(candidate.value)]
    {
      if candidate.None? {
        return Done;
      }
      if signalingClient.None? {
        return Threw;
      }
      calls := calls + [SendIceCandidate(candidate.value)];
      outcome := Done;
    }

    /** `closeCall`: close the signaling client, then the peer connection,
        each only if its slot is set, and clear both slots. */
    method CloseCall()
      modifies this`calls, this`signalingClient, this`peerConnection
      ensures signalingClient.None? && peerConnection.None?
      ensures calls == old(calls) + (if old(signalingClient).Some? then [CloseSignaling] else [])
                                  + (if old(peerConnection).Some? then [ClosePeerConnection] else [])
    {
      if signalingClient.Some? {
        calls := calls + [CloseSignaling];
        signalingClient := None;
      }
      if peerConnection.Some? {
        calls := calls + [ClosePeerConnection];
        peerConnection := None;
      }
    }
  }

  /** Closing twice has the effect of closing once: the second call finds
      both slots empty and closes nothing. */
  method CloseCallTwice(viewer: WorkingViewer)
    modifies viewer`calls, viewer`signalingClient, viewer`peerConnection
    ensures viewer.signalingClient.None? && viewer.peerConnection.None?
    ensures viewer.calls == old(viewer.calls)
                          + (if old(viewer.signalingClient).Some? then [CloseSignaling] else [])
                          + (if old(viewer.peerConnection).Some? then [ClosePeerConnection] else [])
  {
    viewer.CloseCall();
    ghost var afterFirst := viewer.calls;
    viewer.CloseCall();
    assert viewer.calls == afterFirst;
  }

  /** The start of every call: the user saves the configuration form, the
      MQTT device is created and connects, a ring message arrives, the user
      picks up, and the service returns an empty `IceServerList`. The page
      subscribes to the topic derived from the form's ARN, and the peer
      connection still gets the fallback STUN server. */
  method SaveRingAndPickup(form: Form, mqttId: string, ringChannel: string, channelArn: string,
                           endpoints: seq<ResourceEndpoint>, clientId: string)
    returns (viewer: WorkingViewer)
    ensures fresh(viewer)
    ensures viewer.calls == [Subscribe(TopicFor(ChannelName(form.channelArn))),
                             DescribeSignalingChannel(ChannelName(form.channelArn)),
                             GetSignalingChannelEndpoint(channelArn), GetIceServerConfig(channelArn),
                             OpenSignaling]
    ensures viewer.signalingClient.Some? && viewer.peerConnection.Some?
    ensures viewer.peerConnection.value.iceServers == [FallbackIceServer(form.region)]
  {
    viewer := new WorkingViewer(None);
    viewer.SaveConfigAndConnect(form, DeviceCreated, mqttId);
    var config := DeriveConfig(form);
    viewer.OnMqttConnect();
    assert viewer.config == Some(config) && viewer.calls == [Subscribe(config.topic)];
    var ring := JObject(map["event" := JString("ring"), "channel" := JString(ringChannel)]);
    assert IsRingMessage(ring);
    var outcome := viewer.OnMqttMessage(Some(ring));
    PickUpWithEmptyIceList(viewer, channelArn, endpoints, clientId);
  }

  /** Picking up after a ring when every request succeeds and the service
      returns an empty `IceServerList`. */
  method PickUpWithEmptyIceList(viewer: WorkingViewer, channelArn: string, endpoints: seq<ResourceEndpoint>,
                                clientId: string)
    requires viewer.pickupArmed && viewer.config.Some?
    modifies viewer`notificationShown, viewer`calls, viewer`signalingClient, viewer`peerConnection
    ensures viewer.calls == old(viewer.calls) + [DescribeSignalingChannel(ChannelName(viewer.config.value.channelArn)),
                                                 GetSignalingChannelEndpoint(channelArn),
                                                 GetIceServerConfig(channelArn), OpenSignaling]
    ensures viewer.signalingClient.Some? && viewer.peerConnection.Some?
    ensures viewer.peerConnection.value.iceServers == [FallbackIceServer(viewer.config.value.region)]
  {
    var outcome := viewer.Pickup(Resolved(channelArn), Resolved(Some(endpoints)), Resolved(Some([])), clientId,
                                 AcceptsAll);
  }

  /** A whole call: after the start above, the signaling channel opens, the
      answer and a local candidate follow, and the user hangs up. The offer
      goes out only after the channel opened, and hanging up closes the
      signaling client before the peer connection. */
  method RingToHangUp(form: Form, mqttId: string, ringChannel: string, channelArn: string,
                      endpoints: seq<ResourceEndpoint>, clientId: string, offer: Sdp, answer: Sdp, local: Candidate)
    returns (calls: seq<SdkCall>, iceServers: seq<IceServer>)
    ensures iceServers == [FallbackIceServer(form.region)]
    ensures calls == [Subscribe(TopicFor(ChannelName(form.channelArn))),
                      DescribeSignalingChannel(ChannelName(form.channelArn)),
                      GetSignalingChannelEndpoint(channelArn), GetIceServerConfig(channelArn),
                      OpenSignaling, SendSdpOffer(offer), SendIceCandidate(local),
                      CloseSignaling, ClosePeerConnection]
  {
    var viewer := SaveRingAndPickup(form, mqttId, ringChannel, channelArn, endpoints, clientId);
    iceServers := viewer.peerConnection.value.iceServers;
    var outcome := viewer.OnSignalingOpen(offer);
    outcome := viewer.OnSdpAnswer(answer);
    outcome := viewer.OnLocalIceCandidate(Some(local));
    viewer.CloseCall();
    calls := viewer.calls;
  }
}
