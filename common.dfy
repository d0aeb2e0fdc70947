/**
 Values shared by the two viewer pages and the doorbell master: an Option
 type (JavaScript's `undefined`/`null` and Python's `None`), a JSON value
 type, the SDK objects the pages hold in their module-level slots, and the
 calls the pages make into those SDKs.
 */
module Common {

  datatype Option<+T> = None | Some(value: T)

  /** A parsed JSON document. Numbers are integers only: the only number
      any of the modelled code reads is a whole-second timestamp. */
  datatype Json =
    | JNull
    | JBool(b: bool)
    | JNumber(n: int)
    | JString(s: string)
    | JArray(items: seq<Json>)
    | JObject(fields: map<string, Json>)

  /** An awaited SDK request: it either rejects (the surrounding
      `try`/`catch` sees an exception) or resolves with a response. */
  datatype Call<+T> = Rejected | Resolved(response: T)

  /** What happened to the exception, if any, raised inside an event
      handler or an async function of a page. */
  datatype Outcome = Done | CaughtAndLogged | Threw

  /** AWS credentials as the pages pass them to every SDK client. */
  datatype Credentials = Credentials(accessKeyId: string, secretAccessKey: string, sessionToken: Option<string>)

  /** An SDP session description and an ICE candidate; their contents
      belong to the WebRTC engine and are opaque here. */
  datatype Sdp = Sdp(sdp: string)
  datatype Candidate = Candidate(candidate: string)

  /** The `urls` member of an RTCIceServer: a single URL string or a list. */
  datatype Urls = Url(url: string) | UrlList(urls: seq<string>)

  /** An entry of the `iceServers` configuration handed to RTCPeerConnection. */
  datatype IceServer = IceServer(urls: Urls, username: Option<string>, credential: Option<string>)

  /** The configuration a page gives to `KVSWebRTC.SignalingClient`. */
  datatype SignalingClient = SignalingClient(
    channelArn: string,
    channelEndpoint: Option<string>,
    clientId: string,
    region: string,
    credentials: Credentials)

  /** The part of an RTCPeerConnection's state the pages read or write. */
  datatype PeerConnection = PeerConnection(
    iceServers: seq<IceServer>,
    localDescription: Option<Sdp>,
    remoteDescription: Option<Sdp>)

  datatype ReadyState = Connecting | Open | Closing | Closed

  /** An RTCDataChannel: its label and its `readyState`. */
  datatype DataChannel = DataChannel(channelLabel: string, readyState: ReadyState)

  /** The options a page passes to `awsIot.device`. */
  datatype MqttClient = MqttClient(
    region: string,
    host: string,
    clientId: string,
    protocol: string,
    maximumReconnectTimeMs: nat,
    debug: bool,
    accessKeyId: string,
    secretKey: string)

  /** Calls a page makes into the SDKs, in the order it makes them. */
  datatype SdkCall =
    | Subscribe(topic: string)
    | DescribeSignalingChannel(channelName: Option<string>)
    | GetSignalingChannelEndpoint(channelArn: string)
    | GetIceServerConfig(channelArn: string)
    | OpenSignaling
    | CloseSignaling
    | ClosePeerConnection
    | SendSdpOffer(offer: Sdp)
    | SendIceCandidate(candidate: Candidate)
    | AddIceCandidate(candidate: Candidate)
    | DataChannelSend(data: string)

  /** What the AWS IoT device SDK does when a page calls `awsIot.device`:
      the global `awsIot` is not defined, the call throws, or it returns a
      client. */
  datatype DeviceSdk = NotLoaded | DeviceThrows | DeviceCreated

  /** Whether the foreign constructors `new KVSWebRTC.SignalingClient(...)`
      and `new RTCPeerConnection(...)` accept the configuration they are
      given or throw. */
  datatype Engine = AcceptsAll | RejectsSignalingConfig | RejectsPeerConfig
}
