/**
 Shaping the Kinesis Video responses a viewer receives before it opens the
 signaling channel: the protocol-to-endpoint map built from
 `ResourceEndpointList`, and the `iceServers` list handed to
 RTCPeerConnection built from `IceServerList`.
 */
module SignalingSetup {
  import opened Common

  /** An entry of `GetSignalingChannelEndpoint`'s `ResourceEndpointList`. */
  datatype ResourceEndpoint = ResourceEndpoint(protocol: string, resourceEndpoint: string)

  /** `i` is the last entry of `list` whose protocol is `p`. */
  predicate LastWithProtocol(list: seq<ResourceEndpoint>, p: string, i: int)
  {
    0 <= i < |list| && list[i].protocol == p &&
    forall j :: i < j < |list| ==> list[j].protocol != p
  }

  /** The endpoint of the last entry with protocol `p`, searching from the end. */
  function LastEndpointFor(list: seq<ResourceEndpoint>, p: string): Option<string>
  {
    if list == [] then None
    else if list[|list| - 1].protocol == p then Some(list[|list| - 1].resourceEndpoint)
    else LastEndpointFor(list[..|list| - 1], p)
  }

  /** A protocol has an endpoint exactly when some entry carries it, and the
      endpoint is that of the last such entry. */
  lemma {:induction false} LastEndpointForMeaning(list: seq<ResourceEndpoint>, p: string)
    ensures LastEndpointFor(list, p).None? <==> forall i :: 0 <= i < |list| ==> list[i].protocol != p
    ensures LastEndpointFor(list, p).Some? ==>
      exists i :: LastWithProtocol(list, p, i) && LastEndpointFor(list, p).value == list[i].resourceEndpoint
  {
    if list != [] {
      var n := |list| - 1;
      if list[n].protocol == p {
        assert LastWithProtocol(list, p, n);
      } else {
        var front := list[..n];
        LastEndpointForMeaning(front, p);
        assert forall i :: 0 <= i < n ==> front[i] == list[i];
        if LastEndpointFor(front, p).Some? {
          var i :| LastWithProtocol(front, p, i) && LastEndpointFor(front, p).value == front[i].resourceEndpoint;
          assert LastWithProtocol(list, p, i);
        }
      }
    }
  }

  /** The `reduce` that stores each entry's endpoint under its protocol in an
      accumulator object, so that a later entry overwrites an earlier one. */
  method EndpointsByProtocol(list: seq<ResourceEndpoint>) returns (endpoints: map<string, string>)
    ensures forall p :: Lookup(endpoints, p) == LastEndpointFor(list, p)
  {
    endpoints := map[];
    var k := 0;
    while k < |list|
      invariant 0 <= k <= |list|
      invariant forall p :: Lookup(endpoints, p) == LastEndpointFor(list[..k], p)
    {
      var entry := list[k];
      assert list[..k + 1][..k] == list[..k];
      endpoints := endpoints[entry.protocol := entry.resourceEndpoint];
      k := k + 1;
    }
    assert list[..k] == list;
  }

  /** The keys of the endpoint map are exactly the protocols of the list, and
      each maps to the endpoint of the last entry with that protocol. */
  lemma EndpointMapMeaning(list: seq<ResourceEndpoint>, endpoints: map<string, string>)
    requires forall p :: Lookup(endpoints, p) == LastEndpointFor(list, p)
    ensures forall p :: p in endpoints <==> exists i :: 0 <= i < |list| && list[i].protocol == p
    ensures forall p :: p in endpoints ==>
      exists i :: LastWithProtocol(list, p, i) && endpoints[p] == list[i].resourceEndpoint
  {
    forall p ensures p in endpoints <==> exists i :: 0 <= i < |list| && list[i].protocol == p {
      LastEndpointForMeaning(list, p);
      assert Lookup(endpoints, p) == LastEndpointFor(list, p);
    }
    forall p | p in endpoints
      ensures exists i :: LastWithProtocol(list, p, i) && endpoints[p] == list[i].resourceEndpoint
    {
      LastEndpointForMeaning(list, p);
      assert Lookup(endpoints, p) == LastEndpointFor(list, p);
    }
  }

  /** `endpointsByProtocol.WSS` and the like: `None` is `undefined`. */
  function Lookup(endpoints: map<string, string>, protocol: string): (endpoint: Option<string>)
    ensures endpoint.Some? <==> protocol in endpoints
    ensures endpoint.Some? ==> endpoint.value == endpoints[protocol]
  {
    if protocol in endpoints then Some(endpoints[protocol]) else None
  }

  /** An entry of `GetIceServerConfig`'s `IceServerList`. */
  datatype RemoteIceServer = RemoteIceServer(
    uris: seq<string>,
    username: Option<string>,
    password: Option<string>,
    ttl: Option<int>)

  /** `{ urls: server.Uris, username: server.Username, credential: server.Password }`. */
  function ToIceServer(server: RemoteIceServer): (iceServer: IceServer)
    ensures iceServer.urls == UrlList(server.uris)
    ensures iceServer.username == server.username && iceServer.credential == server.password
  {
    IceServer(UrlList(server.uris), server.username, server.password)
  }

  /** The region's Kinesis Video STUN server. */
  function FallbackStunUrl(region: string): (url: string)
    ensures |url| == |region| + 41
    ensures url[..23] == "stun:stun.kinesisvideo." && url[|url| - 18..] == ".amazonaws.com:443"
    ensures url[23..|url| - 18] == region
  {
    "stun:stun.kinesisvideo." + region + ".amazonaws.com:443"
  }

  /** `{ urls: 'stun:stun.kinesisvideo.<region>.amazonaws.com:443' }`. */
  function FallbackIceServer(region: string): (iceServer: IceServer)
    ensures iceServer.urls == Url(FallbackStunUrl(region))
    ensures iceServer.username.None? && iceServer.credential.None?
  {
    IceServer(Url(FallbackStunUrl(region)), None, None)
  }

  /** `IceServerList.map(...)`: each remote entry converted, in order. */
  function MapIceServers(list: seq<RemoteIceServer>): (servers: seq<IceServer>)
    ensures |servers| == |list|
    ensures forall i :: 0 <= i < |list| ==>
      servers[i].urls == UrlList(list[i].uris) &&
      servers[i].username == list[i].username &&
      servers[i].credential == list[i].password
  {
    if list == [] then [] else [ToIceServer(list[0])] + MapIceServers(list[1..])
  }

  /** The ICE list `startViewer` builds: the fallback STUN entry pushed
      first, then, when the response has an `IceServerList`, one entry per
      remote server pushed by `forEach`. */
  method BuildIceServers(region: string, iceServerList: Option<seq<RemoteIceServer>>)
    returns (iceServers: seq<IceServer>)
    ensures |iceServers| >= 1 && iceServers[0] == FallbackIceServer(region)
    ensures iceServerList.None? ==> |iceServers| == 1
    ensures iceServerList.Some? ==> iceServers[1..] == MapIceServers(iceServerList.value)
  {
    iceServers := [];
    iceServers := iceServers + [FallbackIceServer(region)];
    if iceServerList.Some? {
      var list := iceServerList.value;
      ghost var mapped := MapIceServers(list);
      var k := 0;
      while k < |list|
        invariant 0 <= k <= |list|
        invariant |iceServers| == k + 1 && iceServers[0] == FallbackIceServer(region)
        invariant iceServers[1..] == mapped[..k]
      {
        iceServers := iceServers + [ToIceServer(list[k])];
        k := k + 1;
      }
    }
  }
}
