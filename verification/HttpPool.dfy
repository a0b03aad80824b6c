/**
 * `HTTPPool`: the HTTP transport of the peer protocol. One value plays
 * three roles: the peer set (a consistent-hash ring plus one client per
 * peer), the peer picker, and the server handler for `<basePath><group>/<key>`.
 * `httpGetter` is the client side.
 *
 * Everything the pool calls but that is not part of this model is a
 * parameter: the ring's lookup, the group registry, `Group.Get`,
 * `url.QueryEscape`, the HTTP round trip and the message codec.
 */
module HttpPool {
  import opened Wrappers
  import opened Paths
  import opened Wire

  const DefaultBasePath: string := "/_gocache/"
  const DefaultReplicas: nat := 50

  const StatusOK: int := 200
  const StatusBadRequest: int := 400
  const StatusNotFound: int := 404
  const StatusInternalServerError: int := 500

  const OctetStream: string := "application/octet-stream"

  /** A consistent-hash ring as built by `consistenthash.New(replicas, nil)` then `Add(peers...)`. */
  datatype Ring = Ring(replicas: nat, peers: seq<string>)

  /** `consistenthash.Map.Get`: the peer that owns a key, "" for an empty ring. */
  type RingLookup = (Ring, string) -> string

  /** Client for one peer: requests go to `baseURL` followed by `<group>/<key>`. */
  datatype Getter = Getter(baseURL: string)

  /**
   * The pool's state. `ring` is `None` until the first `Set` (Go's nil
   * `*consistenthash.Map`); `getters` is keyed by peer address.
   */
  datatype Pool = Pool(
    self: string,
    basePath: string,
    ring: Option<Ring>,
    getters: map<string, Getter>)

  /** Exactly one client per listed peer, each pointed at the peer's protocol root. */
  ghost predicate GettersFor(getters: map<string, Getter>, peers: seq<string>, basePath: string)
  {
    && getters.Keys == (set peer | peer in peers)
    && forall peer :: peer in getters ==> getters[peer] == Getter(peer + basePath)
  }

  /** The clients always match the peers the ring was built from. */
  ghost predicate Valid(p: Pool)
  {
    match p.ring
    case None => p.getters == map[]
    case Some(ring) => ring.replicas == DefaultReplicas && GettersFor(p.getters, ring.peers, p.basePath)
  }

  /** `NewHTTPPool(self)`: no peers yet, the default protocol root. */
  function NewHTTPPool(self: string): (p: Pool)
    ensures Valid(p)
    ensures p.self == self && p.basePath == DefaultBasePath
    ensures p.ring.None? && |p.getters| == 0
  {
    Pool(self, DefaultBasePath, None, map[])
  }

  /**
   * `Set(peers...)`: rebuilds the ring from scratch and replaces the client
   * map wholesale. Nothing of the previous peer set survives: the result
   * depends on `p` only through `self` and `basePath`.
   */
  method Set(p: Pool, peers: seq<string>) returns (q: Pool)
    ensures q.self == p.self && q.basePath == p.basePath
    ensures q.ring == Some(Ring(DefaultReplicas, peers))
    ensures q.getters.Keys == (set peer | peer in peers)
    ensures forall peer :: peer in q.getters ==> q.getters[peer].baseURL == peer + p.basePath
    ensures Valid(q)
  {
    var getters: map<string, Getter> := map[];
    for i := 0 to |peers|
      invariant getters.Keys == (set peer | peer in peers[..i])
      invariant forall peer :: peer in getters ==> getters[peer] == Getter(peer + p.basePath)
    {
      assert peers[..i + 1] == peers[..i] + [peers[i]];
      getters := getters[peers[i] := Getter(peers[i] + p.basePath)];
    }
    q := p.(ring := Some(Ring(DefaultReplicas, peers)), getters := getters);
  }

  /**
   * Outcome of picking a peer: the client handed back, the "found" flag,
   * and the peer named in the pool's "Pick peer" log line, if one is written.
   */
  datatype Pick = Pick(getter: Option<Getter>, ok: bool, logged: Option<string>)

  /**
   * `PickPeer(key)` as written: it consults the ring and logs a remote
   * owner, but always answers `(nil, false)`, so callers always load locally.
   * The ring must have been built by `Set` first.
   */
  function PickPeer(p: Pool, lookup: RingLookup, key: string): (r: Pick)
    requires p.ring.Some?
    ensures r.getter.None? && !r.ok
    ensures r.logged.Some? <==> lookup(p.ring.value, key) != "" && lookup(p.ring.value, key) != p.self
    ensures r.logged.Some? ==> r.logged.value == lookup(p.ring.value, key)
  {
    var peer := lookup(p.ring.value, key);
    if peer != "" && peer != p.self then Pick(None, false, Some(peer))
    else Pick(None, false, None)
  }

  /**
   * `PickPeer` as its log line and the peer-picker contract intend it:
   * a remote owner's client is returned with `true` (Go's map read gives
   * nil for a peer without a client).
   */
  function PickPeerIntended(p: Pool, lookup: RingLookup, key: string): (r: Pick)
    requires p.ring.Some?
    ensures r.ok <==> lookup(p.ring.value, key) != "" && lookup(p.ring.value, key) != p.self
    ensures r.ok && lookup(p.ring.value, key) in p.getters ==> r.getter == Some(p.getters[lookup(p.ring.value, key)])
    ensures r.getter.Some? ==> r.ok
  {
    var peer := lookup(p.ring.value, key);
    if peer != "" && peer != p.self then
      Pick(if peer in p.getters then Some(p.getters[peer]) else None, true, Some(peer))
    else Pick(None, false, None)
  }

  /**
   * After `Set`, when the ring answers with one of its peers (or "" when
   * empty), the intended pick returns a client exactly for a remote owner,
   * and that client talks to the owner's protocol root.
   */
  lemma IntendedPickAfterSet(p: Pool, lookup: RingLookup, key: string)
    requires Valid(p) && p.ring.Some?
    requires lookup(p.ring.value, key) == "" || lookup(p.ring.value, key) in p.ring.value.peers
    ensures var peer := lookup(p.ring.value, key);
      var r := PickPeerIntended(p, lookup, key);
      && (r.ok <==> peer != "" && peer != p.self)
      && (r.ok ==> r.getter == Some(Getter(peer + p.basePath)))
  {
  }

  /**
   * The written `PickPeer` loses the remote owner: on a two-peer pool built
   * by `Set` whose ring routes the key to the other peer, the intended pick
   * returns that peer's client while the written one returns nothing.
   */
  lemma PickPeerDropsRemoteOwner()
    ensures var p := Pool("http://localhost:8001", DefaultBasePath,
          Some(Ring(DefaultReplicas, ["http://localhost:8001", "http://localhost:8002"])),
          map["http://localhost:8001" := Getter("http://localhost:8001" + DefaultBasePath),
              "http://localhost:8002" := Getter("http://localhost:8002" + DefaultBasePath)]);
      var lookup: RingLookup := (ring, key) => "http://localhost:8002";
      && Valid(p)
      && PickPeer(p, lookup, "Tom") == Pick(None, false, Some("http://localhost:8002"))
      && PickPeerIntended(p, lookup, "Tom").ok
      && PickPeerIntended(p, lookup, "Tom").getter == Some(Getter("http://localhost:8002/_gocache/"))
  {
    var p := Pool("http://localhost:8001", DefaultBasePath,
      Some(Ring(DefaultReplicas, ["http://localhost:8001", "http://localhost:8002"])),
      map["http://localhost:8001" := Getter("http://localhost:8001" + DefaultBasePath),
          "http://localhost:8002" := Getter("http://localhost:8002" + DefaultBasePath)]);
    assert "http://localhost:8002" + DefaultBasePath == "http://localhost:8002/_gocache/";
  }

  // ---------------------------------------------------------------------
  // Server side
  // ---------------------------------------------------------------------

  /** What the handler does with a request. */
  datatype Reply =
    | Panic(message: string)                      // `panic(...)`
    | HttpError(code: int, message: string)       // `http.Error(w, message, code)`
    | Body(contentType: string, body: Bytes)      // 200 with a header and a body

  /**
   * `ServeHTTP` on request path `path`: reject a path outside `basePath`,
   * split the rest at its first "/" into group and key, resolve the group,
   * load the key, encode the value. `groups` is `GetGroup` (`None` for an
   * unknown name) and `load` is `Group.Get`.
   */
  function ServeHTTP<G>(
    p: Pool, path: string,
    groups: string -> Option<G>,
    load: (G, string) -> Result<Bytes, string>,
    codec: Codec): (r: Reply)
    ensures r.Panic? <==> !(p.basePath <= path)
    ensures r == HttpError(StatusBadRequest, "bad request")
        <==> p.basePath <= path && '/' !in path[|p.basePath|..]
    ensures r.HttpError? ==> r.code in {StatusBadRequest, StatusNotFound, StatusInternalServerError}
    ensures r.Body? ==> r.contentType == OctetStream
  {
    if !HasPrefix(path, p.basePath) then
      Panic("HTTPPool serving unexpected path: " + path)
    else
      var parts := SplitOnce(path[|p.basePath|..], '/');
      if |parts| != 2 then HttpError(StatusBadRequest, "bad request")
      else
        var groupName := parts[0];
        var key := parts[1];
        match groups(groupName)
        case None => HttpError(StatusNotFound, "no such group: " + groupName)
        case Some(group) =>
          match load(group, key)
          case Failure(err) => HttpError(StatusInternalServerError, err)
          case Success(view) =>
            match codec.marshal(Response(view))
            case Failure(err) => HttpError(StatusInternalServerError, err)
            case Success(body) => Body(OctetStream, body)
  }

  /**
   * A well-formed path `<basePath><group>/<key>` (group without "/", key
   * arbitrary) reaches exactly that group and key: 404 for an unknown
   * group, the load error as a 500, the encoding error as a 500, and
   * otherwise the encoded value as an octet stream.
   */
  lemma ServeRoutes<G>(
    p: Pool, group: string, key: string,
    groups: string -> Option<G>,
    load: (G, string) -> Result<Bytes, string>,
    codec: Codec)
    requires '/' !in group
    ensures var r := ServeHTTP(p, p.basePath + group + "/" + key, groups, load, codec);
      match groups(group)
      case None => r == HttpError(StatusNotFound, "no such group: " + group)
      case Some(g) =>
        match load(g, key)
        case Failure(err) => r == HttpError(StatusInternalServerError, err)
        case Success(v) =>
          match codec.marshal(Response(v))
          case Failure(err) => r == HttpError(StatusInternalServerError, err)
          case Success(body) => r == Body(OctetStream, body)
  {
    var path := p.basePath + group + "/" + key;
    assert path[|p.basePath|..] == group + ['/'] + key;
    SplitOnceJoin(group, '/', key);
  }

  /**
   * A path outside `basePath` panics before any split, lookup or load:
   * the reply is the same whatever the registry, loader and codec.
   */
  lemma ServeForeignPath<G>(
    p: Pool, path: string,
    groups: string -> Option<G>,
    load: (G, string) -> Result<Bytes, string>,
    codec: Codec)
    requires !(p.basePath <= path)
    ensures ServeHTTP(p, path, groups, load, codec) == Panic("HTTPPool serving unexpected path: " + path)
  {
  }

  /**
   * A rest without "/" (the bare `basePath` included) is a 400 and no
   * group is looked up: changing the registry or loader changes nothing.
   */
  lemma ServeMalformedPath<G>(
    p: Pool, path: string,
    groups: string -> Option<G>, groups': string -> Option<G>,
    load: (G, string) -> Result<Bytes, string>, load': (G, string) -> Result<Bytes, string>,
    codec: Codec)
    requires p.basePath <= path && '/' !in path[|p.basePath|..]
    ensures ServeHTTP(p, path, groups, load, codec) == ServeHTTP(p, path, groups', load', codec)
    ensures ServeHTTP(p, path, groups, load, codec) == HttpError(StatusBadRequest, "bad request")
  {
  }

  /**
   * The loader is consulted only for a known group: if the registry has
   * no group for the path's group name, any two loaders give the same reply.
   */
  lemma ServeUnknownGroupSkipsLoad<G>(
    p: Pool, group: string, key: string,
    groups: string -> Option<G>,
    load: (G, string) -> Result<Bytes, string>, load': (G, string) -> Result<Bytes, string>,
    codec: Codec)
    requires '/' !in group && groups(group).None?
    ensures var path := p.basePath + group + "/" + key;
      ServeHTTP(p, path, groups, load, codec) == ServeHTTP(p, path, groups, load', codec)
  {
    ServeRoutes(p, group, key, groups, load, codec);
    ServeRoutes(p, group, key, groups, load', codec);
  }

  // ---------------------------------------------------------------------
  // Client side
  // ---------------------------------------------------------------------

  /** What `http.Get` hands back: status code, status line, and the body as read. */
  datatype HttpResult = HttpResult(statusCode: int, status: string, body: Result<Bytes, string>)

  /** `baseURL` then the escaped group, "/", the escaped key (`esc` is `url.QueryEscape`). */
  function RequestURL(h: Getter, req: Request, esc: string -> string): string
  {
    h.baseURL + esc(req.group) + "/" + esc(req.key)
  }

  /**
   * A client for `peer` built by `Set` requests `peer` followed by a path
   * the server's rule splits back into the escaped group and the escaped
   * key, provided escaping leaves no "/" in the group; the key may hold any.
   */
  lemma RequestPathRoutes(h: Getter, peer: string, basePath: string, req: Request, esc: string -> string)
    requires h.baseURL == peer + basePath
    requires '/' !in esc(req.group)
    ensures RequestURL(h, req, esc) == peer + (basePath + esc(req.group) + "/" + esc(req.key))
    ensures var path := basePath + esc(req.group) + "/" + esc(req.key);
      && basePath <= path
      && SplitOnce(path[|basePath|..], '/') == [esc(req.group), esc(req.key)]
  {
    var g, k := esc(req.group), esc(req.key);
    var path := basePath + g + "/" + k;
    assert RequestURL(h, req, esc) == peer + path by {
      assert RequestURL(h, req, esc) == (peer + basePath) + g + "/" + k;
    }
    assert SplitOnce(path[|basePath|..], '/') == [g, k] by {
      assert path[|basePath|..] == g + ['/'] + k;
      SplitOnceJoin(g, '/', k);
    }
  }

  /**
   * `httpGetter.Get`: one GET of the request URL through `transport`, then
   * status check, body read and decoding. Each failing stage becomes an
   * error; a response is returned only when every stage succeeded, and it
   * is exactly the decoded body.
   */
  function Fetch(
    h: Getter, req: Request, esc: string -> string,
    transport: string -> Result<HttpResult, string>,
    codec: Codec): (r: Result<Response, string>)
    ensures var res := transport(RequestURL(h, req, esc));
      r.Success? <==>
        && res.Success?
        && res.value.statusCode == StatusOK
        && res.value.body.Success?
        && codec.unmarshal(res.value.body.value).Success?
    ensures var res := transport(RequestURL(h, req, esc));
      r.Success? ==> r == codec.unmarshal(res.value.body.value)
    ensures var res := transport(RequestURL(h, req, esc));
      res.Success? && res.value.statusCode != StatusOK ==> r == Failure("server returned: " + res.value.status)
  {
    match transport(RequestURL(h, req, esc))
    case Failure(err) => Failure(err)
    case Success(res) =>
      if res.statusCode != StatusOK then Failure("server returned: " + res.status)
      else
        match res.body
        case Failure(err) => Failure("reading response body: " + err)
        case Success(bytes) =>
          match codec.unmarshal(bytes)
          case Failure(err) => Failure("decoding response body: " + err)
          case Success(out) => Success(out)
  }
}
