/**
 * One peer fetching from another: the client's `Fetch` against the
 * server's `ServeHTTP`, joined by what the HTTP layer carries between them.
 * Paths are compared as sent, before the server's URL-path decoding.
 */
module PeerProtocol {
  import opened Wrappers
  import opened Wire
  import opened HttpPool

  /**
   * What a working HTTP connection delivers to the client for a server
   * reply: the body with 200 for a success, the error's status code for an
   * `http.Error`, and a transport error for a handler that panicked (the
   * server drops the connection).
   */
  ghost predicate Carries(reply: Reply, res: Result<HttpResult, string>)
  {
    match reply
    case Panic(_) => res.Failure?
    case HttpError(code, _) => res.Success? && res.value.statusCode == code
    case Body(_, body) => res.Success? && res.value.statusCode == StatusOK && res.value.body == Success(body)
  }

  /**
   * A client whose base URL is `peer + basePath` asks for (group, key).
   * The URL it requests is the peer followed by a path the server splits
   * back into the escaped group and the escaped key (assuming escaping
   * leaves no "/" in the group). The client then gets an error whenever
   * the server did not find the group, failed to load, or failed to encode,
   * and otherwise exactly the decoded body, which is the loaded value when
   * the codec round-trips.
   */
  lemma PeerFetch<G>(
    server: Pool, peer: string, h: Getter, req: Request, esc: string -> string,
    groups: string -> Option<G>,
    load: (G, string) -> Result<Bytes, string>,
    codec: Codec,
    transport: string -> Result<HttpResult, string>)
    requires h.baseURL == peer + server.basePath
    requires '/' !in esc(req.group)
    requires Carries(
      ServeHTTP(server, server.basePath + esc(req.group) + "/" + esc(req.key), groups, load, codec),
      transport(RequestURL(h, req, esc)))
    ensures RequestURL(h, req, esc) == peer + (server.basePath + esc(req.group) + "/" + esc(req.key))
    ensures var r := Fetch(h, req, esc, transport, codec);
      match groups(esc(req.group))
      case None => r.Failure?
      case Some(g) =>
        match load(g, esc(req.key))
        case Failure(_) => r.Failure?
        case Success(v) =>
          match codec.marshal(Response(v))
          case Failure(_) => r.Failure?
          case Success(body) =>
            && (r.Success? <==> codec.unmarshal(body).Success?)
            && (r.Success? ==> r == codec.unmarshal(body))
            && (RoundTripsOn(codec, Response(v)) ==> r == Success(Response(v)))
  {
    RequestPathRoutes(h, peer, server.basePath, req, esc);
    ServeRoutes(server, esc(req.group), esc(req.key), groups, load, codec);
  }

  // ---------------------------------------------------------------------
  // The demonstration deployment: group "scores" over a fixed table.
  // ---------------------------------------------------------------------

  datatype DemoGroup = Scores

  /** The table standing in for a slow database; values are ASCII digits. */
  const DemoDB: map<string, Bytes> := map[
    "Tom" := [0x36, 0x33, 0x30],   // "630"
    "Bob" := [0x36, 0x32, 0x31],   // "621"
    "Sam" := [0x35, 0x37, 0x38]]   // "578"

  /** The registry of the demo: only "scores" exists. */
  function DemoGroups(name: string): Option<DemoGroup>
  {
    if name == "scores" then Some(Scores) else None
  }

  /** The demo loader: a table hit, or "<key> not exist". */
  function DemoLoad(g: DemoGroup, key: string): Result<Bytes, string>
  {
    if key in DemoDB then Success(DemoDB[key]) else Failure(key + " not exist")
  }

  /**
   * A peer asks the peer serving the demo registry for a key of "scores"
   * over the protobuf codec: a key in the table comes back as its value
   * ("Tom" gives "630"), any other key reaches the client as an error.
   */
  lemma DemoFetch(
    server: Pool, peer: string, esc: string -> string,
    transport: string -> Result<HttpResult, string>,
    key: string)
    requires esc("scores") == "scores"
    requires '/' !in esc(key)
    requires Carries(
      ServeHTTP(server, server.basePath + esc("scores") + "/" + esc(key), DemoGroups, DemoLoad, ProtoCodec()),
      transport(RequestURL(Getter(peer + server.basePath), Request("scores", key), esc)))
    ensures var r := Fetch(Getter(peer + server.basePath), Request("scores", key), esc, transport, ProtoCodec());
      && (esc(key) in DemoDB ==> r == Success(Response(DemoDB[esc(key)])))
      && (esc(key) !in DemoDB ==> r.Failure?)
  {
    var req := Request("scores", key);
    PeerFetch(server, peer, Getter(peer + server.basePath), req, esc, DemoGroups, DemoLoad, ProtoCodec(), transport);
  }

  /** The demo's own example: asking for "Tom" returns "630". */
  lemma DemoFetchTom(
    server: Pool, peer: string, esc: string -> string,
    transport: string -> Result<HttpResult, string>)
    requires esc("scores") == "scores" && esc("Tom") == "Tom"
    requires Carries(
      ServeHTTP(server, server.basePath + esc("scores") + "/" + esc("Tom"), DemoGroups, DemoLoad, ProtoCodec()),
      transport(RequestURL(Getter(peer + server.basePath), Request("scores", "Tom"), esc)))
    ensures Fetch(Getter(peer + server.basePath), Request("scores", "Tom"), esc, transport, ProtoCodec())
      == Success(Response([0x36, 0x33, 0x30]))
  {
    DemoFetch(server, peer, esc, transport, "Tom");
    assert "Tom" in DemoDB;
  }
}
