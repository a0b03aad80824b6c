# go-cache peer protocol: a Dafny model of `HTTPPool`

This project models the peer-protocol layer of go-cache, a peer-to-peer
read-through cache. `HTTPPool` (gocache/http.go) is one node's view of its
peers. It does three things:

- It keeps the peer set: a consistent-hash ring plus one HTTP client (`httpGetter`) per peer.
- It answers the `PeerPicker` question "which peer owns this key?".
- It is the HTTP handler that serves `<basePath><group>/<key>` to other peers.

`httpGetter.Get` is the client that fetches a key from a peer.

The model is functional. The pool is an immutable `Pool` value. `Set` is a
method that returns the new pool. Everything else is a pure function.

Everything the pool calls but that is not part of this model is a parameter:
- the ring's `Get` (`RingLookup`)
- `GetGroup` and `Group.Get` (`groups` and `load`)
- `url.QueryEscape` (`esc`)
- the HTTP round trip (`transport`)
- `proto.Marshal`/`proto.Unmarshal` (a `Codec`)

A concrete codec, `Wire.ProtoCodec`, gives the canonical proto3 form of the
one-field `Response` message. Its round trip is proved.

Files:
- `Wrappers.dfy`: `Option` and `Result`.
- `Paths.dfy`: `strings.HasPrefix` and `strings.SplitN(s, "/", 2)`, and the lemma that splitting undoes joining.
- `Wire.dfy`: the messages, the `Codec` abstraction and the proto3 varint and message encoding.
- `HttpPool.dfy`: the pool state, `NewHTTPPool`, `Set`, `PickPeer`, `ServeHTTP` and the client `Fetch`.
- `Protocol.dfy`: the end-to-end statement, with a client fetching from a server. It also holds the demo deployment of main.go.

Two points where the code differs from what its own comments and log lines suggest. The model follows the code in both:

- **`PickPeer`.** The `PeerPicker` interface (gocache/peers.go:5-6) is there to locate the peer that owns a key, and `PickPeer` writes a "Pick peer" log line for a remote owner (gocache/http.go:56). It still returns `(nil, false)` (gocache/http.go:58). See Findings.
- **Path split.** The comment at gocache/http.go:74 shows the path as `<basepath>/<groupname>/<key>`. The code splits at the first `/` only (gocache/http.go:75), so a key may itself contain `/`.

## Model

| member | source | states |
|---|---|---|
| HttpPool.NewHTTPPool | gocache/http.go:32-37 | a new pool has no ring and no clients, which satisfies the pool invariant; its base path is the default `/_gocache/` (http.go:19) |
| HttpPool.Set | gocache/http.go:40-49 | the ring is rebuilt from exactly the given peers with 50 replicas; the client map's keys are exactly the given peers, so no earlier peer survives; each client's base URL is the peer followed by the base path; the pool invariant holds afterwards |
| HttpPool.PickPeer | gocache/http.go:52-58 | for every key and every ring answer, the result is no client and `false`; the owner is logged exactly when the ring names a non-empty peer other than this node |
| HttpPool.PickPeerIntended | gocache/http.go:52-58 | corrected pick: `true` exactly when the ring names a non-empty peer other than this node, and then that peer's client from the map |
| HttpPool.IntendedPickAfterSet | gocache/http.go:40-58 | after `Set`, when the ring answers with one of its peers, the corrected pick returns a client exactly for a remote owner, and that client's base URL is the owner followed by the base path |
| HttpPool.PickPeerDropsRemoteOwner | gocache/http.go:52-58 | a concrete valid two-peer pool whose ring routes "Tom" to the other peer: the corrected pick returns that peer's client, while the written pick returns none |
| HttpPool.ServeHTTP | gocache/http.go:69-103 | panics exactly when the path lacks the base-path prefix; answers 400 exactly when the rest has no `/`; every other error is 404 or 500; a body is always sent as `application/octet-stream` |
| HttpPool.ServeRoutes | gocache/http.go:74-102 | a path `<basePath><group>/<key>`, with no `/` in the group, reaches exactly that group and key, even when the key holds further `/`. An unknown group gives 404 "no such group: ". A load error becomes a 500 with its text. An encoding error becomes a 500. Otherwise the reply is the encoded value |
| HttpPool.ServeForeignPath | gocache/http.go:70-72 | a path outside the base path panics with the path in the message, whatever the registry, loader and codec |
| HttpPool.ServeMalformedPath | gocache/http.go:75-79 | when the rest has no `/` (the bare base path included), the reply is "bad request" 400, and it does not depend on the registry or the loader |
| HttpPool.ServeUnknownGroupSkipsLoad | gocache/http.go:84-90 | for a group the registry does not know, the reply does not depend on the loader, so `Group.Get` is never reached |
| HttpPool.RequestPathRoutes | gocache/http.go:111-116 | the client URL is the peer, then the base path, the escaped group, `/` and the escaped key; if escaping leaves no `/` in the group, the server's split gives back exactly the escaped group and the escaped key |
| HttpPool.Fetch | gocache/http.go:110-138 | succeeds exactly when the transport, the 200 status, the body read and the decoding all succeed, and then returns exactly the decoded body; a non-200 status gives "server returned: " plus the status line |
| PeerProtocol.PeerFetch | gocache/http.go:69-138 | client against server: no group, a load failure or an encoding failure each reaches the client as an error; otherwise the client gets the decoded body, which is the loaded value when the codec round-trips |
| PeerProtocol.DemoFetch | main.go:12-25 | with the demo "scores" table and the protobuf codec, a key in the table reaches the client as its value; any other key reaches it as an error |
| PeerProtocol.DemoFetchTom | main.go:13 | with the same table, a client asking for "Tom" in "scores" receives exactly the bytes of "630" |
| Paths.HasPrefix | gocache/http.go:70 | the prefix test agrees with sequence prefix |
| Paths.FirstIndex | gocache/http.go:75 | the position of the first separator, or none exactly when there is no separator |
| Paths.SplitOnce | gocache/http.go:75 | gives one part (the input) exactly when there is no separator, and otherwise two parts that rejoin to the input, with no separator in the first |
| Paths.SplitOnceJoin | gocache/http.go:75-82 | splitting `a + "/" + b` with no `/` in `a` gives exactly `[a, b]` |
| Wire.Marshal | gocache/http.go:96 | the encoding of an empty value is empty; otherwise it starts with the key of field 1 and ends with the value's bytes |
| Wire.Unmarshal | gocache/http.go:132-135 | empty input decodes to the empty value; input with a different leading key fails; a decoded value is never longer than its input |
| Wire.UnmarshalMarshal | gocache/http.go:96-135 | decoding what the server encoded gives back the same response, for every value |
| Wire.ProtoCodec | gocache/http.go:96-135 | the protobuf codec never fails to encode, and it round-trips every response |

## Left out

- Locking: the mutex in `Set` and `PickPeer` exists only for concurrent callers. Both are modelled as sequential state transitions.
- Logging: `p.log` is left out, except that `Pick.logged` records which peer `PickPeer` would name in its log line.
- net/http is left out: `ListenAndServe`, the transport itself, and the server's URL-path decoding.
  - `transport` is a parameter.
  - `PeerProtocol.Carries` states what a working connection delivers. It assumes the body of a 200 reply is read intact.
  - Client and server paths are compared as sent, before decoding.
  - `url.QueryEscape` writes a space as `+`, which path decoding does not turn back into a space, and `/` as `%2F`, which it does. That behaviour belongs to the library and is not modelled.
- `http.Error` formatting: only the status code and the message are modelled. The `text/plain` header and the trailing newline are not.
- `res.Body.Close` and `w.Write` errors: these have no effect on results.
- The gocachepb message types are not part of this model.
  - `Request` and `Response` carry only the fields the protocol uses.
  - `ProtoCodec` assumes `Response` has the single field `bytes value = 1`.
- Wire.Unmarshal: accepts one length-delimited field 1 covering the whole input. Like `proto.Unmarshal`, it also accepts a field 1 that is present but empty (`0x0A 0x00`) and a length written as a non-minimal varint. Unlike `proto.Unmarshal`, it rejects unknown fields and repeated occurrences of field 1. Varints have no 10-byte or 64-bit bound here.
- The consistenthash package is not part of this model. `RingLookup` stands for its `Get`, and `Ring` records only the replica count and the peer list. Hash positions are not modelled.
- HttpPool.PickPeer: requires a ring built by `Set`. Before the first `Set`, the Go code calls `Get` on a nil ring, whose behaviour belongs to the consistenthash package.
- `GetGroup` and `Group.Get` are parameters (`groups` and `load`). Their caching, call deduplication and empty-key check are not modelled. In the demo, `DemoLoad` stands for `Group.Get` on a cold cache.
- gocache/peers.go declares only the `PeerPicker` and `PeerGetter` interfaces. They are realised by `PickPeer` and by `Fetch`, not by separate declarations.
- main.go: flag parsing, server start-up and the `addr[7:]` scheme stripping are glue and are left out.
- Strings are sequences of characters rather than Go's byte strings. The routing separator `/` is a single byte either way.

## Findings

| source | as written | input that shows it | evidently intended | confidence | as-written member | corrected member |
|---|---|---|---|---|---|---|
| gocache/http.go:52-58 | logs the remote owner the ring names, then returns `nil, false`, so a group never fetches from a peer | pool "http://localhost:8001" after `Set("http://localhost:8001", "http://localhost:8002")`, with a ring that routes "Tom" to 8002 | `return p.httpGetters[peer], true` when the owner is a non-empty peer other than this node | high; not executed | HttpPool.PickPeer, shown by HttpPool.PickPeerDropsRemoteOwner | HttpPool.PickPeerIntended, proved by HttpPool.IntendedPickAfterSet |
