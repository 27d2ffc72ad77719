# DHT server and onion relay of a Tox node, modelled in Dafny

This project models the decision logic of a Tox DHT node (the Rust `tox`
crate): what the DHT server does with each incoming packet, how it relays
onion requests and peels onion responses, how it paces its NodesRequests, how
a client builds an onion `Path`, and two small utilities (`gen_ping_id`,
`random_element`).

Each handler is a pure function from the server state, the packet and the
source address to a `Step`: the new state, the datagrams to send, and whether
the handler reported an error. There are no channels, futures or locks.
Randomness is passed in explicitly: nonces, ping ids, the `random_u32` draws
and fresh keys. The clock is an explicit `now` in seconds.

Cryptography is a symbolic term model. A ciphertext `Sealed(key, nonce, x)`
opens only under the same key and nonce. Forged bytes never open. A public key
is the image of its secret key. `Precompute` forgets the order of the two
parties, so both ends of a box derive the same key. Collaborators whose
source is not part of this model are stood in for by the smallest faithful
interface:

- the request queue is the set of outstanding `(public key, ping id)` pairs, and `check_ping_id` consumes a pair;
- a close-list entry (`DhtNode`) has a key, one socket address (used when it is packed for a NodesRequest) and the two last-response times;
- `get_socket_addr`, which picks an entry's address for the server's IP mode, is a function parameter of `HandleDhtReq`;
- `is_bad` is a predicate parameter;
- the NAT ping punching interval is a parameter, as it is in `handle_nat_ping_resp` itself.

Modules: `Basics` (integer ranges, `Option`, `Result`), `Crypto`, `Net`
(addresses, `IpPort`, IPv4-mapped IPv6), `Utils`, `Packets`, `DhtNodes`,
`OnionPath`, `DhtServer` (the handlers) and `OnionRoute` (what the relay
handlers achieve together).

## Model

| member | source | states |
|---|---|---|
| Crypto.Open | src/toxcore/dht/server/mod.rs:834-839 | decryption succeeds exactly for a ciphertext sealed under the same key and nonce, and then yields its plaintext; forged bytes never decrypt |
| Crypto.OpenSeal | src/toxcore/dht/server/mod.rs:1902-1938 | what was sealed under a key and nonce opens under them to the same value |
| Crypto.OpenWrongKey | src/toxcore/dht/server/mod.rs:943-948 | a value sealed under one key does not open under another, so a return opened with the relay's current onion key fails unless that key sealed it |
| Crypto.PrecomputeSymmetric | src/toxcore/dht/server/mod.rs:834 | the key a relay computes from the sender's public key and its own secret equals the key the sender computes from the relay's public key and its secret |
| Crypto.PrecomputeDeterminesParties | src/toxcore/dht/server/mod.rs:834 | a shared key is derived only by the two parties it belongs to |
| Net.ToIpv6Mapped | src/toxcore/dht/server/mod.rs:494 | the mapped address is the `::ffff:0:0/96` prefix of section 2.5.5.2 of RFC 4291 followed by the four IPv4 octets |
| Net.MappedRoundTrip | src/toxcore/dht/server/mod.rs:494 | the IPv4 address can be recovered from its mapped form |
| Net.MappedOnlyFromPrefix | src/toxcore/dht/server/mod.rs:494 | an IPv6 address is an IPv4-mapped one exactly when it carries the mapped prefix |
| Net.MappedInjective | src/toxcore/dht/server/mod.rs:494 | distinct IPv4 addresses map to distinct IPv6 addresses |
| Net.FromUdpSaddr | src/toxcore/dht/server/mod.rs:843 | the recorded return address is marked UDP and converts back to the very socket address it came from |
| Net.FromTcpSaddr | src/toxcore/dht/server/mod.rs:1055 | the recorded return address is marked TCP and converts back to the socket address it came from |
| Utils.GenPingId | src/toxcore/utils.rs:7-13 | the id is never 0 and is the first non-zero value of the random stream; every earlier draw was 0 |
| Utils.RandomElement | src/toxcore/utils.rs:16-22 | `None` exactly for an empty slice; otherwise an element of the slice; a one-element slice always yields its element |
| Utils.RandomElementCovers | src/toxcore/utils.rs:19-20 | every position of the slice is chosen by some draw |
| Packets.NewOnionReturn | src/toxcore/dht/server/mod.rs:841-845 | the return opens under the relay's onion key to exactly the recorded address and predecessor, and under no other key |
| DhtNodes.FindByKey | src/toxcore/dht/server/mod.rs:774-776 | finds the first entry (close node or friend) with the key, and reports none exactly when no entry has it |
| OnionPath.NewPath | src/toxcore/onion/path.rs:12-34 | needs at least three nodes; number 0; hop 1 uses the caller's public key and a key computed from `nodes[0]` and the caller's secret; hops 2 and 3 use the public halves of the fresh pairs with keys computed from `nodes[1]`, `nodes[2]`; keeps exactly the first three nodes in order |
| OnionPath.PathKeysAgree | src/toxcore/onion/path.rs:15-27 | each path node computes the client's hop key from the public key announced for that hop and its own secret key |
| DhtServer.Delivered | src/toxcore/dht/server/mod.rs:491-497 | the destination keeps its port and denotes the same host; in IPv6 mode it is always IPv6; otherwise it is unchanged |
| DhtServer.SendTo | src/toxcore/dht/server/mod.rs:490-511 | fails exactly for an IPv6 destination in IPv4 mode; otherwise sends the packet unchanged to the same host and port, IPv4 destinations rewritten to IPv4-mapped IPv6 in IPv6 mode |
| DhtServer.SendNodesReq | src/toxcore/dht/server/mod.rs:326-348 | refuses our own key; otherwise a NodesRequest from our key that the target, and only a holder of the target's key, opens to the search key and ping id |
| DhtServer.GoodNodes | src/toxcore/dht/server/mod.rs:283-287 | keeps each close node that is not bad with its multiplicity and drops every bad one; a list with no bad node is kept as it is |
| DhtServer.GoodNodesConcat | src/toxcore/dht/server/mod.rs:283-293 | the filter distributes over concatenation, so good nodes keep their close-list order, which the bias toward low indices relies on |
| DhtServer.BiasedIndex | src/toxcore/dht/server/mod.rs:292-296 | the chosen index is within the good nodes and never above the first draw's index |
| DhtServer.BiasedIndexReaches | src/toxcore/dht/server/mod.rs:292-296 | every index up to the first draw's index can be chosen |
| DhtServer.SendNodesReqRandom | src/toxcore/dht/server/mod.rs:275-309 | does nothing while paced (under 20 s and 5 bootstrap rounds done) or with no good node; otherwise requests from the good node at the index the two draws select (never later in the list than the first draw), records its ping id, and increments the bootstrap count and resets the timestamp; the count moves only in that case |
| DhtServer.SendNodesReqRandomReaches | src/toxcore/dht/server/mod.rs:290-300 | every good node no later in the list than the first draw's index is the one asked for some second draw |
| DhtServer.HandlePingResp | src/toxcore/dht/server/mod.rs:550-585 | errors for an undecryptable packet, ping id 0, an id the queue does not hold, or a sender missing from the close list; an accepted id is consumed; on success only the sender's IPv4 or only its IPv6 response time changes, by source family |
| DhtServer.PingRespResolvesOnce | src/toxcore/dht/server/mod.rs:564-584 | once a response got past the queue's id check, replaying it is refused as an id mismatch |
| DhtServer.HandleNatPingReq | src/toxcore/dht/server/mod.rs:757-768 | answers the sender with a request addressed to it that it opens to a NatPingResponse echoing the id |
| DhtServer.HandleNatPingResp | src/toxcore/dht/server/mod.rs:773-803 | errors for an unknown friend, id 0, or a wrong or stale id; succeeds exactly when the id is the friend's and recent, and then clears only that friend's punching-done flag |
| DhtServer.HandleDhtReq | src/toxcore/dht/server/mod.rs:715-752 | for us: undecryptable is an error; a NatPingRequest is `handle_nat_ping_req`, a NatPingResponse is `handle_nat_ping_resp` with the punching interval, a DhtPkAnnounce does nothing; only the friends can change and any reply goes back to the sender; for another key: the state never changes, and the request goes on unchanged through `send_to` to that close node's address if the node is known and has one, otherwise it is dropped without error |
| DhtServer.NatPingRoundTrip | src/toxcore/dht/server/mod.rs:723-803 | a friend answers our NatPingRequest with a request back to us, and handling it succeeds exactly when the id is the friend's outstanding, recent ping id |
| DhtServer.DhtReqRelayTransparent | src/toxcore/dht/server/mod.rs:740-744 | a relayed request is handled at the close node exactly as the original, and the addressee opens it to what the sender sealed |
| DhtServer.HandleLanDiscovery | src/toxcore/dht/server/mod.rs:808-827 | nothing happens when LAN discovery is off or the packet carries our key; otherwise the ping id is recorded and a NodesRequest for our own key, with the given nonce in its header and its payload sealed under that nonce, goes to the sender, readable by it |
| DhtServer.HandleOnionRequest0 | src/toxcore/dht/server/mod.rs:832-853 | undecryptable: error, nothing sent; else nonce, decrypted temporary key and inner layer go unchanged to the decrypted address, with a return that opens to the sender's UDP address and no predecessor |
| DhtServer.HandleOnionRequest1 | src/toxcore/dht/server/mod.rs:858-879 | as layer 0, but the new return opens to the sender's address and the incoming return |
| DhtServer.HandleOnionRequest2 | src/toxcore/dht/server/mod.rs:884-909 | the decrypted announce or data request goes to the destination with a return that opens to the sender's address and the incoming return |
| DhtServer.HandleTcpOnionRequest | src/toxcore/dht/server/mod.rs:1050-1065 | the TCP request enters as layer 1, unchanged, with a return that opens to the TCP client's address and no predecessor |
| DhtServer.HandleOnionResponse3 | src/toxcore/dht/server/mod.rs:942-962 | a return that does not open is an error; one with no nested return is an error; otherwise the payload goes unchanged with the nested return to the recorded address |
| DhtServer.HandleOnionResponse2 | src/toxcore/dht/server/mod.rs:967-987 | the same peeling one hop nearer the client, producing an OnionResponse1 |
| DhtServer.HandleOnionResponse1 | src/toxcore/dht/server/mod.rs:993-1035 | the return must hold no nested return; UDP: the inner response is sent as its own top-level packet; TCP: it goes to the TCP relay if one is attached, otherwise error |
| DhtServer.RefreshOnionKey | src/toxcore/dht/server/mod.rs:1037-1042 | once the key is 7200 s old it is replaced by the fresh key, with the time reset; before that nothing changes; no other field ever changes |
| DhtServer.RefreshExpiresReturns | src/toxcore/dht/server/mod.rs:1036-1042 | after a refresh, returns minted under the old key are refused at all three response layers |
| OnionRoute.WrapThenPeel | src/toxcore/dht/server/mod.rs:841-987 | returns wrapped by relays in path order and peeled in reverse give back the relays' recorded addresses in reverse order, for any number of hops |
| OnionRoute.PeelWrongKey | src/toxcore/dht/server/mod.rs:942-948 | peeling a layer with a key other than its relay's stops the return path |
| OnionRoute.ForwardPath | src/toxcore/dht/server/mod.rs:832-909 | an onion built on a new path is opened by the three relays in turn; each forwards to the next node and adds one return layer, and the destination gets the inner request |
| OnionRoute.ReturnPath | src/toxcore/dht/server/mod.rs:942-1008 | a response carrying that return is peeled by relays 3, 2, 1, each sending it to the address it recorded, and reaches the client as a top-level response |
| OnionRoute.TcpEntryReturn | src/toxcore/dht/server/mod.rs:1010-1026 | a response to a request that entered through TCP goes to the TCP relay if one is attached, and is refused otherwise |

## Left out

- Async plumbing (`run`, `dht_main_loop`, futures, channels, locks, timers): outgoing traffic is the returned list of datagrams. A failure of the channel or the TCP sink itself is not modelled.
- `handle_packet` dispatch and the handlers not modelled here: ping request, nodes request/response, onion announce and data requests. They rely on the Kbucket, Bucket, PingSender and OnionAnnounce collaborators, whose source is not part of this model.
- `handle_bootstrap_info`: it only sends the node's version and message of the day back through `send_to`; it is outside the handlers modelled here and adds nothing beyond `SendTo`.
- DhtNodes.DhtNode: one socket address stands for the entry's separate IPv4 and IPv6 associations; dht_node.rs is not part of this model, so `get_socket_addr` is a parameter and the packing of an entry into a `PackedNode` uses that one address.
- Cookie request, cookie response and crypto handshake handlers: pure pass-throughs to net_crypto.
- `ping_bootstrap_nodes`, `ping_and_get_close_nodes`, `send_nodes_req_to_friends`, `send_nat_ping_req`: loops over collaborators not in this model.
- `Server::new` and the setters: plain field assignments.
- The request queue's timeouts (`clear_timed_out`) and how it draws ids: request_queue.rs is not part of this model, so ping ids are parameters.
- Kbucket internals (ordering, capacity, `is_bad`), hole punching and the onion client, including its path selection.
- Real cryptography: keys, nonces and ciphertexts are symbolic, and wire sizes are not modelled.
- IPv6 flow info and scope id of socket addresses.
- DhtServer.SendNodesReqRandom: `bootstrap_times` is an unbounded counter rather than a `u32`; it would need over 2^32 rounds of 20 s to wrap.
- Utils.GenPingId: the random stream is a finite prefix required to contain a non-zero value, because the loop does not end on a stream of zeros.
- OnionRoute.ForwardPath: stated for relays that can reach the next address (`Routable`); an unroutable hop gives the IPv4-mode error from `send_to`, which `Forwarded` states per handler.
- DhtServer.HandleLanDiscovery, DhtServer.SendNodesReq, DhtServer.HandleNatPingReq, DhtServer.NatPingRoundTrip: the NodesRequest or the NatPingResponse is readable by the target only when the sender's public key matches its secret key, which the source assumes and does not check.
