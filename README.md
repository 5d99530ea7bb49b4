# meshsim in Dafny

A verified model of the core of **meshsim**, a simulator of message flooding in a mesh network. The simulator has these parts:

- **Nodes** (`internal/node/node.go`). Each node takes encrypted messages from its inbound queue. It drops a message whose TTL is used up. It decrypts a message addressed to itself. It forwards every other message with one hop less.
- **The network fabric** (`internal/network/network.go`). It keeps the registry of nodes. For each message a node forwards, it copies the message to every registered neighbour, unless a random draw drops it.
- **The event hub** (`internal/ws/hub.go`). It copies every simulation event into the bounded send queue of each connected observer. An observer whose queue is full is evicted.
- **The HTTP handlers** (`cmd/meshsim/main.go`):
  - configure a simulation;
  - inject a test message;
  - list the node ids.
- **The offline generator** (`scripts/gen_random_topology.go`). It writes a random 20-node topology.

The model follows the source's own form:

- The hub, clients, nodes, network and simulator state are classes. Their methods update the fields in place.
- Each Go channel is a `seq` field.
- Each processing loop is a method whose loop is proved against a specification function:
  - `Handle`/`Trace` for the nodes;
  - `Fan` for the fan-out;
  - `KeyMap`/`LastIndex` for key generation;
  - `Adjacency`/`Layout` for the generator.
- Lemmas prove what the program promises about those functions.

Randomness and the outside world come in as explicit inputs:

- drop draws as a `seq<real>`;
- the generator's flip stream as a `seq<real>`;
- encryption, decryption and key generation as function-typed parameters;
- file reading and YAML parsing as function-typed parameters;
- clock readings as an integer `now`.

Modules: `Common` (shared types), `Ws` (hub), `Mesh` (nodes), `Fabric` (network), `Config` (topology shapes), `Server` (handlers), `RandomTopology` (generator).

The model follows the code in three places where a stricter design would behave differently:

- `AddNode` silently overwrites a node with the same id; it does not reject it.
- `handleConfigure` calls `netSim.Shutdown()`, but `network.go` defines no such method. It is modelled as a teardown that empties the registry (`Fabric.Network.Shutdown`).
- A request rejected after the teardown keeps the old topology and TTL. The old key maps survive only a rejection that comes before key generation. A failed key generation leaves the new, partly filled maps.

## Model

| member | source | states |
|---|---|---|
| Ws.NamesDistinct | internal/ws/hub.go:13-20 | the seven event types carry pairwise distinct `type` strings |
| Ws.Client.constructor | internal/ws/hub.go:101-104 | a new observer starts with an empty, open send queue |
| Ws.Client.Take | internal/ws/hub.go:127-130 | the writer takes the oldest queued event, FIFO; an empty queue yields nothing |
| Ws.Client.Offer | internal/ws/hub.go:78-85 | non-blocking send: appends the event iff fewer than 256 are queued, otherwise closes the queue; the bound of 256 is kept; offering to a closed client (a panic in Go) is excluded |
| Ws.Hub.constructor | internal/ws/hub.go:47-52 | NewHub starts with no clients and no pending events |
| Ws.Hub.BroadcastEvent | internal/ws/hub.go:90-92 | the event is appended to the pending broadcast queue, behind earlier ones |
| Ws.Hub.Register | internal/ws/hub.go:66-67 | the client joins the set; nothing else changes; registering twice is a no-op |
| Ws.Hub.Unregister | internal/ws/hub.go:69-73 | a registered client is removed and its queue closed; an unknown client changes nothing (idempotent) |
| Ws.Hub.Dispatch | internal/ws/hub.go:75-86 | takes the oldest pending event; every client with room gets it appended; every client with a full queue is closed and removed; the survivors are exactly the clients that had room; every survivor's history equals the dispatch log since it joined |
| Ws.SameRelativeOrder | internal/ws/hub.go:75-92 | the histories of any two registered clients are suffixes of one another, so no two observers see events in different orders |
| Mesh.Key32 | internal/node/node.go:88-90 | copying a key into `[32]byte` gives 32 bytes: the key's bytes then zeros, extra bytes dropped |
| Mesh.Handle | internal/node/node.go:62-133 | exactly two events, first `received` (From = sender, To = node, arriving TTL); then `dropped_ttl` iff TTL ≤ 0 (checked before the addressee), `decrypted` with `plaintext` or `decrypt_failed` with `error` iff TTL > 0 and addressed here, `forwarded` (From = node, To = "", TTL − 1) iff TTL > 0 and not addressed here; an outbound message exists iff forwarded, equals the input except TTL − 1, and has TTL ≥ 0 |
| Mesh.TraceAppend | internal/node/node.go:62-133 | messages are handled in FIFO order: handling a then b gives a's events and forwards followed by b's |
| Mesh.TraceBounds | internal/node/node.go:62-133 | two events per message, at most one forwarded message per message, every forwarded TTL ≥ 0 |
| Mesh.TraceReceivedFirst | internal/node/node.go:64-71 | the i-th message's event pair starts with its `received` event |
| Mesh.Node.constructor | internal/node/node.go:40-56 | NewNode stores id, neighbours, keys and hub unchanged; both queues empty and open with capacity 10 |
| Mesh.Node.Stop | internal/node/node.go:35-37 | closes the inbound queue |
| Mesh.Node.Step | internal/node/node.go:62-133 | one loop turn: the oldest inbound message is removed, its `Handle` events reach the hub in order, its forward is appended to the outbound queue; with the inbound queue empty and closed the outbound queue is closed |
| Mesh.Node.Drain | internal/node/node.go:61-133 | the loop run to exhaustion: outbound grows by the forwards of all waiting messages in FIFO order, the hub receives all their events in order, and a closed inbound queue closes the outbound one |
| Mesh.InjectedMessageFate | cmd/meshsim/main.go:273-281 | a message injected at its own sender with TTL ≥ 1 is forwarded (with TTL − 1) iff from ≠ to, else decrypted or rejected there |
| Fabric.FanEvents | internal/network/network.go:39-71 | neighbours are visited in list order; unknown ids get no event; each registered neighbour gets exactly one event, `dropped_network` iff its draw < drop rate else `delivered`, with the sender, that neighbour and the unchanged TTL; the message goes to exactly the `delivered` neighbours, in order |
| Fabric.FanExtremes | internal/network/network.go:46-56 | with draws in [0,1): rate 0 delivers to every registered neighbour, rate 1 drops all and delivers nothing |
| Fabric.Network.constructor | internal/network/network.go:21-27 | NewNetwork: empty registry, the given drop rate and hub |
| Fabric.Network.AddNode | internal/network/network.go:30-32 | the node is registered under its id, overwriting any earlier one; all other entries unchanged |
| Fabric.Network.Shutdown | cmd/meshsim/main.go:121-123 | the teardown leaves no node registered |
| Fabric.Network.Pump | internal/network/network.go:38-71 | one fan-out turn: the oldest outbound message leaves the sender's queue, the hub receives the `Fan` events, and each registered node's inbound queue grows by one unchanged copy per delivery to it; with nothing waiting, the sender's queue, the hub and every inbound queue are unchanged; a delivery into a closed inbound queue (a panic in Go) is excluded |
| Server.ApiError.Status | cmd/meshsim/main.go:114-268 | every error response is 400 Bad Request or 500 Internal Server Error |
| Server.TextsDistinct | cmd/meshsim/main.go:114-268 | the thirteen error responses have pairwise distinct texts (the two parse errors for any detail), so each rejection can be told apart |
| Server.DecideStatus | cmd/meshsim/main.go:125-171 | before key generation, only an inaccessible or unparsable topology file answers 500; every other rejection answers 400 |
| Server.IsSpaceLatin1 | cmd/meshsim/main.go:138-153 | in the Latin-1 range the white space `strings.TrimSpace` strips is exactly tab, newline, vertical tab, form feed, carriage return, space, NEL and NBSP |
| Server.TrimSpace | cmd/meshsim/main.go:138-153 | the result is empty iff the input is all Unicode white space, and otherwise starts and ends with a non-space |
| Server.CheckParams | cmd/meshsim/main.go:125-133 | rejects dropRate outside [0,1] first, then ttl < 1; accepts exactly the valid pairs |
| Server.SelectTopology | cmd/meshsim/main.go:135-171 | non-blank custom YAML wins and its parse outcome decides (a parse error answers with its detail); otherwise a blank file name is rejected, else the file's outcome decides: missing → not found, inaccessible → access error, unparsable → parse error with its detail |
| Server.Decide | cmd/meshsim/main.go:125-171 | parameter errors come before topology errors; success implies valid parameters |
| Server.KeyMapLastWins | cmd/meshsim/main.go:177-187 | the key map has an entry for exactly the topology's ids, and a repeated id keeps the pair generated for its last record |
| Server.RegisterStep | cmd/meshsim/main.go:195-205 | registering the node built from record j under its id (overwriting) turns the registry of the first j records into that of the first j + 1: one node per distinct id, built from its last record |
| Server.AddRecord | cmd/meshsim/main.go:196-203 | one turn of the node loop: a fresh node for record j is registered under its id and nothing else in the registry changes |
| Server.RegisterNodes | cmd/meshsim/main.go:195-205 | one fresh node per distinct id, built from the last record with that id, with that id's private key, the shared public keys and the hub |
| Server.Simulator.constructor | cmd/meshsim/main.go:27-34 | no network, no keys, no topology before the first configuration |
| Server.Simulator.GenerateKeys | cmd/meshsim/main.go:176-187 | fresh maps filled in topology order; stops at the first failed generation, leaving the maps of the records before it |
| Server.Simulator.Install | cmd/meshsim/main.go:189-205 | after key generation: the TTL and topology are stored and a fresh network with the requested drop rate registers one fresh node per distinct id, keeping the simulator's invariant |
| Server.Simulator.Configure | cmd/meshsim/main.go:112-213 | bad JSON changes nothing; otherwise any old network is torn down first, even if the request is then rejected; errors in the order of `Decide`, then key generation; success stores the topology and TTL, the key map and a fresh network whose registry is exactly the topology's ids |
| Server.Simulator.Send | cmd/meshsim/main.go:237-286 | no network → not configured; then bad JSON; then unknown `from` before unknown `to`; on success exactly the sender's inbound queue gains Message(from, to, current TTL, now, sealed "Hello from X → Y"); an encryption failure changes nothing; a closed sender inbound queue (a panic in Go) is excluded |
| Server.Simulator.GetNodes | cmd/meshsim/main.go:216-228 | `[]` before any topology; otherwise the topology ids in order, duplicates included, and `null` for a topology with no nodes |
| RandomTopology.Digits | scripts/gen_random_topology.go:27 | the decimal notation is non-empty, all digits, one digit exactly below 10 |
| RandomTopology.NameInjective | scripts/gen_random_topology.go:25-30 | distinct node numbers give distinct ids `NodeN` |
| RandomTopology.PairRank | scripts/gen_random_topology.go:32-34 | every pair's flip lies among the first 190 draws, within its row's block |
| RandomTopology.PairRankOrder | scripts/gen_random_topology.go:32-34 | flips are drawn in lexicographic pair order, so each unordered pair gets a draw of its own |
| RandomTopology.AllRows | scripts/gen_random_topology.go:32-33 | the double loop visits exactly 190 pairs |
| RandomTopology.NbrsMembers | scripts/gen_random_topology.go:32-39 | a node's list at any point of the loop holds exactly the linked partners whose pair has been visited |
| RandomTopology.NbrsAscending | scripts/gen_random_topology.go:32-39 | those lists are strictly ascending |
| RandomTopology.VisitPair | scripts/gen_random_topology.go:34-37 | visiting pair (i, j) appends j to i's and i to j's list iff the flip succeeds, and changes no other list |
| RandomTopology.VisitRow | scripts/gen_random_topology.go:33-38 | the inner loop consumes one draw per pair of the row, in stream order, and leaves exactly the table of the start of the next row |
| RandomTopology.VisitEntries | scripts/gen_random_topology.go:34-37 | the loop body for pair (i, j) links the two entries iff its draw is below 0.2 and turns the table before the pair into the table after it |
| RandomTopology.Generate | scripts/gen_random_topology.go:24-39 | exactly 20 entries, ids Node1…Node20 in order, with neighbour lists equal to `Adjacency` |
| RandomTopology.AdjacencyEdge | scripts/gen_random_topology.go:32-39 | x lists y iff x ≠ y and their pair's flip is below 0.2 |
| RandomTopology.AdjacencySymmetric | scripts/gen_random_topology.go:35-36 | j is in i's list iff i is in j's list |
| RandomTopology.AdjacencyLoopFree | scripts/gen_random_topology.go:33 | no node lists itself |
| RandomTopology.AdjacencyFlip | scripts/gen_random_topology.go:32-36 | for i < j the edge exists iff draw number PairRank(i, j) is below 0.2 |
| RandomTopology.AdjacencySorted | scripts/gen_random_topology.go:32-39 | every neighbour list is in ascending node order and duplicate-free |
| RandomTopology.NeighborLine | scripts/gen_random_topology.go:44-51 | the neighbour line: `    neighbors: [`, the quoted ids joined by ", ", then `]` and a line break |
| RandomTopology.Emit | scripts/gen_random_topology.go:41-52 | the print loops write exactly `Layout`: a `nodes:` line, then per entry an id line and a bracketed neighbour line |
| RandomTopology.LayoutLines | scripts/gen_random_topology.go:41-52 | for ids without line breaks the text has 1 + 2·n line breaks |
| RandomTopology.GeneratedLines | scripts/gen_random_topology.go:25-52 | the generated file has exactly 41 lines |

## Left out

- Goroutines and interleaving. The processing loops of `Node.Start`, `Network.Connect` and `Hub.Run` are methods that run one turn or run to exhaustion. `n.Start()` and `netSim.Connect()` in `handleConfigure` only start those workers, and they are not modelled as processes.
- Channel blocking:
  - The node queues (capacity 10) and the hub's broadcast buffer (capacity 256) are unbounded sequences. A producer that would block on a full channel simply appends.
  - The capacities are recorded as constants.
  - The observers' send queues of 256 are enforced, because the hub never blocks on them.
- Mesh.Node.Step: the outbound queue never blocks the worker.
- Ws.Hub.BroadcastEvent: the broadcast buffer never blocks the caller.
- Mesh.Node.Stop: a second close, which panics in Go, is excluded by a precondition. A send into a closed queue panics too, so `Fabric.Network.Pump` requires every node it delivers to to be open, `Server.Simulator.Send` requires the sender's inbound queue to be open, and `Ws.Client.Offer` requires an open client; main.go never calls Stop, and `Ws.Hub.Valid` keeps every registered client open.
- Ws.Hub.Register: requires the client to be new (empty, open queue) or already registered. Its only caller, `ServeWS`, always registers a freshly made client.
- Fabric.Network.Pump: the drop draws are one value per neighbour position. Go draws only for registered neighbours, from the same stream as the latency draws. The latency (`time.Sleep` of a random 0–99 ms) is not modelled.
- Wall-clock time. Every event emitted by one step carries the same timestamp `now`.
- Cryptography (`internal/crypto/crypto.go`):
  - `box.Open`, `box.Seal` with a random nonce, and `box.GenerateKey` are function parameters.
  - No round-trip between sealing and opening is assumed.
  - Nonces are byte strings of any length.
  - The failure text is the `decryption failed` of `DecryptMessage`.
- File access and YAML parsing (`pkg/config/config.go`). These are function parameters. `os.Stat` and `config.LoadConfig` are merged into one `FileResult`.
- The WebSocket upgrade, `ServeWS`, `readPump`, the JSON encoding of events and the HTTP router.
  - The writer side of an observer is only its dequeue (`Client.Take`).
  - Requests arrive already decoded, or as `None` when JSON decoding fails.
  - Success bodies are not modelled.
  - Error responses are modelled as their status codes and texts (`ApiError`).
- `handleGetTopologies` (a directory listing), static file serving and the browser UI (`web/static/app.js`).
- `rand.Seed` and the source of randomness.
- Floating point. Drop rates and draws are exact reals, so comparisons are exact.
- Event payloads: only string values occur, so payloads are string maps.
- Standard output. The generator's output is returned as a string.
