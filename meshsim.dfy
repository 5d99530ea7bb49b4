/** The request-level decisions of cmd/meshsim/main.go: configuring a
    simulation, injecting a test message and listing the node ids. HTTP
    routing and JSON encoding are abstracted to request and response values. */
module Server {
  import opened Common
  import opened Ws
  import opened Mesh
  import opened Fabric
  import opened Config

  /** The decoded body of POST /configure. */
  datatype ConfigureRequest = ConfigureRequest(topology: string, customYaml: string, dropRate: real, ttl: int)

  /** The decoded body of POST /send. */
  datatype SendRequest = SendRequest(from: NodeId, to: NodeId)

  datatype KeyPair = KeyPair(publicKey: Bytes, privateKey: Bytes)

  /** What looking up, reading and parsing a file under testdata/ gives. */
  datatype FileResult = Loaded(topology: Topology) | Missing | Inaccessible | Unparsable(detail: string)

  /** Authenticated encryption (`box.Seal` with a fresh random nonce). */
  datatype Sealed = Sealed(cipher: Bytes, nonce: Bytes)
  type Sealer = (string, Bytes, Bytes) -> Option<Sealed>

  /** The body of GET /nodes: a JSON array, or `null` for a nil slice. */
  datatype NodeList = JsonArray(ids: seq<NodeId>) | JsonNull

  /** The errors the handlers answer with. */
  datatype ApiError =
    | InvalidJson
    | DropRateOutOfRange
    | TtlTooSmall
    | CustomYamlInvalid(detail: string)
    | NoTopologyFile
    | TopologyFileNotFound
    | TopologyFileInaccessible
    | TopologyFileInvalid(detail: string)
    | KeyGenerationFailed
    | NotConfigured
    | InvalidFrom
    | InvalidTo
    | EncryptionFailed
  {
    /** The HTTP status code of the error response: 400 Bad Request, or 500
        Internal Server Error for faults on the server's side. */
    function Status(): (code: int)
      ensures code == 400 || code == 500
    {
      match this
      case TopologyFileInaccessible | TopologyFileInvalid(_) | KeyGenerationFailed | EncryptionFailed => 500
      case _ => 400
    }

    /** The text of the error response. */
    function Text(): string
    {
      match this
      case InvalidJson => "invalid JSON"
      case DropRateOutOfRange => "dropRate must be between 0.0 and 1.0"
      case TtlTooSmall => "ttl must be \U{2265} 1"
      case CustomYamlInvalid(d) => "failed to parse custom YAML: " + d
      case NoTopologyFile => "no topology file specified"
      case TopologyFileNotFound => "topology file not found"
      case TopologyFileInaccessible => "error accessing topology file"
      case TopologyFileInvalid(d) => "failed to parse topology file: " + d
      case KeyGenerationFailed => "key generation error"
      case NotConfigured => "simulation not configured"
      case InvalidFrom => "invalid 'from' node ID"
      case InvalidTo => "invalid 'to' node ID"
      case EncryptionFailed => "encryption failed"
    }
  }

  /** Distinct errors answer with distinct texts, so a client can tell every
      rejection apart from the response body alone. */
  lemma TextsDistinct(a: ApiError, b: ApiError)
    requires a != b
    ensures a.Text() != b.Text()
  {
    var p, q := a.Text(), b.Text();
    if a.CustomYamlInvalid? && b.CustomYamlInvalid? {
      assert p[29..] == a.detail && q[29..] == b.detail;
    } else if a.TopologyFileInvalid? && b.TopologyFileInvalid? {
      assert p[31..] == a.detail && q[31..] == b.detail;
    } else if a.CustomYamlInvalid? && b.TopologyFileInvalid? {
      assert p[16] != q[16];
    } else if a.TopologyFileInvalid? && b.CustomYamlInvalid? {
      assert p[16] != q[16];
    } else if a.CustomYamlInvalid? || a.TopologyFileInvalid? || b.CustomYamlInvalid? || b.TopologyFileInvalid? {
      assert p[0] != q[0];
    }
  }

  /** Of the errors handleConfigure answers with before key generation, only
      a topology file that cannot be accessed or parsed is the server's fault
      (status 500); every other rejection is the request's (status 400). */
  lemma DecideStatus(req: ConfigureRequest, readFile: string -> FileResult,
                     parseYaml: string -> Result<Topology, string>)
    requires Decide(req, readFile, parseYaml).Err?
    ensures Decide(req, readFile, parseYaml).error.Status() == 500 <==>
      && CheckParams(req.dropRate, req.ttl).None?
      && TrimSpace(req.customYaml) == "" && TrimSpace(req.topology) != ""
      && (readFile(req.topology).Inaccessible? || readFile(req.topology).Unparsable?)
  {
  }

  /** In the Latin-1 range, white space is exactly '\t', '\n', '\v', '\f', '\r',
      ' ', U+0085 (NEL) and U+00A0 (NBSP), as unicode.IsSpace documents it. */
  lemma IsSpaceLatin1(c: char)
    requires c <= '\U{00FF}'
    ensures IsSpace(c) <==> c in "\t\n\U{000B}\U{000C}\r \U{0085}\U{00A0}"
  {
  }

  /** Unicode white space, as strings.TrimSpace understands it. */
  predicate IsSpace(c: char)
  {
    || c in {'\t', '\n', '\U{000B}', '\U{000C}', '\r', ' ', '\U{0085}', '\U{00A0}', '\U{1680}'}
    || ('\U{2000}' <= c <= '\U{200A}')
    || c in {'\U{2028}', '\U{2029}', '\U{202F}', '\U{205F}', '\U{3000}'}
  }

  function TrimLeft(s: string): (t: string)
    ensures |t| <= |s| && t == s[|s| - |t|..]
    ensures t != [] ==> !IsSpace(t[0])
    ensures t == [] <==> forall i :: 0 <= i < |s| ==> IsSpace(s[i])
  {
    if s != [] && IsSpace(s[0]) then TrimLeft(s[1..]) else s
  }

  function TrimRight(s: string): (t: string)
    ensures |t| <= |s| && t == s[..|t|]
    ensures t != [] ==> !IsSpace(t[|t| - 1])
    ensures t == [] <==> forall i :: 0 <= i < |s| ==> IsSpace(s[i])
  {
    if s != [] && IsSpace(s[|s| - 1]) then TrimRight(s[..|s| - 1]) else s
  }

  /** strings.TrimSpace: `s` without its leading and trailing white space. It is
      empty exactly when `s` is all white space, and otherwise starts and ends
      with a character that is not white space. */
  function TrimSpace(s: string): (t: string)
    ensures |t| <= |s|
    ensures t == [] <==> forall i :: 0 <= i < |s| ==> IsSpace(s[i])
    ensures t != [] ==> !IsSpace(t[0]) && !IsSpace(t[|t| - 1])
  {
    TrimRight(TrimLeft(s))
  }

  /** The parameter checks of handleConfigure, drop rate first. */
  function CheckParams(dropRate: real, ttl: int): (r: Option<ApiError>)
    ensures r == None <==> 0.0 <= dropRate <= 1.0 && ttl >= 1
    ensures r == Some(DropRateOutOfRange) <==> dropRate < 0.0 || dropRate > 1.0
    ensures r == Some(TtlTooSmall) <==> 0.0 <= dropRate <= 1.0 && ttl < 1
  {
    if dropRate < 0.0 || dropRate > 1.0 then Some(DropRateOutOfRange)
    else if ttl < 1 then Some(TtlTooSmall)
    else None
  }

  /** Where handleConfigure takes its topology from: non-blank custom YAML wins
      over the file name, which must then not be blank. */
  function SelectTopology(req: ConfigureRequest, readFile: string -> FileResult,
                          parseYaml: string -> Result<Topology, string>): (r: Result<Topology, ApiError>)
    ensures TrimSpace(req.customYaml) != "" ==>
      && (r.Ok? <==> parseYaml(req.customYaml).Ok?) && (r.Ok? ==> r.value == parseYaml(req.customYaml).value)
      && (r.Err? ==> r.error == CustomYamlInvalid(parseYaml(req.customYaml).error))
    ensures TrimSpace(req.customYaml) == "" && TrimSpace(req.topology) == "" ==> r == Err(NoTopologyFile)
    ensures TrimSpace(req.customYaml) == "" && TrimSpace(req.topology) != "" ==>
      && (r.Ok? <==> readFile(req.topology).Loaded?) && (r.Ok? ==> r.value == readFile(req.topology).topology)
      && (readFile(req.topology).Missing? ==> r == Err(TopologyFileNotFound))
      && (readFile(req.topology).Inaccessible? ==> r == Err(TopologyFileInaccessible))
      && (readFile(req.topology).Unparsable? ==> r == Err(TopologyFileInvalid(readFile(req.topology).detail)))
  {
    if TrimSpace(req.customYaml) != "" then
      match parseYaml(req.customYaml)
      case Ok(t) => Ok(t)
      case Err(d) => Err(CustomYamlInvalid(d))
    else if TrimSpace(req.topology) == "" then
      Err(NoTopologyFile)
    else
      match readFile(req.topology)
      case Loaded(t) => Ok(t)
      case Missing => Err(TopologyFileNotFound)
      case Inaccessible => Err(TopologyFileInaccessible)
      case Unparsable(d) => Err(TopologyFileInvalid(d))
  }

  /** All checks of handleConfigure that come before key generation. */
  function Decide(req: ConfigureRequest, readFile: string -> FileResult,
                  parseYaml: string -> Result<Topology, string>): (r: Result<Topology, ApiError>)
    ensures CheckParams(req.dropRate, req.ttl).Some? ==> r == Err(CheckParams(req.dropRate, req.ttl).value)
    ensures r.Ok? ==> 0.0 <= req.dropRate <= 1.0 && req.ttl >= 1
  {
    var check := CheckParams(req.dropRate, req.ttl);
    if check.Some? then Err(check.value) else SelectTopology(req, readFile, parseYaml)
  }

  /** The last position below `k` whose record has id `id`, or -1. */
  function LastIndex(cfgs: seq<NodeConfig>, id: NodeId, k: nat): (r: int)
    requires k <= |cfgs|
    ensures -1 <= r < k
    ensures r >= 0 ==> cfgs[r].id == id && forall i :: r < i < k ==> cfgs[i].id != id
    ensures r < 0 ==> forall i :: 0 <= i < k ==> cfgs[i].id != id
    decreases k
  {
    if k == 0 then -1
    else if cfgs[k - 1].id == id then k - 1
    else LastIndex(cfgs, id, k - 1)
  }

  /** The first `n` key generations succeed; `keygen(i)` is the outcome of the
      i-th call to GenerateKeyPair. */
  ghost predicate KeysOk(keygen: nat -> Option<KeyPair>, n: nat)
  {
    forall i :: 0 <= i < n ==> keygen(i).Some?
  }

  /** The key map after the first `k` iterations of handleConfigure's key loop. */
  function KeyMap(cfgs: seq<NodeConfig>, keygen: nat -> Option<KeyPair>, k: nat): map<NodeId, KeyPair>
    requires k <= |cfgs| && KeysOk(keygen, k)
    decreases k
  {
    if k == 0 then map[]
    else KeyMap(cfgs, keygen, k - 1)[cfgs[k - 1].id := keygen(k - 1).value]
  }

  /** The key map has an entry for exactly the ids among the first `k` records,
      and for a repeated id the pair generated for its last record wins. */
  lemma {:induction false} KeyMapLastWins(cfgs: seq<NodeConfig>, keygen: nat -> Option<KeyPair>, k: nat, id: NodeId)
    requires k <= |cfgs| && KeysOk(keygen, k)
    ensures id in KeyMap(cfgs, keygen, k) <==> LastIndex(cfgs, id, k) >= 0
    ensures id in KeyMap(cfgs, keygen, k) ==>
      KeyMap(cfgs, keygen, k)[id] == keygen(LastIndex(cfgs, id, k)).value
    decreases k
  {
    if k > 0 {
      KeyMapLastWins(cfgs, keygen, k - 1, id);
    }
  }

  /** The plaintext of the test message. */
  function Greeting(from: NodeId, to: NodeId): string
  {
    "Hello from " + from + " \U{2192} " + to
  }

  /** Node `n` is the one handleConfigure builds for record `c`: the record's id
      and neighbours, the private key generated for that id, the shared public
      keys and the hub, and two empty open queues. */
  ghost predicate BuiltFrom(n: Node, c: NodeConfig, keys: map<NodeId, KeyPair>, publicKeys: map<NodeId, Bytes>, hub: Hub)
    reads n
  {
    && n.id == c.id && n.neighbors == c.neighbors && c.id in keys
    && n.privateKey == keys[c.id].privateKey && n.publicKeys == publicKeys && n.hub == hub
    && n.inbound == [] && n.outbound == [] && !n.inboundClosed && !n.outboundClosed
  }

  /** After registering the first `j` records in order: one node per distinct id,
      built from the last of those records that carries it. */
  ghost predicate Populated(nodes: map<NodeId, Node>, cfgs: seq<NodeConfig>, j: nat,
                            keys: map<NodeId, KeyPair>, publicKeys: map<NodeId, Bytes>, hub: Hub)
    requires j <= |cfgs|
    reads nodes.Values
  {
    && (forall id :: id in nodes <==> LastIndex(cfgs, id, j) >= 0)
    && forall id :: id in nodes ==> BuiltFrom(nodes[id], cfgs[LastIndex(cfgs, id, j)], keys, publicKeys, hub)
  }

  /** Adding the node built from record `j` under its id extends the registry
      of the first `j` records to that of the first `j + 1`. */
  lemma RegisterStep(nodes: map<NodeId, Node>, n: Node, cfgs: seq<NodeConfig>, j: nat,
                     keys: map<NodeId, KeyPair>, publicKeys: map<NodeId, Bytes>, hub: Hub)
    requires j < |cfgs| && Populated(nodes, cfgs, j, keys, publicKeys, hub)
    requires BuiltFrom(n, cfgs[j], keys, publicKeys, hub)
    ensures Populated(nodes[cfgs[j].id := n], cfgs, j + 1, keys, publicKeys, hub)
  {
    var after := nodes[cfgs[j].id := n];
    forall id | id in after
      ensures BuiltFrom(after[id], cfgs[LastIndex(cfgs, id, j + 1)], keys, publicKeys, hub)
    {
      if id != cfgs[j].id {
        assert after[id] == nodes[id];
      }
    }
  }

  /** The node loop of handleConfigure: one NewNode per record, in topology
      order, each added to the registry (a later record overwrites). */
  method RegisterNodes(fabric: Network, cfgs: seq<NodeConfig>,
                       keys: map<NodeId, KeyPair>, publicKeys: map<NodeId, Bytes>, hub: Hub)
    requires fabric.Valid() && fabric.nodes == map[]
    requires forall i :: 0 <= i < |cfgs| ==> cfgs[i].id in keys
    modifies fabric`nodes
    ensures fabric.Valid()
    ensures Populated(fabric.nodes, cfgs, |cfgs|, keys, publicKeys, hub)
    ensures forall id :: id in fabric.nodes ==> fresh(fabric.nodes[id])
  {
    var j := 0;
    while j < |cfgs|
      invariant 0 <= j <= |cfgs|
      invariant fabric.Valid()
      invariant Populated(fabric.nodes, cfgs, j, keys, publicKeys, hub)
      invariant forall id :: id in fabric.nodes ==> fresh(fabric.nodes[id])
    {
      AddRecord(fabric, cfgs, j, keys, publicKeys, hub);
      j := j + 1;
    }
  }

  /** One turn of the node loop: build the node for record `j` and register it. */
  method AddRecord(fabric: Network, cfgs: seq<NodeConfig>, j: nat,
                   keys: map<NodeId, KeyPair>, publicKeys: map<NodeId, Bytes>, hub: Hub)
    requires j < |cfgs| && cfgs[j].id in keys
    requires fabric.Valid() && Populated(fabric.nodes, cfgs, j, keys, publicKeys, hub)
    modifies fabric`nodes
    ensures fabric.Valid() && Populated(fabric.nodes, cfgs, j + 1, keys, publicKeys, hub)
    ensures cfgs[j].id in fabric.nodes && fresh(fabric.nodes[cfgs[j].id])
    ensures fabric.nodes == old(fabric.nodes)[cfgs[j].id := fabric.nodes[cfgs[j].id]]
  {
    var cfg := cfgs[j];
    var n := new Node(cfg.id, cfg.neighbors, publicKeys, keys[cfg.id].privateKey, hub);
    RegisterStep(fabric.nodes, n, cfgs, j, keys, publicKeys, hub);
    fabric.AddNode(n);
  }

  /** The simulation state that main.go keeps in globals. */
  class Simulator {
    const hub: Hub
    var net: Network?
    var keys: map<NodeId, KeyPair>
    var publicKeys: map<NodeId, Bytes>
    var topo: Option<Topology>
    var currentTTL: int

    /** The published public keys are those of the key pairs, and every
        registered node runs with its own pair, the shared public keys and the
        hub, under a TTL of at least one. */
    ghost predicate Valid()
      reads this, net
    {
      && publicKeys.Keys == keys.Keys
      && (forall id :: id in keys ==> publicKeys[id] == keys[id].publicKey)
      && (net != null ==>
            && net.Valid() && net.hub == hub && currentTTL >= 1
            && forall id :: id in net.nodes ==>
                 && id in keys && net.nodes[id].privateKey == keys[id].privateKey
                 && net.nodes[id].publicKeys == publicKeys && net.nodes[id].hub == hub)
    }

    /** The state before the first configuration. */
    constructor (hub: Hub)
      ensures Valid()
      ensures this.hub == hub && net == null && keys == map[] && publicKeys == map[]
      ensures topo == None && currentTTL == 0
    {
      this.hub := hub;
      net := null;
      keys := map[];
      publicKeys := map[];
      topo := None;
      currentTTL := 0;
    }

    /** The nodes currently registered. */
    ghost function Registry(): set<Node>
      reads this, net
    {
      if net == null then {} else net.nodes.Values
    }

    /** handleConfigure. `readFile` and `parseYaml` stand for the file system and
        the YAML parser, `keygen(i)` for the i-th key generation. */
    method Configure(req: Option<ConfigureRequest>, readFile: string -> FileResult,
                     parseYaml: string -> Result<Topology, string>, keygen: nat -> Option<KeyPair>)
      returns (r: Outcome<ApiError>)
      requires Valid()
      modifies this, net
      ensures Valid()
      ensures req.None? ==>
        && r == Fail(InvalidJson) && net == old(net) && (net != null ==> net.nodes == old(net.nodes))
        && keys == old(keys) && publicKeys == old(publicKeys) && topo == old(topo) && currentTTL == old(currentTTL)
      ensures req.Some? && old(net) != null ==> old(net).nodes == map[]
      ensures req.Some? && Decide(req.value, readFile, parseYaml).Err? ==>
        && r == Fail(Decide(req.value, readFile, parseYaml).error) && net == old(net)
        && keys == old(keys) && publicKeys == old(publicKeys) && topo == old(topo) && currentTTL == old(currentTTL)
      ensures req.Some? && Decide(req.value, readFile, parseYaml).Ok? ==>
        var t := Decide(req.value, readFile, parseYaml).value;
        if KeysOk(keygen, |t.nodes|) then
          && r == Pass && topo == Some(t) && currentTTL == req.value.ttl
          && keys == KeyMap(t.nodes, keygen, |t.nodes|)
          && net != null && fresh(net) && net.dropRate == req.value.dropRate
          && Populated(net.nodes, t.nodes, |t.nodes|, keys, publicKeys, hub)
          && (forall id :: id in net.nodes ==> fresh(net.nodes[id]))
        else
          && r == Fail(KeyGenerationFailed) && net == old(net) && topo == old(topo) && currentTTL == old(currentTTL)
          && exists j :: 0 <= j < |t.nodes| && KeysOk(keygen, j) && keygen(j).None?
                         && keys == KeyMap(t.nodes, keygen, j)

    {
      if req.None? {
        return Fail(InvalidJson);
      }
      var rq := req.value;
      if net != null {
        net.Shutdown();
      }
      var check := CheckParams(rq.dropRate, rq.ttl);
      if check.Some? {
        return Fail(check.value);
      }
      var loaded := SelectTopology(rq, readFile, parseYaml);
      if loaded.Err? {
        return Fail(loaded.error);
      }
      var t := loaded.value;

      var failedAt := GenerateKeys(t.nodes, keygen);
      if failedAt.Some? {
        assert KeysOk(keygen, failedAt.value) && keygen(failedAt.value).None?;
        return Fail(KeyGenerationFailed);
      }

      Install(t, rq.ttl, rq.dropRate, keygen);
      return Pass;
    }

    /** The build phase of handleConfigure once the keys exist: record the TTL
        and topology, then a fresh network holding one node per distinct id. */
    method Install(t: Topology, ttl: int, dropRate: real, ghost keygen: nat -> Option<KeyPair>)
      requires ttl >= 1 && KeysOk(keygen, |t.nodes|) && keys == KeyMap(t.nodes, keygen, |t.nodes|)
      requires publicKeys.Keys == keys.Keys && forall id :: id in keys ==> publicKeys[id] == keys[id].publicKey
      modifies this`net, this`topo, this`currentTTL
      ensures Valid()
      ensures topo == Some(t) && currentTTL == ttl
      ensures net != null && fresh(net) && net.dropRate == dropRate
      ensures Populated(net.nodes, t.nodes, |t.nodes|, keys, publicKeys, hub)
      ensures forall id :: id in net.nodes ==> fresh(net.nodes[id])
    {
      currentTTL := ttl;
      topo := Some(t);
      var fabric := new Network(dropRate, hub);
      net := fabric;
      forall i | 0 <= i < |t.nodes| ensures t.nodes[i].id in keys {
        KeyMapLastWins(t.nodes, keygen, |t.nodes|, t.nodes[i].id);
      }
      RegisterNodes(fabric, t.nodes, keys, publicKeys, hub);
      forall id | id in fabric.nodes
        ensures id in keys && fabric.nodes[id].privateKey == keys[id].privateKey
        ensures fabric.nodes[id].publicKeys == publicKeys && fabric.nodes[id].hub == hub
      {
        assert BuiltFrom(fabric.nodes[id], t.nodes[LastIndex(t.nodes, id, |t.nodes|)], keys, publicKeys, hub);
      }
    }

    /** The key loop of handleConfigure: fresh maps, then one key pair per
        record in topology order; it stops at the first failed generation. */
    method GenerateKeys(cfgs: seq<NodeConfig>, keygen: nat -> Option<KeyPair>) returns (failedAt: Option<nat>)
      modifies this`keys, this`publicKeys
      ensures publicKeys.Keys == keys.Keys
      ensures forall id :: id in keys ==> publicKeys[id] == keys[id].publicKey
      ensures failedAt.None? <==> KeysOk(keygen, |cfgs|)
      ensures failedAt.None? ==> keys == KeyMap(cfgs, keygen, |cfgs|)
      ensures failedAt.Some? ==>
        && failedAt.value < |cfgs| && KeysOk(keygen, failedAt.value) && keygen(failedAt.value).None?
        && keys == KeyMap(cfgs, keygen, failedAt.value)
    {
      keys := map[];
      publicKeys := map[];
      var i := 0;
      while i < |cfgs|
        invariant 0 <= i <= |cfgs| && KeysOk(keygen, i)
        invariant keys == KeyMap(cfgs, keygen, i)
        invariant publicKeys.Keys == keys.Keys
        invariant forall id :: id in keys ==> publicKeys[id] == keys[id].publicKey
      {
        var kp := keygen(i);
        if kp.None? {
          return Some(i);
        }
        keys := keys[cfgs[i].id := kp.value];
        publicKeys := publicKeys[cfgs[i].id := kp.value.publicKey];
        i := i + 1;
      }
      return None;
    }

    /** handleSend. `seal` stands for the encryption with a fresh random nonce. */
    method Send(req: Option<SendRequest>, seal: Sealer, now: int) returns (r: Outcome<ApiError>)
      requires Valid()
      // the injection into a closed inbound queue panics
      requires net != null && req.Some? && req.value.from in net.nodes ==> !net.nodes[req.value.from].inboundClosed
      modifies Registry()`inbound
      ensures net == null ==> r == Fail(NotConfigured)
      ensures net != null && req.None? ==> r == Fail(InvalidJson)
      ensures net != null && req.Some? && req.value.from !in net.nodes ==> r == Fail(InvalidFrom)
      ensures net != null && req.Some? && req.value.from in net.nodes && req.value.to !in net.nodes ==>
        r == Fail(InvalidTo)
      ensures r.Fail? ==> forall n :: n in Registry() ==> n.inbound == old(n.inbound)
      ensures r == Pass ==>
        && net != null && req.Some? && req.value.from in net.nodes && req.value.to in net.nodes
        && currentTTL >= 1
      ensures net != null && req.Some? && req.value.from in net.nodes && req.value.to in net.nodes ==>
        var from, to := req.value.from, req.value.to;
        var sealed := seal(Greeting(from, to), keys[from].privateKey, Key32(publicKeys[to]));
        && (r == Pass <==> sealed.Some?)
        && (sealed.None? ==> r == Fail(EncryptionFailed))
        && (sealed.Some? ==>
              && net.nodes[from].inbound
                 == old(net.nodes[from].inbound) + [Message(from, to, currentTTL, now, sealed.value.cipher, sealed.value.nonce)]
              && forall id :: id in net.nodes && id != from ==> net.nodes[id].inbound == old(net.nodes[id].inbound))
    {
      if net == null {
        return Fail(NotConfigured);
      }
      if req.None? {
        return Fail(InvalidJson);
      }
      var rq := req.value;
      if rq.from !in net.nodes {
        return Fail(InvalidFrom);
      }
      if rq.to !in net.nodes {
        return Fail(InvalidTo);
      }
      var senderKeys := keys[rq.from];
      var recvPub := Key32(publicKeys[rq.to]);
      var plaintext := Greeting(rq.from, rq.to);
      var sealed := seal(plaintext, senderKeys.privateKey, recvPub);
      if sealed.None? {
        return Fail(EncryptionFailed);
      }
      var msg := Message(rq.from, rq.to, currentTTL, now, sealed.value.cipher, sealed.value.nonce);
      var sender := net.nodes[rq.from];
      sender.inbound := sender.inbound + [msg];
      return Pass;
    }

    /** handleGetNodes: `[]` before any topology is loaded, otherwise the ids
        in topology order (repeats included), collected into a slice that stays
        nil, and so is encoded as `null`, when the topology has no nodes. */
    method GetNodes() returns (r: NodeList)
      ensures topo.None? ==> r == JsonArray([])
      ensures topo.Some? && topo.value.nodes == [] ==> r == JsonNull
      ensures topo.Some? && topo.value.nodes != [] ==>
        && r.JsonArray? && |r.ids| == |topo.value.nodes|
        && forall i :: 0 <= i < |r.ids| ==> r.ids[i] == topo.value.nodes[i].id
    {
      if topo.None? {
        return JsonArray([]);
      }
      var cfgs := topo.value.nodes;
      var ids: Option<seq<NodeId>> := None;
      var i := 0;
      while i < |cfgs|
        invariant 0 <= i <= |cfgs|
        invariant i == 0 <==> ids.None?
        invariant ids.Some? ==> |ids.value| == i && forall k :: 0 <= k < i ==> ids.value[k] == cfgs[k].id
      {
        var so_far := if ids.Some? then ids.value else [];
        ids := Some(so_far + [cfgs[i].id]);
        i := i + 1;
      }
      r := if ids.Some? then JsonArray(ids.value) else JsonNull;
    }
  }
}
