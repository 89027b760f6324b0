/**
 * What the provider code acts on but does not own: the cloud account
 * behind the driver (keypairs, security groups with their ingress rules,
 * running nodes, the image and size catalog), the remote upload, and the
 * local disk. The driver is a black box; the model fixes only what the
 * provider code relies on: each mutating call is either accepted, and
 * then has its evident effect, or rejected by the provider, and then
 * changes nothing and raises. Which calls the provider rejects, what the
 * catalog holds and which addresses a new node receives are the
 * provider's decisions, given as a `Provider` value.
 */
module World {
  import opened Values

  datatype Option<+T> = None | Some(value: T)

  /** An ingress rule as `ex_authorize_security_group_ingress` receives it; an `endPort` of Null is `end_port=None`. */
  datatype Rule = Rule(protocol: Value, cidr: Value, startPort: Value, endPort: Value)

  datatype Image = Image(id: Value, name: Value)
  datatype Size = Size(id: Value, name: Value)
  datatype Node = Node(name: Value, publicIps: seq<string>)

  /** One mutating call on the driver, or the upload to the new host, as it appears in the trace. */
  datatype Call =
    | CreateGroupCall(name: Value)
    | AuthorizeCall(group: Value, rule: Rule)
    | DeleteGroupCall(name: Value)
    | CreateKeyPairCall(name: Value)
    | ImportKeyPairCall(name: Value, path: Value)
    | DeleteKeyPairCall(name: Value)
    | CreateNodeCall(name: Value, keyName: Value, securityGroups: seq<Value>, image: Image, size: Size)
    | DestroyNodeCall(node: Node)
    | UploadCall(host: string, user: string, keyFile: string, localPath: string, remoteDir: string)

  /** The provider's own decisions: its catalog, the calls it refuses, and the public addresses it gives the next node it launches. */
  datatype Provider = Provider(images: seq<Image>, sizes: seq<Size>, rejects: set<Call>, newNodeIps: seq<string>)

  /** The account's resources and the append-only trace of every mutating call made so far. */
  datatype State = State(keypairs: set<Value>, groups: map<Value, seq<Rule>>, nodes: seq<Node>, trace: seq<Call>)

  /** The contents of a local file: text, or the private key the provider generated for a keypair. */
  datatype FileContent = Text(text: string) | PrivateKeyOf(keypair: Value)

  /** `nodes` without the first occurrence of `node`. */
  function RemoveFirst(nodes: seq<Node>, node: Node): (r: seq<Node>)
    ensures node !in nodes ==> r == nodes
    ensures node in nodes ==> |r| == |nodes| - 1
  {
    if nodes == [] then []
    else if nodes[0] == node then nodes[1..]
    else [nodes[0]] + RemoveFirst(nodes[1..], node)
  }

  /** What an accepted call does to the account. */
  function Effect(p: Provider, s: State, c: Call): State
  {
    match c
    case CreateGroupCall(name) => s.(groups := s.groups[name := []])
    case AuthorizeCall(group, rule) =>
      if group in s.groups then s.(groups := s.groups[group := s.groups[group] + [rule]]) else s
    case DeleteGroupCall(name) => s.(groups := s.groups - {name})
    case CreateKeyPairCall(name) => s.(keypairs := s.keypairs + {name})
    case ImportKeyPairCall(name, _) => s.(keypairs := s.keypairs + {name})
    case DeleteKeyPairCall(name) => s.(keypairs := s.keypairs - {name})
    case CreateNodeCall(name, _, _, _, _) => s.(nodes := s.nodes + [Node(name, p.newNodeIps)])
    case DestroyNodeCall(node) => s.(nodes := RemoveFirst(s.nodes, node))
    case UploadCall(_, _, _, _, _) => s
  }

  /** One call: it is traced whether or not the provider accepts it, and only an accepted call changes the account. */
  function Step(p: Provider, s: State, c: Call): (bool, State)
  {
    if c in p.rejects then (false, s.(trace := s.trace + [c]))
    else (true, Effect(p, s, c).(trace := s.trace + [c]))
  }

  /** The index of the first element that matches, as the source's `[x for x in xs if ...][0]` and first-match filters find it. */
  function FirstMatch<T>(xs: seq<T>, matches: T -> bool): (r: Option<nat>)
    ensures r.Some? ==> r.value < |xs| && matches(xs[r.value])
    ensures r.Some? ==> forall j :: 0 <= j < r.value ==> !matches(xs[j])
    ensures r.None? ==> forall j :: 0 <= j < |xs| ==> !matches(xs[j])
  {
    if xs == [] then None
    else if matches(xs[0]) then Some(0)
    else
      match FirstMatch(xs[1..], matches)
      case None => None
      case Some(i) => Some(i + 1)
  }

  /** The cloud account behind one driver handle, and the upload channel to its hosts. */
  class Cloud {
    const provider: Provider
    var keypairs: set<Value>
    var groups: map<Value, seq<Rule>>
    var nodes: seq<Node>
    var trace: seq<Call>

    function Snapshot(): State
      reads this
    {
      State(keypairs, groups, nodes, trace)
    }

    constructor (provider: Provider, initial: State)
      ensures this.provider == provider && Snapshot() == initial
    {
      this.provider := provider;
      keypairs, groups, nodes, trace := initial.keypairs, initial.groups, initial.nodes, initial.trace;
    }

    method ExCreateSecurityGroup(name: Value) returns (ok: bool)
      modifies this
      ensures (ok, Snapshot()) == Step(provider, old(Snapshot()), CreateGroupCall(name))
    {
      ok := CreateGroupCall(name) !in provider.rejects;
      if ok {
        groups := groups[name := []];
      }
      trace := trace + [CreateGroupCall(name)];
    }

    method ExAuthorizeSecurityGroupIngress(securityGroupName: Value, startPort: Value, endPort: Value, cidrList: Value, protocol: Value)
      returns (ok: bool)
      modifies this
      ensures (ok, Snapshot()) ==
        Step(provider, old(Snapshot()), AuthorizeCall(securityGroupName, Rule(protocol, cidrList, startPort, endPort)))
    {
      var rule := Rule(protocol, cidrList, startPort, endPort);
      ok := AuthorizeCall(securityGroupName, rule) !in provider.rejects;
      if ok && securityGroupName in groups {
        groups := groups[securityGroupName := groups[securityGroupName] + [rule]];
      }
      trace := trace + [AuthorizeCall(securityGroupName, rule)];
    }

    method ExDeleteSecurityGroup(name: Value) returns (ok: bool)
      modifies this
      ensures (ok, Snapshot()) == Step(provider, old(Snapshot()), DeleteGroupCall(name))
    {
      ok := DeleteGroupCall(name) !in provider.rejects;
      if ok {
        groups := groups - {name};
      }
      trace := trace + [DeleteGroupCall(name)];
    }

    /** Creates a keypair; the provider generates it and hands back its private key. */
    method CreateKeyPair(name: Value) returns (ok: bool, privateKey: FileContent)
      modifies this
      ensures (ok, Snapshot()) == Step(provider, old(Snapshot()), CreateKeyPairCall(name))
      ensures privateKey == PrivateKeyOf(name)
    {
      ok := CreateKeyPairCall(name) !in provider.rejects;
      if ok {
        keypairs := keypairs + {name};
      }
      trace := trace + [CreateKeyPairCall(name)];
      privateKey := PrivateKeyOf(name);
    }

    method ImportKeyPairFromFile(name: Value, keyFilePath: Value) returns (ok: bool)
      modifies this
      ensures (ok, Snapshot()) == Step(provider, old(Snapshot()), ImportKeyPairCall(name, keyFilePath))
    {
      ok := ImportKeyPairCall(name, keyFilePath) !in provider.rejects;
      if ok {
        keypairs := keypairs + {name};
      }
      trace := trace + [ImportKeyPairCall(name, keyFilePath)];
    }

    method ExDeleteKeypair(name: Value) returns (ok: bool)
      modifies this
      ensures (ok, Snapshot()) == Step(provider, old(Snapshot()), DeleteKeyPairCall(name))
    {
      ok := DeleteKeyPairCall(name) !in provider.rejects;
      if ok {
        keypairs := keypairs - {name};
      }
      trace := trace + [DeleteKeyPairCall(name)];
    }

    method CreateNode(name: Value, exKeyname: Value, exSecurityGroups: seq<Value>, image: Image, size: Size)
      returns (ok: bool, node: Node)
      modifies this
      ensures (ok, Snapshot()) == Step(provider, old(Snapshot()), CreateNodeCall(name, exKeyname, exSecurityGroups, image, size))
      ensures node == Node(name, provider.newNodeIps)
    {
      var call := CreateNodeCall(name, exKeyname, exSecurityGroups, image, size);
      ok := call !in provider.rejects;
      node := Node(name, provider.newNodeIps);
      if ok {
        nodes := nodes + [node];
      }
      trace := trace + [call];
    }

    method DestroyNode(node: Node) returns (ok: bool)
      modifies this
      ensures (ok, Snapshot()) == Step(provider, old(Snapshot()), DestroyNodeCall(node))
    {
      ok := DestroyNodeCall(node) !in provider.rejects;
      if ok {
        nodes := RemoveFirst(nodes, node);
      }
      trace := trace + [DestroyNodeCall(node)];
    }

    /** The remote upload of a local file into a directory of `host`, logging in as `user` with the private key in `keyFile`. */
    method Put(host: string, user: string, keyFile: string, localPath: string, remoteDir: string) returns (ok: bool)
      modifies this
      ensures (ok, Snapshot()) == Step(provider, old(Snapshot()), UploadCall(host, user, keyFile, localPath, remoteDir))
    {
      ok := UploadCall(host, user, keyFile, localPath, remoteDir) !in provider.rejects;
      trace := trace + [UploadCall(host, user, keyFile, localPath, remoteDir)];
    }
  }

  /** The local machine: its home directory, its directories and its files, by path. */
  class LocalDisk {
    const home: string
    const directories: set<string>
    var files: map<string, FileContent>

    constructor (home: string, directories: set<string>, files: map<string, FileContent>)
      ensures this.home == home && this.directories == directories && this.files == files
    {
      this.home := home;
      this.directories := directories;
      this.files := files;
    }

    method Write(path: string, content: FileContent)
      modifies this
      ensures files == old(files)[path := content]
    {
      files := files[path := content];
    }
  }
}
