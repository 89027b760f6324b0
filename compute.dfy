/**
 * ExoscaleComputeCreator: launching the management node from the
 * configured image and size, and destroying the node that carries a
 * given public address.
 */
module Compute {
  import opened Values
  import opened Errors
  import opened Config
  import opened World

  /** `provider_config.get('compute', {}).get('management_server', {}).get('instance', None)` */
  function InstanceConfig(config: Value): Result<Value>
  {
    var compute :- Get(config, "compute", Dict(map[]));
    var server :- Get(compute, "management_server", Dict(map[]));
    Get(server, "instance", Null)
  }

  /** What `create_node` leaves behind: its result, the account, and the creator's node and keypair names. */
  datatype Launch = Launch(result: Result<string>, state: State, nodeName: Value, keypairName: Value)

  /**
   * `create_node`: read the instance section; pick the first image whose
   * id and the first size whose name is configured (an IndexError when
   * there is none); fill in a node name and a keypair name the creator was
   * not given from the instance section; launch the node; answer its first
   * public address (an IndexError when it has none).
   */
  function LaunchNode(p: Provider, s: State, config: Value, nodeName: Value, keypairName: Value, securityGroups: seq<Value>)
    : Launch
  {
    match InstanceConfig(config)
    case Err(e) => Launch(Err(e), s, nodeName, keypairName)
    case Ok(server) =>
      if !server.Dict? then Launch(Err(WrongType), s, nodeName, keypairName)
      else
        var imageId := Get(server, "image", Null).value;
        var sizeId := Get(server, "size", Null).value;
        match FirstMatch(p.images, (image: Image) => imageId == image.id)
        case None => Launch(Err(IndexError), s, nodeName, keypairName)
        case Some(i) =>
          match FirstMatch(p.sizes, (size: Size) => size.name == sizeId)
          case None => Launch(Err(IndexError), s, nodeName, keypairName)
          case Some(j) =>
            var name := if nodeName == Null then Get(server, "name", Null).value else nodeName;
            match (if keypairName == Null then Lookup(server, ["management_keypair", "name"]) else Ok(keypairName))
            case Err(e) => Launch(Err(e), s, name, keypairName)
            case Ok(keyName) =>
              var (ok, s1) := Step(p, s, CreateNodeCall(name, keyName, securityGroups, p.images[i], p.sizes[j]));
              if !ok then Launch(Err(DriverFailure), s1, name, keyName)
              else if p.newNodeIps == [] then Launch(Err(IndexError), s1, name, keyName)
              else Launch(Ok(p.newNodeIps[0]), s1, name, keyName)
  }

  /** Whether a node carries the address, as `node_ip in node.public_ips` tests it. */
  predicate Carries(node: Node, ip: Value)
  {
    ip.Str? && ip.s in node.publicIps
  }

  /** `delete_node`: destroy the first listed node that carries the address; an IndexError when none does. */
  function DestroyNodeAt(p: Provider, s: State, ip: Value): (Outcome, State)
  {
    match FirstMatch(s.nodes, (node: Node) => Carries(node, ip))
    case None => (Fail(IndexError), s)
    case Some(i) =>
      var (ok, s1) := Step(p, s, DestroyNodeCall(s.nodes[i]));
      (if ok then Pass else Fail(DriverFailure), s1)
  }

  // ---------------------------------------------------------------------
  // Properties
  // ---------------------------------------------------------------------

  /** Removing the first occurrence of a node that does not occur earlier removes exactly that position. */
  lemma {:induction false} RemoveFirstAt(nodes: seq<Node>, i: nat)
    requires i < |nodes|
    requires forall j :: 0 <= j < i ==> nodes[j] != nodes[i]
    ensures RemoveFirst(nodes, nodes[i]) == nodes[..i] + nodes[i + 1..]
  {
    if i > 0 {
      RemoveFirstAt(nodes[1..], i - 1);
      assert nodes[1..][..i - 1] == nodes[1..i];
      assert nodes[1..][i..] == nodes[i + 1..];
      assert [nodes[0]] + nodes[1..i] == nodes[..i];
    }
  }

  /**
   * A launch that succeeds used the first catalog image with the
   * configured id and the first size with the configured name, made
   * exactly one call, added exactly the new node to the account, and
   * answers that node's first public address.
   */
  lemma LaunchUsesFirstMatches(p: Provider, s: State, config: Value, nodeName: Value, keypairName: Value, securityGroups: seq<Value>)
    requires LaunchNode(p, s, config, nodeName, keypairName, securityGroups).result.Ok?
    ensures var l := LaunchNode(p, s, config, nodeName, keypairName, securityGroups);
      exists i, j ::
        && 0 <= i < |p.images| && 0 <= j < |p.sizes|
        && p.images[i].id == Get(InstanceConfig(config).value, "image", Null).value
        && (forall k :: 0 <= k < i ==> p.images[k].id != p.images[i].id)
        && p.sizes[j].name == Get(InstanceConfig(config).value, "size", Null).value
        && (forall k :: 0 <= k < j ==> p.sizes[k].name != p.sizes[j].name)
        && l.state.trace == s.trace + [CreateNodeCall(l.nodeName, l.keypairName, securityGroups, p.images[i], p.sizes[j])]
    ensures var l := LaunchNode(p, s, config, nodeName, keypairName, securityGroups);
      && p.newNodeIps != []
      && l.result == Ok(p.newNodeIps[0])
      && l.state == s.(nodes := s.nodes + [Node(l.nodeName, p.newNodeIps)], trace := l.state.trace)
      && Carries(Node(l.nodeName, p.newNodeIps), Str(l.result.value))
  {
    var server := InstanceConfig(config).value;
    var imageId := Get(server, "image", Null).value;
    var sizeId := Get(server, "size", Null).value;
    var i := FirstMatch(p.images, (image: Image) => imageId == image.id).value;
    var j := FirstMatch(p.sizes, (size: Size) => size.name == sizeId).value;
    assert forall k :: 0 <= k < i ==> imageId != p.images[k].id;
    assert forall k :: 0 <= k < j ==> p.sizes[k].name != sizeId;
  }

  /** Names the creator was given are used as they are; only missing ones come from the instance section. */
  lemma GivenNamesKept(p: Provider, s: State, config: Value, nodeName: Value, keypairName: Value, securityGroups: seq<Value>)
    requires nodeName != Null && keypairName != Null
    ensures var l := LaunchNode(p, s, config, nodeName, keypairName, securityGroups);
      l.nodeName == nodeName && l.keypairName == keypairName
  {
  }

  /** Without a catalog image of the configured id, or a size of the configured name, nothing is launched. */
  lemma NoMatchNoLaunch(p: Provider, s: State, config: Value, nodeName: Value, keypairName: Value, securityGroups: seq<Value>)
    requires InstanceConfig(config).Ok? && InstanceConfig(config).value.Dict?
    requires var server := InstanceConfig(config).value;
      || (forall k :: 0 <= k < |p.images| ==> p.images[k].id != Get(server, "image", Null).value)
      || (forall k :: 0 <= k < |p.sizes| ==> p.sizes[k].name != Get(server, "size", Null).value)
    ensures LaunchNode(p, s, config, nodeName, keypairName, securityGroups) == Launch(Err(IndexError), s, nodeName, keypairName)
  {
  }

  /**
   * Destroying by address destroys the first node that carries it: when
   * the provider accepts, exactly that node leaves the account; when it
   * refuses, the call is traced, the account keeps its nodes and the
   * driver's error is raised; when no node carries the address, nothing
   * is called.
   */
  lemma DestroyFirstCarrier(p: Provider, s: State, ip: Value)
    ensures (forall k :: 0 <= k < |s.nodes| ==> !Carries(s.nodes[k], ip)) ==> DestroyNodeAt(p, s, ip) == (Fail(IndexError), s)
    ensures var (r, s') := DestroyNodeAt(p, s, ip);
      r != Fail(IndexError) ==>
        exists i :: 0 <= i < |s.nodes|
          && Carries(s.nodes[i], ip)
          && (forall k :: 0 <= k < i ==> !Carries(s.nodes[k], ip))
          && s'.trace == s.trace + [DestroyNodeCall(s.nodes[i])]
          && s'.keypairs == s.keypairs && s'.groups == s.groups
          && (r == Pass <==> DestroyNodeCall(s.nodes[i]) !in p.rejects)
          && (r == Pass ==> s'.nodes == s.nodes[..i] + s.nodes[i + 1..])
          && (r != Pass ==> r == Fail(DriverFailure) && s'.nodes == s.nodes)
  {
    var found := FirstMatch(s.nodes, (node: Node) => Carries(node, ip));
    if found.Some? {
      var i := found.value;
      assert Carries(s.nodes[i], ip);
      assert forall k :: 0 <= k < i ==> !Carries(s.nodes[k], ip);
      assert forall k :: 0 <= k < i ==> s.nodes[k] != s.nodes[i];
      RemoveFirstAt(s.nodes, i);
      var (r, s') := DestroyNodeAt(p, s, ip);
      assert s'.trace == s.trace + [DestroyNodeCall(s.nodes[i])];
      if r == Pass {
        assert s'.nodes == s.nodes[..i] + s.nodes[i + 1..];
      } else {
        assert s'.nodes == s.nodes;
      }
    }
  }

  class ComputeCreator {
    const cloud: Cloud
    const config: Value
    var keypairName: Value
    const securityGroupNames: seq<Value>
    var nodeName: Value

    constructor (cloud: Cloud, config: Value, keypairName: Value, securityGroupName: Value, nodeName: Value)
      ensures this.cloud == cloud && this.config == config
      ensures this.keypairName == keypairName && this.securityGroupNames == [securityGroupName] && this.nodeName == nodeName
    {
      this.cloud := cloud;
      this.config := config;
      this.keypairName := keypairName;
      this.securityGroupNames := [securityGroupName];
      this.nodeName := nodeName;
    }

    method DeleteNode(nodeIp: Value) returns (r: Outcome)
      modifies cloud
      ensures (r, cloud.Snapshot()) == DestroyNodeAt(cloud.provider, old(cloud.Snapshot()), nodeIp)
    {
      var carriers := FirstMatch(cloud.nodes, (node: Node) => Carries(node, nodeIp));
      if carriers.None? {
        return Fail(IndexError);
      }
      var ok := cloud.DestroyNode(cloud.nodes[carriers.value]);
      r := if ok then Pass else Fail(DriverFailure);
    }

    method CreateNode() returns (r: Result<string>)
      modifies this, cloud
      ensures Launch(r, cloud.Snapshot(), nodeName, keypairName) ==
        LaunchNode(cloud.provider, old(cloud.Snapshot()), config, old(nodeName), old(keypairName), securityGroupNames)
    {
      var instance := InstanceConfig(config);
      if instance.Err? {
        return Err(instance.error);
      }
      var server := instance.value;
      if !server.Dict? {
        return Err(WrongType);
      }
      var imageId := Get(server, "image", Null).value;
      var sizeId := Get(server, "size", Null).value;
      var images := FirstMatch(cloud.provider.images, (image: Image) => imageId == image.id);
      if images.None? {
        return Err(IndexError);
      }
      var sizes := FirstMatch(cloud.provider.sizes, (size: Size) => size.name == sizeId);
      if sizes.None? {
        return Err(IndexError);
      }
      if nodeName == Null {
        nodeName := Get(server, "name", Null).value;
      }
      if keypairName == Null {
        var configured := Lookup(server, ["management_keypair", "name"]);
        if configured.Err? {
          return Err(configured.error);
        }
        keypairName := configured.value;
      }
      var ok, node := cloud.CreateNode(nodeName, keypairName, securityGroupNames,
                                       cloud.provider.images[images.value], cloud.provider.sizes[sizes.value]);
      if !ok {
        return Err(DriverFailure);
      }
      if node.publicIps == [] {
        return Err(IndexError);
      }
      r := Ok(node.publicIps[0]);
    }
  }
}
