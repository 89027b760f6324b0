/**
 * The provider entry points: `init`, which puts a configuration template
 * in place, and the ProviderManager, which provisions the management
 * node with its security groups and keypairs, hands the agents key to
 * it, and tears all of it down again through ExoscaleResourceTerminator.
 */
module Manager {
  import opened Values
  import opened Errors
  import opened Config
  import opened Paths
  import opened World
  import opened SecurityGroups
  import opened Keypairs
  import opened Compute

  const ConfigFileName := "cloudify-config.yaml"

  // ---------------------------------------------------------------------
  // init(target_directory, reset_config)
  // ---------------------------------------------------------------------

  /** `os.path.exists`: a file or a directory. */
  predicate Exists(directories: set<string>, files: map<string, FileContent>, path: string)
  {
    path in directories || path in files
  }

  /**
   * `init`: unless `reset` is set, an existing configuration file in the
   * target directory is kept and the answer is false; otherwise the
   * template next to the provider code is copied into the target
   * directory (onto the target path itself when that is no directory).
   */
  function Initialize(directories: set<string>, files: map<string, FileContent>, providerDirectory: string,
                      targetDirectory: string, reset: bool): (Result<bool>, map<string, FileContent>)
  {
    if !reset && Exists(directories, files, Join(targetDirectory, ConfigFileName)) then (Ok(false), files)
    else
      var template := Join(providerDirectory, ConfigFileName);
      if template !in files then (Err(FileMissing(template)), files)
      else
        var destination := if targetDirectory in directories then Join(targetDirectory, ConfigFileName) else targetDirectory;
        (Ok(true), files[destination := files[template]])
  }

  /** `init` on the local disk; `providerDirectory` is the directory the provider code lives in. */
  method Init(disk: LocalDisk, providerDirectory: string, targetDirectory: string, reset: bool) returns (r: Result<bool>)
    modifies disk
    ensures (r, disk.files) == Initialize(disk.directories, old(disk.files), providerDirectory, targetDirectory, reset)
  {
    if !reset && Exists(disk.directories, disk.files, Join(targetDirectory, ConfigFileName)) {
      return Ok(false);
    }
    var template := Join(providerDirectory, ConfigFileName);
    if template !in disk.files {
      return Err(FileMissing(template));
    }
    var destination := if targetDirectory in disk.directories then Join(targetDirectory, ConfigFileName) else targetDirectory;
    disk.Write(destination, disk.files[template]);
    r := Ok(true);
  }

  /** Without `reset`, an existing configuration file is never overwritten and nothing is copied. */
  lemma InitKeepsExistingConfig(directories: set<string>, files: map<string, FileContent>, providerDirectory: string,
                                targetDirectory: string)
    requires Exists(directories, files, Join(targetDirectory, ConfigFileName))
    ensures Initialize(directories, files, providerDirectory, targetDirectory, false) == (Ok(false), files)
  {
  }

  /**
   * Into a target directory, `init` copies the template to the
   * configuration file there and changes no other file; a second `init`
   * without `reset` then keeps it.
   */
  lemma InitCopiesTemplate(directories: set<string>, files: map<string, FileContent>, providerDirectory: string,
                           targetDirectory: string, reset: bool)
    requires reset || !Exists(directories, files, Join(targetDirectory, ConfigFileName))
    requires targetDirectory in directories
    ensures var template := Join(providerDirectory, ConfigFileName);
      var (r, files') := Initialize(directories, files, providerDirectory, targetDirectory, reset);
      && (r == Ok(true) <==> template in files)
      && (template !in files ==> r == Err(FileMissing(template)) && files' == files)
      && (template in files ==>
            && files' == files[Join(targetDirectory, ConfigFileName) := files[template]]
            && Initialize(directories, files', providerDirectory, targetDirectory, false) == (Ok(false), files'))
  {
  }

  // ---------------------------------------------------------------------
  // ExoscaleConnector, and the ProviderManager's reading of key paths
  // ---------------------------------------------------------------------

  /** `ExoscaleConnector.create`: the API key and secret the driver is opened with. */
  function Connect(config: Value): (r: Result<(Value, Value)>)
    ensures r.Ok? <==> Lookup(config, ["authentication", "api_key"]).Ok? && Lookup(config, ["authentication", "api_secret_key"]).Ok?
  {
    var key :- Lookup(config, ["authentication", "api_key"]);
    var secret :- Lookup(config, ["authentication", "api_secret_key"]);
    Ok((key, secret))
  }

  /**
   * `_get_private_key_path_from_keypair_config`: a keypair configured with
   * a `provided` section has its private key where that section says,
   * any other where the provider generated it; `~` is expanded.
   */
  function PrivateKeyPath(home: string, keypairConfig: Value): Result<string>
  {
    if !keypairConfig.Dict? then Err(WrongType)
    else
      var path :- if "provided" in keypairConfig.entries then Lookup(keypairConfig, ["provided", "private_key_filepath"])
                  else Lookup(keypairConfig, ["auto_generated", "private_key_target_path"]);
      var p :- AsString(path);
      Ok(ExpandUser(home, p))
  }

  /** Which section the key path comes from: `provided` when it is present, `auto_generated` otherwise. */
  lemma PrivateKeyPathSource(home: string, keypairConfig: Value)
    requires keypairConfig.Dict?
    ensures var path := if "provided" in keypairConfig.entries then Lookup(keypairConfig, ["provided", "private_key_filepath"])
                        else Lookup(keypairConfig, ["auto_generated", "private_key_target_path"]);
      && (PrivateKeyPath(home, keypairConfig).Ok? <==> path.Ok? && path.value.Str?)
      && (path.Ok? && path.value.Str? ==> PrivateKeyPath(home, keypairConfig) == Ok(ExpandUser(home, path.value.s)))
  {
  }

  /**
   * The key path the provider reports for a keypair without a `provided`
   * section is the file the keypair creator saved the generated private
   * key to.
   */
  lemma GeneratedKeyIsReported(p: Provider, s: State, home: string, directories: set<string>, files: map<string, FileContent>, keypairConfig: Value)
    requires keypairConfig.Dict? && "provided" !in keypairConfig.entries
    requires Index(keypairConfig, "name").Ok? && Index(keypairConfig, "name").value !in s.keypairs
    requires CreateKeypair(p, s, home, directories, files, keypairConfig).0 == Pass
    ensures var files' := CreateKeypair(p, s, home, directories, files, keypairConfig).2;
      && PrivateKeyPath(home, keypairConfig).Ok?
      && files'[PrivateKeyPath(home, keypairConfig).value] == PrivateKeyOf(Index(keypairConfig, "name").value)
  {
    var auto := Get(keypairConfig, "auto_generated", Dict(map[])).value;
    if "auto_generated" in keypairConfig.entries {
      LookupExtend(keypairConfig, ["auto_generated"], "private_key_target_path");
      assert ["auto_generated"] + ["private_key_target_path"] == ["auto_generated", "private_key_target_path"];
    }
  }

  /** `validate`: the validation errors it is given, which default to none. */
  function Validate(validationErrors: Value): (r: Value)
  {
    validationErrors
  }

  /** Validation adds no error of its own: provisioning goes on exactly when the caller had none. */
  lemma ValidateAddsNothing(validationErrors: Value)
    ensures Validate(validationErrors) == validationErrors
    ensures !Truthy(Validate(Dict(map[])))
  {
  }

  // ---------------------------------------------------------------------
  // provision()
  // ---------------------------------------------------------------------

  /** `provider_config.get('compute', {}).get('management_server', {})` */
  function ManagementServerConfig(config: Value): Result<Value>
  {
    var compute :- Get(config, "compute", Dict(map[]));
    Get(compute, "management_server", Dict(map[]))
  }

  /**
   * `copy_files_to_manager`: read the home directory on the manager and
   * the agents key path, then upload that key into `.ssh` under that home,
   * logged in with the management user and key. A key file missing on the
   * local disk, or a failed transfer, ends it.
   */
  function CopyAgentsKey(p: Provider, s: State, home: string, files: map<string, FileContent>, config: Value,
                         host: string, sshKey: string, sshUser: string): (Outcome, State)
  {
    match Lookup(config, ["compute", "management_server", "userhome_on_management"])
    case Err(e) => (Fail(e), s)
    case Ok(userhome) =>
      match Lookup(config, ["compute", "agent_servers", "agents_keypair"])
      case Err(e) => (Fail(e), s)
      case Ok(agentsKeypair) =>
        match PrivateKeyPath(home, agentsKeypair)
        case Err(e) => (Fail(e), s)
        case Ok(agentsKey) =>
          if !userhome.Str? then (Fail(WrongType), s)
          else if agentsKey !in files then (Fail(FileMissing(agentsKey)), s)
          else
            var (ok, s1) := Step(p, s, UploadCall(host, sshUser, sshKey, agentsKey, userhome.s + "/.ssh"));
            (if ok then Pass else Fail(TransferFailure), s1)
  }

  /** What `provision` returns: the public and private address (both the node's public one), key path, user and context. */
  datatype Provisioned = Provisioned(publicIp: string, privateIp: string, keyPath: string, user: string, context: Value)

  /**
   * `provision`: connect; create the security groups, then the keypairs;
   * then launch the management node and hand the agents key over to it.
   */
  function Provisioning(p: Provider, s: State, home: string, directories: set<string>, files: map<string, FileContent>, config: Value)
    : (Result<Provisioned>, State, map<string, FileContent>)
  {
    match Connect(config)
    case Err(e) => (Err(e), s, files)
    case Ok(_) =>
      var (groups, s1) := CreateGroups(p, s, config);
      if groups.Fail? then (Err(groups.error), s1, files)
      else
        var (keypairs, s2, files2) := CreateKeypairs(p, s1, home, directories, files, config);
        if keypairs.Fail? then (Err(keypairs.error), s2, files2)
        else
          var (r, s3) := LaunchManagement(p, s2, home, files2, config);
          (r, s3, files2)
  }

  /** The rest of `provision`: launch the management node with the management keypair and group, then hand over. */
  function LaunchManagement(p: Provider, s: State, home: string, files: map<string, FileContent>, config: Value)
    : (Result<Provisioned>, State)
  {
    match ManagementKeypairName(config)
    case Err(e) => (Err(e), s)
    case Ok(keypairName) =>
      match GroupName(config, ManagementSection)
      case Err(e) => (Err(e), s)
      case Ok(groupName) =>
        match ManagementServerConfig(config)
        case Err(e) => (Err(e), s)
        case Ok(management) =>
          var launch := LaunchNode(p, s, config, Null, keypairName, [groupName]);
          match launch.result
          case Err(e) => (Err(e), launch.state)
          case Ok(ip) => HandOver(p, launch.state, home, files, config, management, ip)
  }

  /**
   * The end of `provision` once the node runs at `ip`: read the management
   * key path and user (which must be a string, as the message printed
   * with them requires), upload the agents key, and answer the node's
   * address with the context that records it.
   */
  function HandOver(p: Provider, s: State, home: string, files: map<string, FileContent>, config: Value,
                    management: Value, ip: string): (Result<Provisioned>, State)
  {
    match Index(management, "management_keypair")
    case Err(e) => (Err(e), s)
    case Ok(managementKeypair) =>
      match PrivateKeyPath(home, managementKeypair)
      case Err(e) => (Err(e), s)
      case Ok(keyPath) =>
        var user := Get(management, "user_on_management", Null).value;
        if !user.Str? then (Err(WrongType), s)
        else
          var (copied, s1) := CopyAgentsKey(p, s, home, files, config, ip, keyPath, user.s);
          if copied.Fail? then (Err(copied.error), s1)
          else (Ok(Provisioned(ip, ip, keyPath, user.s, Dict(map["ip" := Str(ip)]))), s1)
  }

  /**
   * A hand-over that succeeds answers the node's address twice, the
   * management key path and user, and a context recording the address;
   * its one call is the upload of the agents key into `.ssh` under the
   * manager's home, logged in with that user and key.
   */
  lemma HandOverOutcome(p: Provider, s: State, home: string, files: map<string, FileContent>, config: Value,
                        management: Value, ip: string)
    requires HandOver(p, s, home, files, config, management, ip).0.Ok?
    ensures var (r, s') := HandOver(p, s, home, files, config, management, ip);
      var result := r.value;
      && result.publicIp == ip && result.privateIp == ip
      && result.context == Dict(map["ip" := Str(ip)])
      && Index(management, "management_keypair").Ok?
      && PrivateKeyPath(home, Index(management, "management_keypair").value) == Ok(result.keyPath)
      && Get(management, "user_on_management", Null) == Ok(Str(result.user))
      && var userhome := Lookup(config, ["compute", "management_server", "userhome_on_management"]);
         var agentsKey := PrivateKeyPath(home, Lookup(config, ["compute", "agent_servers", "agents_keypair"]).value);
      && userhome.Ok? && userhome.value.Str? && agentsKey.Ok? && agentsKey.value in files
      && s' == s.(trace := s.trace + [UploadCall(ip, result.user, result.keyPath, agentsKey.value, userhome.value.s + "/.ssh")])
  {
  }

  /**
   * A launch and hand-over that succeed leave a node carrying the
   * answered address, which is the provider's first address for it; the
   * node was launched with the management keypair (when one is named) and
   * the management security group, and the upload followed.
   */
  lemma LaunchManagementOutcome(p: Provider, s: State, home: string, files: map<string, FileContent>, config: Value)
    requires LaunchManagement(p, s, home, files, config).0.Ok?
    ensures var (r, s') := LaunchManagement(p, s, home, files, config);
      var result := r.value;
      && p.newNodeIps != [] && result.publicIp == p.newNodeIps[0]
      && (exists n :: n in s'.nodes && Carries(n, Str(result.publicIp)))
      && |s'.trace| == |s.trace| + 2
      && s'.trace[|s.trace|].CreateNodeCall?
      && s'.trace[|s.trace|].securityGroups == [GroupName(config, ManagementSection).value]
      && (ManagementKeypairName(config).value != Null ==> s'.trace[|s.trace|].keyName == ManagementKeypairName(config).value)
      && s'.trace[|s.trace| + 1].UploadCall?
      && s'.trace[|s.trace| + 1].host == result.publicIp
      && s'.trace[|s.trace| + 1].user == result.user
      && s'.trace[|s.trace| + 1].keyFile == result.keyPath
      && Index(ManagementServerConfig(config).value, "management_keypair").Ok?
      && PrivateKeyPath(home, Index(ManagementServerConfig(config).value, "management_keypair").value) == Ok(result.keyPath)
      && result.privateIp == result.publicIp
      && result.context == Dict(map["ip" := Str(result.publicIp)])
  {
    var keypairName := ManagementKeypairName(config).value;
    var groupName := GroupName(config, ManagementSection).value;
    var management := ManagementServerConfig(config).value;
    LaunchUsesFirstMatches(p, s, config, Null, keypairName, [groupName]);
    var launch := LaunchNode(p, s, config, Null, keypairName, [groupName]);
    HandOverOutcome(p, launch.state, home, files, config, management, launch.result.value);
    var node := Node(launch.nodeName, p.newNodeIps);
    assert node in launch.state.nodes;
  }

  /**
   * A successful `provision` created the security groups, then the
   * keypairs, and its answer and final state are those of the launch and
   * hand-over from the state they left.
   */
  lemma ProvisioningStages(p: Provider, s: State, home: string, directories: set<string>, files: map<string, FileContent>, config: Value)
    returns (s2: State, files2: map<string, FileContent>)
    requires Provisioning(p, s, home, directories, files, config).0.Ok?
    ensures Connect(config).Ok?
    ensures CreateGroups(p, s, config).0 == Pass
    ensures var (r, t, f) := CreateKeypairs(p, CreateGroups(p, s, config).1, home, directories, files, config);
      r == Pass && t == s2 && f == files2
    ensures var (r, s3) := LaunchManagement(p, s2, home, files2, config);
      Provisioning(p, s, home, directories, files, config) == (r, s3, files2)
  {
    var (_, s1) := CreateGroups(p, s, config);
    var (_, t, f) := CreateKeypairs(p, s1, home, directories, files, config);
    s2, files2 := t, f;
  }

  // ---------------------------------------------------------------------
  // ExoscaleResourceTerminator and teardown(provider_context)
  // ---------------------------------------------------------------------

  /** `terminate_resources`: the node carrying the address, then the keypairs, then the security groups; a failure ends it. */
  function Terminate(p: Provider, s: State, keypairConfig: Value, groupConfig: Value, ip: Value): (Outcome, State)
  {
    var (node, s1) := DestroyNodeAt(p, s, ip);
    if node.Fail? then (node, s1)
    else
      var (keypairs, s2) := DeleteKeypairs(p, s1, keypairConfig);
      if keypairs.Fail? then (keypairs, s2)
      else DeleteGroups(p, s2, groupConfig)
  }

  /** `teardown`: read the address from the context, connect, and terminate everything. */
  function TearingDown(p: Provider, s: State, config: Value, context: Value): (Outcome, State)
  {
    match Index(context, "ip")
    case Err(e) => (Fail(e), s)
    case Ok(ip) =>
      match Connect(config)
      case Err(e) => (Fail(e), s)
      case Ok(_) => Terminate(p, s, config, config, ip)
  }

  /** A teardown for an address no node carries deletes nothing: the node lookup fails first. */
  lemma TeardownWithoutNode(p: Provider, s: State, config: Value, context: Value)
    requires Index(context, "ip").Ok? && Connect(config).Ok?
    requires forall k :: 0 <= k < |s.nodes| ==> !Carries(s.nodes[k], Index(context, "ip").value)
    ensures TearingDown(p, s, config, context) == (Fail(IndexError), s)
  {
    DestroyFirstCarrier(p, s, Index(context, "ip").value);
  }

  /**
   * A teardown that succeeds destroys the node first, then deletes the
   * management and agents keypairs, then the management and agents
   * security groups, and makes no other call.
   */
  lemma TeardownOrder(p: Provider, s: State, config: Value, context: Value)
    requires TearingDown(p, s, config, context).0 == Pass
    ensures exists node ::
      && Carries(node, Index(context, "ip").value)
      && TearingDown(p, s, config, context).1.trace == s.trace + [
        DestroyNodeCall(node),
        DeleteKeyPairCall(ManagementKeypairName(config).value), DeleteKeyPairCall(AgentsKeypairName(config).value),
        DeleteGroupCall(GroupName(config, ManagementSection).value), DeleteGroupCall(GroupName(config, AgentsSection).value)]
  {
    var ip := Index(context, "ip").value;
    var (destroyed, s1) := DestroyNodeAt(p, s, ip);
    assert destroyed == Pass;
    var found := FirstMatch(s.nodes, (node: Node) => Carries(node, ip));
    var i := found.value;
    assert Carries(s.nodes[i], ip);
    assert s1.trace == s.trace + [DestroyNodeCall(s.nodes[i])];
    DeleteKeypairsStopsAtFailure(p, s1, config);
    var (_, s2) := DeleteKeypairs(p, s1, config);
    DeleteGroupsBestEffort(p, s2, config);
    var s3 := TearingDown(p, s, config, context).1;
    assert s3.trace == s.trace + [DestroyNodeCall(s.nodes[i])]
      + [DeleteKeyPairCall(ManagementKeypairName(config).value), DeleteKeyPairCall(AgentsKeypairName(config).value)]
      + [DeleteGroupCall(GroupName(config, ManagementSection).value), DeleteGroupCall(GroupName(config, AgentsSection).value)];
  }

  /**
   * Provisioning and teardown fit together: the context a successful
   * provision returns names an address that a node of the account
   * carries, so a teardown with that context connects and finds a node
   * to destroy.
   */
  lemma ProvisionThenTeardownFindsNode(p: Provider, s: State, home: string, directories: set<string>, files: map<string, FileContent>, config: Value)
    requires Provisioning(p, s, home, directories, files, config).0.Ok?
    ensures var (r, s', _) := Provisioning(p, s, home, directories, files, config);
      && Index(r.value.context, "ip") == Ok(Str(r.value.publicIp))
      && Connect(config).Ok?
      && DestroyNodeAt(p, s', Str(r.value.publicIp)).0 != Fail(IndexError)
  {
    var s2, files2 := ProvisioningStages(p, s, home, directories, files, config);
    LaunchManagementOutcome(p, s2, home, files2, config);
    var (r, s3) := LaunchManagement(p, s2, home, files2, config);
    var ip := Str(r.value.publicIp);
    assert exists n :: n in s3.nodes && Carries(n, ip);
    assert FirstMatch(s3.nodes, (node: Node) => Carries(node, ip)).Some?;
  }

  class ResourceTerminator {
    const securityGroupCreator: SecurityGroupCreator
    const keypairCreator: KeypairCreator
    const computeCreator: ComputeCreator
    const mgmtIp: Value

    constructor (securityGroupCreator: SecurityGroupCreator, keypairCreator: KeypairCreator,
                 computeCreator: ComputeCreator, mgmtIp: Value)
      ensures this.securityGroupCreator == securityGroupCreator && this.keypairCreator == keypairCreator
      ensures this.computeCreator == computeCreator && this.mgmtIp == mgmtIp
    {
      this.securityGroupCreator := securityGroupCreator;
      this.keypairCreator := keypairCreator;
      this.computeCreator := computeCreator;
      this.mgmtIp := mgmtIp;
    }

    /** The three creators work on one driver, as `teardown` builds them. */
    method TerminateResources() returns (r: Outcome)
      requires keypairCreator.cloud == computeCreator.cloud && securityGroupCreator.cloud == computeCreator.cloud
      modifies computeCreator.cloud
      ensures (r, computeCreator.cloud.Snapshot()) ==
        Terminate(computeCreator.cloud.provider, old(computeCreator.cloud.Snapshot()),
                  keypairCreator.config, securityGroupCreator.config, mgmtIp)
    {
      r := computeCreator.DeleteNode(mgmtIp);
      if r.Fail? {
        return;
      }
      r := keypairCreator.DeleteKeyPairs();
      if r.Fail? {
        return;
      }
      r := securityGroupCreator.DeleteSecurityGroups();
    }
  }

  /** The ProviderManager over the provider configuration and the account its credentials open. */
  class ProviderManager {
    const config: Value
    const account: Cloud

    constructor (config: Value, account: Cloud)
      ensures this.config == config && this.account == account
    {
      this.config := config;
      this.account := account;
    }

    method CopyFilesToManager(disk: LocalDisk, mgmtIp: string, sshKey: string, sshUser: string) returns (r: Outcome)
      modifies account
      ensures (r, account.Snapshot()) ==
        CopyAgentsKey(account.provider, old(account.Snapshot()), disk.home, disk.files, config, mgmtIp, sshKey, sshUser)
    {
      var userhome := Lookup(config, ["compute", "management_server", "userhome_on_management"]);
      if userhome.Err? {
        return Fail(userhome.error);
      }
      var agentsKeypair := Lookup(config, ["compute", "agent_servers", "agents_keypair"]);
      if agentsKeypair.Err? {
        return Fail(agentsKeypair.error);
      }
      var agentsKey := PrivateKeyPath(disk.home, agentsKeypair.value);
      if agentsKey.Err? {
        return Fail(agentsKey.error);
      }
      if !userhome.value.Str? {
        return Fail(WrongType);
      }
      if agentsKey.value !in disk.files {
        return Fail(FileMissing(agentsKey.value));
      }
      var ok := account.Put(mgmtIp, sshUser, sshKey, agentsKey.value, userhome.value.s + "/.ssh");
      r := if ok then Pass else Fail(TransferFailure);
    }

    method Provision(disk: LocalDisk) returns (r: Result<Provisioned>)
      modifies account, disk
      ensures (r, account.Snapshot(), disk.files) == Provisioning(account.provider, old(account.Snapshot()), disk.home, disk.directories, old(disk.files), config)
    {
      var credentials := Connect(config);
      if credentials.Err? {
        return Err(credentials.error);
      }
      var keypairCreator := new KeypairCreator(account, config);
      var securityGroupCreator := new SecurityGroupCreator(account, config);
      var groups := securityGroupCreator.CreateSecurityGroups();
      if groups.Fail? {
        return Err(groups.error);
      }
      var keypairs := keypairCreator.CreateKeyPairs(disk);
      if keypairs.Fail? {
        return Err(keypairs.error);
      }
      var keypairName := ManagementKeypairName(config);
      if keypairName.Err? {
        return Err(keypairName.error);
      }
      var groupName := GroupName(config, ManagementSection);
      if groupName.Err? {
        return Err(groupName.error);
      }
      var management := ManagementServerConfig(config);
      if management.Err? {
        return Err(management.error);
      }
      var computeCreator := new ComputeCreator(account, config, keypairName.value, groupName.value, Null);
      var ip := computeCreator.CreateNode();
      if ip.Err? {
        return Err(ip.error);
      }
      var context := Dict(map["ip" := Str(ip.value)]);
      var managementKeypair := Index(management.value, "management_keypair");
      if managementKeypair.Err? {
        return Err(managementKeypair.error);
      }
      var keyPath := PrivateKeyPath(disk.home, managementKeypair.value);
      if keyPath.Err? {
        return Err(keyPath.error);
      }
      var user := Get(management.value, "user_on_management", Null).value;
      if !user.Str? {
        return Err(WrongType);
      }
      var copied := CopyFilesToManager(disk, ip.value, keyPath.value, user.s);
      if copied.Fail? {
        return Err(copied.error);
      }
      r := Ok(Provisioned(ip.value, ip.value, keyPath.value, user.s, context));
    }

    method Teardown(context: Value) returns (r: Outcome)
      modifies account
      ensures (r, account.Snapshot()) == TearingDown(account.provider, old(account.Snapshot()), config, context)
    {
      var ip := Index(context, "ip");
      if ip.Err? {
        return Fail(ip.error);
      }
      var credentials := Connect(config);
      if credentials.Err? {
        return Fail(credentials.error);
      }
      var keypairCreator := new KeypairCreator(account, config);
      var securityGroupCreator := new SecurityGroupCreator(account, config);
      var computeCreator := new ComputeCreator(account, config, Null, Null, Null);
      var terminator := new ResourceTerminator(securityGroupCreator, keypairCreator, computeCreator, ip.value);
      r := terminator.TerminateResources();
    }
  }
}
