/**
 * ExoscaleKeypairCreator: create-or-reuse of the management and agents
 * keypairs, either by importing a public key from the local disk or by
 * having the provider generate one and saving its private key locally,
 * and their deletion.
 */
module Keypairs {
  import opened Values
  import opened Errors
  import opened Config
  import opened Paths
  import opened World

  const ManagementKeypairPath := ["compute", "management_server", "management_keypair"]
  const AgentsKeypairPath := ["compute", "agent_servers", "agents_keypair"]

  /** `get_management_keypair_name` */
  function ManagementKeypairName(config: Value): Result<Value>
  {
    Lookup(config, ManagementKeypairPath + ["name"])
  }

  /** `_get_agents_keypair_name` */
  function AgentsKeypairName(config: Value): Result<Value>
  {
    Lookup(config, AgentsKeypairPath + ["name"])
  }

  /** `v.get(section, {}).get(key, None)` */
  function NestedGet(v: Value, section: string, key: string): (r: Result<Value>)
    ensures !v.Dict? ==> r == Err(WrongType)
    ensures v.Dict? && section !in v.entries ==> r == Ok(Null)
    ensures v.Dict? && section in v.entries && v.entries[section].Dict? ==>
      r == Ok(if key in v.entries[section].entries then v.entries[section].entries[key] else Null)
    ensures v.Dict? && section in v.entries && !v.entries[section].Dict? ==> r == Err(WrongType)
  {
    var inner :- Get(v, section, Dict(map[]));
    Get(inner, key, Null)
  }

  /** Where a generated private key is to be saved. */
  function PrivateKeyTarget(keypairConfig: Value): Result<Value>
  {
    NestedGet(keypairConfig, "auto_generated", "private_key_target_path")
  }

  /** Which public key file is to be imported. */
  function PublicKeyFile(keypairConfig: Value): Result<Value>
  {
    NestedGet(keypairConfig, "provided", "public_key_filepath")
  }

  /**
   * `_create_keypair` without overrides: read the name and both paths;
   * reuse a keypair of that name; otherwise import the public key when a
   * public key path is given, and have the provider generate the keypair
   * when only a private key target is given, saving its private key there.
   * The local disk maps paths as the code spells them to their contents.
   */
  function CreateKeypair(p: Provider, s: State, home: string, directories: set<string>, files: map<string, FileContent>, keypairConfig: Value)
    : (Outcome, State, map<string, FileContent>)
  {
    match Index(keypairConfig, "name")
    case Err(e) => (Fail(e), s, files)
    case Ok(name) =>
      match PrivateKeyTarget(keypairConfig)
      case Err(e) => (Fail(e), s, files)
      case Ok(target) =>
        match PublicKeyFile(keypairConfig)
        case Err(e) => (Fail(e), s, files)
        case Ok(public) =>
          if name in s.keypairs then (Pass, s, files)
          else if !Truthy(target) && !Truthy(public) then (Fail(NoKeySource), s, files)
          else if Truthy(public) then
            if !public.Str? then (Fail(WrongType), s, files)
            else if public.s !in directories && public.s !in files then (Fail(PublicKeyNotFound(public)), s, files)
            // an existing directory passes the existence test, but the import cannot read it and sends nothing
            else if public.s !in files then (Fail(OsFailure), s, files)
            else
              var (ok, s1) := Step(p, s, ImportKeyPairCall(name, public));
              (if ok then Pass else Fail(DriverFailure), s1, files)
          else
            var (ok, s1) := Step(p, s, CreateKeyPairCall(name));
            if !ok then (Fail(DriverFailure), s1, files)
            else if !target.Str? then (Fail(WrongType), s1, files)
            else if Dirname(target.s) == [] then (Fail(OsFailure), s1, files)
            else (Pass, s1, files[ExpandUser(home, target.s) := PrivateKeyOf(name)])
  }

  /** `create_key_pairs`: the management keypair, then the agents keypair. */
  function CreateKeypairs(p: Provider, s: State, home: string, directories: set<string>, files: map<string, FileContent>, config: Value)
    : (Outcome, State, map<string, FileContent>)
  {
    match Lookup(config, ManagementKeypairPath)
    case Err(e) => (Fail(e), s, files)
    case Ok(management) =>
      var (r, s1, files1) := CreateKeypair(p, s, home, directories, files, management);
      if r.Fail? then (r, s1, files1)
      else
        match Lookup(config, AgentsKeypairPath)
        case Err(e) => (Fail(e), s1, files1)
        case Ok(agents) => CreateKeypair(p, s1, home, directories, files1, agents)
  }

  /** `delete_keypairs`: the management keypair, then the agents keypair; a failing deletion ends it. */
  function DeleteKeypairs(p: Provider, s: State, config: Value): (Outcome, State)
  {
    match ManagementKeypairName(config)
    case Err(e) => (Fail(e), s)
    case Ok(management) =>
      var (ok, s1) := Step(p, s, DeleteKeyPairCall(management));
      if !ok then (Fail(DriverFailure), s1)
      else
        match AgentsKeypairName(config)
        case Err(e) => (Fail(e), s1)
        case Ok(agents) =>
          var (ok2, s2) := Step(p, s1, DeleteKeyPairCall(agents));
          (if ok2 then Pass else Fail(DriverFailure), s2)
  }

  // ---------------------------------------------------------------------
  // Properties
  // ---------------------------------------------------------------------

  /** The name getters read the same value as `create_key_pairs` does through the keypair's configuration. */
  lemma KeypairNameThroughConfig(config: Value)
    ensures ManagementKeypairName(config) ==
      match Lookup(config, ManagementKeypairPath) case Err(e) => Err(e) case Ok(kp) => Index(kp, "name")
    ensures AgentsKeypairName(config) ==
      match Lookup(config, AgentsKeypairPath) case Err(e) => Err(e) case Ok(kp) => Index(kp, "name")
  {
    LookupExtend(config, ManagementKeypairPath, "name");
    LookupExtend(config, AgentsKeypairPath, "name");
  }

  /** A keypair that exists by name is reused: no call, and the local disk is left alone, whichever paths are configured. */
  lemma ExistingKeypairReused(p: Provider, s: State, home: string, directories: set<string>, files: map<string, FileContent>, keypairConfig: Value)
    requires Index(keypairConfig, "name").Ok? && Index(keypairConfig, "name").value in s.keypairs
    ensures var (r, s', files') := CreateKeypair(p, s, home, directories, files, keypairConfig);
      && s' == s && files' == files
      && (r == Pass <==> PrivateKeyTarget(keypairConfig).Ok? && PublicKeyFile(keypairConfig).Ok?)
  {
  }

  /** Without a public key path or a private key target, a missing keypair is an error and nothing happens. */
  lemma NoKeySourceRefused(p: Provider, s: State, home: string, directories: set<string>, files: map<string, FileContent>, keypairConfig: Value)
    requires Index(keypairConfig, "name").Ok? && Index(keypairConfig, "name").value !in s.keypairs
    requires PrivateKeyTarget(keypairConfig).Ok? && !Truthy(PrivateKeyTarget(keypairConfig).value)
    requires PublicKeyFile(keypairConfig).Ok? && !Truthy(PublicKeyFile(keypairConfig).value)
    ensures CreateKeypair(p, s, home, directories, files, keypairConfig) == (Fail(NoKeySource), s, files)
  {
  }

  /**
   * A public key path takes precedence over a private key target: the
   * provider is never asked to generate a key and no local file is
   * written. The key is imported, with the path as configured, exactly
   * when that path names a local file; otherwise nothing is called: a
   * path that names nothing is reported as not found, and a path that
   * names a directory passes the existence test but cannot be read.
   */
  lemma ProvidedKeyImported(p: Provider, s: State, home: string, directories: set<string>, files: map<string, FileContent>, keypairConfig: Value,
                            name: Value, public: Value)
    requires Index(keypairConfig, "name") == Ok(name) && name !in s.keypairs
    requires PrivateKeyTarget(keypairConfig).Ok?
    requires PublicKeyFile(keypairConfig) == Ok(public) && Truthy(public)
    ensures var (r, s', files') := CreateKeypair(p, s, home, directories, files, keypairConfig);
      && files' == files
      && CreateKeyPairCall(name) !in s'.trace[|s.trace|..]
      && (public.Str? && public.s in files ==> s' == Step(p, s, ImportKeyPairCall(name, public)).1)
      && (!(public.Str? && public.s in files) ==> s' == s && r.Fail?)
      && (public.Str? && public.s !in directories && public.s !in files ==> r == Fail(PublicKeyNotFound(public)))
      && (public.Str? && public.s in directories && public.s !in files ==> r == Fail(OsFailure))
      && (r == Pass <==> public.Str? && public.s in files && ImportKeyPairCall(name, public) !in p.rejects)
  {
    var (r, s', files') := CreateKeypair(p, s, home, directories, files, keypairConfig);
    if public.Str? && public.s in files {
      assert s'.trace[|s.trace|..] == [ImportKeyPairCall(name, public)];
    } else {
      assert s'.trace[|s.trace|..] == [];
    }
  }

  /**
   * With only a private key target, the provider generates the keypair
   * first; its private key is then saved under the target with `~`
   * expanded, and no other local file changes. The save fails when the
   * target is not a string, or when it has no directory part, because
   * creating its (empty) directory fails; the keypair then exists anyway.
   */
  lemma GeneratedKeySaved(p: Provider, s: State, home: string, directories: set<string>, files: map<string, FileContent>, keypairConfig: Value,
                          name: Value, target: Value)
    requires Index(keypairConfig, "name") == Ok(name) && name !in s.keypairs
    requires PrivateKeyTarget(keypairConfig) == Ok(target) && Truthy(target)
    requires PublicKeyFile(keypairConfig).Ok? && !Truthy(PublicKeyFile(keypairConfig).value)
    ensures var (r, s', files') := CreateKeypair(p, s, home, directories, files, keypairConfig);
      && s' == Step(p, s, CreateKeyPairCall(name)).1
      && (r == Pass <==> CreateKeyPairCall(name) !in p.rejects && target.Str? && '/' in target.s)
      && (r == Pass ==> files' == files[ExpandUser(home, target.s) := PrivateKeyOf(name)])
      && (r != Pass ==> files' == files)
  {
  }

  /** Creating one keypair never deletes a keypair, and when it succeeds the keypair exists. */
  lemma CreateKeypairEstablishes(p: Provider, s: State, home: string, directories: set<string>, files: map<string, FileContent>, keypairConfig: Value)
    ensures var (r, s', _) := CreateKeypair(p, s, home, directories, files, keypairConfig);
      && s.keypairs <= s'.keypairs
      && (r == Pass ==> Index(keypairConfig, "name").Ok? && Index(keypairConfig, "name").value in s'.keypairs)
  {
  }

  /** A second run over what a successful run left behind makes no call and writes no file. */
  lemma CreateKeypairsIdempotent(p: Provider, s: State, home: string, directories: set<string>, files: map<string, FileContent>, config: Value)
    requires CreateKeypairs(p, s, home, directories, files, config).0 == Pass
    ensures var (_, s', files') := CreateKeypairs(p, s, home, directories, files, config);
      CreateKeypairs(p, s', home, directories, files', config) == (Pass, s', files')
  {
    var management := Lookup(config, ManagementKeypairPath).value;
    var (r1, s1, files1) := CreateKeypair(p, s, home, directories, files, management);
    CreateKeypairEstablishes(p, s, home, directories, files, management);
    var agents := Lookup(config, AgentsKeypairPath).value;
    var (r2, s2, files2) := CreateKeypair(p, s1, home, directories, files1, agents);
    CreateKeypairEstablishes(p, s1, home, directories, files1, agents);
    ExistingKeypairReused(p, s2, home, directories, files2, management);
    ExistingKeypairReused(p, s2, home, directories, files2, agents);
  }

  /**
   * Deletion stops at the first failure: when the provider refuses the
   * management deletion, the agents keypair is not even attempted. When
   * both deletions go through, neither keypair remains.
   */
  lemma DeleteKeypairsStopsAtFailure(p: Provider, s: State, config: Value)
    requires ManagementKeypairName(config).Ok?
    ensures var management := ManagementKeypairName(config).value;
      DeleteKeyPairCall(management) in p.rejects ==>
        DeleteKeypairs(p, s, config) == (Fail(DriverFailure), s.(trace := s.trace + [DeleteKeyPairCall(management)]))
    ensures var (r, s') := DeleteKeypairs(p, s, config);
      r == Pass ==>
        && AgentsKeypairName(config).Ok?
        && ManagementKeypairName(config).value !in s'.keypairs
        && AgentsKeypairName(config).value !in s'.keypairs
        && s'.trace == s.trace + [DeleteKeyPairCall(ManagementKeypairName(config).value),
                                  DeleteKeyPairCall(AgentsKeypairName(config).value)]
  {
    var (r, s') := DeleteKeypairs(p, s, config);
    if r == Pass {
      var management := ManagementKeypairName(config).value;
      var agents := AgentsKeypairName(config).value;
      assert s'.trace == s.trace + [DeleteKeyPairCall(management)] + [DeleteKeyPairCall(agents)];
    }
  }

  class KeypairCreator {
    const cloud: Cloud
    const config: Value

    constructor (cloud: Cloud, config: Value)
      ensures this.cloud == cloud && this.config == config
    {
      this.cloud := cloud;
      this.config := config;
    }

    /** `_get_keypair`: whether the account holds a keypair of that name. */
    method HasKeypair(name: Value) returns (found: bool)
      ensures found <==> name in cloud.keypairs
    {
      found := name in cloud.keypairs;
    }

    method CreateKeyPairs(disk: LocalDisk) returns (r: Outcome)
      modifies cloud, disk
      ensures (r, cloud.Snapshot(), disk.files) == CreateKeypairs(cloud.provider, old(cloud.Snapshot()), disk.home, disk.directories, old(disk.files), config)
    {
      var management := Lookup(config, ManagementKeypairPath);
      if management.Err? {
        return Fail(management.error);
      }
      r := CreateKeypairFrom(disk, management.value);
      if r.Fail? {
        return;
      }
      var agents := Lookup(config, AgentsKeypairPath);
      if agents.Err? {
        return Fail(agents.error);
      }
      r := CreateKeypairFrom(disk, agents.value);
    }

    /** `_create_keypair` */
    method CreateKeypairFrom(disk: LocalDisk, keypairConfig: Value) returns (r: Outcome)
      modifies cloud, disk
      ensures (r, cloud.Snapshot(), disk.files) ==
        CreateKeypair(cloud.provider, old(cloud.Snapshot()), disk.home, disk.directories, old(disk.files), keypairConfig)
    {
      var name := Index(keypairConfig, "name");
      if name.Err? {
        return Fail(name.error);
      }
      var target := PrivateKeyTarget(keypairConfig);
      if target.Err? {
        return Fail(target.error);
      }
      var public := PublicKeyFile(keypairConfig);
      if public.Err? {
        return Fail(public.error);
      }
      var existing := HasKeypair(name.value);
      if existing {
        return Pass;
      }
      if !Truthy(target.value) && !Truthy(public.value) {
        return Fail(NoKeySource);
      }
      if Truthy(public.value) {
        if !public.value.Str? {
          return Fail(WrongType);
        }
        if public.value.s !in disk.directories && public.value.s !in disk.files {
          return Fail(PublicKeyNotFound(public.value));
        }
        if public.value.s !in disk.files {
          return Fail(OsFailure);
        }
        var ok := cloud.ImportKeyPairFromFile(name.value, public.value);
        r := if ok then Pass else Fail(DriverFailure);
      } else {
        var ok, privateKey := cloud.CreateKeyPair(name.value);
        if !ok {
          return Fail(DriverFailure);
        }
        if !target.value.Str? {
          return Fail(WrongType);
        }
        var targetPath := ExpandUser(disk.home, target.value.s);
        if Dirname(target.value.s) == [] {
          return Fail(OsFailure);
        }
        disk.Write(targetPath, privateKey);
        r := Pass;
      }
    }

    method DeleteKeyPairs() returns (r: Outcome)
      modifies cloud
      ensures (r, cloud.Snapshot()) == DeleteKeypairs(cloud.provider, old(cloud.Snapshot()), config)
    {
      var management := ManagementKeypairName(config);
      if management.Err? {
        return Fail(management.error);
      }
      var ok := cloud.ExDeleteKeypair(management.value);
      if !ok {
        return Fail(DriverFailure);
      }
      var agents := AgentsKeypairName(config);
      if agents.Err? {
        return Fail(agents.error);
      }
      ok := cloud.ExDeleteKeypair(agents.value);
      r := if ok then Pass else Fail(DriverFailure);
    }
  }
}
