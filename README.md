# Exoscale provider for the Cloudify CLI, modelled in Dafny

The provider lets the Cloudify command-line tool bootstrap a management
server on the Exoscale cloud (a CloudStack "basic zone"). It has three
parts:

- `init` puts a configuration template in place.
- The configuration is read by deep-merging the user's file over a
  defaults file.
- `ProviderManager.provision` and `ProviderManager.teardown` drive the
  cloud through three resource creators.

`provision` runs in this order:

1. It creates the management and agents security groups, each with one
   ingress rule per configured port.
2. It creates the management and agents keypairs. Each is reused if one
   of that name exists, imported from a public key file when one is
   given, and otherwise generated, with its private key saved locally.
3. It launches the management node from the configured image and size.
4. It uploads the agents' private key to that node.
5. It answers the node's address, together with a context that records
   it.

`teardown` reads the address back from the context. It destroys the
node carrying that address, then the two keypairs, then the two security
groups.

The project has these modules:

- `Values`: configuration values, i.e. None, booleans, integers, strings,
  lists and string-keyed mappings, with Python truthiness.
- `Errors`: the exceptions that are raised or let through, and result
  types.
- `Paths`: `os.path.expanduser`, `os.path.join` and `os.path.dirname`.
- `Config`:
  - subscripts and `.get` on nested mappings;
  - the deep merge;
  - the choice `_read_config` makes between merging and taking the
    defaults.
- `World`: what the code acts on but does not own.
  - The cloud account is a class `Cloud`. Its fields are the keypair
    names, the security groups with their rules, the nodes, and an
    append-only trace of every mutating driver call.
  - The provider's own decisions form a `Provider` value: its image and
    size catalog, the calls it refuses, and the addresses it gives a new
    node.
  - The local disk is a class `LocalDisk`.
  - Every mutating driver call is traced, whether it is accepted or refused. Only
    an accepted call changes the account. A refused call raises in the
    code that made it.
- `SecurityGroups`, `Keypairs`, `Compute`: the three creators, each a
  class over the shared `Cloud`.
- `Manager`:
  - `init`;
  - the connector's credential reading;
  - the key-path reader;
  - `ProviderManager`;
  - `ExoscaleResourceTerminator`.

Every state-changing method is proved equal to a specification function
of the old state, for example `CreateGroups` or `CreateKeypair`. The
properties are proved as lemmas about those functions.

## Model

| member | source | states |
|---|---|---|
| `Config.Lookup` | cloudify_exoscale/cloudify_exoscale.py:583-585 | A chain of subscripts fails only with KeyError or a type error. The empty chain answers the value itself. |
| `Config.LookupExtend` | cloudify_exoscale/cloudify_exoscale.py:583-585 | One more subscript on a chain is a subscript on the value the chain finds. |
| `Config.DeepMerge` | cloudify_exoscale/cloudify_exoscale.py:265-275 | The merge fails exactly when a conflict exists, and then with a type-conflict error. On success its keys are the union of both sides' keys. |
| `Config.MergeAtKey` | cloudify_exoscale/cloudify_exoscale.py:266-275 | The overriding value wins at a key unless both sides hold mappings, even over a default mapping. Keys only in the defaults keep the default. Two mappings are merged recursively. |
| `Config.ConflictPathOfKey` | cloudify_exoscale/cloudify_exoscale.py:268-272 | A conflict lies at the end of a path of keys that starts at the top-level key the loop stops at, and the reported key ends such a path. |
| `Config.ConflictFromPath` | cloudify_exoscale/cloudify_exoscale.py:268-272 | A mapping over a non-mapping at the end of a path of shared mappings is a conflict. |
| `Config.MergeFailsExactlyOnConflict` | cloudify_exoscale/cloudify_exoscale.py:265-275 | The merge raises exactly when some path leads to a mapping over a non-mapping. The key in the error ends such a path. |
| `Config.TopLevelConflict` | cloudify_exoscale/cloudify_exoscale.py:268-272 | A user mapping over a default non-mapping at top-level key k fails with "type conflict at key k" whenever no other top-level key starts a conflict, whatever order the loop visits the keys in. |
| `Config.UserLeafWins` | cloudify_exoscale/cloudify_exoscale.py:273-274 | Wherever the user configuration reaches a non-mapping along a path, the merged configuration holds that same value there. |
| `Config.DefaultsSurvive` | cloudify_exoscale/cloudify_exoscale.py:266 | Along a path the user configuration lacks, the merged configuration holds the default value. |
| `Config.MergeEmptyOverride` | cloudify_exoscale/cloudify_exoscale.py:265-275 | Merging an empty user mapping gives the defaults back. |
| `Config.MergeWithItself` | cloudify_exoscale/cloudify_exoscale.py:265-275 | Merging a configuration over itself gives it back. |
| `Config.MergeExamples` | cloudify_exoscale/cloudify_exoscale.py:265-275 | `{a:1}` over `{a:2,b:3}` gives `{a:1,b:3}`. `{a:{x:1}}` over `{a:{x:2,y:3}}` gives `{a:{x:1,y:3}}`. `{a:{x:1}}` over `{a:5}` conflicts at `a`. |
| `Config.SelectConfig` | cloudify_exoscale/cloudify_exoscale.py:307-308 | An empty or absent user configuration yields the defaults unchanged. A non-empty one must be a mapping over a mapping, and the result holds both sides' keys. |
| `Config.SelectAgreesWithMerge` | cloudify_exoscale/cloudify_exoscale.py:307-308 | For two mappings, the selection always equals the merge, because merging an empty user mapping changes nothing. |
| `Paths.TrimTrailingSlashes` | cloudify_exoscale/cloudify_exoscale.py:515 | Trimming removes only trailing slashes, and leaves no trailing slash. |
| `Paths.ExpandUserCases` | cloudify_exoscale/cloudify_exoscale.py:515 | A path without a leading `~` is unchanged. `~/rest` becomes the home directory followed by `/rest`. |
| `Paths.Join` | cloudify_exoscale/cloudify_exoscale.py:250 | The joined path ends with the name. An absolute name replaces the directory. Otherwise the directory is kept as a prefix. |
| `Paths.UpToLastSlash` | cloudify_exoscale/cloudify_exoscale.py:519 | The prefix up to the last slash is a prefix, ends in a slash, and has no slash after it. |
| `Paths.Dirname` | cloudify_exoscale/cloudify_exoscale.py:519 | The directory part of a path is empty exactly when the path has no slash. |
| `World.RemoveFirst` | cloudify_exoscale/cloudify_exoscale.py:669 | Destroying a node removes one node when it is listed, and none otherwise. |
| `World.FirstMatch` | cloudify_exoscale/cloudify_exoscale.py:681-686 | `[x for x in xs if m(x)][0]` finds the first matching element. No earlier element matches, and the absence of a match means no element matches. |
| `World.Cloud.constructor` | cloudify_exoscale/cloudify_exoscale.py:414-419 | The account starts in the given state, under the given provider decisions. |
| `World.Cloud.ExCreateSecurityGroup` | cloudify_exoscale/cloudify_exoscale.py:611 | An accepted creation adds an empty group. Every call is traced. |
| `World.Cloud.ExAuthorizeSecurityGroupIngress` | cloudify_exoscale/cloudify_exoscale.py:542-547 | An accepted authorization appends the rule to the existing group. Every call is traced. |
| `World.Cloud.ExDeleteSecurityGroup` | cloudify_exoscale/cloudify_exoscale.py:563 | An accepted deletion removes the group. Every call is traced. |
| `World.Cloud.CreateKeyPair` | cloudify_exoscale/cloudify_exoscale.py:514 | An accepted creation adds the keypair, and the call hands back its private key. |
| `World.Cloud.ImportKeyPairFromFile` | cloudify_exoscale/cloudify_exoscale.py:509-510 | An accepted import adds the keypair. Every call is traced with the path as given. |
| `World.Cloud.ExDeleteKeypair` | cloudify_exoscale/cloudify_exoscale.py:437 | An accepted deletion removes the keypair. Every call is traced. |
| `World.Cloud.CreateNode` | cloudify_exoscale/cloudify_exoscale.py:699-704 | An accepted launch adds a node with the provider's addresses. Every call is traced. |
| `World.Cloud.DestroyNode` | cloudify_exoscale/cloudify_exoscale.py:669 | An accepted destruction removes the node. Every call is traced. |
| `World.Cloud.Put` | cloudify_exoscale/cloudify_exoscale.py:116 | The upload changes no resource and is traced with host, user, key, local file and remote directory. |
| `World.LocalDisk.constructor` | cloudify_exoscale/cloudify_exoscale.py:248-262 | The disk starts with the given home, directories and files. |
| `World.LocalDisk.Write` | cloudify_exoscale/cloudify_exoscale.py:526-527 | Writing a file changes that file only. |
| `SecurityGroups.GroupNameThroughConfig` | cloudify_exoscale/cloudify_exoscale.py:582-590 | The name getters read the same name `create_security_groups` reads through the group's section. |
| `SecurityGroups.RuleFields` | cloudify_exoscale/cloudify_exoscale.py:616-640 | The management group reads cidr and protocol with `.get`. On a mapping this always succeeds, giving each configured value or None when it is absent. The agents group subscripts them. That succeeds exactly when both are present, and then gives the configured pair. |
| `SecurityGroups.AddRulesOutcome` | cloudify_exoscale/cloudify_exoscale.py:615-622 | The rule loop succeeds exactly when the provider accepts every authorization. Otherwise it raises the driver's error. |
| `SecurityGroups.AddRulesTrace` | cloudify_exoscale/cloudify_exoscale.py:638-645 | The loop authorizes the ports in port order, each with the group's cidr and protocol and no end port, up to and including the first refused authorization. |
| `SecurityGroups.AddRulesGroups` | cloudify_exoscale/cloudify_exoscale.py:615-622 | The group gains exactly the accepted rules, in port order. No group is created or removed, and no keypair or node is touched. |
| `SecurityGroups.ExistingGroupReused` | cloudify_exoscale/cloudify_exoscale.py:608 | A group that exists by name is reused with no call at all. |
| `SecurityGroups.MissingGroupCreated` | cloudify_exoscale/cloudify_exoscale.py:608-622 | When the provider accepts the creation and every authorization, a missing group gets exactly one creation, then one authorization per port in port order, and ends up holding exactly those rules. |
| `SecurityGroups.AddRulesKeepsGroupNames` | cloudify_exoscale/cloudify_exoscale.py:615-622 | The rule loop neither adds nor removes a group. |
| `SecurityGroups.CreateOrReuseEstablishes` | cloudify_exoscale/cloudify_exoscale.py:604-622 | No group is lost. A success leaves the named group in place. |
| `SecurityGroups.CreateGroupsIdempotent` | cloudify_exoscale/cloudify_exoscale.py:598-648 | A second `create_security_groups` after a successful one makes no call and changes nothing. |
| `SecurityGroups.DeleteGroupsBestEffort` | cloudify_exoscale/cloudify_exoscale.py:557-580 | A driver failure never escapes. Once both names are read, both deletions are attempted in order and the outcome is success. |
| `SecurityGroups.SecurityGroupCreator.constructor` | cloudify_exoscale/cloudify_exoscale.py:532-534 | The creator holds the shared driver and the configuration it was given. |
| `SecurityGroups.SecurityGroupCreator.CreateSecurityGroups` | cloudify_exoscale/cloudify_exoscale.py:598-648 | The method handles the management group, then the agents group, as `CreateGroups` specifies. |
| `SecurityGroups.SecurityGroupCreator.CreateOrReuseGroup` | cloudify_exoscale/cloudify_exoscale.py:604-622 | The create-or-reuse of one group with its port loop agrees with `CreateOrReuse`. |
| `SecurityGroups.SecurityGroupCreator.DeleteSecurityGroups` | cloudify_exoscale/cloudify_exoscale.py:557-580 | The two swallowed deletions agree with `DeleteGroups`. |
| `Keypairs.NestedGet` | cloudify_exoscale/cloudify_exoscale.py:485-490 | `v.get(section, {}).get(key, None)` gives the key's value in a mapping section, or None when the key or the whole section is absent. A section that is not a mapping, or a configuration that is not one, raises a type error. |
| `Keypairs.KeypairNameThroughConfig` | cloudify_exoscale/cloudify_exoscale.py:443-451 | The name getters read the same name `create_key_pairs` reads through the keypair's section. |
| `Keypairs.ExistingKeypairReused` | cloudify_exoscale/cloudify_exoscale.py:492-494 | An existing keypair is reused without any call and without touching the disk. |
| `Keypairs.NoKeySourceRefused` | cloudify_exoscale/cloudify_exoscale.py:495-501 | A missing keypair with neither a private key target nor a public key path is an error, and nothing happens. |
| `Keypairs.ProvidedKeyImported` | cloudify_exoscale/cloudify_exoscale.py:503-510 | A public key path wins: generation is never invoked and no file is written. The key is imported exactly when the path names a local file. A path naming nothing fails the existence test with "public key not found". A path naming a directory passes that test, but the import cannot read it, so it fails with a local I/O error and sends nothing. |
| `Keypairs.GeneratedKeySaved` | cloudify_exoscale/cloudify_exoscale.py:511-528 | With only a target, the keypair is generated first. Its private key is written to the expanded target, and no other file changes. A target with no directory part fails after generation. |
| `Keypairs.CreateKeypairEstablishes` | cloudify_exoscale/cloudify_exoscale.py:478-528 | No keypair is lost. A success leaves the named keypair in place. |
| `Keypairs.CreateKeypairsIdempotent` | cloudify_exoscale/cloudify_exoscale.py:453-475 | A second `create_key_pairs` after a successful one makes no call and writes no file. |
| `Keypairs.DeleteKeypairsStopsAtFailure` | cloudify_exoscale/cloudify_exoscale.py:434-441 | A refused management deletion aborts before the agents deletion. A success removes both keypairs, in order. |
| `Keypairs.KeypairCreator.constructor` | cloudify_exoscale/cloudify_exoscale.py:423-425 | The creator holds the shared driver and the configuration it was given. |
| `Keypairs.KeypairCreator.CreateKeyPairs` | cloudify_exoscale/cloudify_exoscale.py:453-475 | The management keypair, then the agents keypair, as `CreateKeypairs` specifies. |
| `Keypairs.KeypairCreator.CreateKeypairFrom` | cloudify_exoscale/cloudify_exoscale.py:478-528 | `_create_keypair` agrees with `CreateKeypair` on account and disk. |
| `Keypairs.KeypairCreator.DeleteKeyPairs` | cloudify_exoscale/cloudify_exoscale.py:434-441 | The unguarded deletions agree with `DeleteKeypairs`. |
| `Compute.RemoveFirstAt` | cloudify_exoscale/cloudify_exoscale.py:669 | Destroying a node with no earlier duplicate removes exactly its position. |
| `Compute.LaunchUsesFirstMatches` | cloudify_exoscale/cloudify_exoscale.py:671-706 | A successful launch uses the first image with the configured id and the first size with the configured name. It makes one call, adds exactly the new node, and answers its first address. |
| `Compute.GivenNamesKept` | cloudify_exoscale/cloudify_exoscale.py:688-691 | Node and keypair names the creator was given are used as given. |
| `Compute.NoMatchNoLaunch` | cloudify_exoscale/cloudify_exoscale.py:682-686 | Without a matching image or size, the launch fails with IndexError and nothing is called. |
| `Compute.DestroyFirstCarrier` | cloudify_exoscale/cloudify_exoscale.py:663-669 | The first node carrying the address is the one destroyed, with one traced call, and keypairs and groups stay as they were. If the provider accepts, only that node leaves the account. If it refuses, the nodes stay and the driver's error is raised. If no node carries the address, the lookup fails with IndexError and nothing is called. |
| `Compute.ComputeCreator.constructor` | cloudify_exoscale/cloudify_exoscale.py:652-661 | The security group names are always the one-element list of the given name. |
| `Compute.ComputeCreator.DeleteNode` | cloudify_exoscale/cloudify_exoscale.py:663-669 | `delete_node` agrees with `DestroyNodeAt`. |
| `Compute.ComputeCreator.CreateNode` | cloudify_exoscale/cloudify_exoscale.py:671-706 | `create_node` agrees with `LaunchNode`, including the names it fills into its own fields. |
| `Manager.Init` | cloudify_exoscale/cloudify_exoscale.py:248-262 | `init` agrees with `Initialize` on the disk. |
| `Manager.InitKeepsExistingConfig` | cloudify_exoscale/cloudify_exoscale.py:249-254 | Without reset, an existing configuration file makes `init` answer False and copy nothing. |
| `Manager.InitCopiesTemplate` | cloudify_exoscale/cloudify_exoscale.py:256-262 | Otherwise, for a target that is an existing directory, the template is copied into it and the answer is True, or the copy fails on a missing template. A second `init` without reset then keeps the file. |
| `Manager.Connect` | cloudify_exoscale/cloudify_exoscale.py:414-419 | The connector succeeds exactly when both credentials are configured. |
| `Manager.PrivateKeyPathSource` | cloudify_exoscale/cloudify_exoscale.py:92-96 | The key path comes from `provided.private_key_filepath` when `provided` is present, otherwise from `auto_generated.private_key_target_path`. It must be a string, and is then expanded. |
| `Manager.GeneratedKeyIsReported` | cloudify_exoscale/cloudify_exoscale.py:92-96 | For a keypair without `provided`, the reported key path is the file the keypair creator saved the generated key to. |
| `Manager.ValidateAddsNothing` | cloudify_exoscale/cloudify_exoscale.py:196-206 | `validate` returns its argument unchanged. With the default argument, it reports no error. |
| `Manager.HandOverOutcome` | cloudify_exoscale/cloudify_exoscale.py:177-194 | The hand-over answers the address twice, the management key path and user, and the context `{"ip": ip}`. It uploads the agents key into `<home>/.ssh` on the node, logged in with that user and key, and makes no other call. |
| `Manager.LaunchManagementOutcome` | cloudify_exoscale/cloudify_exoscale.py:160-194 | After the resources exist, a node carrying the answered address is launched with the management group and keypair, and then the upload follows. |
| `Manager.ProvisioningStages` | cloudify_exoscale/cloudify_exoscale.py:146-194 | A successful `provision` connected, created the groups, then the keypairs, and then launched and handed over. |
| `Manager.TeardownWithoutNode` | cloudify_exoscale/cloudify_exoscale.py:395-403 | With no node carrying the address, teardown fails with IndexError before deleting anything. |
| `Manager.TeardownOrder` | cloudify_exoscale/cloudify_exoscale.py:395-403 | A successful teardown destroys the node, then both keypairs, then both groups, and makes no other call. |
| `Manager.ProvisionThenTeardownFindsNode` | cloudify_exoscale/cloudify_exoscale.py:177 | The context a successful `provision` returns leads teardown to a node it can destroy. |
| `Manager.ResourceTerminator.constructor` | cloudify_exoscale/cloudify_exoscale.py:385-393 | The terminator holds the three creators and the management address it was given. |
| `Manager.ResourceTerminator.TerminateResources` | cloudify_exoscale/cloudify_exoscale.py:395-403 | The fixed order agrees with `Terminate`. |
| `Manager.ProviderManager.constructor` | cloudify_exoscale/cloudify_exoscale.py:87-89 | The manager holds the configuration and the account it was given. |
| `Manager.ProviderManager.CopyFilesToManager` | cloudify_exoscale/cloudify_exoscale.py:98-131 | The upload of the agents key agrees with `CopyAgentsKey`. |
| `Manager.ProviderManager.Provision` | cloudify_exoscale/cloudify_exoscale.py:133-194 | `provision` agrees with `Provisioning` on account and disk. |
| `Manager.ProviderManager.Teardown` | cloudify_exoscale/cloudify_exoscale.py:208-244 | `teardown` agrees with `TearingDown`. |

## Left out

- The cloud driver's internals are outside the model. Its answers are the `Provider` value: which calls it refuses, its catalog, and a new node's addresses. `get_driver` and the credential handshake are reduced to reading the two credentials.
- The listing calls (`list_key_pairs`, `ex_list_security_groups`, `list_images`, `list_sizes`, `list_nodes`) are reads of the account. They are not traced and never fail.
- Groups and keypairs are keyed by name, so finding the first one of a name reduces to membership.
- Only the upload itself is modelled. The fabric `env` settings are reduced to the user and key recorded with it, and `settings(host_string=...)` to the host.
- The print at line 179 is modelled only by the type error it raises when the user is not a string.
- Logging is not modelled.
- `os.makedirs` is modelled only by its failure on an empty directory name. The directory it creates is not modelled. The directories of `LocalDisk` are fixed.
- A missing local key file makes the upload fail before anything is sent (`FileMissing`); fabric's own upload failures are a refused upload.
- `chmod 600` and failures to open or write files are not modelled.
- The import reads the public key file inside libcloud, which is not part of this model. The model takes it to read the path as spelled and to fail with a local I/O error, before any request, when that path is a directory.
- Local paths are compared as spelled. There is no working directory and no symbolic links.
- `~user` paths are left unexpanded.
- YAML parsing and the file checks and opens of `_read_config` are not modelled. Only its choice between merging and the defaults is modelled.
- Floats and non-string mapping keys are not modelled.
- `SecurityGroups.Iterate`: ports given as a mapping are refused with a type error. Python would visit the keys in an unspecified order.
- `Config.DeepMerge`: the reported conflict key is some key that ends a conflict path. Python 2's dict order decides which one.
- The override parameters of `create_key_pairs` and `_create_keypair` are not modelled, because no caller passes them.
- The dead default-from-config branch of `create_node` (lines 692-695) cannot be represented, because the security group names are always a list.
- The commented-out module-level `bootstrap` and `teardown` are not modelled.
- `BaseProviderClass` and `cosmo_cli` are not part of this model.
- `Manager.ProvisioningStages`: the facts about the answer and the final calls of `provision` are stated on `Manager.LaunchManagementOutcome` and `Manager.HandOverOutcome`. This lemma ties `provision` to them.
