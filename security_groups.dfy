/**
 * ExoscaleSecurityGroupCreator: create-or-reuse of the management and
 * agents security groups with one ingress rule per configured port, and
 * their best-effort deletion.
 */
module SecurityGroups {
  import opened Values
  import opened Errors
  import opened Config
  import opened World

  const ManagementSection := "management_security_group"
  const AgentsSection := "agents_security_group"

  /** `provider_config['networking'][section]['name']`, as the two name getters read it. */
  function GroupName(config: Value, section: string): Result<Value>
  {
    Lookup(config, ["networking", section, "name"])
  }

  /** The name getters read the same value as `create_security_groups` does through the group's configuration. */
  lemma GroupNameThroughConfig(config: Value, section: string)
    ensures GroupName(config, section) ==
      match Lookup(config, ["networking", section])
      case Err(e) => Err(e)
      case Ok(groupConfig) => Index(groupConfig, "name")
  {
    LookupExtend(config, ["networking", section], "name");
    assert ["networking", section] + ["name"] == ["networking", section, "name"];
  }

  /**
   * The cidr and protocol of one rule, read afresh for every port. The
   * management group reads them with `.get` (None when absent), the agents
   * group (`strict`) with subscripts, which raise when they are absent.
   */
  function RuleFields(groupConfig: Value, strict: bool): (r: Result<(Value, Value)>)
    ensures !strict ==> (r.Ok? <==> groupConfig.Dict?)
    ensures !strict && groupConfig.Dict? ==>
      r == Ok(((if "cidr" in groupConfig.entries then groupConfig.entries["cidr"] else Null),
               (if "protocol" in groupConfig.entries then groupConfig.entries["protocol"] else Null)))
    ensures strict ==> (r.Ok? <==> groupConfig.Dict? && "cidr" in groupConfig.entries && "protocol" in groupConfig.entries)
    ensures strict && r.Ok? ==> r.value == (groupConfig.entries["cidr"], groupConfig.entries["protocol"])
  {
    if strict then
      var cidr :- Index(groupConfig, "cidr");
      var protocol :- Index(groupConfig, "protocol");
      Ok((cidr, protocol))
    else if groupConfig.Dict? then
      Ok((Get(groupConfig, "cidr", Null).value, Get(groupConfig, "protocol", Null).value))
    else Err(WrongType)
  }

  /**
   * The values `for port in ports` visits: the items of a list, the
   * one-character strings of a string. Anything else is refused; for a
   * mapping, whose keys Python visits in no fixed order, that is a
   * simplification.
   */
  function Iterate(v: Value): (r: Result<seq<Value>>)
    ensures v.List? ==> r == Ok(v.items)
    ensures v.Str? ==> r.Ok? && |r.value| == |v.s| && forall i :: 0 <= i < |v.s| ==> r.value[i] == Str([v.s[i]])
    ensures !v.List? && !v.Str? ==> r == Err(WrongType)
  {
    match v
    case List(items) => Ok(items)
    case Str(chars) => Ok(seq(|chars|, i requires 0 <= i < |chars| => Str([chars[i]])))
    case _ => Err(WrongType)
  }

  /** The loop over the ports: one authorization per port, in order, with `end_port=None`; the first failure ends it. */
  function AddRules(p: Provider, s: State, name: Value, ports: seq<Value>, groupConfig: Value, strict: bool): (Outcome, State)
    decreases |ports|
  {
    if ports == [] then (Pass, s)
    else
      match RuleFields(groupConfig, strict)
      case Err(e) => (Fail(e), s)
      case Ok((cidr, protocol)) =>
        var (ok, s') := Step(p, s, AuthorizeCall(name, Rule(protocol, cidr, ports[0], Null)));
        if !ok then (Fail(DriverFailure), s')
        else AddRules(p, s', name, ports[1..], groupConfig, strict)
  }

  /**
   * One group of `create_security_groups`: read its configuration and
   * name; reuse a group of that name as it is; otherwise create it, then
   * read its ports and authorize each.
   */
  function CreateOrReuse(p: Provider, s: State, config: Value, section: string, strict: bool): (Outcome, State)
  {
    match Lookup(config, ["networking", section])
    case Err(e) => (Fail(e), s)
    case Ok(groupConfig) =>
      match Index(groupConfig, "name")
      case Err(e) => (Fail(e), s)
      case Ok(name) =>
        if name in s.groups then (Pass, s)
        else
          var (created, s1) := Step(p, s, CreateGroupCall(name));
          if !created then (Fail(DriverFailure), s1)
          else
            match Index(groupConfig, "ports")
            case Err(e) => (Fail(e), s1)
            case Ok(ports) =>
              match Iterate(ports)
              case Err(e) => (Fail(e), s1)
              case Ok(items) => AddRules(p, s1, name, items, groupConfig, strict)
  }

  /** `create_security_groups`: the management group, then the agents group. */
  function CreateGroups(p: Provider, s: State, config: Value): (Outcome, State)
  {
    var (r, s1) := CreateOrReuse(p, s, config, ManagementSection, false);
    if r.Fail? then (r, s1) else CreateOrReuse(p, s1, config, AgentsSection, true)
  }

  /** `delete_security_groups`: each deletion is attempted and its failure swallowed; only reading a name can raise. */
  function DeleteGroups(p: Provider, s: State, config: Value): (Outcome, State)
  {
    match GroupName(config, ManagementSection)
    case Err(e) => (Fail(e), s)
    case Ok(management) =>
      var (_, s1) := Step(p, s, DeleteGroupCall(management));
      match GroupName(config, AgentsSection)
      case Err(e) => (Fail(e), s1)
      case Ok(agents) =>
        var (_, s2) := Step(p, s1, DeleteGroupCall(agents));
        (Pass, s2)
  }

  // ---------------------------------------------------------------------
  // Properties
  // ---------------------------------------------------------------------

  /** The rules a group gets, one per port, in port order. */
  function RulesFor(ports: seq<Value>, cidr: Value, protocol: Value): (rules: seq<Rule>)
    ensures |rules| == |ports|
    ensures forall i :: 0 <= i < |ports| ==> rules[i] == Rule(protocol, cidr, ports[i], Null)
  {
    seq(|ports|, i requires 0 <= i < |ports| => Rule(protocol, cidr, ports[i], Null))
  }

  function AuthorizeCalls(name: Value, rules: seq<Rule>): (calls: seq<Call>)
    ensures |calls| == |rules|
    ensures forall i :: 0 <= i < |rules| ==> calls[i] == AuthorizeCall(name, rules[i])
  {
    seq(|rules|, i requires 0 <= i < |rules| => AuthorizeCall(name, rules[i]))
  }

  /** How many leading authorizations the provider accepts: the index of the first one it rejects. */
  function Accepted(p: Provider, name: Value, rules: seq<Rule>): (n: nat)
    ensures n <= |rules|
    ensures forall i :: 0 <= i < n ==> AuthorizeCall(name, rules[i]) !in p.rejects
    ensures n < |rules| ==> AuthorizeCall(name, rules[n]) in p.rejects
  {
    if rules == [] || AuthorizeCall(name, rules[0]) in p.rejects then 0
    else 1 + Accepted(p, name, rules[1..])
  }

  /** The rule loop succeeds exactly when the provider accepts every authorization, and otherwise fails with the driver's error. */
  lemma {:induction false} AddRulesOutcome(p: Provider, s: State, name: Value, ports: seq<Value>, groupConfig: Value, strict: bool,
                                           cidr: Value, protocol: Value)
    requires RuleFields(groupConfig, strict) == Ok((cidr, protocol))
    ensures var r := AddRules(p, s, name, ports, groupConfig, strict).0;
      && (r == Pass <==> Accepted(p, name, RulesFor(ports, cidr, protocol)) == |ports|)
      && (r != Pass ==> r == Fail(DriverFailure))
    decreases |ports|
  {
    if ports != [] {
      var rules := RulesFor(ports, cidr, protocol);
      var (ok, s1) := Step(p, s, AuthorizeCall(name, rules[0]));
      if ok {
        AddRulesOutcome(p, s1, name, ports[1..], groupConfig, strict, cidr, protocol);
        assert RulesFor(ports[1..], cidr, protocol) == rules[1..];
      }
    }
  }

  /** How many authorizations the rule loop attempts: the accepted ones and, if any, the first rejected one. */
  function Attempted(p: Provider, name: Value, rules: seq<Rule>): (n: nat)
    ensures n <= |rules|
    ensures rules != [] ==> n >= 1
  {
    var accepted := Accepted(p, name, rules);
    if accepted < |rules| then accepted + 1 else accepted
  }

  lemma RulesForTail(ports: seq<Value>, cidr: Value, protocol: Value)
    requires ports != []
    ensures RulesFor(ports[1..], cidr, protocol) == RulesFor(ports, cidr, protocol)[1..]
  {
  }

  lemma AuthorizeCallsPrefix(name: Value, rules: seq<Rule>, k: nat)
    requires k < |rules|
    ensures AuthorizeCalls(name, rules[..k + 1]) == [AuthorizeCall(name, rules[0])] + AuthorizeCalls(name, rules[1..][..k])
  {
  }

  /** One turn of the rule loop once the rule's fields are read. */
  lemma AddRulesUnfold(p: Provider, s: State, name: Value, ports: seq<Value>, groupConfig: Value, strict: bool,
                       cidr: Value, protocol: Value)
    requires RuleFields(groupConfig, strict) == Ok((cidr, protocol))
    requires ports != []
    ensures var c := AuthorizeCall(name, Rule(protocol, cidr, ports[0], Null));
      AddRules(p, s, name, ports, groupConfig, strict) ==
        if c in p.rejects then (Fail(DriverFailure), Step(p, s, c).1)
        else AddRules(p, Step(p, s, c).1, name, ports[1..], groupConfig, strict)
  {
  }

  /** The trace of the rule loop, as `AddRulesTrace` states it. */
  ghost predicate TraceAuthorizes(p: Provider, s: State, name: Value, ports: seq<Value>, groupConfig: Value, strict: bool,
                                  cidr: Value, protocol: Value)
  {
    var rules := RulesFor(ports, cidr, protocol);
    AddRules(p, s, name, ports, groupConfig, strict).1.trace == s.trace + AuthorizeCalls(name, rules[..Attempted(p, name, rules)])
  }

  /** The rule loop authorizes the ports in port order, up to and including the first authorization the provider rejects. */
  lemma {:induction false} AddRulesTrace(p: Provider, s: State, name: Value, ports: seq<Value>, groupConfig: Value, strict: bool,
                                         cidr: Value, protocol: Value)
    requires RuleFields(groupConfig, strict) == Ok((cidr, protocol))
    ensures var rules := RulesFor(ports, cidr, protocol);
      AddRules(p, s, name, ports, groupConfig, strict).1.trace == s.trace + AuthorizeCalls(name, rules[..Attempted(p, name, rules)])
    decreases |ports|
  {
    if ports == [] {
      assert AuthorizeCalls(name, RulesFor(ports, cidr, protocol)[..0]) == [];
    } else if AuthorizeCall(name, Rule(protocol, cidr, ports[0], Null)) !in p.rejects {
      var s1 := Step(p, s, AuthorizeCall(name, Rule(protocol, cidr, ports[0], Null))).1;
      AddRulesTrace(p, s1, name, ports[1..], groupConfig, strict, cidr, protocol);
      AddRulesTraceAccepted(p, s, name, ports, groupConfig, strict, cidr, protocol);
    } else {
      AddRulesTraceRejected(p, s, name, ports, groupConfig, strict, cidr, protocol);
    }
  }

  lemma AddRulesTraceRejected(p: Provider, s: State, name: Value, ports: seq<Value>, groupConfig: Value, strict: bool,
                              cidr: Value, protocol: Value)
    requires RuleFields(groupConfig, strict) == Ok((cidr, protocol))
    requires ports != [] && AuthorizeCall(name, Rule(protocol, cidr, ports[0], Null)) in p.rejects
    ensures TraceAuthorizes(p, s, name, ports, groupConfig, strict, cidr, protocol)
  {
    var rules := RulesFor(ports, cidr, protocol);
    AddRulesUnfold(p, s, name, ports, groupConfig, strict, cidr, protocol);
    assert Attempted(p, name, rules) == 1;
    AuthorizeCallsPrefix(name, rules, 0);
  }

  /** The trace arithmetic of one accepted turn of the rule loop: the accepted call followed by the tail's calls are the calls for all ports. */
  lemma AuthorizeCallsCons(p: Provider, t0: seq<Call>, name: Value, ports: seq<Value>, cidr: Value, protocol: Value)
    requires ports != [] && AuthorizeCall(name, Rule(protocol, cidr, ports[0], Null)) !in p.rejects
    ensures var rules := RulesFor(ports, cidr, protocol);
      var tail := RulesFor(ports[1..], cidr, protocol);
      (t0 + [AuthorizeCall(name, rules[0])]) + AuthorizeCalls(name, tail[..Attempted(p, name, tail)])
        == t0 + AuthorizeCalls(name, rules[..Attempted(p, name, rules)])
  {
    var rules := RulesFor(ports, cidr, protocol);
    var c := AuthorizeCall(name, rules[0]);
    RulesForTail(ports, cidr, protocol);
    var k := Attempted(p, name, rules[1..]);
    assert Attempted(p, name, rules) == k + 1;
    AuthorizeCallsPrefix(name, rules, k);
    var tail := AuthorizeCalls(name, rules[1..][..k]);
    calc {
      (t0 + [c]) + tail;
      { assert (t0 + [c]) + tail == t0 + ([c] + tail); }
      t0 + ([c] + tail);
      t0 + AuthorizeCalls(name, rules[..k + 1]);
    }
  }

  lemma AddRulesTraceAccepted(p: Provider, s: State, name: Value, ports: seq<Value>, groupConfig: Value, strict: bool,
                              cidr: Value, protocol: Value)
    requires RuleFields(groupConfig, strict) == Ok((cidr, protocol))
    requires ports != [] && AuthorizeCall(name, Rule(protocol, cidr, ports[0], Null)) !in p.rejects
    requires TraceAuthorizes(p, Step(p, s, AuthorizeCall(name, Rule(protocol, cidr, ports[0], Null))).1,
                             name, ports[1..], groupConfig, strict, cidr, protocol)
    ensures TraceAuthorizes(p, s, name, ports, groupConfig, strict, cidr, protocol)
  {
    var c := AuthorizeCall(name, Rule(protocol, cidr, ports[0], Null));
    var s1 := Step(p, s, c).1;
    assert s1.trace == s.trace + [c];
    AddRulesUnfold(p, s, name, ports, groupConfig, strict, cidr, protocol);
    AuthorizeCallsCons(p, s.trace, name, ports, cidr, protocol);
  }

  /** The groups after the rule loop, as `AddRulesGroups` states them. */
  ghost predicate GroupsGain(p: Provider, s: State, name: Value, ports: seq<Value>, groupConfig: Value, strict: bool,
                             cidr: Value, protocol: Value)
  {
    var s' := AddRules(p, s, name, ports, groupConfig, strict).1;
    var rules := RulesFor(ports, cidr, protocol);
    && s'.groups == (if name in s.groups then s.groups[name := s.groups[name] + rules[..Accepted(p, name, rules)]] else s.groups)
    && s'.keypairs == s.keypairs && s'.nodes == s.nodes
  }

  /** The rule loop appends to the group exactly the rules the provider accepted, in port order, creates or removes no group, and touches no keypair or node. */
  lemma {:induction false} AddRulesGroups(p: Provider, s: State, name: Value, ports: seq<Value>, groupConfig: Value, strict: bool,
                                          cidr: Value, protocol: Value)
    requires RuleFields(groupConfig, strict) == Ok((cidr, protocol))
    ensures var s' := AddRules(p, s, name, ports, groupConfig, strict).1;
      var rules := RulesFor(ports, cidr, protocol);
      && s'.groups == (if name in s.groups then s.groups[name := s.groups[name] + rules[..Accepted(p, name, rules)]] else s.groups)
      && s'.keypairs == s.keypairs && s'.nodes == s.nodes
    decreases |ports|
  {
    if ports == [] || AuthorizeCall(name, Rule(protocol, cidr, ports[0], Null)) in p.rejects {
      AddRulesGroupsNone(p, s, name, ports, groupConfig, strict, cidr, protocol);
    } else {
      var s1 := Step(p, s, AuthorizeCall(name, Rule(protocol, cidr, ports[0], Null))).1;
      AddRulesGroups(p, s1, name, ports[1..], groupConfig, strict, cidr, protocol);
      AddRulesGroupsAccepted(p, s, name, ports, groupConfig, strict, cidr, protocol);
    }
  }

  lemma AddRulesGroupsNone(p: Provider, s: State, name: Value, ports: seq<Value>, groupConfig: Value, strict: bool,
                           cidr: Value, protocol: Value)
    requires RuleFields(groupConfig, strict) == Ok((cidr, protocol))
    requires ports == [] || AuthorizeCall(name, Rule(protocol, cidr, ports[0], Null)) in p.rejects
    ensures GroupsGain(p, s, name, ports, groupConfig, strict, cidr, protocol)
  {
    var rules := RulesFor(ports, cidr, protocol);
    assert Accepted(p, name, rules) == 0;
    if ports != [] {
      AddRulesUnfold(p, s, name, ports, groupConfig, strict, cidr, protocol);
    }
    if name in s.groups {
      assert s.groups[name] + rules[..0] == s.groups[name];
      assert s.groups[name := s.groups[name]] == s.groups;
    }
  }

  /** The rule arithmetic of one accepted turn of the rule loop: the accepted rule followed by the tail's accepted rules are the accepted rules for all ports. */
  lemma AcceptedRulesCons(p: Provider, name: Value, ports: seq<Value>, cidr: Value, protocol: Value)
    requires ports != [] && AuthorizeCall(name, Rule(protocol, cidr, ports[0], Null)) !in p.rejects
    ensures var rules := RulesFor(ports, cidr, protocol);
      var tail := RulesFor(ports[1..], cidr, protocol);
      rules[..Accepted(p, name, rules)] == [rules[0]] + tail[..Accepted(p, name, tail)]
  {
    var rules := RulesFor(ports, cidr, protocol);
    RulesForTail(ports, cidr, protocol);
    var m := Accepted(p, name, rules[1..]);
    assert Accepted(p, name, rules) == m + 1;
    assert rules[..m + 1] == [rules[0]] + rules[1..][..m];
  }

  lemma AddRulesGroupsAccepted(p: Provider, s: State, name: Value, ports: seq<Value>, groupConfig: Value, strict: bool,
                               cidr: Value, protocol: Value)
    requires RuleFields(groupConfig, strict) == Ok((cidr, protocol))
    requires ports != [] && AuthorizeCall(name, Rule(protocol, cidr, ports[0], Null)) !in p.rejects
    requires GroupsGain(p, Step(p, s, AuthorizeCall(name, Rule(protocol, cidr, ports[0], Null))).1,
                        name, ports[1..], groupConfig, strict, cidr, protocol)
    ensures GroupsGain(p, s, name, ports, groupConfig, strict, cidr, protocol)
  {
    var rule := Rule(protocol, cidr, ports[0], Null);
    var s1 := Step(p, s, AuthorizeCall(name, rule)).1;
    AddRulesUnfold(p, s, name, ports, groupConfig, strict, cidr, protocol);
    var s' := AddRules(p, s1, name, ports[1..], groupConfig, strict).1;
    assert AddRules(p, s, name, ports, groupConfig, strict).1 == s';
    AcceptedRulesCons(p, name, ports, cidr, protocol);
    var tail := RulesFor(ports[1..], cidr, protocol);
    var gained := tail[..Accepted(p, name, tail)];
    assert s1.keypairs == s.keypairs && s1.nodes == s.nodes;
    if name in s.groups {
      assert s1.groups == s.groups[name := s.groups[name] + [rule]];
      assert s'.groups == s1.groups[name := s1.groups[name] + gained];
      assert s.groups[name] + [rule] + gained == s.groups[name] + ([rule] + gained);
    } else {
      assert s1.groups == s.groups;
    }
  }

  /** A group that already exists by name is reused as it is: no call at all. */
  lemma ExistingGroupReused(p: Provider, s: State, config: Value, section: string, strict: bool)
    requires GroupName(config, section).Ok? && GroupName(config, section).value in s.groups
    ensures CreateOrReuse(p, s, config, section, strict) == (Pass, s)
  {
    GroupNameThroughConfig(config, section);
  }

  /**
   * A missing group is created with exactly one create call, followed by
   * one authorization per port in port order, each with that group's cidr
   * and protocol and no end port; when the provider accepts them all the
   * group holds exactly those rules.
   */
  lemma MissingGroupCreated(p: Provider, s: State, config: Value, section: string, strict: bool,
                            groupConfig: Value, name: Value, ports: seq<Value>, cidr: Value, protocol: Value)
    requires Lookup(config, ["networking", section]) == Ok(groupConfig)
    requires Index(groupConfig, "name") == Ok(name) && name !in s.groups
    requires Index(groupConfig, "ports").Ok? && Iterate(Index(groupConfig, "ports").value) == Ok(ports)
    requires RuleFields(groupConfig, strict) == Ok((cidr, protocol))
    requires CreateGroupCall(name) !in p.rejects
    requires forall port :: port in ports ==> AuthorizeCall(name, Rule(protocol, cidr, port, Null)) !in p.rejects
    ensures var (r, s') := CreateOrReuse(p, s, config, section, strict);
      && r == Pass
      && s'.trace == s.trace + [CreateGroupCall(name)] + AuthorizeCalls(name, RulesFor(ports, cidr, protocol))
      && s'.groups == s.groups[name := RulesFor(ports, cidr, protocol)]
  {
    var (_, s1) := Step(p, s, CreateGroupCall(name));
    AddRulesOutcome(p, s1, name, ports, groupConfig, strict, cidr, protocol);
    AddRulesTrace(p, s1, name, ports, groupConfig, strict, cidr, protocol);
    AddRulesGroups(p, s1, name, ports, groupConfig, strict, cidr, protocol);
    var rules := RulesFor(ports, cidr, protocol);
    assert rules[..|rules|] == rules;
    assert s1.groups[name] + rules == rules;
  }

  /** The rule loop never removes or adds a group. */
  lemma {:induction false} AddRulesKeepsGroupNames(p: Provider, s: State, name: Value, ports: seq<Value>, groupConfig: Value, strict: bool)
    ensures AddRules(p, s, name, ports, groupConfig, strict).1.groups.Keys == s.groups.Keys
    decreases |ports|
  {
    if ports != [] && RuleFields(groupConfig, strict).Ok? {
      var (cidr, protocol) := RuleFields(groupConfig, strict).value;
      var (ok, s1) := Step(p, s, AuthorizeCall(name, Rule(protocol, cidr, ports[0], Null)));
      if ok {
        AddRulesKeepsGroupNames(p, s1, name, ports[1..], groupConfig, strict);
      }
    }
  }

  /** Creating or reusing one group never loses a group, and when it succeeds the group exists afterwards. */
  lemma CreateOrReuseEstablishes(p: Provider, s: State, config: Value, section: string, strict: bool)
    ensures var (r, s') := CreateOrReuse(p, s, config, section, strict);
      && s.groups.Keys <= s'.groups.Keys
      && (r == Pass ==> GroupName(config, section).Ok? && GroupName(config, section).value in s'.groups)
  {
    GroupNameThroughConfig(config, section);
    if Lookup(config, ["networking", section]).Ok? {
      var groupConfig := Lookup(config, ["networking", section]).value;
      if Index(groupConfig, "name").Ok? {
        var name := Index(groupConfig, "name").value;
        var (created, s1) := Step(p, s, CreateGroupCall(name));
        if name !in s.groups && created && Index(groupConfig, "ports").Ok? && Iterate(Index(groupConfig, "ports").value).Ok? {
          AddRulesKeepsGroupNames(p, s1, name, Iterate(Index(groupConfig, "ports").value).value, groupConfig, strict);
        }
      }
    }
  }

  /** A second run over the state a successful run left behind makes no call and changes nothing. */
  lemma CreateGroupsIdempotent(p: Provider, s: State, config: Value)
    requires CreateGroups(p, s, config).0 == Pass
    ensures CreateGroups(p, CreateGroups(p, s, config).1, config) == (Pass, CreateGroups(p, s, config).1)
  {
    var (r1, s1) := CreateOrReuse(p, s, config, ManagementSection, false);
    CreateOrReuseEstablishes(p, s, config, ManagementSection, false);
    var (r2, s2) := CreateOrReuse(p, s1, config, AgentsSection, true);
    CreateOrReuseEstablishes(p, s1, config, AgentsSection, true);
    ExistingGroupReused(p, s2, config, ManagementSection, false);
    ExistingGroupReused(p, s2, config, AgentsSection, true);
  }

  /**
   * Deletion is best effort: once both names are read, the management
   * deletion and then the agents deletion are both attempted, whatever
   * the provider answers, and the outcome is success. A driver failure
   * never escapes.
   */
  lemma DeleteGroupsBestEffort(p: Provider, s: State, config: Value)
    ensures DeleteGroups(p, s, config).0 != Fail(DriverFailure)
    ensures GroupName(config, ManagementSection).Ok? && GroupName(config, AgentsSection).Ok? ==>
      var (r, s') := DeleteGroups(p, s, config);
      && r == Pass
      && s'.trace == s.trace + [DeleteGroupCall(GroupName(config, ManagementSection).value),
                                DeleteGroupCall(GroupName(config, AgentsSection).value)]
  {
    var (r, s') := DeleteGroups(p, s, config);
    if GroupName(config, ManagementSection).Ok? && GroupName(config, AgentsSection).Ok? {
      assert s'.trace == s.trace + [DeleteGroupCall(GroupName(config, ManagementSection).value)]
                                  + [DeleteGroupCall(GroupName(config, AgentsSection).value)];
    }
  }

  class SecurityGroupCreator {
    const cloud: Cloud
    const config: Value

    constructor (cloud: Cloud, config: Value)
      ensures this.cloud == cloud && this.config == config
    {
      this.cloud := cloud;
      this.config := config;
    }

    method CreateSecurityGroups() returns (r: Outcome)
      modifies cloud
      ensures (r, cloud.Snapshot()) == CreateGroups(cloud.provider, old(cloud.Snapshot()), config)
    {
      r := CreateOrReuseGroup(ManagementSection, false);
      if r.Pass? {
        r := CreateOrReuseGroup(AgentsSection, true);
      }
    }

    method CreateOrReuseGroup(section: string, strict: bool) returns (r: Outcome)
      modifies cloud
      ensures (r, cloud.Snapshot()) == CreateOrReuse(cloud.provider, old(cloud.Snapshot()), config, section, strict)
    {
      var groupConfig := Lookup(config, ["networking", section]);
      if groupConfig.Err? {
        return Fail(groupConfig.error);
      }
      var name := Index(groupConfig.value, "name");
      if name.Err? {
        return Fail(name.error);
      }
      if name.value in cloud.groups {
        return Pass;
      }
      var created := cloud.ExCreateSecurityGroup(name.value);
      if !created {
        return Fail(DriverFailure);
      }
      var ports := Index(groupConfig.value, "ports");
      if ports.Err? {
        return Fail(ports.error);
      }
      var iterated := Iterate(ports.value);
      if iterated.Err? {
        return Fail(iterated.error);
      }
      var items := iterated.value;
      ghost var start := cloud.Snapshot();
      var i := 0;
      while i < |items|
        invariant 0 <= i <= |items|
        invariant AddRules(cloud.provider, start, name.value, items, groupConfig.value, strict)
               == AddRules(cloud.provider, cloud.Snapshot(), name.value, items[i..], groupConfig.value, strict)
      {
        var fields := RuleFields(groupConfig.value, strict);
        if fields.Err? {
          return Fail(fields.error);
        }
        var (cidr, protocol) := fields.value;
        var ok := cloud.ExAuthorizeSecurityGroupIngress(name.value, items[i], Null, cidr, protocol);
        if !ok {
          return Fail(DriverFailure);
        }
        assert items[i..][1..] == items[i + 1..];
        i := i + 1;
      }
      r := Pass;
    }

    method DeleteSecurityGroups() returns (r: Outcome)
      modifies cloud
      ensures (r, cloud.Snapshot()) == DeleteGroups(cloud.provider, old(cloud.Snapshot()), config)
    {
      var management := GroupName(config, ManagementSection);
      if management.Err? {
        return Fail(management.error);
      }
      var _ := cloud.ExDeleteSecurityGroup(management.value);
      var agents := GroupName(config, AgentsSection);
      if agents.Err? {
        return Fail(agents.error);
      }
      var _ := cloud.ExDeleteSecurityGroup(agents.value);
      r := Pass;
    }
  }
}
