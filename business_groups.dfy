/** The business-group reconciler (providers/access-management/business-groups.js):
    validate the top-level configurations, list the organizations once, then
    walk each configuration tree depth first, creating every business group
    whose name the listing lacks under its parent. A failure inside one group
    is caught and logged, and skips that group's children only. */
module BusinessGroups {
  import opened Common
  import opened Manifest
  import opened Platform

  // ---- Validation ----

  /** `validate`: a missing configuration, then a missing owner, then a
      missing name is rejected, in that order. */
  function Validate(config: Option<GroupConfig>): (r: Option<Reason>)
    ensures r.None? <==> config.Some? && config.value.ownerId != "" && config.value.name != ""
    ensures r == Some(ConfigMissing) <==> config.None?
    ensures r == Some(OwnerMissing) <==> config.Some? && config.value.ownerId == ""
    ensures r == Some(NameMissing) <==> config.Some? && config.value.ownerId != "" && config.value.name == ""
  {
    if config.None? then Some(ConfigMissing)
    else if config.value.ownerId == "" then Some(OwnerMissing)
    else if config.value.name == "" then Some(NameMissing)
    else None
  }

  datatype Validated = Valid(configs: seq<GroupConfig>) | Invalid(reason: Reason)

  /** The validation loop of the exported entry: the first rejected
      configuration's reason, or all configurations, unwrapped. */
  function ValidateAll(configs: seq<Option<GroupConfig>>): (r: Validated)
    ensures r.Valid? <==> forall i :: 0 <= i < |configs| ==> Validate(configs[i]).None?
    ensures r.Valid? ==> |r.configs| == |configs| && forall i :: 0 <= i < |configs| ==> configs[i] == Some(r.configs[i])
    ensures r.Invalid? ==> exists i :: 0 <= i < |configs| && Validate(configs[i]) == Some(r.reason) &&
                                      forall j :: 0 <= j < i ==> Validate(configs[j]).None?
  {
    if configs == [] then Valid([])
    else
      var rest := ValidateAll(configs[1..]);
      assert forall i :: 1 <= i < |configs| ==> configs[i] == configs[1..][i - 1];
      if Validate(configs[0]).Some? then Invalid(Validate(configs[0]).value)
      else if rest.Invalid? then
        var k :| 0 <= k < |configs[1..]| && Validate(configs[1..][k]) == Some(rest.reason) &&
                 forall j :: 0 <= j < k ==> Validate(configs[1..][j]).None?;
        assert Validate(configs[k + 1]) == Some(rest.reason);
        rest
      else Valid([configs[0].value] + rest.configs)
  }

  // ---- Request body ----

  /** The entitlement defaults `getData` merges under a configuration. */
  const EntitlementDefaults: map<string, Json> := map[
    "vCoresProduction" := JNum(0),
    "vCoresSandbox" := JNum(0),
    "vCoresDesign" := JNum(0),
    "staticIps" := JNum(0),
    "vpcs" := JNum(0),
    "loadBalancer" := JNum(0),
    "vpns" := JNum(0),
    "createSubOrgs" := JBool(true),
    "createEnvironments" := JBool(true),
    "globalDeployment" := JBool(true)]

  /** `getData`, after `createBusinessGroup` has set the configuration's parent
      to its own value or, failing that, the inherited one. */
  function OrgData(config: GroupConfig, parentId: Id): (r: OrgPayload)
    ensures r.name == config.name && r.ownerId == config.ownerId
    ensures r.parentOrganizationId == if config.parentOrganizationId != "" then config.parentOrganizationId else parentId
    ensures r.entitlements.Keys == config.settings.Keys + EntitlementDefaults.Keys
    ensures forall k :: k in config.settings ==> r.entitlements[k] == config.settings[k]
    ensures forall k :: k in EntitlementDefaults && k !in config.settings ==> r.entitlements[k] == EntitlementDefaults[k]
  {
    OrgPayload(config.name,
               if config.parentOrganizationId != "" then config.parentOrganizationId else parentId,
               config.ownerId,
               Defaults(config.settings, EntitlementDefaults))
  }

  // ---- Specification ----

  /** `createBusinessGroup` against the organization listing fetched once. */
  function Group(s: Store, parentId: Id, config: GroupConfig, orgs: seq<Org>): (e: Effect)
    ensures e.after.failing == s.failing && s.orgs <= e.after.orgs
    decreases config, 1
  {
    var found := FirstWith(orgs, OrgName, config.name);
    if found.Some? then Groups(s, found.value.id, config.children, orgs)
    else
      var create := CreateOrg(OrgData(config, parentId));
      var (s1, resp) := Respond(s, create);
      if resp.Failed? then Effect(s1, [create, Error(config.name)])
      else Also([create], Groups(s1, resp.id, config.children, orgs))
  }

  /** Sibling groups, one after the other, each against the remote the
      previous one left. */
  function Groups(s: Store, parentId: Id, configs: seq<GroupConfig>, orgs: seq<Org>): (e: Effect)
    ensures e.after.failing == s.failing && s.orgs <= e.after.orgs
    decreases configs, 0
  {
    if configs == [] then Effect(s, [])
    else
      var first := Group(s, parentId, configs[0], orgs);
      Also(first.events, Groups(first.after, parentId, configs[1..], orgs))
  }

  /** The exported reconciler. */
  function ReconcileRun(s: Store, configs: GroupList): Trace
  {
    if configs.None? then Trace(s, [], Abort(ConfigsMissing))
    else
      var v := ValidateAll(configs.value);
      if v.Invalid? then Trace(s, [], Abort(v.reason))
      else
        var (s1, resp) := Respond(s, ListOrgs);
        if !resp.Orgs? then Rejected(s1, [], ListOrgs)
        else if v.configs == [] then Trace(s1, [ListOrgs], Done)
        else if resp.orgs == [] then Trace(s1, [ListOrgs], Abort(NoOrganization))
        else
          var g := Groups(s1, resp.orgs[0].id, v.configs, resp.orgs);
          Trace(g.after, [ListOrgs] + g.events, Done)
  }

  // ---- One step of `createBusinessGroup` ----

  /** A listed name is not created; its children go under the listed organization. */
  lemma GroupFound(s: Store, parentId: Id, config: GroupConfig, orgs: seq<Org>)
    requires FirstWith(orgs, OrgName, config.name).Some?
    ensures Group(s, parentId, config, orgs) ==
      Groups(s, FirstWith(orgs, OrgName, config.name).value.id, config.children, orgs)
  {
  }

  /** A failed create is logged and the children are skipped. */
  lemma GroupRejected(s: Store, parentId: Id, config: GroupConfig, orgs: seq<Org>)
    requires FirstWith(orgs, OrgName, config.name).None?
    requires CreateOrg(OrgData(config, parentId)) in s.failing
    ensures Group(s, parentId, config, orgs) == Effect(s, [CreateOrg(OrgData(config, parentId)), Error(config.name)])
  {
  }

  /** A created group's children go under the new organization. */
  lemma GroupCreated(s: Store, parentId: Id, config: GroupConfig, orgs: seq<Org>)
    requires FirstWith(orgs, OrgName, config.name).None?
    requires CreateOrg(OrgData(config, parentId)) !in s.failing
    ensures Group(s, parentId, config, orgs) ==
      Also([CreateOrg(OrgData(config, parentId))],
           Groups(Apply(s, CreateOrg(OrgData(config, parentId))).0, FreshId(s.nextId), config.children, orgs))
  {
  }

  // ---- Reference definitions ----

  /** The names of a configuration tree, depth first, parents before children. */
  function TreeNames(config: GroupConfig): seq<string>
    decreases config, 1
  {
    [config.name] + ForestNames(config.children)
  }

  function ForestNames(configs: seq<GroupConfig>): seq<string>
    decreases configs, 0
  {
    if configs == [] then [] else TreeNames(configs[0]) + ForestNames(configs[1..])
  }

  /** The names the listing lacks, in order, repeats kept. */
  function Missing(names: seq<string>, orgs: seq<Org>): seq<string>
  {
    if names == [] then []
    else (if FirstWith(orgs, OrgName, names[0]).None? then [names[0]] else []) + Missing(names[1..], orgs)
  }

  /** The name of the business group a request creates. */
  function CreatedName(e: Event): Option<string>
  {
    if e.CreateOrg? then Some(e.org.name) else None
  }

  // ---- Properties ----

  lemma {:induction false} MissingConcat(a: seq<string>, b: seq<string>, orgs: seq<Org>)
    ensures Missing(a + b, orgs) == Missing(a, orgs) + Missing(b, orgs)
  {
    if a == [] {
      assert a + b == b;
    } else {
      var head := if FirstWith(orgs, OrgName, a[0]).None? then [a[0]] else [];
      assert (a + b)[0] == a[0];
      assert (a + b)[1..] == a[1..] + b;
      assert Missing(a + b, orgs) == head + Missing(a[1..] + b, orgs);
      MissingConcat(a[1..], b, orgs);
      assert head + (Missing(a[1..], orgs) + Missing(b, orgs)) == (head + Missing(a[1..], orgs)) + Missing(b, orgs);
    }
  }

  /** With no failing create, a tree creates, depth first, exactly the names
      the listing lacks: the listing is never refreshed, so a name created
      earlier in the pass is created again. */
  lemma {:induction false} GroupPlanned(s: Store, parentId: Id, config: GroupConfig, orgs: seq<Org>)
    requires MutationsSucceed(s)
    ensures Select(Group(s, parentId, config, orgs).events, CreatedName) == Missing(TreeNames(config), orgs)
    decreases config, 1
  {
    var names := TreeNames(config);
    assert names[0] == config.name && names[1..] == ForestNames(config.children);
    var found := FirstWith(orgs, OrgName, config.name);
    if found.Some? {
      GroupFound(s, parentId, config, orgs);
      GroupsPlanned(s, found.value.id, config.children, orgs);
    } else {
      var create := CreateOrg(OrgData(config, parentId));
      assert IsMutation(create);
      GroupCreated(s, parentId, config, orgs);
      var s1 := Apply(s, create).0;
      GroupsPlanned(s1, FreshId(s.nextId), config.children, orgs);
      SelectConcat([create], Groups(s1, FreshId(s.nextId), config.children, orgs).events, CreatedName);
    }
  }

  lemma {:induction false} GroupsPlanned(s: Store, parentId: Id, configs: seq<GroupConfig>, orgs: seq<Org>)
    requires MutationsSucceed(s)
    ensures Select(Groups(s, parentId, configs, orgs).events, CreatedName) == Missing(ForestNames(configs), orgs)
    decreases configs, 0
  {
    if configs != [] {
      var first := Group(s, parentId, configs[0], orgs);
      var rest := Groups(first.after, parentId, configs[1..], orgs);
      GroupPlanned(s, parentId, configs[0], orgs);
      GroupsPlanned(first.after, parentId, configs[1..], orgs);
      SelectConcat(first.events, rest.events, CreatedName);
      MissingConcat(TreeNames(configs[0]), ForestNames(configs[1..]), orgs);
    }
  }

  /** Idempotence against the listing: when every name of a tree is listed,
      it issues no request and logs nothing. */
  lemma {:induction false} GroupAllListed(s: Store, parentId: Id, config: GroupConfig, orgs: seq<Org>)
    requires forall n :: n in TreeNames(config) ==> FirstWith(orgs, OrgName, n).Some?
    ensures Group(s, parentId, config, orgs) == Effect(s, [])
    decreases config, 1
  {
    var names := TreeNames(config);
    assert names[0] == config.name && names[1..] == ForestNames(config.children);
    assert config.name in names;
    GroupFound(s, parentId, config, orgs);
    GroupsAllListed(s, FirstWith(orgs, OrgName, config.name).value.id, config.children, orgs);
  }

  lemma {:induction false} GroupsAllListed(s: Store, parentId: Id, configs: seq<GroupConfig>, orgs: seq<Org>)
    requires forall n :: n in ForestNames(configs) ==> FirstWith(orgs, OrgName, n).Some?
    ensures Groups(s, parentId, configs, orgs) == Effect(s, [])
    decreases configs, 0
  {
    if configs != [] {
      GroupAllListed(s, parentId, configs[0], orgs);
      GroupsAllListed(s, parentId, configs[1..], orgs);
    }
  }

  /** Some organization of the listing has the name. */
  predicate Listed(orgs: seq<Org>, name: string)
  {
    FirstWith(orgs, OrgName, name).Some?
  }

  lemma ListedGrows(a: seq<Org>, b: seq<Org>, name: string)
    requires a <= b && Listed(a, name)
    ensures Listed(b, name)
  {
    var i :| 0 <= i < |a| && a[i] == FirstWith(a, OrgName, name).value && OrgName(a[i]) == name;
    assert b[i] == a[i];
  }

  /** With no failing create, every name of a tree is listed afterwards:
      it was listed before, or the tree created it. */
  lemma {:induction false} GroupCovers(s: Store, parentId: Id, config: GroupConfig, orgs: seq<Org>)
    requires MutationsSucceed(s) && orgs <= s.orgs
    ensures forall n :: n in TreeNames(config) ==> Listed(Group(s, parentId, config, orgs).after.orgs, n)
    decreases config, 1
  {
    var e := Group(s, parentId, config, orgs);
    var names := TreeNames(config);
    assert names == [config.name] + ForestNames(config.children);
    if Listed(orgs, config.name) {
      GroupFound(s, parentId, config, orgs);
      GroupsCovers(s, FirstWith(orgs, OrgName, config.name).value.id, config.children, orgs);
      ListedGrows(orgs, e.after.orgs, config.name);
    } else {
      var create := CreateOrg(OrgData(config, parentId));
      assert IsMutation(create);
      GroupCreated(s, parentId, config, orgs);
      var s1 := Apply(s, create).0;
      assert s1.orgs == s.orgs + [Org(FreshId(s.nextId), config.name)];
      assert Listed(s1.orgs, config.name) by {
        assert s1.orgs[|s.orgs|].name == config.name;
      }
      GroupsCovers(s1, FreshId(s.nextId), config.children, orgs);
      ListedGrows(s1.orgs, e.after.orgs, config.name);
    }
  }

  lemma {:induction false} GroupsCovers(s: Store, parentId: Id, configs: seq<GroupConfig>, orgs: seq<Org>)
    requires MutationsSucceed(s) && orgs <= s.orgs
    ensures forall n :: n in ForestNames(configs) ==> Listed(Groups(s, parentId, configs, orgs).after.orgs, n)
    decreases configs, 0
  {
    if configs != [] {
      var first := Group(s, parentId, configs[0], orgs);
      var rest := Groups(first.after, parentId, configs[1..], orgs);
      GroupCovers(s, parentId, configs[0], orgs);
      GroupsCovers(first.after, parentId, configs[1..], orgs);
      forall n | n in TreeNames(configs[0]) ensures Listed(rest.after.orgs, n) {
        ListedGrows(first.after.orgs, rest.after.orgs, n);
      }
    }
  }

  /** Validation comes first: a missing list or any rejected top-level
      configuration fails the call, with the first rejection's reason, before
      any request. */
  lemma RejectedBeforeAnyRequest(s: Store, configs: GroupList, i: nat)
    requires configs.Some? && i < |configs.value| && Validate(configs.value[i]).Some?
    requires forall j :: 0 <= j < i ==> Validate(configs.value[j]).None?
    ensures ReconcileRun(s, configs) == Trace(s, [], Abort(Validate(configs.value[i]).value))
  {
    var v := ValidateAll(configs.value);
    assert v.Invalid?;
    var k :| 0 <= k < |configs.value| && Validate(configs.value[k]) == Some(v.reason) &&
             forall j :: 0 <= j < k ==> Validate(configs.value[j]).None?;
    assert k == i;
  }

  /** Only the top level is validated: a child with neither owner nor name
      passes validation. */
  lemma ChildrenNotValidated(config: GroupConfig, child: GroupConfig)
    requires config.ownerId != "" && config.name != ""
    requires child.ownerId == "" && child.name == ""
    ensures ValidateAll([Some(config.(children := [child]))]) == Valid([config.(children := [child])])
  {
  }

  /** Failures are swallowed: once the top level validates and the listing
      succeeds (with an organization to inherit from), the call completes; a
      repeat against a listing that holds every name issues only the listing. */
  lemma ReconcileCompletes(s: Store, configs: GroupList)
    requires configs.Some? && ValidateAll(configs.value).Valid?
    requires ListOrgs !in s.failing && (ValidateAll(configs.value).configs != [] ==> s.orgs != [])
    ensures ReconcileRun(s, configs).outcome == Done
    ensures (forall n :: n in ForestNames(ValidateAll(configs.value).configs) ==> FirstWith(s.orgs, OrgName, n).Some?) ==>
      ReconcileRun(s, configs) == Trace(s, [ListOrgs], Done)
  {
    var cfgs := ValidateAll(configs.value).configs;
    if cfgs != [] && forall n :: n in ForestNames(cfgs) ==> FirstWith(s.orgs, OrgName, n).Some? {
      GroupsAllListed(s, s.orgs[0].id, cfgs, s.orgs);
    }
  }

  /** What the whole call creates, when no create fails: exactly the names of
      the top-level trees, depth first, that the listing lacks. */
  lemma ReconcileCreates(s: Store, configs: GroupList)
    requires configs.Some? && ValidateAll(configs.value).Valid?
    requires ListOrgs !in s.failing && s.orgs != [] && MutationsSucceed(s)
    ensures Select(ReconcileRun(s, configs).events, CreatedName) == Missing(ForestNames(ValidateAll(configs.value).configs), s.orgs)
  {
    var cfgs := ValidateAll(configs.value).configs;
    SelectNone([ListOrgs], CreatedName);
    if cfgs != [] {
      var g := Groups(s, s.orgs[0].id, cfgs, s.orgs);
      GroupsPlanned(s, s.orgs[0].id, cfgs, s.orgs);
      SelectConcat([ListOrgs], g.events, CreatedName);
    }
  }

  /** Idempotence: when no create fails, running the same configurations
      again against the remote the first run left issues the listing only. */
  lemma RerunIssuesOnlyTheListing(s: Store, configs: GroupList)
    requires configs.Some? && ValidateAll(configs.value).Valid?
    requires ListOrgs !in s.failing && s.orgs != [] && MutationsSucceed(s)
    ensures var after := ReconcileRun(s, configs).after;
      ReconcileRun(after, configs) == Trace(after, [ListOrgs], Done)
  {
    var cfgs := ValidateAll(configs.value).configs;
    var after := ReconcileRun(s, configs).after;
    if cfgs != [] {
      GroupsCovers(s, s.orgs[0].id, cfgs, s.orgs);
      assert after.orgs != [] by {
        assert s.orgs <= after.orgs;
      }
    }
    ReconcileCompletes(after, configs);
  }

  /** The listing is not refreshed: two new siblings with the same name are both created. */
  lemma DuplicateSiblingsBothCreated(s: Store, parentId: Id, a: GroupConfig, b: GroupConfig, orgs: seq<Org>)
    requires a.name == b.name && a.children == [] && b.children == []
    requires FirstWith(orgs, OrgName, a.name).None? && MutationsSucceed(s)
    ensures Select(Groups(s, parentId, [a, b], orgs).events, CreatedName) == [a.name, a.name]
  {
    GroupsPlanned(s, parentId, [a, b], orgs);
    assert [a, b][1..] == [b] && [b][1..] == [];
    assert ForestNames([b]) == [b.name];
    assert ForestNames([a, b]) == [a.name, b.name];
    assert [a.name, b.name][1..] == [b.name];
    assert Missing([b.name], orgs) == [b.name];
  }

  /** A failure is contained: a sibling whose create fails logs an error and
      skips its own children, and the next sibling is still reconciled. */
  lemma SiblingAfterFailure(s: Store, parentId: Id, a: GroupConfig, b: GroupConfig, orgs: seq<Org>)
    requires FirstWith(orgs, OrgName, a.name).None? && CreateOrg(OrgData(a, parentId)) in s.failing
    ensures Groups(s, parentId, [a, b], orgs).events ==
      [CreateOrg(OrgData(a, parentId)), Error(a.name)] + Group(s, parentId, b, orgs).events
  {
    GroupRejected(s, parentId, a, orgs);
    assert [a, b][1..] == [b] && [b][1..] == [];
    assert Groups(s, parentId, [b], orgs) == Also(Group(s, parentId, b, orgs).events, Effect(Group(s, parentId, b, orgs).after, []));
  }

  /** Children go under the organization just created (or, for a listed
      group, under the listed one), unless they name their own parent. */
  lemma ChildUnderCreatedParent(s: Store, parentId: Id, config: GroupConfig, child: GroupConfig, orgs: seq<Org>)
    requires FirstWith(orgs, OrgName, config.name).None? && CreateOrg(OrgData(config, parentId)) !in s.failing
    requires config.children != [] && config.children[0] == child && FirstWith(orgs, OrgName, child.name).None?
    ensures var events := Group(s, parentId, config, orgs).events;
      |events| >= 2 && events[0] == CreateOrg(OrgData(config, parentId)) &&
      events[1] == CreateOrg(OrgData(child, FreshId(s.nextId))) &&
      events[1].org.parentOrganizationId == if child.parentOrganizationId != "" then child.parentOrganizationId else FreshId(s.nextId)
  {
    GroupCreated(s, parentId, config, orgs);
    var s1 := Apply(s, CreateOrg(OrgData(config, parentId))).0;
    var c := Group(s1, FreshId(s.nextId), child, orgs);
    assert Groups(s1, FreshId(s.nextId), config.children, orgs).events ==
      c.events + Groups(c.after, FreshId(s.nextId), config.children[1..], orgs).events;
    assert c.events[0] == CreateOrg(OrgData(child, FreshId(s.nextId)));
  }

  lemma ChildUnderListedParent(s: Store, parentId: Id, config: GroupConfig, child: GroupConfig, orgs: seq<Org>)
    requires FirstWith(orgs, OrgName, config.name).Some?
    requires config.children != [] && config.children[0] == child && FirstWith(orgs, OrgName, child.name).None?
    ensures var events := Group(s, parentId, config, orgs).events;
      |events| >= 1 && events[0] == CreateOrg(OrgData(child, FirstWith(orgs, OrgName, config.name).value.id))
  {
    GroupFound(s, parentId, config, orgs);
    var id := FirstWith(orgs, OrgName, config.name).value.id;
    var c := Group(s, id, child, orgs);
    assert Groups(s, id, config.children, orgs).events == c.events + Groups(c.after, id, config.children[1..], orgs).events;
    assert c.events[0] == CreateOrg(OrgData(child, id));
  }

  // ---- Implementation ----

  /** `createBusinessGroup`: find or create the group, then reconcile its
      children (not awaited in the source; here one after the other) under
      the found or created organization. */
  method CreateBusinessGroup(remote: Remote, parentId: Id, config: GroupConfig, orgs: seq<Org>)
    modifies remote
    ensures var e := Group(old(remote.Snapshot()), parentId, config, orgs);
      remote.Reached(old(remote.log), e.after, e.events)
    decreases config, 1
  {
    ghost var s0, log0 := remote.Snapshot(), remote.log;
    var existing := FirstWith(orgs, OrgName, config.name);
    var id: Id;
    if existing.Some? {
      GroupFound(s0, parentId, config, orgs);
      id := existing.value.id;
    } else {
      var create := CreateOrg(OrgData(config, parentId));
      var resp := remote.Send(create);
      if resp.Failed? {
        GroupRejected(s0, parentId, config, orgs);
        remote.Note(Error(config.name));
        AppendAssoc(log0, [create], [Error(config.name)]);
        return;
      }
      GroupCreated(s0, parentId, config, orgs);
      id := resp.id;
      AppendAssoc(log0, [create], Groups(remote.Snapshot(), id, config.children, orgs).events);
    }
    CreateGroups(remote, id, config.children, orgs);
  }

  /** A loop over sibling configurations: the children loop of
      `createBusinessGroup`, and the exported entry's loop over the top level. */
  method CreateGroups(remote: Remote, parentId: Id, children: seq<GroupConfig>, orgs: seq<Org>)
    modifies remote
    ensures var e := Groups(old(remote.Snapshot()), parentId, children, orgs);
      remote.Reached(old(remote.log), e.after, e.events)
    decreases children, 0
  {
    ghost var s0, log0 := remote.Snapshot(), remote.log;
    ghost var done: seq<Event> := [];
    var i := 0;
    while i < |children|
      invariant 0 <= i <= |children|
      invariant remote.log == log0 + done
      invariant Groups(s0, parentId, children, orgs) == Also(done, Groups(remote.Snapshot(), parentId, children[i..], orgs))
    {
      ghost var step := Group(remote.Snapshot(), parentId, children[i], orgs).events;
      assert children[i..][1..] == children[i + 1..];
      CreateBusinessGroup(remote, parentId, children[i], orgs);
      AppendAssoc(log0, done, step);
      AlsoAlso(done, step, Groups(remote.Snapshot(), parentId, children[i + 1..], orgs));
      done := done + step;
      i := i + 1;
    }
  }

  /** The validation loop of the exported entry. */
  method ValidateConfigs(list: seq<Option<GroupConfig>>) returns (v: Validated)
    ensures v == ValidateAll(list)
  {
    var valid: seq<GroupConfig> := [];
    var i := 0;
    while i < |list|
      invariant 0 <= i <= |list|
      invariant |valid| == i
      invariant forall j :: 0 <= j < i ==> Validate(list[j]).None? && list[j] == Some(valid[j])
    {
      var problem := Validate(list[i]);
      if problem.Some? {
        assert ValidateAll(list) == Invalid(problem.value);
        return Invalid(problem.value);
      }
      valid := valid + [list[i].value];
      i := i + 1;
    }
    assert ValidateAll(list) == Valid(valid);
    v := Valid(valid);
  }

  /** The exported reconciler. `organizations[0].id` is read once per
      top-level configuration, so an empty listing fails only when there is
      one. */
  method ReconcileBusinessGroups(remote: Remote, configs: GroupList) returns (o: Outcome)
    modifies remote
    ensures var t := ReconcileRun(old(remote.Snapshot()), configs);
      remote.Reached(old(remote.log), t.after, t.events) && o == t.outcome
  {
    if configs.None? {
      return Abort(ConfigsMissing);
    }
    var v := ValidateConfigs(configs.value);
    if v.Invalid? {
      return Abort(v.reason);
    }
    ghost var log0 := remote.log;
    var resp := remote.Send(ListOrgs);
    if !resp.Orgs? {
      return Abort(RequestFailed(ListOrgs));
    }
    if v.configs != [] {
      if resp.orgs == [] {
        return Abort(NoOrganization);
      }
      ghost var rest := Groups(remote.Snapshot(), resp.orgs[0].id, v.configs, resp.orgs).events;
      CreateGroups(remote, resp.orgs[0].id, v.configs, resp.orgs);
      AppendAssoc(log0, [ListOrgs], rest);
    }
    o := Done;
  }
}
