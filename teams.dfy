/** The team reconciler (providers/access-management/teams.js): for the master
    organization and then for each business group, create the declared team
    tree under the root team, and post each team's roles in two batches, one
    of organization-wide entries and one of per-environment entries. */
module Teams {
  import opened Common
  import opened Manifest
  import opened Platform

  /** Environments, teams, roles and team roles are all listed with `offset=0&limit=500`. */
  const Page: nat := 500

  // ---- Tree size, for termination ----

  function Size(team: TeamConfig): (n: nat)
    ensures n >= 1
    decreases team, 0
  {
    1 + ForestSize(team.children)
  }

  function ForestSize(teams: seq<TeamConfig>): nat
    decreases teams, 1
  {
    if teams == [] then 0 else Size(teams[0]) + ForestSize(teams[1..])
  }

  lemma {:induction false} MemberSize(teams: seq<TeamConfig>, i: nat)
    requires i < |teams|
    ensures Size(teams[i]) <= ForestSize(teams)
    decreases i
  {
    if i > 0 {
      MemberSize(teams[1..], i - 1);
      assert teams[1..][i - 1] == teams[i];
    }
  }

  // ---- The role partition ----

  /** The name a role is looked up by: `role.name || role`. A bare name is
      itself; an object with an empty name is the object, which equals no
      catalog name. */
  function LookupName(role: RoleSpec): Option<string>
  {
    match role
    case RoleName(n) => Some(n)
    case RoleObject(n, _) => if n != "" then Some(n) else None
  }

  /** The role id: that of the first catalog entry of the looked-up name. */
  function RoleIdOf(catalog: seq<Role>, role: RoleSpec): (r: Option<Id>)
    ensures r.Some? <==> LookupName(role).Some? && FirstWith(catalog, RoleNameOf, LookupName(role).value).Some?
  {
    var n := LookupName(role);
    if n.None? then None
    else
      var found := FirstWith(catalog, RoleNameOf, n.value);
      if found.Some? then Some(found.value.roleId) else None
  }

  /** The environments a list of names finds, in the order of the names: the
      first environment of each name, once per occurrence of the name; names
      that find nothing are dropped. */
  function FoundEnvs(envs: seq<Env>, names: seq<string>): (r: seq<Env>)
    ensures |r| <= |names|
    ensures forall i :: 0 <= i < |r| ==> r[i] in envs
    decreases |names|
  {
    if names == [] then []
    else
      var env := FirstWith(envs, EnvName, names[0]);
      (if env.Some? then [env.value] else []) + FoundEnvs(envs, names[1..])
  }

  /** The per-environment entries of one role: one per listed name that names
      an environment of the organization (its first match), in order, a
      repeated name giving one entry per occurrence; the other names give
      nothing. */
  function ContextEntries(roleId: Id, envs: seq<Env>, org: Id, names: seq<string>): (r: seq<RoleEntry>)
    ensures |r| == |FoundEnvs(envs, names)|
    ensures forall i :: 0 <= i < |r| ==> r[i] == RoleEntry(roleId, org, Some(FoundEnvs(envs, names)[i].id))
    ensures forall x :: x in r ==>
      exists n :: n in names && FirstWith(envs, EnvName, n).Some? &&
                  x == RoleEntry(roleId, org, Some(FirstWith(envs, EnvName, n).value.id))
    ensures forall n :: n in names && FirstWith(envs, EnvName, n).Some? ==>
      RoleEntry(roleId, org, Some(FirstWith(envs, EnvName, n).value.id)) in r
    decreases |names|
  {
    if names == [] then []
    else
      var env := FirstWith(envs, EnvName, names[0]);
      var rest := ContextEntries(roleId, envs, org, names[1..]);
      assert forall n :: n in names[1..] ==> n in names;
      assert forall n :: n in names ==> n == names[0] || n in names[1..];
      var head := if env.Some? then [RoleEntry(roleId, org, Some(env.value.id))] else [];
      EntriesOfCons(roleId, org, if env.Some? then [env.value] else [], FoundEnvs(envs, names[1..]), head, rest);
      head + rest
  }

  /** `r` holds one entry of `roleId` in `org` per environment of `found`, in order. */
  predicate EntriesOf(r: seq<RoleEntry>, roleId: Id, org: Id, found: seq<Env>)
  {
    |r| == |found| && forall i :: 0 <= i < |r| ==> r[i] == RoleEntry(roleId, org, Some(found[i].id))
  }

  lemma EntriesOfCons(roleId: Id, org: Id, f0: seq<Env>, f1: seq<Env>, r0: seq<RoleEntry>, r1: seq<RoleEntry>)
    requires EntriesOf(r0, roleId, org, f0) && EntriesOf(r1, roleId, org, f1)
    ensures EntriesOf(r0 + r1, roleId, org, f0 + f1)
  {
    assert forall i :: |r0| <= i < |r0| + |r1| ==> (r0 + r1)[i] == r1[i - |r0|] && (f0 + f1)[i] == f1[i - |r0|];
  }

  /** A name listed twice in `envs` gives two identical entries. */
  lemma RepeatedEnvTwice(roleId: Id, envs: seq<Env>, org: Id, n: string)
    requires FirstWith(envs, EnvName, n).Some?
    ensures var x := RoleEntry(roleId, org, Some(FirstWith(envs, EnvName, n).value.id));
      ContextEntries(roleId, envs, org, [n, n]) == [x, x]
  {
    assert [n, n][1..] == [n] && [n][1..] == [];
  }

  /** A role's entries go to the per-environment batch when it carries an
      `envs` list (an empty list being truthy), and to the organization-wide
      batch otherwise. */
  predicate Contextual(role: RoleSpec)
  {
    role.RoleObject? && role.envs.Some?
  }

  /** The two role batches, or the first role whose id cannot be found. */
  datatype Partition =
    | Batches(orgWide: seq<RoleEntry>, contextual: seq<RoleEntry>)
    | RoleMissing(role: RoleSpec)

  /** The role loop of `createTeams`. Roles the team already holds are not
      excluded: the source's check for them never matches. */
  function PartitionRoles(catalog: seq<Role>, envs: seq<Env>, org: Id, roles: seq<RoleSpec>): (p: Partition)
    decreases |roles|
  {
    if roles == [] then Batches([], [])
    else
      var id := RoleIdOf(catalog, roles[0]);
      if id.None? then RoleMissing(roles[0])
      else
        var rest := PartitionRoles(catalog, envs, org, roles[1..]);
        if rest.RoleMissing? then rest
        else if Contextual(roles[0]) then
          Batches(rest.orgWide, ContextEntries(id.value, envs, org, roles[0].envs.value) + rest.contextual)
        else Batches([RoleEntry(id.value, org, None)] + rest.orgWide, rest.contextual)
  }

  /** Prepending what a loop has gathered so far to the partition of the rest. */
  function Prepend(orgWide: seq<RoleEntry>, contextual: seq<RoleEntry>, p: Partition): Partition
  {
    if p.RoleMissing? then p else Batches(orgWide + p.orgWide, contextual + p.contextual)
  }

  // ---- Properties of the partition ----

  /** The roles that go to the organization-wide batch, with their ids. */
  function OrgWideEntries(catalog: seq<Role>, org: Id, roles: seq<RoleSpec>): seq<RoleEntry>
    requires forall r :: r in roles ==> RoleIdOf(catalog, r).Some?
    decreases |roles|
  {
    if roles == [] then []
    else
      assert roles[0] in roles;
      assert forall r :: r in roles[1..] ==> r in roles;
      (if Contextual(roles[0]) then [] else [RoleEntry(RoleIdOf(catalog, roles[0]).value, org, None)])
      + OrgWideEntries(catalog, org, roles[1..])
  }

  /** The per-environment entries of the roles with an `envs` list, role by
      role, in order. */
  function ContextualEntries(catalog: seq<Role>, envs: seq<Env>, org: Id, roles: seq<RoleSpec>): seq<RoleEntry>
    requires forall r :: r in roles ==> RoleIdOf(catalog, r).Some?
    decreases |roles|
  {
    if roles == [] then []
    else
      assert roles[0] in roles;
      assert forall r :: r in roles[1..] ==> r in roles;
      (if Contextual(roles[0]) then ContextEntries(RoleIdOf(catalog, roles[0]).value, envs, org, roles[0].envs.value) else [])
      + ContextualEntries(catalog, envs, org, roles[1..])
  }

  /** The call is rejected exactly when some role's id cannot be found, and
      then for the first such role. */
  lemma {:induction false} PartitionMissing(catalog: seq<Role>, envs: seq<Env>, org: Id, roles: seq<RoleSpec>)
    ensures PartitionRoles(catalog, envs, org, roles).RoleMissing? <==>
      exists i :: 0 <= i < |roles| && RoleIdOf(catalog, roles[i]).None?
    ensures PartitionRoles(catalog, envs, org, roles).RoleMissing? ==>
      exists i :: 0 <= i < |roles| && RoleIdOf(catalog, roles[i]).None? &&
        PartitionRoles(catalog, envs, org, roles).role == roles[i] &&
        forall j :: 0 <= j < i ==> RoleIdOf(catalog, roles[j]).Some?
    decreases |roles|
  {
    if roles != [] && RoleIdOf(catalog, roles[0]).Some? {
      PartitionMissing(catalog, envs, org, roles[1..]);
      forall i | 0 <= i < |roles[1..]| ensures roles[1..][i] == roles[i + 1] { }
      if exists i :: 0 <= i < |roles| && RoleIdOf(catalog, roles[i]).None? {
        var i :| 0 <= i < |roles| && RoleIdOf(catalog, roles[i]).None?;
        assert RoleIdOf(catalog, roles[1..][i - 1]).None?;
      }
    }
  }

  /** Every role without an `envs` list, a bare name included, gives exactly
      one organization-wide entry with its catalog id; the roles with an
      `envs` list give their per-environment entries, role by role; the
      per-environment batch holds only entries for environments of the
      organization. */
  lemma {:induction false} PartitionBatches(catalog: seq<Role>, envs: seq<Env>, org: Id, roles: seq<RoleSpec>)
    requires forall r :: r in roles ==> RoleIdOf(catalog, r).Some?
    ensures var p := PartitionRoles(catalog, envs, org, roles);
      && p.Batches?
      && p.orgWide == OrgWideEntries(catalog, org, roles)
      && p.contextual == ContextualEntries(catalog, envs, org, roles)
      && forall x :: x in p.contextual ==>
           (x.org == org && x.envId.Some? && exists e :: e in envs && x.envId == Some(e.id))
  {
    PartitionPinned(catalog, envs, org, roles);
    ContextualInOrg(catalog, envs, org, roles);
  }

  lemma {:induction false} PartitionPinned(catalog: seq<Role>, envs: seq<Env>, org: Id, roles: seq<RoleSpec>)
    requires forall r :: r in roles ==> RoleIdOf(catalog, r).Some?
    ensures var p := PartitionRoles(catalog, envs, org, roles);
      && p.Batches?
      && p.orgWide == OrgWideEntries(catalog, org, roles)
      && p.contextual == ContextualEntries(catalog, envs, org, roles)
    decreases |roles|
  {
    if roles != [] {
      assert roles[0] in roles;
      assert forall r :: r in roles[1..] ==> r in roles;
      PartitionPinned(catalog, envs, org, roles[1..]);
    }
  }

  lemma {:induction false} ContextualInOrg(catalog: seq<Role>, envs: seq<Env>, org: Id, roles: seq<RoleSpec>)
    requires forall r :: r in roles ==> RoleIdOf(catalog, r).Some?
    ensures forall x :: x in ContextualEntries(catalog, envs, org, roles) ==>
      (x.org == org && x.envId.Some? && exists e :: e in envs && x.envId == Some(e.id))
    decreases |roles|
  {
    if roles != [] {
      assert roles[0] in roles;
      assert forall r :: r in roles[1..] ==> r in roles;
      ContextualInOrg(catalog, envs, org, roles[1..]);
      if Contextual(roles[0]) {
        var id := RoleIdOf(catalog, roles[0]).value;
        var ce := ContextEntries(id, envs, org, roles[0].envs.value);
        var found := FoundEnvs(envs, roles[0].envs.value);
        forall x | x in ce
          ensures x.org == org && x.envId.Some? && exists e :: e in envs && x.envId == Some(e.id)
        {
          var i :| 0 <= i < |ce| && ce[i] == x;
          assert found[i] in envs;
        }
      }
    }
  }

  // ---- Computing the partition ----

  /** The environment loop of one role. */
  method ContextFor(roleId: Id, envs: seq<Env>, org: Id, names: seq<string>) returns (r: seq<RoleEntry>)
    ensures r == ContextEntries(roleId, envs, org, names)
  {
    r := [];
    var j := 0;
    while j < |names|
      invariant 0 <= j <= |names|
      invariant ContextEntries(roleId, envs, org, names) == r + ContextEntries(roleId, envs, org, names[j..])
    {
      assert names[j..][1..] == names[j + 1..];
      var env := FirstWith(envs, EnvName, names[j]);
      if env.Some? {
        AppendAssoc(r, [RoleEntry(roleId, org, Some(env.value.id))], ContextEntries(roleId, envs, org, names[j + 1..]));
        r := r + [RoleEntry(roleId, org, Some(env.value.id))];
      } else {
        assert ContextEntries(roleId, envs, org, names[j..]) == ContextEntries(roleId, envs, org, names[j + 1..]);
      }
      j := j + 1;
    }
    assert names[j..] == [];
  }

  /** The role loop of `createTeams`, pushing onto the two batches. */
  method BuildBatches(catalog: seq<Role>, envs: seq<Env>, org: Id, roles: seq<RoleSpec>) returns (p: Partition)
    ensures p == PartitionRoles(catalog, envs, org, roles)
  {
    var orgWide: seq<RoleEntry> := [];
    var contextual: seq<RoleEntry> := [];
    var i := 0;
    while i < |roles|
      invariant 0 <= i <= |roles|
      invariant PartitionRoles(catalog, envs, org, roles) == Prepend(orgWide, contextual, PartitionRoles(catalog, envs, org, roles[i..]))
    {
      var role := roles[i];
      assert roles[i..][1..] == roles[i + 1..];
      var id := RoleIdOf(catalog, role);
      if id.None? {
        return RoleMissing(role);
      }
      ghost var rest := PartitionRoles(catalog, envs, org, roles[i + 1..]);
      if Contextual(role) {
        var entries := ContextFor(id.value, envs, org, role.envs.value);
        if rest.Batches? {
          AppendAssoc(contextual, entries, rest.contextual);
        }
        contextual := contextual + entries;
      } else {
        if rest.Batches? {
          AppendAssoc(orgWide, [RoleEntry(id.value, org, None)], rest.orgWide);
        }
        orgWide := orgWide + [RoleEntry(id.value, org, None)];
      }
      i := i + 1;
    }
    assert roles[i..] == [];
    p := Batches(orgWide, contextual);
  }

  /** An `envs` list is truthy even when empty: a role with an empty list
      gives no entry at all, neither organization-wide nor per-environment. */
  lemma EmptyEnvsGiveNothing(catalog: seq<Role>, envs: seq<Env>, org: Id, name: string)
    requires name != "" && FirstWith(catalog, RoleNameOf, name).Some?
    ensures PartitionRoles(catalog, envs, org, [RoleObject(name, Some([]))]) == Batches([], [])
  {
    assert [RoleObject(name, Some([]))][1..] == [];
  }

  /** An object whose name is empty is looked up as the object itself, which
      matches no catalog entry, so the call is rejected. */
  lemma UnnamedObjectRejected(catalog: seq<Role>, envs: seq<Env>, org: Id, role: RoleSpec)
    requires role.RoleObject? && role.name == ""
    ensures PartitionRoles(catalog, envs, org, [role]) == RoleMissing(role)
  {
  }

  // ---- Specification of the team passes ----

  /** The team-create body: `team_type` defaults to "internal". */
  function TeamPayloadOf(team: TeamConfig, parentId: Id): (p: TeamPayload)
    ensures p.teamName == team.name && p.parentTeamId == parentId
    ensures p.teamType == (if team.teamType == "" then "internal" else team.teamType)
  {
    TeamPayload(team.name, if team.teamType != "" then team.teamType else "internal", parentId)
  }

  /** The org-wide batch, posted after a delay when non-empty; its failure is
      caught on its own and logged once. */
  function OrgWidePost(s: Store, master: Id, teamId: Id, name: string, batch: seq<RoleEntry>): (e: Effect)
    ensures e.after.failing == s.failing && e.after.teams == s.teams && e.after.orgs == s.orgs
    ensures e.after.nextId == s.nextId && e.after.envs == s.envs && e.after.roles == s.roles
  {
    if batch == [] then Effect(s, [])
    else
      var post := PostRoles(master, teamId, batch);
      var (s1, r) := Respond(s, post);
      Effect(s1, [Sleep, post] + (if r.Failed? then [Error(name)] else []))
  }

  /** The per-environment batch, posted after a delay when non-empty; its
      failure reaches the outer `catch`, which logs twice. */
  function ContextPost(s: Store, master: Id, teamId: Id, name: string, batch: seq<RoleEntry>): (e: Effect)
    ensures e.after.failing == s.failing && e.after.teams == s.teams && e.after.orgs == s.orgs
    ensures e.after.nextId == s.nextId && e.after.envs == s.envs && e.after.roles == s.roles
  {
    if batch == [] then Effect(s, [])
    else
      var post := PostRoles(master, teamId, batch);
      var (s1, r) := Respond(s, post);
      Effect(s1, [Sleep, post] + (if r.Failed? then [Error(name), Error(name)] else []))
  }

  /** `createTeams` for one list of sibling teams under `parentId`: nothing
      for an empty list; otherwise the environments of the organization and
      the master organization's teams are listed afresh, then each team is
      reconciled in order. */
  function TeamsRun(s: Store, master: Id, org: Id, parentId: Id, teams: seq<TeamConfig>, catalog: seq<Role>): (t: Trace)
    ensures t.after.failing == s.failing && t.after.orgs == s.orgs
    decreases ForestSize(teams), 3
  {
    if teams == [] then Trace(s, [], Done)
    else
      var listEnvs := ListEnvs(org, Page);
      var (s1, r1) := Respond(s, listEnvs);
      if !r1.Envs? then Rejected(s1, [], listEnvs)
      else
        var listTeams := ListTeams(master, Page);
        var (s2, r2) := Respond(s1, listTeams);
        if !r2.Teams? then Rejected(s2, [listEnvs], listTeams)
        else Then([listEnvs, listTeams], TeamLoop(s2, master, org, parentId, r1.envs, r2.teams, teams, catalog))
  }

  /** The loop over sibling teams; the first team that rejects the call ends it. */
  function TeamLoop(s: Store, master: Id, org: Id, parentId: Id, envs: seq<Env>, existing: seq<TeamRecord>,
                    teams: seq<TeamConfig>, catalog: seq<Role>): (t: Trace)
    ensures t.after.failing == s.failing && t.after.orgs == s.orgs
    decreases ForestSize(teams), 2
  {
    if teams == [] then Trace(s, [], Done)
    else
      var first := OneTeam(s, master, org, parentId, envs, existing, teams[0], catalog);
      if first.outcome.Abort? then first
      else Then(first.events, TeamLoop(first.after, master, org, parentId, envs, existing, teams[1..], catalog))
  }

  /** One team: found in the listing by name, or created (a failed create is
      logged, and reading the missing team's id then rejects the call). */
  function OneTeam(s: Store, master: Id, org: Id, parentId: Id, envs: seq<Env>, existing: seq<TeamRecord>,
                   team: TeamConfig, catalog: seq<Role>): (t: Trace)
    ensures t.after.failing == s.failing && t.after.orgs == s.orgs
    decreases Size(team), 1
  {
    var found := FirstWith(existing, TeamName, team.name);
    if found.Some? then TeamBody(s, master, org, envs, found.value.teamId, team, catalog)
    else
      var create := CreateTeam(master, TeamPayloadOf(team, parentId));
      var (s1, r) := Respond(s, create);
      if r.Failed? then Trace(s1, [create, Error(team.name)], Abort(TeamUnavailable(team.name)))
      else Then([create, Sleep], TeamBody(s1, master, org, envs, r.id, team, catalog))
  }

  /** The rest of one team once its id is known: list its roles (the answer
      is not used), partition the declared roles, post the two batches, then
      reconcile the children under this team. */
  function TeamBody(s: Store, master: Id, org: Id, envs: seq<Env>, teamId: Id, team: TeamConfig, catalog: seq<Role>): (t: Trace)
    ensures t.after.failing == s.failing && t.after.orgs == s.orgs
    decreases Size(team), 0
  {
    var listRoles := ListTeamRoles(master, teamId, Page);
    var (s1, r) := Respond(s, listRoles);
    if !r.Grants? then Rejected(s1, [], listRoles)
    else
      var p := PartitionRoles(catalog, envs, org, team.roles);
      if p.RoleMissing? then Trace(s1, [listRoles], Abort(UnknownRole(p.role)))
      else
        var e1 := OrgWidePost(s1, master, teamId, team.name, p.orgWide);
        var e2 := ContextPost(e1.after, master, teamId, team.name, p.contextual);
        Then([listRoles] + e1.events + e2.events, TeamsRun(e2.after, master, org, teamId, team.children, catalog))
  }

  /** The master pass and then the business-group passes; a pass that
      rejects the call ends it. */
  function Passes(s: Store, master: Id, orgs: seq<Org>, root: Id, catalog: seq<Role>, am: AccessManagement): Trace
  {
    var t := TeamsRun(s, master, master, root, am.teams, catalog);
    if t.outcome.Abort? then t
    else Then(t.events, GroupPasses(t.after, master, orgs, root, catalog, am.businessGroups))
  }

  /** The business-group list is iterated without a default. */
  function GroupPasses(s: Store, master: Id, orgs: seq<Org>, root: Id, catalog: seq<Role>, groups: GroupList): Trace
  {
    if groups.None? then Trace(s, [], Abort(NotIterable))
    else GroupPassLoop(s, master, orgs, root, catalog, groups.value)
  }

  /** One pass per business group, against the organization of its name in
      the listing fetched at the start, every tree parented under the root team. */
  function GroupPassLoop(s: Store, master: Id, orgs: seq<Org>, root: Id, catalog: seq<Role>,
                         groups: seq<Option<GroupConfig>>): (t: Trace)
    ensures t.after.failing == s.failing && t.after.orgs == s.orgs
    decreases |groups|
  {
    if groups == [] then Trace(s, [], Done)
    else if groups[0].None? then Trace(s, [], Abort(NullEntry))
    else
      var group := groups[0].value;
      var org := FirstWith(orgs, OrgName, group.name);
      if org.None? then Trace(s, [], Abort(OrgNotFound(group.name)))
      else
        var t := TeamsRun(s, master, org.value.id, root, group.teams, catalog);
        if t.outcome.Abort? then t
        else Then(t.events, GroupPassLoop(t.after, master, orgs, root, catalog, groups[1..]))
  }

  /** The exported reconciler: the first organization is the master one, and
      the first team it lists is the root every pass parents its trees under. */
  function ReconcileRun(s: Store, am: AccessManagement): Trace
  {
    var (s1, r1) := Respond(s, ListOrgs);
    if !r1.Orgs? then Rejected(s1, [], ListOrgs)
    else if r1.orgs == [] then Trace(s1, [ListOrgs], Abort(NoOrganization))
    else
      var master := r1.orgs[0].id;
      var (s2, r2) := Respond(s1, ListRoles(Page));
      if !r2.Roles? then Rejected(s2, [ListOrgs], ListRoles(Page))
      else
        var (s3, r3) := Respond(s2, ListTeams(master, Page));
        if !r3.Teams? then Rejected(s3, [ListOrgs, ListRoles(Page)], ListTeams(master, Page))
        else if r3.teams == [] then Trace(s3, [ListOrgs, ListRoles(Page), ListTeams(master, Page)], Abort(NoRootTeam))
        else Then([ListOrgs, ListRoles(Page), ListTeams(master, Page)],
                  Passes(s3, master, r1.orgs, r3.teams[0].teamId, r2.roles, am))
  }

  // ---- Steps ----

  /** A non-empty list re-fetches the environments and teams from the remote as it is now. */
  lemma TeamsRunListed(s: Store, master: Id, org: Id, parentId: Id, teams: seq<TeamConfig>, catalog: seq<Role>)
    requires teams != [] && ListEnvs(org, Page) !in s.failing && ListTeams(master, Page) !in s.failing
    ensures TeamsRun(s, master, org, parentId, teams, catalog) ==
      Then([ListEnvs(org, Page), ListTeams(master, Page)],
           TeamLoop(s, master, org, parentId, Take(Lookup(s.envs, org), Page), Take(s.teams, Page), teams, catalog))
  {
    assert Respond(s, ListEnvs(org, Page)) == (s, Envs(Take(Lookup(s.envs, org), Page)));
    assert Respond(s, ListTeams(master, Page)) == (s, Teams(Take(s.teams, Page)));
  }

  /** A listed team is not created: its listed id is used. */
  lemma OneTeamListed(s: Store, master: Id, org: Id, parentId: Id, envs: seq<Env>, existing: seq<TeamRecord>,
                      team: TeamConfig, catalog: seq<Role>)
    requires FirstWith(existing, TeamName, team.name).Some?
    ensures OneTeam(s, master, org, parentId, envs, existing, team, catalog) ==
      TeamBody(s, master, org, envs, FirstWith(existing, TeamName, team.name).value.teamId, team, catalog)
  {
  }

  /** A failed create is logged, and the call is then rejected. */
  lemma OneTeamCreateFailed(s: Store, master: Id, org: Id, parentId: Id, envs: seq<Env>, existing: seq<TeamRecord>,
                            team: TeamConfig, catalog: seq<Role>)
    requires FirstWith(existing, TeamName, team.name).None?
    requires CreateTeam(master, TeamPayloadOf(team, parentId)) in s.failing
    ensures OneTeam(s, master, org, parentId, envs, existing, team, catalog) ==
      Trace(s, [CreateTeam(master, TeamPayloadOf(team, parentId)), Error(team.name)], Abort(TeamUnavailable(team.name)))
  {
  }

  /** The remote after creating a team named `name`. */
  function WithTeam(s: Store, name: string): Store
  {
    s.(teams := s.teams + [TeamRecord(FreshId(s.nextId), name)], nextId := s.nextId + 1)
  }

  /** An unlisted team is created once, under `parentId`, and followed by a delay. */
  lemma OneTeamCreated(s: Store, master: Id, org: Id, parentId: Id, envs: seq<Env>, existing: seq<TeamRecord>,
                       team: TeamConfig, catalog: seq<Role>)
    requires FirstWith(existing, TeamName, team.name).None?
    requires CreateTeam(master, TeamPayloadOf(team, parentId)) !in s.failing
    ensures OneTeam(s, master, org, parentId, envs, existing, team, catalog) ==
      Then([CreateTeam(master, TeamPayloadOf(team, parentId)), Sleep],
           TeamBody(WithTeam(s, team.name), master, org, envs, FreshId(s.nextId), team, catalog))
  {
    var create := CreateTeam(master, TeamPayloadOf(team, parentId));
    assert Respond(s, create) == Apply(s, create);
    assert Respond(s, create) == (WithTeam(s, team.name), Created(FreshId(s.nextId)));
  }

  /** A failed team-role listing rejects the call. */
  lemma TeamBodyRolesFailed(s: Store, master: Id, org: Id, envs: seq<Env>, teamId: Id, team: TeamConfig, catalog: seq<Role>)
    requires ListTeamRoles(master, teamId, Page) in s.failing
    ensures TeamBody(s, master, org, envs, teamId, team, catalog) == Rejected(s, [], ListTeamRoles(master, teamId, Page))
  {
  }

  /** An unknown role rejects the call after the team-role listing, before any post. */
  lemma TeamBodyUnknownRole(s: Store, master: Id, org: Id, envs: seq<Env>, teamId: Id, team: TeamConfig, catalog: seq<Role>)
    requires ListTeamRoles(master, teamId, Page) !in s.failing
    requires PartitionRoles(catalog, envs, org, team.roles).RoleMissing?
    ensures TeamBody(s, master, org, envs, teamId, team, catalog) ==
      Trace(s, [ListTeamRoles(master, teamId, Page)], Abort(UnknownRole(PartitionRoles(catalog, envs, org, team.roles).role)))
  {
    assert Respond(s, ListTeamRoles(master, teamId, Page)) == (s, Grants(Take(Lookup(s.grants, teamId), Page)));
  }

  /** Otherwise the two batches are posted, org-wide first, and then the
      children are reconciled under this team, against fresh listings. */
  lemma TeamBodyPosts(s: Store, master: Id, org: Id, envs: seq<Env>, teamId: Id, team: TeamConfig, catalog: seq<Role>)
    requires ListTeamRoles(master, teamId, Page) !in s.failing
    requires PartitionRoles(catalog, envs, org, team.roles).Batches?
    ensures var p := PartitionRoles(catalog, envs, org, team.roles);
      var e1 := OrgWidePost(s, master, teamId, team.name, p.orgWide);
      var e2 := ContextPost(e1.after, master, teamId, team.name, p.contextual);
      TeamBody(s, master, org, envs, teamId, team, catalog) ==
        Then([ListTeamRoles(master, teamId, Page)] + e1.events + e2.events,
             TeamsRun(e2.after, master, org, teamId, team.children, catalog))
  {
    assert Respond(s, ListTeamRoles(master, teamId, Page)) == (s, Grants(Take(Lookup(s.grants, teamId), Page)));
  }

  lemma GroupPassNull(s: Store, master: Id, orgs: seq<Org>, root: Id, catalog: seq<Role>, groups: seq<Option<GroupConfig>>)
    requires groups != [] && groups[0].None?
    ensures GroupPassLoop(s, master, orgs, root, catalog, groups) == Trace(s, [], Abort(NullEntry))
  {
  }

  lemma GroupPassMissingOrg(s: Store, master: Id, orgs: seq<Org>, root: Id, catalog: seq<Role>, groups: seq<Option<GroupConfig>>)
    requires groups != [] && groups[0].Some? && FirstWith(orgs, OrgName, groups[0].value.name).None?
    ensures GroupPassLoop(s, master, orgs, root, catalog, groups) == Trace(s, [], Abort(OrgNotFound(groups[0].value.name)))
  {
  }

  // ---- Properties of one team ----

  /** The batch of a role post. */
  function PostedBatch(e: Event): Option<seq<RoleEntry>>
  {
    if e.PostRoles? then Some(e.batch) else None
  }

  /** Every role post comes right after a delay. */
  predicate SleepsFirst(es: seq<Event>)
  {
    forall i :: 0 <= i < |es| && es[i].PostRoles? ==> i > 0 && es[i - 1] == Sleep
  }

  lemma OrgWideShape(s: Store, master: Id, teamId: Id, name: string, batch: seq<RoleEntry>)
    ensures var es := OrgWidePost(s, master, teamId, name, batch).events;
      && Select(es, PostedBatch) == (if batch == [] then [] else [batch])
      && SleepsFirst(es) && (es != [] ==> es[0] == Sleep)
      && forall e :: e in es ==> e == Sleep || e == PostRoles(master, teamId, batch) || e == Error(name)
  {
    if batch != [] {
      var post := PostRoles(master, teamId, batch);
      var tail := if post in s.failing then [Error(name)] else [];
      SelectNone(tail, PostedBatch);
      SelectConcat([Sleep, post], tail, PostedBatch);
      assert Select([Sleep, post], PostedBatch) == [batch];
    }
  }

  lemma ContextShape(s: Store, master: Id, teamId: Id, name: string, batch: seq<RoleEntry>)
    ensures var es := ContextPost(s, master, teamId, name, batch).events;
      && Select(es, PostedBatch) == (if batch == [] then [] else [batch])
      && SleepsFirst(es) && (es != [] ==> es[0] == Sleep)
      && forall e :: e in es ==> e == Sleep || e == PostRoles(master, teamId, batch) || e == Error(name)
  {
    if batch != [] {
      var post := PostRoles(master, teamId, batch);
      var tail := if post in s.failing then [Error(name), Error(name)] else [];
      SelectNone(tail, PostedBatch);
      SelectConcat([Sleep, post], tail, PostedBatch);
      assert Select([Sleep, post], PostedBatch) == [batch];
    }
  }

  /** The two batches of a team: each is posted exactly when it is non-empty,
      org-wide first, each right after a delay, and a failure of the first
      does not prevent the second. */
  lemma BatchesPosted(s: Store, master: Id, teamId: Id, name: string, orgWide: seq<RoleEntry>, contextual: seq<RoleEntry>)
    ensures var e1 := OrgWidePost(s, master, teamId, name, orgWide);
      var es := e1.events + ContextPost(e1.after, master, teamId, name, contextual).events;
      && Select(es, PostedBatch) == (if orgWide == [] then [] else [orgWide]) + (if contextual == [] then [] else [contextual])
      && SleepsFirst(es)
  {
    var e1 := OrgWidePost(s, master, teamId, name, orgWide);
    var a := e1.events;
    var b := ContextPost(e1.after, master, teamId, name, contextual).events;
    OrgWideShape(s, master, teamId, name, orgWide);
    ContextShape(e1.after, master, teamId, name, contextual);
    SelectConcat(a, b, PostedBatch);
    forall i | 0 <= i < |a + b| && (a + b)[i].PostRoles? ensures i > 0 && (a + b)[i - 1] == Sleep {
      if i < |a| {
        assert (a + b)[i] == a[i];
        if i > 0 { assert (a + b)[i - 1] == a[i - 1]; }
      } else {
        var k := i - |a|;
        assert (a + b)[i] == b[k];
        if k > 0 { assert (a + b)[i - 1] == b[k - 1]; }
      }
    }
  }

  /** Roles the team already holds are sent again: with the team-role
      listing succeeding and every role known, the org-wide batch is posted
      even when the team holds every one of its entries. */
  lemma HeldRolesResent(s: Store, master: Id, org: Id, envs: seq<Env>, teamId: Id, team: TeamConfig, catalog: seq<Role>)
    requires ListTeamRoles(master, teamId, Page) !in s.failing
    requires forall r :: r in team.roles ==> RoleIdOf(catalog, r).Some?
    requires exists r :: r in team.roles && !Contextual(r)
    requires forall x :: x in OrgWideEntries(catalog, org, team.roles) ==> x in Lookup(s.grants, teamId)
    ensures PostRoles(master, teamId, OrgWideEntries(catalog, org, team.roles)) in
            TeamBody(s, master, org, envs, teamId, team, catalog).events
  {
    PartitionBatches(catalog, envs, org, team.roles);
    var p := PartitionRoles(catalog, envs, org, team.roles);
    OrgWideNonEmpty(catalog, org, team.roles);
    TeamBodyPosts(s, master, org, envs, teamId, team, catalog);
    var e1 := OrgWidePost(s, master, teamId, team.name, p.orgWide);
    var e2 := ContextPost(e1.after, master, teamId, team.name, p.contextual);
    assert e1.events[1] == PostRoles(master, teamId, p.orgWide);
    assert TeamBody(s, master, org, envs, teamId, team, catalog).events ==
      [ListTeamRoles(master, teamId, Page)] + e1.events + e2.events +
      TeamsRun(e2.after, master, org, teamId, team.children, catalog).events;
    assert ([ListTeamRoles(master, teamId, Page)] + e1.events + e2.events)[2] == e1.events[1];
  }

  lemma {:induction false} OrgWideNonEmpty(catalog: seq<Role>, org: Id, roles: seq<RoleSpec>)
    requires forall r :: r in roles ==> RoleIdOf(catalog, r).Some?
    requires exists r :: r in roles && !Contextual(r)
    ensures OrgWideEntries(catalog, org, roles) != []
    decreases |roles|
  {
    assert roles[0] in roles;
    if Contextual(roles[0]) {
      var r :| r in roles && !Contextual(r);
      assert r in roles[1..];
      assert forall q :: q in roles[1..] ==> q in roles;
      OrgWideNonEmpty(catalog, org, roles[1..]);
    }
  }

  // ---- Depth-first pre-order ----

  /** The names of a team tree in depth-first pre-order. */
  function TreeNames(team: TeamConfig): seq<string>
    decreases team, 0
  {
    [team.name] + ForestNames(team.children)
  }

  function ForestNames(teams: seq<TeamConfig>): seq<string>
    decreases teams, 1
  {
    if teams == [] then [] else TreeNames(teams[0]) + ForestNames(teams[1..])
  }

  /** Every role of every team in the tree is in the catalog. */
  predicate RolesKnown(catalog: seq<Role>, team: TeamConfig)
    decreases team, 0
  {
    (forall r :: r in team.roles ==> RoleIdOf(catalog, r).Some?) && RolesKnownAll(catalog, team.children)
  }

  predicate RolesKnownAll(catalog: seq<Role>, teams: seq<TeamConfig>)
    decreases teams, 1
  {
    forall i :: 0 <= i < |teams| ==> RolesKnown(catalog, teams[i])
  }

  /** The names of listed teams. */
  function Names(ts: seq<TeamRecord>): (r: seq<string>)
    ensures |r| == |ts| && forall i :: 0 <= i < |ts| ==> r[i] == ts[i].teamName
  {
    if ts == [] then [] else [ts[0].teamName] + Names(ts[1..])
  }

  /** The name of a created team. */
  function CreatedName(e: Event): Option<string>
  {
    if e.CreateTeam? then Some(e.team.teamName) else None
  }

  /** None of `names` is the name of a team in `ts`. */
  ghost predicate Unlisted(names: seq<string>, ts: seq<TeamRecord>)
  {
    forall n :: n in names ==> n !in Names(ts)
  }

  lemma UnlistedNotFound(names: seq<string>, ts: seq<TeamRecord>, n: string)
    requires Unlisted(names, ts) && n in names
    ensures FirstWith(ts, TeamName, n).None?
  {
    forall i | 0 <= i < |ts| ensures TeamName(ts[i]) != n {
      assert Names(ts)[i] == ts[i].teamName;
    }
  }

  lemma UnlistedPrefix(names: seq<string>, a: seq<TeamRecord>, b: seq<TeamRecord>)
    requires a <= b && Unlisted(names, b)
    ensures Unlisted(names, a)
  {
    assert forall i :: 0 <= i < |a| ==> Names(a)[i] == Names(b)[i];
  }

  lemma NamesAppend(ts: seq<TeamRecord>, t: TeamRecord)
    ensures Names(ts + [t]) == Names(ts) + [t.teamName]
  {
    assert forall i :: 0 <= i < |ts| ==> (ts + [t])[i] == ts[i];
  }

  /** What the pre-order lemmas assume of the remote: no request fails. */
  ghost predicate Smooth(s: Store)
  {
    s.failing == {}
  }

  /** Depth-first pre-order: when nothing fails, every role is known and the
      tree's names are distinct and new, a pass creates every team of the
      tree exactly once, in pre-order, each one before its children. */
  lemma {:induction false} TeamsRunPreOrder(s: Store, master: Id, org: Id, parentId: Id, teams: seq<TeamConfig>, catalog: seq<Role>)
    requires Smooth(s) && RolesKnownAll(catalog, teams)
    requires Distinct(ForestNames(teams)) && Unlisted(ForestNames(teams), s.teams)
    ensures var t := TeamsRun(s, master, org, parentId, teams, catalog);
      && t.outcome.Done?
      && Select(t.events, CreatedName) == ForestNames(teams)
      && Names(t.after.teams) == Names(s.teams) + ForestNames(teams)
    decreases ForestSize(teams), 3
  {
    if teams != [] {
      TeamsRunListed(s, master, org, parentId, teams, catalog);
      var existing := Take(s.teams, Page);
      UnlistedPrefix(ForestNames(teams), existing, s.teams);
      var l := TeamLoop(s, master, org, parentId, Take(Lookup(s.envs, org), Page), existing, teams, catalog);
      TeamLoopPreOrder(s, master, org, parentId, Take(Lookup(s.envs, org), Page), existing, teams, catalog);
      SelectConcat([ListEnvs(org, Page), ListTeams(master, Page)], l.events, CreatedName);
      SelectNone([ListEnvs(org, Page), ListTeams(master, Page)], CreatedName);
    } else {
      assert Names(s.teams) + [] == Names(s.teams);
    }
  }

  lemma {:induction false} TeamLoopPreOrder(s: Store, master: Id, org: Id, parentId: Id, envs: seq<Env>, existing: seq<TeamRecord>,
                                            teams: seq<TeamConfig>, catalog: seq<Role>)
    requires Smooth(s) && RolesKnownAll(catalog, teams)
    requires Distinct(ForestNames(teams)) && Unlisted(ForestNames(teams), s.teams) && Unlisted(ForestNames(teams), existing)
    ensures var t := TeamLoop(s, master, org, parentId, envs, existing, teams, catalog);
      && t.outcome.Done?
      && Select(t.events, CreatedName) == ForestNames(teams)
      && Names(t.after.teams) == Names(s.teams) + ForestNames(teams)
    decreases ForestSize(teams), 2
  {
    if teams == [] {
      assert Names(s.teams) + [] == Names(s.teams);
    } else {
      var head, tail := TreeNames(teams[0]), ForestNames(teams[1..]);
      assert ForestNames(teams) == head + tail;
      DistinctSplit(head, tail);
      assert RolesKnown(catalog, teams[0]);
      assert RolesKnownAll(catalog, teams[1..]) by {
        forall i | 0 <= i < |teams[1..]| ensures RolesKnown(catalog, teams[1..][i]) {
          assert teams[1..][i] == teams[i + 1];
        }
      }
      var first := OneTeam(s, master, org, parentId, envs, existing, teams[0], catalog);
      OneTeamPreOrder(s, master, org, parentId, envs, existing, teams[0], catalog);
      var s1 := first.after;
      assert Unlisted(tail, s1.teams) by {
        forall n | n in tail ensures n !in Names(s1.teams) {
          assert n !in head;
        }
      }
      var rest := TeamLoop(s1, master, org, parentId, envs, existing, teams[1..], catalog);
      TeamLoopPreOrder(s1, master, org, parentId, envs, existing, teams[1..], catalog);
      SelectConcat(first.events, rest.events, CreatedName);
      AppendAssoc(Names(s.teams), head, tail);
    }
  }

  lemma {:induction false} OneTeamPreOrder(s: Store, master: Id, org: Id, parentId: Id, envs: seq<Env>, existing: seq<TeamRecord>,
                                           team: TeamConfig, catalog: seq<Role>)
    requires Smooth(s) && RolesKnown(catalog, team)
    requires Distinct(TreeNames(team)) && Unlisted(TreeNames(team), s.teams) && Unlisted(TreeNames(team), existing)
    ensures var t := OneTeam(s, master, org, parentId, envs, existing, team, catalog);
      && t.outcome.Done?
      && Select(t.events, CreatedName) == TreeNames(team)
      && Names(t.after.teams) == Names(s.teams) + TreeNames(team)
    decreases Size(team), 1
  {
    var kids := ForestNames(team.children);
    assert TreeNames(team) == [team.name] + kids;
    UnlistedNotFound(TreeNames(team), existing, team.name);
    OneTeamCreated(s, master, org, parentId, envs, existing, team, catalog);
    var s1 := WithTeam(s, team.name);
    NamesAppend(s.teams, TeamRecord(FreshId(s.nextId), team.name));
    DistinctSplit([team.name], kids);
    assert Unlisted(kids, s1.teams) by {
      forall n | n in kids ensures n !in Names(s1.teams) {
        assert n != team.name;
      }
    }
    var b := TeamBody(s1, master, org, envs, FreshId(s.nextId), team, catalog);
    TeamBodyPreOrder(s1, master, org, envs, FreshId(s.nextId), team, catalog);
    var create := CreateTeam(master, TeamPayloadOf(team, parentId));
    SelectConcat([create, Sleep], b.events, CreatedName);
    assert Select([create, Sleep], CreatedName) == [team.name];
    AppendAssoc(Names(s.teams), [team.name], kids);
  }

  /** A role post creates no team. */
  lemma PostCreatesNothing(s: Store, master: Id, teamId: Id, name: string, batch: seq<RoleEntry>)
    ensures Select(OrgWidePost(s, master, teamId, name, batch).events, CreatedName) == []
    ensures Select(ContextPost(s, master, teamId, name, batch).events, CreatedName) == []
  {
    if batch != [] {
      var post := PostRoles(master, teamId, batch);
      SelectConcat([Sleep, post], [Error(name)], CreatedName);
      SelectConcat([Sleep, post], [Error(name), Error(name)], CreatedName);
    }
  }

  /** The listing and the two role posts of a team create no team. */
  lemma PostsCreateNothing(s: Store, master: Id, teamId: Id, name: string, orgWide: seq<RoleEntry>, contextual: seq<RoleEntry>)
    ensures var e1 := OrgWidePost(s, master, teamId, name, orgWide);
      var e2 := ContextPost(e1.after, master, teamId, name, contextual);
      Select([ListTeamRoles(master, teamId, Page)] + e1.events + e2.events, CreatedName) == []
  {
    var e1 := OrgWidePost(s, master, teamId, name, orgWide);
    var e2 := ContextPost(e1.after, master, teamId, name, contextual);
    PostCreatesNothing(s, master, teamId, name, orgWide);
    PostCreatesNothing(e1.after, master, teamId, name, contextual);
    SelectConcat([ListTeamRoles(master, teamId, Page)], e1.events, CreatedName);
    SelectConcat([ListTeamRoles(master, teamId, Page)] + e1.events, e2.events, CreatedName);
  }

  lemma KnownRolesPartition(catalog: seq<Role>, envs: seq<Env>, org: Id, roles: seq<RoleSpec>)
    requires forall r :: r in roles ==> RoleIdOf(catalog, r).Some?
    ensures PartitionRoles(catalog, envs, org, roles).Batches?
  {
    PartitionMissing(catalog, envs, org, roles);
    forall i | 0 <= i < |roles| ensures RoleIdOf(catalog, roles[i]).Some? {
      assert roles[i] in roles;
    }
  }

  lemma {:induction false} TeamBodyPreOrder(s: Store, master: Id, org: Id, envs: seq<Env>, teamId: Id, team: TeamConfig, catalog: seq<Role>)
    requires Smooth(s) && RolesKnown(catalog, team)
    requires Distinct(ForestNames(team.children)) && Unlisted(ForestNames(team.children), s.teams)
    ensures var t := TeamBody(s, master, org, envs, teamId, team, catalog);
      && t.outcome.Done?
      && Select(t.events, CreatedName) == ForestNames(team.children)
      && Names(t.after.teams) == Names(s.teams) + ForestNames(team.children)
    decreases Size(team), 0
  {
    KnownRolesPartition(catalog, envs, org, team.roles);
    TeamBodyPosts(s, master, org, envs, teamId, team, catalog);
    var p := PartitionRoles(catalog, envs, org, team.roles);
    var e1 := OrgWidePost(s, master, teamId, team.name, p.orgWide);
    var e2 := ContextPost(e1.after, master, teamId, team.name, p.contextual);
    PostsCreateNothing(s, master, teamId, team.name, p.orgWide, p.contextual);
    var head := [ListTeamRoles(master, teamId, Page)] + e1.events + e2.events;
    var r := TeamsRun(e2.after, master, org, teamId, team.children, catalog);
    TeamsRunPreOrder(e2.after, master, org, teamId, team.children, catalog);
    SelectConcat(head, r.events, CreatedName);
  }

  // ---- Properties of a whole run ----

  /** True when the three opening listings succeed and name a master
      organization and a root team. */
  ghost predicate Opens(s: Store)
  {
    && ListOrgs !in s.failing && s.orgs != []
    && ListRoles(Page) !in s.failing
    && ListTeams(s.orgs[0].id, Page) !in s.failing && s.teams != []
  }

  /** With the opening listings in hand, the run is the passes under the
      first team of the master organization, with the first page of roles. */
  lemma ReconcileReachesPasses(s: Store, am: AccessManagement)
    requires Opens(s)
    ensures ReconcileRun(s, am) ==
      Then([ListOrgs, ListRoles(Page), ListTeams(s.orgs[0].id, Page)],
           Passes(s, s.orgs[0].id, s.orgs, s.teams[0].teamId, Take(s.roles, Page), am))
  {
    var master := s.orgs[0].id;
    assert Respond(s, ListOrgs) == (s, Orgs(s.orgs));
    assert Respond(s, ListRoles(Page)) == (s, Roles(Take(s.roles, Page)));
    assert Respond(s, ListTeams(master, Page)) == (s, Teams(Take(s.teams, Page)));
    assert Take(s.teams, Page)[0] == s.teams[0];
  }

  /** Otherwise the run is rejected after at most the three listings, and
      nothing is created or granted. */
  lemma ReconcileStopsEarly(s: Store, am: AccessManagement)
    requires !Opens(s)
    ensures var t := ReconcileRun(s, am);
      && t.outcome.Abort? && t.after == s && 1 <= |t.events| <= 3
      && forall e :: e in t.events ==> !IsMutation(e)
  {
    if ListOrgs in s.failing {
      assert ReconcileRun(s, am) == Rejected(s, [], ListOrgs);
    } else {
      assert Respond(s, ListOrgs) == (s, Orgs(s.orgs));
      if s.orgs == [] {
        assert ReconcileRun(s, am) == Trace(s, [ListOrgs], Abort(NoOrganization));
      } else {
        var master := s.orgs[0].id;
        if ListRoles(Page) in s.failing {
          assert ReconcileRun(s, am) == Rejected(s, [ListOrgs], ListRoles(Page));
        } else {
          assert Respond(s, ListRoles(Page)) == (s, Roles(Take(s.roles, Page)));
          if ListTeams(master, Page) in s.failing {
            assert ReconcileRun(s, am) == Rejected(s, [ListOrgs, ListRoles(Page)], ListTeams(master, Page));
          } else {
            assert Respond(s, ListTeams(master, Page)) == (s, Teams([]));
            assert ReconcileRun(s, am) == Trace(s, [ListOrgs, ListRoles(Page), ListTeams(master, Page)], Abort(NoRootTeam));
          }
        }
      }
    }
  }

  /** Business groups that declare no teams, each naming a listed
      organization. */
  ghost predicate EmptyGroups(orgs: seq<Org>, groups: seq<Option<GroupConfig>>)
  {
    forall i :: 0 <= i < |groups| ==>
      groups[i].Some? && groups[i].value.teams == [] && FirstWith(orgs, OrgName, groups[i].value.name).Some?
  }

  lemma {:induction false} EmptyGroupsPass(s: Store, master: Id, orgs: seq<Org>, root: Id, catalog: seq<Role>,
                                           groups: seq<Option<GroupConfig>>)
    requires EmptyGroups(orgs, groups)
    ensures GroupPassLoop(s, master, orgs, root, catalog, groups) == Trace(s, [], Done)
    decreases |groups|
  {
    if groups != [] {
      assert groups[0].Some?;
      assert EmptyGroups(orgs, groups[1..]) by {
        forall i | 0 <= i < |groups[1..]| ensures groups[1..][i] == groups[i + 1] { }
      }
      EmptyGroupsPass(s, master, orgs, root, catalog, groups[1..]);
    }
  }

  /** A manifest that declares no team anywhere costs the three opening
      listings and nothing else. */
  lemma NoTeamsNoCalls(s: Store, am: AccessManagement)
    requires Opens(s) && am.teams == []
    requires am.businessGroups.Some? && EmptyGroups(s.orgs, am.businessGroups.value)
    ensures ReconcileRun(s, am) == Trace(s, [ListOrgs, ListRoles(Page), ListTeams(s.orgs[0].id, Page)], Done)
  {
    ReconcileReachesPasses(s, am);
    EmptyGroupsPass(s, s.orgs[0].id, s.orgs, s.teams[0].teamId, Take(s.roles, Page), am.businessGroups.value);
  }

  // ---- A second run ----

  /** Every one of `names` is the name of a team in `ts`. */
  ghost predicate Listed(names: seq<string>, ts: seq<TeamRecord>)
  {
    forall n :: n in names ==> n in Names(ts)
  }

  lemma ListedFound(ts: seq<TeamRecord>, n: string)
    requires n in Names(ts)
    ensures FirstWith(ts, TeamName, n).Some?
  {
    var i :| 0 <= i < |ts| && Names(ts)[i] == n;
    assert TeamName(ts[i]) == n;
  }

  lemma ListedGrow(names: seq<string>, a: seq<TeamRecord>, b: seq<TeamRecord>)
    requires a <= b && Listed(names, a)
    ensures Listed(names, b)
  {
    forall n | n in names ensures n in Names(b) {
      var i :| 0 <= i < |a| && Names(a)[i] == n;
      assert Names(b)[i] == n;
    }
  }

  lemma ListedSplit(a: seq<string>, b: seq<string>, ts: seq<TeamRecord>)
    requires Listed(a + b, ts)
    ensures Listed(a, ts) && Listed(b, ts)
  {
    assert forall n :: n in a ==> n in a + b;
    assert forall n :: n in b ==> n in a + b;
  }

  lemma FoundListed(existing: seq<TeamRecord>, ts: seq<TeamRecord>, later: seq<TeamRecord>, n: string)
    requires existing <= ts <= later && FirstWith(existing, TeamName, n).Some?
    ensures n in Names(later)
  {
    var i :| 0 <= i < |existing| && TeamName(existing[i]) == n;
    assert later[i] == existing[i];
    assert Names(later)[i] == n;
  }

  lemma AppendedListed(ts: seq<TeamRecord>, x: TeamRecord, later: seq<TeamRecord>)
    requires ts + [x] <= later
    ensures x.teamName in Names(later)
  {
    assert later[|ts|] == x;
    assert Names(later)[|ts|] == x.teamName;
  }

  /** Whatever fails, a pass only appends teams; when it completes, every
      team of its trees is listed by name afterwards, found in the listing or
      created, since a failed create rejects the call. */
  lemma {:induction false} TeamsRunCovers(s: Store, master: Id, org: Id, parentId: Id, teams: seq<TeamConfig>, catalog: seq<Role>)
    ensures var t := TeamsRun(s, master, org, parentId, teams, catalog);
      s.teams <= t.after.teams && (t.outcome.Done? ==> Listed(ForestNames(teams), t.after.teams))
    decreases ForestSize(teams), 3
  {
    if teams != [] && ListEnvs(org, Page) !in s.failing && ListTeams(master, Page) !in s.failing {
      TeamsRunListed(s, master, org, parentId, teams, catalog);
      TeamLoopCovers(s, master, org, parentId, Take(Lookup(s.envs, org), Page), Take(s.teams, Page), teams, catalog);
    }
  }

  lemma {:induction false} TeamLoopCovers(s: Store, master: Id, org: Id, parentId: Id, envs: seq<Env>, existing: seq<TeamRecord>,
                                          teams: seq<TeamConfig>, catalog: seq<Role>)
    requires existing <= s.teams
    ensures var t := TeamLoop(s, master, org, parentId, envs, existing, teams, catalog);
      s.teams <= t.after.teams && (t.outcome.Done? ==> Listed(ForestNames(teams), t.after.teams))
    decreases ForestSize(teams), 2
  {
    if teams != [] {
      var first := OneTeam(s, master, org, parentId, envs, existing, teams[0], catalog);
      OneTeamCovers(s, master, org, parentId, envs, existing, teams[0], catalog);
      if !first.outcome.Abort? {
        var rest := TeamLoop(first.after, master, org, parentId, envs, existing, teams[1..], catalog);
        TeamLoopCovers(first.after, master, org, parentId, envs, existing, teams[1..], catalog);
        assert TeamLoop(s, master, org, parentId, envs, existing, teams, catalog) == Then(first.events, rest);
        if rest.outcome.Done? {
          ListedGrow(TreeNames(teams[0]), first.after.teams, rest.after.teams);
          assert ForestNames(teams) == TreeNames(teams[0]) + ForestNames(teams[1..]);
        }
      }
    }
  }

  lemma {:induction false} OneTeamCovers(s: Store, master: Id, org: Id, parentId: Id, envs: seq<Env>, existing: seq<TeamRecord>,
                                         team: TeamConfig, catalog: seq<Role>)
    requires existing <= s.teams
    ensures var t := OneTeam(s, master, org, parentId, envs, existing, team, catalog);
      s.teams <= t.after.teams && (t.outcome.Done? ==> Listed(TreeNames(team), t.after.teams))
    decreases Size(team), 1
  {
    assert TreeNames(team) == [team.name] + ForestNames(team.children);
    var found := FirstWith(existing, TeamName, team.name);
    var create := CreateTeam(master, TeamPayloadOf(team, parentId));
    if found.Some? {
      OneTeamListed(s, master, org, parentId, envs, existing, team, catalog);
      var b := TeamBody(s, master, org, envs, found.value.teamId, team, catalog);
      TeamBodyCovers(s, master, org, envs, found.value.teamId, team, catalog);
      FoundListed(existing, s.teams, b.after.teams, team.name);
    } else if create !in s.failing {
      OneTeamCreated(s, master, org, parentId, envs, existing, team, catalog);
      var s1 := WithTeam(s, team.name);
      var b := TeamBody(s1, master, org, envs, FreshId(s.nextId), team, catalog);
      TeamBodyCovers(s1, master, org, envs, FreshId(s.nextId), team, catalog);
      AppendedListed(s.teams, TeamRecord(FreshId(s.nextId), team.name), b.after.teams);
    } else {
      OneTeamCreateFailed(s, master, org, parentId, envs, existing, team, catalog);
    }
  }

  lemma {:induction false} TeamBodyCovers(s: Store, master: Id, org: Id, envs: seq<Env>, teamId: Id, team: TeamConfig, catalog: seq<Role>)
    ensures var t := TeamBody(s, master, org, envs, teamId, team, catalog);
      s.teams <= t.after.teams && (t.outcome.Done? ==> Listed(ForestNames(team.children), t.after.teams))
    decreases Size(team), 0
  {
    var p := PartitionRoles(catalog, envs, org, team.roles);
    if ListTeamRoles(master, teamId, Page) in s.failing {
      TeamBodyRolesFailed(s, master, org, envs, teamId, team, catalog);
    } else if p.RoleMissing? {
      TeamBodyUnknownRole(s, master, org, envs, teamId, team, catalog);
    } else {
      TeamBodyPosts(s, master, org, envs, teamId, team, catalog);
      var e1 := OrgWidePost(s, master, teamId, team.name, p.orgWide);
      var e2 := ContextPost(e1.after, master, teamId, team.name, p.contextual);
      TeamsRunCovers(e2.after, master, org, teamId, team.children, catalog);
    }
  }

  /** A pass whose every team is already listed on the first page creates
      nothing and leaves the teams as they were, whatever fails. */
  lemma {:induction false} TeamsRunNoCreate(s: Store, master: Id, org: Id, parentId: Id, teams: seq<TeamConfig>, catalog: seq<Role>)
    requires |s.teams| <= Page && Listed(ForestNames(teams), s.teams)
    ensures var t := TeamsRun(s, master, org, parentId, teams, catalog);
      Select(t.events, CreatedName) == [] && t.after.teams == s.teams
    decreases ForestSize(teams), 3
  {
    var listEnvs, listTeams := ListEnvs(org, Page), ListTeams(master, Page);
    if teams != [] {
      if listEnvs in s.failing {
        SelectNone([listEnvs], CreatedName);
      } else if listTeams in s.failing {
        assert Respond(s, listEnvs) == (s, Envs(Take(Lookup(s.envs, org), Page)));
        SelectNone([listEnvs, listTeams], CreatedName);
      } else {
        TeamsRunListed(s, master, org, parentId, teams, catalog);
        assert Take(s.teams, Page) == s.teams;
        var envs := Take(Lookup(s.envs, org), Page);
        var l := TeamLoop(s, master, org, parentId, envs, s.teams, teams, catalog);
        TeamLoopNoCreate(s, master, org, parentId, envs, s.teams, teams, catalog);
        SelectConcat([listEnvs, listTeams], l.events, CreatedName);
        SelectNone([listEnvs, listTeams], CreatedName);
      }
    }
  }

  lemma {:induction false} TeamLoopNoCreate(s: Store, master: Id, org: Id, parentId: Id, envs: seq<Env>, existing: seq<TeamRecord>,
                                            teams: seq<TeamConfig>, catalog: seq<Role>)
    requires existing == s.teams && |s.teams| <= Page && Listed(ForestNames(teams), s.teams)
    ensures var t := TeamLoop(s, master, org, parentId, envs, existing, teams, catalog);
      Select(t.events, CreatedName) == [] && t.after.teams == s.teams
    decreases ForestSize(teams), 2
  {
    if teams != [] {
      assert ForestNames(teams) == TreeNames(teams[0]) + ForestNames(teams[1..]);
      ListedSplit(TreeNames(teams[0]), ForestNames(teams[1..]), s.teams);
      var first := OneTeam(s, master, org, parentId, envs, existing, teams[0], catalog);
      OneTeamNoCreate(s, master, org, parentId, envs, existing, teams[0], catalog);
      if !first.outcome.Abort? {
        var rest := TeamLoop(first.after, master, org, parentId, envs, existing, teams[1..], catalog);
        TeamLoopNoCreate(first.after, master, org, parentId, envs, existing, teams[1..], catalog);
        SelectConcat(first.events, rest.events, CreatedName);
      }
    }
  }

  lemma {:induction false} OneTeamNoCreate(s: Store, master: Id, org: Id, parentId: Id, envs: seq<Env>, existing: seq<TeamRecord>,
                                           team: TeamConfig, catalog: seq<Role>)
    requires existing == s.teams && |s.teams| <= Page && Listed(TreeNames(team), s.teams)
    ensures var t := OneTeam(s, master, org, parentId, envs, existing, team, catalog);
      Select(t.events, CreatedName) == [] && t.after.teams == s.teams
    decreases Size(team), 1
  {
    assert TreeNames(team) == [team.name] + ForestNames(team.children);
    ListedSplit([team.name], ForestNames(team.children), s.teams);
    ListedFound(existing, team.name);
    OneTeamListed(s, master, org, parentId, envs, existing, team, catalog);
    TeamBodyNoCreate(s, master, org, envs, FirstWith(existing, TeamName, team.name).value.teamId, team, catalog);
  }

  lemma {:induction false} TeamBodyNoCreate(s: Store, master: Id, org: Id, envs: seq<Env>, teamId: Id, team: TeamConfig, catalog: seq<Role>)
    requires |s.teams| <= Page && Listed(ForestNames(team.children), s.teams)
    ensures var t := TeamBody(s, master, org, envs, teamId, team, catalog);
      Select(t.events, CreatedName) == [] && t.after.teams == s.teams
    decreases Size(team), 0
  {
    var listRoles := ListTeamRoles(master, teamId, Page);
    var p := PartitionRoles(catalog, envs, org, team.roles);
    if listRoles in s.failing {
      TeamBodyRolesFailed(s, master, org, envs, teamId, team, catalog);
      SelectNone([listRoles], CreatedName);
    } else if p.RoleMissing? {
      TeamBodyUnknownRole(s, master, org, envs, teamId, team, catalog);
      SelectNone([listRoles], CreatedName);
    } else {
      TeamBodyPosts(s, master, org, envs, teamId, team, catalog);
      var e1 := OrgWidePost(s, master, teamId, team.name, p.orgWide);
      var e2 := ContextPost(e1.after, master, teamId, team.name, p.contextual);
      PostsCreateNothing(s, master, teamId, team.name, p.orgWide, p.contextual);
      var r := TeamsRun(e2.after, master, org, teamId, team.children, catalog);
      TeamsRunNoCreate(e2.after, master, org, teamId, team.children, catalog);
      SelectConcat([listRoles] + e1.events + e2.events, r.events, CreatedName);
    }
  }

  /** Every team of every business group in `groups` is listed by name in `ts`. */
  ghost predicate GroupsListed(groups: seq<Option<GroupConfig>>, ts: seq<TeamRecord>)
  {
    forall i :: 0 <= i < |groups| && groups[i].Some? ==> Listed(ForestNames(groups[i].value.teams), ts)
  }

  lemma {:induction false} GroupPassLoopCovers(s: Store, master: Id, orgs: seq<Org>, root: Id, catalog: seq<Role>,
                                               groups: seq<Option<GroupConfig>>)
    ensures var t := GroupPassLoop(s, master, orgs, root, catalog, groups);
      s.teams <= t.after.teams && (t.outcome.Done? ==> GroupsListed(groups, t.after.teams))
    decreases |groups|
  {
    if groups != [] && groups[0].Some? && FirstWith(orgs, OrgName, groups[0].value.name).Some? {
      var group := groups[0].value;
      var org := FirstWith(orgs, OrgName, group.name).value.id;
      var t := TeamsRun(s, master, org, root, group.teams, catalog);
      TeamsRunCovers(s, master, org, root, group.teams, catalog);
      if !t.outcome.Abort? {
        var rest := GroupPassLoop(t.after, master, orgs, root, catalog, groups[1..]);
        GroupPassLoopCovers(t.after, master, orgs, root, catalog, groups[1..]);
        assert GroupPassLoop(s, master, orgs, root, catalog, groups) == Then(t.events, rest);
        if rest.outcome.Done? {
          ListedGrow(ForestNames(group.teams), t.after.teams, rest.after.teams);
          forall i | 0 <= i < |groups| && groups[i].Some?
            ensures Listed(ForestNames(groups[i].value.teams), rest.after.teams)
          {
            if i > 0 {
              assert groups[i] == groups[1..][i - 1];
            }
          }
        }
      }
    } else if groups != [] && groups[0].None? {
      GroupPassNull(s, master, orgs, root, catalog, groups);
    } else if groups != [] {
      GroupPassMissingOrg(s, master, orgs, root, catalog, groups);
    }
  }

  lemma {:induction false} GroupPassLoopNoCreate(s: Store, master: Id, orgs: seq<Org>, root: Id, catalog: seq<Role>,
                                                 groups: seq<Option<GroupConfig>>)
    requires |s.teams| <= Page && GroupsListed(groups, s.teams)
    ensures var t := GroupPassLoop(s, master, orgs, root, catalog, groups);
      Select(t.events, CreatedName) == [] && t.after.teams == s.teams
    decreases |groups|
  {
    if groups != [] && groups[0].Some? && FirstWith(orgs, OrgName, groups[0].value.name).Some? {
      var group := groups[0].value;
      var org := FirstWith(orgs, OrgName, group.name).value.id;
      var t := TeamsRun(s, master, org, root, group.teams, catalog);
      TeamsRunNoCreate(s, master, org, root, group.teams, catalog);
      if !t.outcome.Abort? {
        assert GroupsListed(groups[1..], s.teams) by {
          forall i | 0 <= i < |groups[1..]| && groups[1..][i].Some?
            ensures Listed(ForestNames(groups[1..][i].value.teams), s.teams)
          {
            assert groups[1..][i] == groups[i + 1];
          }
        }
        var rest := GroupPassLoop(t.after, master, orgs, root, catalog, groups[1..]);
        GroupPassLoopNoCreate(t.after, master, orgs, root, catalog, groups[1..]);
        SelectConcat(t.events, rest.events, CreatedName);
      }
    }
  }

  /** When a run completes, the business-group list was present, and every
      team it declares, for the master organization and for each business
      group, is listed by name in the remote it leaves. */
  lemma ReconcileCovers(s: Store, am: AccessManagement)
    ensures var t := ReconcileRun(s, am);
      t.outcome.Done? ==>
        && am.businessGroups.Some?
        && Listed(ForestNames(am.teams), t.after.teams)
        && GroupsListed(am.businessGroups.value, t.after.teams)
  {
    if !Opens(s) {
      ReconcileStopsEarly(s, am);
    } else {
      ReconcileReachesPasses(s, am);
      var master, root, catalog := s.orgs[0].id, s.teams[0].teamId, Take(s.roles, Page);
      var t := TeamsRun(s, master, master, root, am.teams, catalog);
      TeamsRunCovers(s, master, master, root, am.teams, catalog);
      if !t.outcome.Abort? && am.businessGroups.Some? {
        var g := GroupPassLoop(t.after, master, s.orgs, root, catalog, am.businessGroups.value);
        GroupPassLoopCovers(t.after, master, s.orgs, root, catalog, am.businessGroups.value);
        if g.outcome.Done? {
          ListedGrow(ForestNames(am.teams), t.after.teams, g.after.teams);
        }
      }
    }
  }

  /** A run against a remote whose first page of teams already lists every
      declared team by name, for the master organization and for each
      business group, creates no team, whatever fails. */
  lemma ReconcileNoCreate(s: Store, am: AccessManagement)
    requires |s.teams| <= Page && Listed(ForestNames(am.teams), s.teams)
    requires am.businessGroups.Some? ==> GroupsListed(am.businessGroups.value, s.teams)
    ensures Select(ReconcileRun(s, am).events, CreatedName) == []
  {
    var opening := [ListOrgs, ListRoles(Page), ListTeams(if s.orgs != [] then s.orgs[0].id else "", Page)];
    if !Opens(s) {
      ReconcileStopsEarly(s, am);
      var es := ReconcileRun(s, am).events;
      assert forall i :: 0 <= i < |es| ==> es[i] in es;
      SelectNone(es, CreatedName);
    } else {
      ReconcileReachesPasses(s, am);
      var master, root, catalog := s.orgs[0].id, s.teams[0].teamId, Take(s.roles, Page);
      var t := TeamsRun(s, master, master, root, am.teams, catalog);
      TeamsRunNoCreate(s, master, master, root, am.teams, catalog);
      SelectNone(opening, CreatedName);
      if !t.outcome.Abort? {
        var g := GroupPasses(t.after, master, s.orgs, root, catalog, am.businessGroups);
        if am.businessGroups.Some? {
          GroupPassLoopNoCreate(t.after, master, s.orgs, root, catalog, am.businessGroups.value);
        }
        SelectConcat(t.events, g.events, CreatedName);
        SelectConcat(opening, t.events + g.events, CreatedName);
      } else {
        SelectConcat(opening, t.events, CreatedName);
      }
    }
  }

  /** Idempotence: once a run completes, running the same manifest again
      against the remote it left creates no team, provided the first page of
      500 still lists every team of the master organization. */
  lemma SecondRunCreatesNothing(s: Store, am: AccessManagement)
    requires ReconcileRun(s, am).outcome.Done?
    requires |ReconcileRun(s, am).after.teams| <= Page
    ensures Select(ReconcileRun(ReconcileRun(s, am).after, am).events, CreatedName) == []
  {
    ReconcileCovers(s, am);
    ReconcileNoCreate(ReconcileRun(s, am).after, am);
  }

  // ---- Implementation ----

  /** The org-wide post, in its own `try`. */
  method PostOrgWide(remote: Remote, master: Id, teamId: Id, name: string, batch: seq<RoleEntry>)
    modifies remote
    ensures var e := OrgWidePost(old(remote.Snapshot()), master, teamId, name, batch);
      remote.Reached(old(remote.log), e.after, e.events)
  {
    ghost var log0 := remote.log;
    if batch != [] {
      remote.Note(Sleep);
      var r := remote.Send(PostRoles(master, teamId, batch));
      if r.Failed? {
        remote.Note(Error(name));
        assert remote.log == log0 + ([Sleep, PostRoles(master, teamId, batch)] + [Error(name)]);
      } else {
        assert remote.log == log0 + ([Sleep, PostRoles(master, teamId, batch)] + []);
      }
    } else {
      assert remote.log == log0 + [];
    }
  }

  /** The per-environment post; its failure is logged by the outer `catch`. */
  method PostContextual(remote: Remote, master: Id, teamId: Id, name: string, batch: seq<RoleEntry>)
    modifies remote
    ensures var e := ContextPost(old(remote.Snapshot()), master, teamId, name, batch);
      remote.Reached(old(remote.log), e.after, e.events)
  {
    ghost var log0 := remote.log;
    if batch != [] {
      remote.Note(Sleep);
      var r := remote.Send(PostRoles(master, teamId, batch));
      if r.Failed? {
        remote.Note(Error(name));
        remote.Note(Error(name));
        assert remote.log == log0 + ([Sleep, PostRoles(master, teamId, batch)] + [Error(name), Error(name)]);
      } else {
        assert remote.log == log0 + ([Sleep, PostRoles(master, teamId, batch)] + []);
      }
    } else {
      assert remote.log == log0 + [];
    }
  }

  /** `createTeams`. */
  method CreateTeams(remote: Remote, master: Id, org: Id, parentId: Id, teams: seq<TeamConfig>, catalog: seq<Role>)
    returns (o: Outcome)
    modifies remote
    ensures var t := TeamsRun(old(remote.Snapshot()), master, org, parentId, teams, catalog);
      remote.Reached(old(remote.log), t.after, t.events) && o == t.outcome
    decreases ForestSize(teams), 3
  {
    ghost var s0, log0 := remote.Snapshot(), remote.log;
    if teams == [] {
      assert remote.log == log0 + [];
      return Done;
    }
    var envs := remote.Send(ListEnvs(org, Page));
    if !envs.Envs? {
      return Abort(RequestFailed(ListEnvs(org, Page)));
    }
    var existing := remote.Send(ListTeams(master, Page));
    if !existing.Teams? {
      assert remote.log == log0 + ([ListEnvs(org, Page)] + [ListTeams(master, Page)]);
      return Abort(RequestFailed(ListTeams(master, Page)));
    }
    TeamsRunListed(s0, master, org, parentId, teams, catalog);
    assert remote.log == log0 + [ListEnvs(org, Page), ListTeams(master, Page)];
    ghost var rest := TeamLoop(s0, master, org, parentId, envs.envs, existing.teams, teams, catalog).events;
    o := ReconcileSiblings(remote, master, org, parentId, envs.envs, existing.teams, teams, catalog);
    AppendAssoc(log0, [ListEnvs(org, Page), ListTeams(master, Page)], rest);
  }

  /** The loop of `createTeams` over sibling teams, against the listings fetched for them. */
  method ReconcileSiblings(remote: Remote, master: Id, org: Id, parentId: Id, envs: seq<Env>, existing: seq<TeamRecord>,
                           teams: seq<TeamConfig>, catalog: seq<Role>) returns (o: Outcome)
    modifies remote
    ensures var t := TeamLoop(old(remote.Snapshot()), master, org, parentId, envs, existing, teams, catalog);
      remote.Reached(old(remote.log), t.after, t.events) && o == t.outcome
    decreases ForestSize(teams), 2
  {
    ghost var s0, log0 := remote.Snapshot(), remote.log;
    ghost var done: seq<Event> := [];
    var i := 0;
    while i < |teams|
      invariant 0 <= i <= |teams|
      invariant remote.log == log0 + done
      invariant TeamLoop(s0, master, org, parentId, envs, existing, teams, catalog) ==
                Then(done, TeamLoop(remote.Snapshot(), master, org, parentId, envs, existing, teams[i..], catalog))
    {
      assert teams[i..][1..] == teams[i + 1..];
      MemberSize(teams, i);
      ghost var t := OneTeam(remote.Snapshot(), master, org, parentId, envs, existing, teams[i], catalog);
      var r := ReconcileTeam(remote, master, org, parentId, envs, existing, teams[i], catalog);
      AppendAssoc(log0, done, t.events);
      if r.Abort? {
        return r;
      }
      ThenThen(done, t.events, TeamLoop(remote.Snapshot(), master, org, parentId, envs, existing, teams[i + 1..], catalog));
      done := done + t.events;
      i := i + 1;
    }
    assert teams[i..] == [];
    assert done + [] == done;
    o := Done;
  }

  /** One team of the loop: find or create it, then the rest of its reconciliation. */
  method ReconcileTeam(remote: Remote, master: Id, org: Id, parentId: Id, envs: seq<Env>, existing: seq<TeamRecord>,
                       team: TeamConfig, catalog: seq<Role>) returns (o: Outcome)
    modifies remote
    ensures var t := OneTeam(old(remote.Snapshot()), master, org, parentId, envs, existing, team, catalog);
      remote.Reached(old(remote.log), t.after, t.events) && o == t.outcome
    decreases Size(team), 1
  {
    ghost var s0, log0 := remote.Snapshot(), remote.log;
    var found := FirstWith(existing, TeamName, team.name);
    if found.Some? {
      OneTeamListed(s0, master, org, parentId, envs, existing, team, catalog);
      o := FinishTeam(remote, master, org, envs, found.value.teamId, team, catalog);
      return;
    }
    var create := CreateTeam(master, TeamPayloadOf(team, parentId));
    var r := remote.Send(create);
    if r.Failed? {
      OneTeamCreateFailed(s0, master, org, parentId, envs, existing, team, catalog);
      remote.Note(Error(team.name));
      return Abort(TeamUnavailable(team.name));
    }
    OneTeamCreated(s0, master, org, parentId, envs, existing, team, catalog);
    remote.Note(Sleep);
    ghost var rest := TeamBody(remote.Snapshot(), master, org, envs, r.id, team, catalog).events;
    o := FinishTeam(remote, master, org, envs, r.id, team, catalog);
    AppendAssoc(log0, [create, Sleep], rest);
  }

  /** The rest of one team: its roles, then its children. */
  method FinishTeam(remote: Remote, master: Id, org: Id, envs: seq<Env>, teamId: Id, team: TeamConfig, catalog: seq<Role>)
    returns (o: Outcome)
    modifies remote
    ensures var t := TeamBody(old(remote.Snapshot()), master, org, envs, teamId, team, catalog);
      remote.Reached(old(remote.log), t.after, t.events) && o == t.outcome
    decreases Size(team), 0
  {
    ghost var s0, log0 := remote.Snapshot(), remote.log;
    var held := remote.Send(ListTeamRoles(master, teamId, Page));
    if !held.Grants? {
      TeamBodyRolesFailed(s0, master, org, envs, teamId, team, catalog);
      return Abort(RequestFailed(ListTeamRoles(master, teamId, Page)));
    }
    var p := BuildBatches(catalog, envs, org, team.roles);
    if p.RoleMissing? {
      TeamBodyUnknownRole(s0, master, org, envs, teamId, team, catalog);
      return Abort(UnknownRole(p.role));
    }
    TeamBodyPosts(s0, master, org, envs, teamId, team, catalog);
    ghost var head := [ListTeamRoles(master, teamId, Page)];
    ghost var e1 := OrgWidePost(remote.Snapshot(), master, teamId, team.name, p.orgWide).events;
    PostOrgWide(remote, master, teamId, team.name, p.orgWide);
    AppendAssoc(log0, head, e1);
    ghost var e2 := ContextPost(remote.Snapshot(), master, teamId, team.name, p.contextual).events;
    PostContextual(remote, master, teamId, team.name, p.contextual);
    AppendAssoc(log0, head + e1, e2);
    ghost var rest := TeamsRun(remote.Snapshot(), master, org, teamId, team.children, catalog).events;
    o := CreateTeams(remote, master, org, teamId, team.children, catalog);
    AppendAssoc(log0, head + e1 + e2, rest);
  }

  /** The business-group passes. */
  method RunGroupPasses(remote: Remote, master: Id, orgs: seq<Org>, root: Id, catalog: seq<Role>,
                        groups: seq<Option<GroupConfig>>) returns (o: Outcome)
    modifies remote
    ensures var t := GroupPassLoop(old(remote.Snapshot()), master, orgs, root, catalog, groups);
      remote.Reached(old(remote.log), t.after, t.events) && o == t.outcome
  {
    ghost var s0, log0 := remote.Snapshot(), remote.log;
    ghost var done: seq<Event> := [];
    var i := 0;
    while i < |groups|
      invariant 0 <= i <= |groups|
      invariant remote.log == log0 + done
      invariant GroupPassLoop(s0, master, orgs, root, catalog, groups) ==
                Then(done, GroupPassLoop(remote.Snapshot(), master, orgs, root, catalog, groups[i..]))
    {
      assert groups[i..][1..] == groups[i + 1..];
      if groups[i].None? {
        GroupPassNull(remote.Snapshot(), master, orgs, root, catalog, groups[i..]);
        assert done + [] == done;
        return Abort(NullEntry);
      }
      var group := groups[i].value;
      var org := FirstWith(orgs, OrgName, group.name);
      if org.None? {
        GroupPassMissingOrg(remote.Snapshot(), master, orgs, root, catalog, groups[i..]);
        assert done + [] == done;
        return Abort(OrgNotFound(group.name));
      }
      ghost var t := TeamsRun(remote.Snapshot(), master, org.value.id, root, group.teams, catalog);
      var r := CreateTeams(remote, master, org.value.id, root, group.teams, catalog);
      AppendAssoc(log0, done, t.events);
      if r.Abort? {
        return r;
      }
      ThenThen(done, t.events, GroupPassLoop(remote.Snapshot(), master, orgs, root, catalog, groups[i + 1..]));
      done := done + t.events;
      i := i + 1;
    }
    assert groups[i..] == [];
    assert done + [] == done;
    o := Done;
  }

  /** The exported team reconciler. */
  method ReconcileTeams(remote: Remote, am: AccessManagement) returns (o: Outcome)
    modifies remote
    ensures var t := ReconcileRun(old(remote.Snapshot()), am);
      remote.Reached(old(remote.log), t.after, t.events) && o == t.outcome
  {
    ghost var s0, log0 := remote.Snapshot(), remote.log;
    var orgs := remote.Send(ListOrgs);
    if !orgs.Orgs? {
      return Abort(RequestFailed(ListOrgs));
    }
    if orgs.orgs == [] {
      return Abort(NoOrganization);
    }
    var master := orgs.orgs[0].id;
    var roles := remote.Send(ListRoles(Page));
    if !roles.Roles? {
      return Abort(RequestFailed(ListRoles(Page)));
    }
    var teams := remote.Send(ListTeams(master, Page));
    if !teams.Teams? {
      return Abort(RequestFailed(ListTeams(master, Page)));
    }
    if teams.teams == [] {
      return Abort(NoRootTeam);
    }
    var root := teams.teams[0].teamId;
    ghost var head := [ListOrgs, ListRoles(Page), ListTeams(master, Page)];
    assert remote.log == log0 + head;
    ghost var t := TeamsRun(remote.Snapshot(), master, master, root, am.teams, roles.roles);
    o := CreateTeams(remote, master, master, root, am.teams, roles.roles);
    AppendAssoc(log0, head, t.events);
    if o.Abort? {
      return;
    }
    if am.businessGroups.None? {
      assert t.events + [] == t.events;
      return Abort(NotIterable);
    }
    ghost var g := GroupPassLoop(remote.Snapshot(), master, orgs.orgs, root, roles.roles, am.businessGroups.value);
    o := RunGroupPasses(remote, master, orgs.orgs, root, roles.roles, am.businessGroups.value);
    AppendAssoc(log0 + head, t.events, g.events);
    AppendAssoc(log0, head, t.events + g.events);
  }
}
