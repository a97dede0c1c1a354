/** The remote platform behind the reconcilers' `request.get/post/put`, as an
    in-memory fake: the collections the reconcilers list and create, a failure
    oracle, and an append-only log of every request, settling delay and warn or
    error line the reconcilers produce. */
module Platform {
  import opened Common
  import opened Manifest

  // ---- What the remote lists ----

  datatype Org = Org(id: Id, name: string)
  datatype Env = Env(id: Id, name: string)
  datatype TeamRecord = TeamRecord(teamId: Id, teamName: string)
  datatype Role = Role(roleId: Id, name: string)
  datatype ProviderRecord = ProviderRecord(providerId: Id, name: string)

  function OrgName(o: Org): string { o.name }
  function EnvName(e: Env): string { e.name }
  function TeamName(t: TeamRecord): string { t.teamName }
  function RoleNameOf(r: Role): string { r.name }
  function ProviderName(p: ProviderRecord): string { p.name }
  function AppName(a: ConnectedApp): string { a.clientName }

  // ---- Request bodies ----

  /** Body of `POST /accounts/api/organizations`. */
  datatype OrgPayload = OrgPayload(name: string, parentOrganizationId: Id, ownerId: string, entitlements: map<string, Json>)

  /** Body of `POST .../teams`. */
  datatype TeamPayload = TeamPayload(teamName: string, teamType: string, parentTeamId: Id)

  /** One element of a role batch: `{role_id, context_params: {org, envId?}}`. */
  datatype RoleEntry = RoleEntry(roleId: Id, org: Id, envId: Option<Id>)

  /** One element of a group-mapping body. */
  datatype GroupMapping = GroupMapping(externalGroupName: string, providerId: Id, membershipType: string)

  /** An entry of the identity providers' `TYPES` table. */
  datatype ProviderType = ProviderType(description: string, name: string)

  /** Body of `POST .../identityProviders`. */
  datatype ProviderPayload = ProviderPayload(providerType: ProviderType, serviceProvider: Json, saml: map<string, Json>, name: string)

  // ---- The log ----

  /** A request to the remote (with the page limit of a listing), a settling
      delay, or a warn or error log line. */
  datatype Event =
    | ListOrgs
    | CreateOrg(org: OrgPayload)
    | ListEnvs(orgId: Id, limit: nat)
    | CreateEnv(orgId: Id, env: Environment)
    | ListProviders(orgId: Id)
    | ListProviderNames(orgId: Id)
    | CreateProvider(orgId: Id, provider: ProviderPayload)
    | ListApps(limit: nat)
    | CreateApp(app: ConnectedApp)
    | ListRoles(limit: nat)
    | ListTeams(orgId: Id, limit: nat)
    | CreateTeam(orgId: Id, team: TeamPayload)
    | ListTeamRoles(orgId: Id, teamId: Id, limit: nat)
    | PostRoles(orgId: Id, teamId: Id, batch: seq<RoleEntry>)
    | PutMappings(orgId: Id, teamId: Id, mappings: seq<GroupMapping>)
    | Sleep
    | Warn(subject: string)
    | Error(subject: string)

  predicate IsRequest(e: Event)
  {
    !(e.Sleep? || e.Warn? || e.Error?)
  }

  /** The requests that create an entity and answer with its id. */
  predicate IsCreate(e: Event)
  {
    e.CreateOrg? || e.CreateEnv? || e.CreateProvider? || e.CreateApp? || e.CreateTeam?
  }

  /** The requests that change the remote. */
  predicate IsMutation(e: Event)
  {
    IsCreate(e) || e.PostRoles? || e.PutMappings?
  }

  // ---- Remote state and responses ----

  /** Everything the fake remote holds. `nextId` numbers the ids it hands out;
      a request fails exactly when it is in `failing`. */
  datatype Store = Store(
    orgs: seq<Org>,
    envs: map<Id, seq<Env>>,
    teams: seq<TeamRecord>,
    grants: map<Id, seq<RoleEntry>>,
    roles: seq<Role>,
    providers: map<Id, seq<ProviderRecord>>,
    apps: seq<ConnectedApp>,
    groupMappings: map<Id, seq<GroupMapping>>,
    nextId: nat,
    failing: set<Event>)

  datatype Response =
    | Failed
    | Orgs(orgs: seq<Org>)
    | Envs(envs: seq<Env>)
    | Providers(providers: seq<ProviderRecord>)
    | Apps(apps: seq<ConnectedApp>)
    | Roles(roles: seq<Role>)
    | Teams(teams: seq<TeamRecord>)
    | Grants(grants: seq<RoleEntry>)
    | Created(id: Id)
    | Accepted

  function Digits(n: nat): string
    decreases n
  {
    if n < 10 then ["0123456789"[n]] else Digits(n / 10) + ["0123456789"[n % 10]]
  }

  /** The id the remote gives the `n`-th entity it creates. */
  function FreshId(n: nat): Id
  {
    "new-" + Digits(n)
  }

  /** How the remote answers one request: a request in `failing` fails and
      changes nothing; a listing returns its first page and changes nothing; a
      create or update changes the remote as `Apply` says. */
  function Respond(s: Store, e: Event): (r: (Store, Response))
    ensures r.0.failing == s.failing
    ensures e in s.failing ==> r == (s, Failed)
    ensures !IsMutation(e) ==> r.0 == s
    ensures r.1.Failed? <==> e in s.failing
    ensures IsCreate(e) && e !in s.failing ==> r.1 == Created(FreshId(s.nextId))
  {
    if e in s.failing then (s, Failed)
    else if IsMutation(e) then Apply(s, e)
    else (s, Answer(s, e))
  }

  /** The first page a listing returns. */
  function Answer(s: Store, e: Event): (r: Response)
    ensures !r.Failed?
  {
    match e
    case ListOrgs => Orgs(s.orgs)
    case ListEnvs(org, limit) => Envs(Take(Lookup(s.envs, org), limit))
    case ListProviders(org) => Providers(Lookup(s.providers, org))
    case ListProviderNames(org) => Providers(Lookup(s.providers, org))
    case ListApps(limit) => Apps(Take(s.apps, limit))
    case ListRoles(limit) => Roles(Take(s.roles, limit))
    case ListTeams(_, limit) => Teams(Take(s.teams, limit))
    case ListTeamRoles(_, team, limit) => Grants(Take(Lookup(s.grants, team), limit))
    case _ => Accepted
  }

  /** A create appends the new entity, with a fresh id, and returns that id; a
      role post appends to the team's grants; a mapping put replaces the team's
      mappings. */
  function Apply(s: Store, e: Event): (r: (Store, Response))
    ensures r.0.failing == s.failing && !r.1.Failed?
    ensures IsCreate(e) ==> r.1 == Created(FreshId(s.nextId))
  {
    var id := FreshId(s.nextId);
    match e
    case CreateOrg(body) =>
      (s.(orgs := s.orgs + [Org(id, body.name)], nextId := s.nextId + 1), Created(id))
    case CreateEnv(org, env) =>
      (s.(envs := s.envs[org := Lookup(s.envs, org) + [Env(id, env.name)]], nextId := s.nextId + 1), Created(id))
    case CreateProvider(org, body) =>
      (s.(providers := s.providers[org := Lookup(s.providers, org) + [ProviderRecord(id, body.name)]],
          nextId := s.nextId + 1), Created(id))
    case CreateApp(app) => (s.(apps := s.apps + [app], nextId := s.nextId + 1), Created(id))
    case CreateTeam(_, body) =>
      (s.(teams := s.teams + [TeamRecord(id, body.teamName)], nextId := s.nextId + 1), Created(id))
    case PostRoles(_, team, batch) => (s.(grants := s.grants[team := Lookup(s.grants, team) + batch]), Accepted)
    case PutMappings(_, team, body) => (s.(groupMappings := s.groupMappings[team := body]), Accepted)
    case _ => (s, Accepted)
  }

  /** No create, post or put request fails (listings may still fail). */
  ghost predicate MutationsSucceed(s: Store)
  {
    forall e :: e in s.failing ==> !IsMutation(e)
  }

  /** The values `f` picks out of a log, in log order. */
  function Select<T>(es: seq<Event>, f: Event -> Option<T>): seq<T>
  {
    if es == [] then []
    else if f(es[0]).Some? then [f(es[0]).value] + Select(es[1..], f)
    else Select(es[1..], f)
  }

  lemma {:induction false} SelectConcat<T>(a: seq<Event>, b: seq<Event>, f: Event -> Option<T>)
    ensures Select(a + b, f) == Select(a, f) + Select(b, f)
  {
    if a == [] {
      assert a + b == b;
    } else {
      assert (a + b)[0] == a[0];
      assert (a + b)[1..] == a[1..] + b;
      SelectConcat(a[1..], b, f);
    }
  }

  lemma {:induction false} SelectNone<T>(es: seq<Event>, f: Event -> Option<T>)
    requires forall i :: 0 <= i < |es| ==> f(es[i]).None?
    ensures Select(es, f) == []
    decreases |es|
  {
    if es != [] {
      assert forall i :: 0 <= i < |es[1..]| ==> es[1..][i] == es[i + 1];
      SelectNone(es[1..], f);
    }
  }

  // ---- Results of a reconciler ----

  /** Why a reconciler call is rejected: a validation error, a failed request
      that nothing catches, or a TypeError on a value the code assumes present. */
  datatype Reason =
    | ConfigsMissing
    | ConfigMissing
    | OwnerMissing
    | NameMissing
    | RequestFailed(request: Event)
    | NoOrganization
    | NoRootTeam
    | NullEntry
    | NotIterable
    | UnknownRole(role: RoleSpec)
    | TeamUnavailable(team: string)
    | UnknownProfile(profile: string)
    | OrgNotFound(name: string)

  datatype Outcome = Done | Abort(reason: Reason)

  /** What a piece of a reconciler does: the remote afterwards, the events it
      appended to the log, and whether it completed or was rejected. */
  datatype Trace = Trace(after: Store, events: seq<Event>, outcome: Outcome)

  /** The same, for a piece of a reconciler that catches every failure. */
  datatype Effect = Effect(after: Store, events: seq<Event>)

  function Then(es: seq<Event>, t: Trace): Trace
  {
    Trace(t.after, es + t.events, t.outcome)
  }

  lemma ThenThen(a: seq<Event>, b: seq<Event>, t: Trace)
    ensures Then(a, Then(b, t)) == Then(a + b, t)
  {
    assert a + (b + t.events) == (a + b) + t.events;
  }

  function Also(es: seq<Event>, e: Effect): Effect
  {
    Effect(e.after, es + e.events)
  }

  lemma AlsoAlso(a: seq<Event>, b: seq<Event>, e: Effect)
    ensures Also(a, Also(b, e)) == Also(a + b, e)
  {
    assert a + (b + e.events) == (a + b) + e.events;
  }

  /** A request that fails, rejecting the call that issued it. */
  function Rejected(s: Store, es: seq<Event>, request: Event): Trace
  {
    Trace(s, es + [request], Abort(RequestFailed(request)))
  }

  // ---- The transport ----

  /** The `request` object bound to a fake remote. */
  class Remote {
    /** What the remote holds. */
    var store: Store
    /** Every request, delay and log line so far, in order. */
    var log: seq<Event>

    function Snapshot(): Store
      reads this
    {
      store
    }

    /** The remote now holds `after` and the log has grown by `events`. */
    ghost predicate Reached(log0: seq<Event>, after: Store, events: seq<Event>)
      reads this
    {
      store == after && log == log0 + events
    }

    constructor (s: Store)
      ensures Snapshot() == s && log == []
    {
      store, log := s, [];
    }

    /** One `request.get`, `post` or `put`. */
    method Send(e: Event) returns (resp: Response)
      requires IsRequest(e)
      modifies this
      ensures (Snapshot(), resp) == Respond(old(Snapshot()), e)
      ensures log == old(log) + [e]
    {
      var r := Respond(store, e);
      store, resp := r.0, r.1;
      log := log + [e];
    }

    /** A settling delay or a log line: recorded, the remote unchanged. */
    method Note(e: Event)
      requires !IsRequest(e)
      modifies this
      ensures Snapshot() == old(Snapshot())
      ensures log == old(log) + [e]
    {
      log := log + [e];
    }
  }
}
