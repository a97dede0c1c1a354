/** The `access-management` section of a manifest, as the reconcilers read it.
    A JSON key the manifest leaves out and an empty string are both falsy in the
    reconcilers' checks, so a missing string is written "" here; a missing list
    that the code iterates with `|| []` is written []; a missing list whose
    absence the code tests separately is an Option. */
module Manifest {
  import opened Common

  /** An environment to create; it is posted unchanged as the request body. */
  datatype Environment = Environment(name: string, envType: string)

  /** A connected application; it is posted unchanged as the request body. */
  datatype ConnectedApp = ConnectedApp(clientName: string, settings: map<string, Json>)

  /** A team's role: a bare role name, or an object `{name, envs}`. */
  datatype RoleSpec =
    | RoleName(name: string)
    | RoleObject(name: string, envs: Option<seq<string>>)

  /** A team; `teamType` "" stands for a missing `type`. */
  datatype TeamConfig = TeamConfig(name: string, teamType: string, roles: seq<RoleSpec>, children: seq<TeamConfig>)

  /** A business group. `settings` holds the object's remaining keys (the
      entitlement values the manifest sets). */
  datatype GroupConfig = GroupConfig(
    name: string,
    ownerId: string,
    parentOrganizationId: string,
    settings: map<string, Json>,
    children: seq<GroupConfig>,
    environments: Option<seq<Environment>>,
    teams: seq<TeamConfig>)

  /** An identity provider: its `saml` block, when present, makes it a SAML provider. */
  datatype IdentityProvider = IdentityProvider(
    name: string,
    profile: string,
    saml: Option<map<string, Json>>,
    serviceProvider: Option<Json>)

  /** One binding of an external group (`objectId`) to a team, by team name. */
  datatype GroupPair = GroupPair(team: string, objectId: string)

  /** The bindings declared for one identity provider, by provider name. */
  datatype MappingGroup = MappingGroup(provider: string, mappings: Option<seq<GroupPair>>)

  /** A business-group list may be missing, and so may any entry of it. */
  type GroupList = Option<seq<Option<GroupConfig>>>

  datatype AccessManagement = AccessManagement(
    businessGroups: GroupList,
    identityProviders: Option<seq<IdentityProvider>>,
    connectedApps: Option<seq<ConnectedApp>>,
    teams: seq<TeamConfig>,
    mappings: Option<seq<MappingGroup>>)
}
