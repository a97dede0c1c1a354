# Access-management reconcilers

This project models the access-management reconcilers of anypoint-platform-actions.
Each reconciler reads the `access-management` section of a deployment manifest and brings
an Anypoint organization in line with it. It lists what the platform already holds and
creates what is missing, matching entities by name. It never deletes anything. The one
update is the mappings PUT, which replaces the group mappings of a team.
The six reconcilers are:

- **business groups**: validates the declared organization trees, then creates each missing sub-organization under its parent, depth first.
- **environments**: creates the missing environments of every listed business group.
- **identity providers**: creates the missing SAML or OpenID providers, filled from a named profile.
- **connected apps**: creates the missing connected applications.
- **teams**: builds the team trees under the root team, for the master organization and for each business group, and posts every team's roles in two batches.
- **mappings**: binds external identity-provider groups to teams, one PUT per pair.

## How the model is built

- `Common`: optional values, JSON values, and the lodash helpers the code relies on (`_.defaults`, `_.find`).
- `Manifest`: the manifest as the reconcilers read it.
- `Platform`: an in-memory stand-in for the platform behind `request.get/post/put`.
  - The class `Platform.Remote` holds the platform's collections and an append-only log.
  - The log records every request, every settling delay (`Sleep`), and every warn or error line.
  - `Send` answers a request as the pure function `Respond` says.
  - A request fails exactly when it is in the store's `failing` set. This is how every error path is reached.
- One module per reconciler file:
  - a pure specification, written as functions over the store that return what the reconciler leaves behind, the events it logged, and whether it completed or was rejected (`Trace`, or `Effect` when nothing can reject);
  - imperative methods with the source's loops and recursion, each proved to reach exactly what its specification function says;
  - lemmas proving the reconciler's properties about those functions.

Where the code's evident intent and its behaviour differ, the model follows the code:

- **Held roles** (`teams.js:48-52`): the check is named `isRoleAlreadyRegistered`, and its else branch logs "Skipping already registered role" (`teams.js:78`). So roles a team already holds were evidently meant to be left out of its batches. But the filter callback returns nothing, so no role is ever recognised as held and every role is posted again. The model does the same (`Teams.HeldRolesResent`).
- **Team listing** (`teams.js:18-19`): `createTeams` lists the environments and the teams at the start of every call, and it calls itself for each team's children (`teams.js:106`). So the listings are taken again at every recursion level. Teams created at one level are seen by the levels below (`Teams.TeamsRunListed`).
- **Failed team create** (`teams.js:29-38`): a failed team create is logged, and then `parentExistingTeam.team_id` throws. This rejects the whole call (`Teams.OneTeamCreateFailed`).
- **Failed mapping PUT** (`mappings.js:23-48`): a failed PUT is caught outside the pair loop. It skips the rest of its group, not only that pair (`Mappings.FailedPutSkipsRest`).
- **Un-awaited calls** (`business-groups.js:62`, `environments.js:32`): the calls that are not awaited are modelled as running one after the other, in order.

## Model

| member | source | states |
|---|---|---|
| Common.Defaults | providers/access-management/business-groups.js:24-37 | `_.defaults`: the result has the keys of both objects; the object's own values win, and the defaults fill only the missing keys |
| Common.FirstWith | providers/access-management/connected-apps.js:17-19 | `_.find` / `filter(...)[0]`: None exactly when no element has the key; otherwise the first element that has it |
| ConnectedApps.AppLoop | providers/access-management/connected-apps.js:16-26 | a completed loop has added to the remote exactly the applications it posted |
| ConnectedApps.AppLoopListed | providers/access-management/connected-apps.js:17-25 | an application whose client name is listed only warns, and the loop goes on |
| ConnectedApps.AppLoopRejected | providers/access-management/connected-apps.js:20-21 | a failed post rejects the call, with nothing after it |
| ConnectedApps.AppLoopCreated | providers/access-management/connected-apps.js:20-22 | a successful post appends the application, unchanged, to the remote |
| ConnectedApps.AppLoopPosts | providers/access-management/connected-apps.js:16-26 | the posts are a prefix of the desired applications missing from the listing, in order, duplicates included; a completed loop posts all of them |
| ConnectedApps.AppLoopDone | providers/access-management/connected-apps.js:16-26 | when no create fails, the loop completes |
| ConnectedApps.AppLoopEvents | providers/access-management/connected-apps.js:16-26 | every event is either a create of a desired application missing from the listing, or a warn naming a listed one |
| ConnectedApps.OnlyListsAndPosts | providers/access-management/connected-apps.js:13-32 | the reconciler only lists organizations and applications, posts applications and warns; a missing list posts nothing |
| ConnectedApps.ReconcileShape | providers/access-management/connected-apps.js:29-32 | either the loop runs against the first page of 100 applications, or the run is rejected with nothing posted and the remote unchanged |
| ConnectedApps.ReconcileReachesLoop | providers/access-management/connected-apps.js:14-31 | after both listings succeed with an organization, the run is the loop against the first page of applications |
| ConnectedApps.ReconcileStopsEarly | providers/access-management/connected-apps.js:14-31 | a failed listing, or no organization, rejects the run with nothing posted |
| ConnectedApps.ReconcilePosts | providers/access-management/connected-apps.js:13-32 | the whole run posts a prefix of the desired applications missing from the first page; a completed run posts all of them |
| ConnectedApps.ReconcileStore | providers/access-management/connected-apps.js:13-32 | a completed run adds exactly what it posted; when no create fails, a run that gets past the listings completes |
| ConnectedApps.AbsentCovered | providers/access-management/connected-apps.js:17-21 | every desired application missing from the listing is among those to post |
| ConnectedApps.AbsentOfCovered | providers/access-management/connected-apps.js:17-25 | when every desired name is listed, nothing is to be posted |
| ConnectedApps.SecondRunPostsNothing | providers/access-management/connected-apps.js:13-32 | idempotence: running the same list again after a completed run posts nothing, while the first page still holds every application |
| ConnectedApps.DuplicatesBothPosted | providers/access-management/connected-apps.js:14-22 | the listing is never refreshed, so two new applications with the same name are both posted |
| ConnectedApps.CreateAbsentApps | providers/access-management/connected-apps.js:16-26 | the loop leaves the remote and the log as `AppLoop` says, and returns its outcome |
| ConnectedApps.CreateConnectedApps | providers/access-management/connected-apps.js:13-27 | `createConnectedApps` leaves the remote and the log as its specification says |
| ConnectedApps.ReconcileConnectedApps | providers/access-management/connected-apps.js:29-32 | the exported reconciler leaves the remote and the log as `ReconcileRun` says |
| BusinessGroups.Validate | providers/access-management/business-groups.js:9-21 | checks run in the source's order (missing config, then missing owner, then missing name); each error happens exactly in its case, and otherwise the config is accepted |
| BusinessGroups.ValidateAll | providers/access-management/business-groups.js:75-77 | accepts exactly when every entry validates, keeping the entries; otherwise rejects with the error of the first entry that does not validate |
| BusinessGroups.OrgData | providers/access-management/business-groups.js:23-44 | the create body: name and owner from the config; the config's own parent when set, else the walk's parent; entitlements are the config's settings over the ten defaults |
| BusinessGroups.Group | providers/access-management/business-groups.js:46-68 | one tree keeps the failure set and only ever adds organizations |
| BusinessGroups.Groups | providers/access-management/business-groups.js:60-64 | sibling trees keep the failure set and only add organizations |
| BusinessGroups.GroupFound | providers/access-management/business-groups.js:48-64 | a listed group is not created; its children go under the listed organization's id |
| BusinessGroups.GroupRejected | providers/access-management/business-groups.js:52-67 | a failed create is logged once, and that group's children are skipped |
| BusinessGroups.GroupCreated | providers/access-management/business-groups.js:51-64 | a created group's children go under the new organization's id |
| BusinessGroups.MissingConcat | providers/access-management/business-groups.js:48-52 | the names missing from the listing split over a concatenation |
| BusinessGroups.GroupPlanned | providers/access-management/business-groups.js:46-68 | when no create fails, a tree creates exactly its names that the fixed listing lacks, depth first, parents before children, repeats included |
| BusinessGroups.GroupsPlanned | providers/access-management/business-groups.js:60-64 | the same for a list of sibling trees |
| BusinessGroups.GroupAllListed | providers/access-management/business-groups.js:48-64 | when every name of a tree is listed, it issues no request and changes nothing |
| BusinessGroups.GroupsAllListed | providers/access-management/business-groups.js:60-64 | the same for a list of sibling trees |
| BusinessGroups.ListedGrows | providers/access-management/business-groups.js:48-50 | a name stays listed as the organization list grows |
| BusinessGroups.GroupCovers | providers/access-management/business-groups.js:46-68 | when no create fails, every name of the tree is an organization afterwards |
| BusinessGroups.GroupsCovers | providers/access-management/business-groups.js:60-64 | the same for a list of sibling trees |
| BusinessGroups.RejectedBeforeAnyRequest | providers/access-management/business-groups.js:70-77 | a top-level entry that does not validate rejects the call with its error before any request |
| BusinessGroups.ChildrenNotValidated | providers/access-management/business-groups.js:75-77 | only the top level is validated: a child with neither owner nor name passes |
| BusinessGroups.ReconcileCompletes | providers/access-management/business-groups.js:70-84 | once validation and the listing pass, every failure is caught and the call completes; when every name is listed, it issues only the listing |
| BusinessGroups.ReconcileCreates | providers/access-management/business-groups.js:70-84 | when no create fails, the run creates exactly the names the listing lacks, depth first |
| BusinessGroups.RerunIssuesOnlyTheListing | providers/access-management/business-groups.js:70-84 | idempotence: when no create fails, a second run issues only the organization listing |
| BusinessGroups.DuplicateSiblingsBothCreated | providers/access-management/business-groups.js:48-55 | the listing is never refreshed, so two new siblings with one name are both created |
| BusinessGroups.SiblingAfterFailure | providers/access-management/business-groups.js:60-67 | a failure is contained: one sibling's failed create does not stop the next sibling |
| BusinessGroups.ChildUnderCreatedParent | providers/access-management/business-groups.js:52-64 | a new child's create names the id of the parent just created |
| BusinessGroups.ChildUnderListedParent | providers/access-management/business-groups.js:48-64 | a new child's create names the listed parent's id |
| BusinessGroups.CreateBusinessGroup | providers/access-management/business-groups.js:46-68 | `createBusinessGroup` leaves the remote and the log as `Group` says |
| BusinessGroups.CreateGroups | providers/access-management/business-groups.js:60-64 | the children loop leaves the remote and the log as `Groups` says |
| BusinessGroups.ValidateConfigs | providers/access-management/business-groups.js:75-77 | the validation loop returns what `ValidateAll` says |
| BusinessGroups.ReconcileBusinessGroups | providers/access-management/business-groups.js:70-84 | the exported reconciler leaves the remote and the log as `ReconcileRun` says |
| Environments.EnvStep | providers/access-management/environments.js:29-35 | one environment keeps the failure set |
| Environments.EnvLoop | providers/access-management/environments.js:28-36 | the inner loop keeps the failure set |
| Environments.WithoutChildren | providers/access-management/environments.js:21 | the same entries with their children dropped |
| Environments.EnvStepEvents | providers/access-management/environments.js:29-35 | a missing name is posted once, unchanged; a listed name only warns; nothing else is issued but creates in the organization and error lines |
| Environments.EnvLoopPosts | providers/access-management/environments.js:28-36 | whatever fails, the loop posts exactly the desired environments missing from the listing, in order, and warns about exactly the listed ones |
| Environments.EnvLoopTargets | providers/access-management/environments.js:28-36 | the loop only creates in its organization, warns and logs errors |
| Environments.ConfigSkipped | providers/access-management/environments.js:22-26 | a config that names no listed organization, or declares no environments, issues nothing |
| Environments.ConfigPosts | providers/access-management/environments.js:22-36 | a matched config lists its organization's first 150 environments once, then runs the inner loop against them |
| Environments.NullEntryRejects | providers/access-management/environments.js:21-24 | a null entry rejects the call exactly when there is an organization to compare it with |
| Environments.ConfigsIgnoreChildren | providers/access-management/environments.js:21-38 | the outer loop does not depend on the entries' children |
| Environments.ReconcileIgnoresChildren | providers/access-management/environments.js:18-39 | only the top-level list is walked, so child groups get no environments |
| Environments.ReconcileNoConfigs | providers/access-management/environments.js:18-21 | a missing list only lists the organizations |
| Environments.EnvStepCovers | providers/access-management/environments.js:29-35 | one environment only appends to the organization's list; with no create failing, a desired name the listing lacks is in the list afterwards |
| Environments.EnvLoopCovers | providers/access-management/environments.js:28-36 | whatever fails, the inner loop only appends; with no create failing, every desired name is in the listing or in the organization's list afterwards |
| Environments.ConfigStepCovers | providers/access-management/environments.js:22-37 | with no create failing, a completed matched configuration leaves all its desired names in its organization's list |
| Environments.ConfigsRunCovers | providers/access-management/environments.js:21-38 | with no create failing, a completed outer loop leaves every matched configuration covered, later configurations only adding |
| Environments.CoveredStepPostsNothing | providers/access-management/environments.js:22-37 | a covered configuration whose organization fits the first page of 150 posts nothing and changes nothing |
| Environments.CoveredConfigsPostNothing | providers/access-management/environments.js:21-38 | an outer loop over covered configurations posts nothing and changes nothing |
| Environments.SecondRunPostsNothing | providers/access-management/environments.js:18-39 | after a completed run with no create failing, running the same list again against the remote it left posts no environment, while each organization fits the first page |
| Environments.CreateEnvironment | providers/access-management/environments.js:9-16 | one post; a failure leaves one error line |
| Environments.ReconcileEnvironment | providers/access-management/environments.js:29-35 | one environment leaves the remote and the log as `EnvStep` says |
| Environments.CreateMissingEnvironments | providers/access-management/environments.js:28-36 | the inner loop leaves the remote and the log as `EnvLoop` says |
| Environments.ReconcileConfig | providers/access-management/environments.js:22-37 | one configuration leaves the remote and the log as `ConfigStep` says |
| Environments.ReconcileConfigs | providers/access-management/environments.js:21-38 | the outer loop leaves the remote and the log as `ConfigsRun` says |
| Environments.ReconcileEnvironments | providers/access-management/environments.js:18-39 | the exported reconciler leaves the remote and the log as `ReconcileRun` says |
| IdentityProviders.ProfileNamed | providers/access-management/identity-providers.js:20-41 | `PROFILES[name]` is defined exactly for "azure" |
| IdentityProviders.ProviderData | providers/access-management/identity-providers.js:43-52 | None exactly when the profile is unknown; otherwise the body has the name, the kind (saml when a `saml` block is given, else openid), the manifest's saml keys over the profile's, and the manifest's service provider when truthy, else the profile's |
| IdentityProviders.ProviderStep | providers/access-management/identity-providers.js:58-68 | one provider keeps the failure set and the organizations, and only adds providers |
| IdentityProviders.ProviderLoop | providers/access-management/identity-providers.js:57-68 | the loop keeps the failure set and the organizations, and only adds providers |
| IdentityProviders.Tables | providers/access-management/identity-providers.js:9-41 | the two kinds and the azure profile hold exactly the table's entries |
| IdentityProviders.OpenIdGetsAzureSaml | providers/access-management/identity-providers.js:45-61 | a provider without a `saml` block is still sent the profile's saml defaults, as an openid provider |
| IdentityProviders.SamlOverrides | providers/access-management/identity-providers.js:45 | a manifest saml key wins over the profile's, and each profile key the manifest lacks is filled in |
| IdentityProviders.LoopListed | providers/access-management/identity-providers.js:58-67 | a listed name only warns, whatever its profile |
| IdentityProviders.LoopUnknown | providers/access-management/identity-providers.js:45-62 | an unlisted provider with an unknown profile rejects the call before any post |
| IdentityProviders.LoopRejected | providers/access-management/identity-providers.js:62-63 | a failed post rejects the call |
| IdentityProviders.PostRegisters | providers/access-management/identity-providers.js:63 | a successful post registers the provider under a fresh id |
| IdentityProviders.LoopCreated | providers/access-management/identity-providers.js:61-64 | a successful post registers the provider, and the loop goes on |
| IdentityProviders.LoopPosts | providers/access-management/identity-providers.js:57-68 | the posts are a prefix of the bodies of the desired providers missing from the listing, in order; a completed loop posts all of them |
| IdentityProviders.LoopDone | providers/access-management/identity-providers.js:57-68 | when no create fails, and every unlisted provider has a known profile, the loop completes |
| IdentityProviders.UnknownProfileRejects | providers/access-management/identity-providers.js:45-62 | an unlisted provider with an unknown profile rejects the call with nothing posted |
| IdentityProviders.LoopEvents | providers/access-management/identity-providers.js:57-68 | every event is a post to the organization of a desired provider missing from the listing, or a warn naming a listed one |
| IdentityProviders.RegisteredGrows | providers/access-management/identity-providers.js:58-60 | a registered name stays registered as the list grows |
| IdentityProviders.LoopCovers | providers/access-management/identity-providers.js:57-68 | after a completed loop, every desired name is registered at the organization |
| IdentityProviders.AbsentOfCovered | providers/access-management/identity-providers.js:58-67 | when every desired name is listed, nothing is to be posted |
| IdentityProviders.ReconcileReachesLoop | providers/access-management/identity-providers.js:55-74 | after both listings succeed, the run is the loop against the first organization's providers |
| IdentityProviders.ReconcileStopsEarly | providers/access-management/identity-providers.js:55-73 | a failed listing, or no organization, rejects the run with nothing posted |
| IdentityProviders.ReconcilePosts | providers/access-management/identity-providers.js:54-74 | the run posts a prefix of the bodies of the missing providers; a completed run posts all of them |
| IdentityProviders.ReconcileEvents | providers/access-management/identity-providers.js:54-74 | every request is a listing, or a post to the first organization |
| IdentityProviders.ReconcileDone | providers/access-management/identity-providers.js:54-74 | when no create fails and the profiles are known, a run whose listings succeed completes |
| IdentityProviders.SecondRunPostsNothing | providers/access-management/identity-providers.js:54-74 | idempotence: a second run after a completed one posts nothing |
| IdentityProviders.DuplicatesBothPosted | providers/access-management/identity-providers.js:55-64 | the listing is never refreshed, so two new providers with one name are both posted |
| IdentityProviders.CreateAbsentProviders | providers/access-management/identity-providers.js:57-68 | the loop leaves the remote and the log as `ProviderLoop` says |
| IdentityProviders.CreateIdentityProviders | providers/access-management/identity-providers.js:54-69 | `createIdentityProviders` leaves the remote and the log as its specification says |
| IdentityProviders.ReconcileIdentityProviders | providers/access-management/identity-providers.js:71-74 | the exported reconciler leaves the remote and the log as `ReconcileRun` says |
| Mappings.MappingBody | providers/access-management/mappings.js:36 | one element naming the external group and the provider, with membership "member" |
| Mappings.PairLoop | providers/access-management/mappings.js:29-42 | the pair loop keeps the failure set, the organizations, the providers and the teams |
| Mappings.GroupStep | providers/access-management/mappings.js:21-48 | one group keeps the same |
| Mappings.TeamsStep | providers/access-management/mappings.js:27-48 | the rest of a resolved group keeps the same |
| Mappings.GroupsLoop | providers/access-management/mappings.js:20-49 | the group loop keeps the same |
| Mappings.PairMissing | providers/access-management/mappings.js:30-41 | a pair whose team is not listed warns, and the loop goes on |
| Mappings.PairRejected | providers/access-management/mappings.js:35-37 | a failed PUT stops the pair loop |
| Mappings.PairPut | providers/access-management/mappings.js:35-38 | a successful PUT replaces the team's group mappings with the one-element body |
| Mappings.PairLoopPuts | providers/access-management/mappings.js:29-42 | the PUTs are a prefix of the bindings of the pairs whose team is listed, in order; a completed loop issues all of them |
| Mappings.PairLoopDone | providers/access-management/mappings.js:29-42 | when no PUT fails, the pair loop completes |
| Mappings.PairLoopEvents | providers/access-management/mappings.js:29-42 | the pair loop only PUTs to the organization and warns |
| Mappings.GroupNamesFailed | providers/access-management/mappings.js:11-48 | a failed names listing is caught as one error line |
| Mappings.GroupUnresolved | providers/access-management/mappings.js:13-45 | an unresolved provider warns once, with no team listing and no PUT |
| Mappings.GroupResolved | providers/access-management/mappings.js:24-27 | a resolved provider goes on to the teams |
| Mappings.TeamsNoPairs | providers/access-management/mappings.js:27-48 | a failed team listing, or a group whose pair list is absent, ends the group with one error line (an empty pair list logs nothing) |
| Mappings.TeamsPairs | providers/access-management/mappings.js:27-42 | the teams are listed once and the pairs run against that first page of 500 |
| Mappings.TeamsEvents | providers/access-management/mappings.js:27-48 | after its team listing, a group only warns, logs errors and PUTs to the organization |
| Mappings.ListingsOfTail | providers/access-management/mappings.js:29-42 | the pair events contain no listing |
| Mappings.GroupEvents | providers/access-management/mappings.js:21-48 | every event of a group targets the organization |
| Mappings.TeamsListings | providers/access-management/mappings.js:27 | the rest of a group lists the teams once and the names never |
| Mappings.GroupListings | providers/access-management/mappings.js:24-27 | each group lists the names exactly once, and the teams once exactly when the provider resolves |
| Mappings.TeamsPuts | providers/access-management/mappings.js:27-42 | with the listing and every PUT succeeding, the rest of a group binds exactly the pairs whose team is listed |
| Mappings.GroupPuts | providers/access-management/mappings.js:21-48 | with both listings and every PUT succeeding, a group binds exactly its resolvable pairs, and nothing when its provider is unknown |
| Mappings.FailedPutSkipsRest | providers/access-management/mappings.js:29-48 | a failed PUT skips the group's remaining pairs, even ones whose team is listed |
| Mappings.Copies | providers/access-management/mappings.js:24 | n copies of one listing target |
| Mappings.GroupsLoopListings | providers/access-management/mappings.js:20-49 | every group runs whatever the earlier ones did: the names are listed once per group |
| Mappings.GroupsLoopPuts | providers/access-management/mappings.js:20-49 | with the listings and every PUT succeeding, the loop binds exactly the intended pairs of every group, in order |
| Mappings.ReconcileReachesGroups | providers/access-management/mappings.js:52-55 | with an organization, the run is `createMappings` on the first organization |
| Mappings.ReconcileRejects | providers/access-management/mappings.js:20-54 | a missing mapping list, or no organization, rejects the run right after the organization listing |
| Mappings.ReconcileTargetsFirstOrg | providers/access-management/mappings.js:19-55 | every request after the organization listing targets the first organization |
| Mappings.ReconcilePuts | providers/access-management/mappings.js:19-55 | with the listings and every PUT succeeding, the run binds exactly the intended pairs |
| Mappings.BindPairs | providers/access-management/mappings.js:29-42 | the pair loop leaves the remote and the log as `PairLoop` says |
| Mappings.MapGroup | providers/access-management/mappings.js:21-48 | one group leaves the remote and the log as `GroupStep` says |
| Mappings.MapTeams | providers/access-management/mappings.js:27-42 | the rest of a group leaves the remote and the log as `TeamsStep` says |
| Mappings.MapGroups | providers/access-management/mappings.js:20-49 | the group loop leaves the remote and the log as `GroupsLoop` says |
| Mappings.CreateMappings | providers/access-management/mappings.js:19-50 | `createMappings` leaves the remote and the log as its specification says |
| Mappings.ReconcileMappings | providers/access-management/mappings.js:52-55 | the exported reconciler leaves the remote and the log as `ReconcileRun` says |
| Teams.RoleIdOf | providers/access-management/teams.js:42-46 | an id exactly when the role has a lookup name (`role.name \|\| role`) and the catalog holds a role of that name; the first such role's id |
| Teams.ContextEntries | providers/access-management/teams.js:54-68 | one entry per listed name that finds an environment, in the order of the names and once per occurrence (`FoundEnvs`), each for the role, the organization and that name's first environment; names the listing lacks are dropped |
| Teams.RepeatedEnvTwice | providers/access-management/teams.js:54-68 | a role that lists the same environment name twice gets two identical per-environment entries |
| Teams.PartitionMissing | providers/access-management/teams.js:41-46 | the role loop throws exactly when some role's id cannot be found, and then for the first such role |
| Teams.PartitionBatches | providers/access-management/teams.js:41-80 | with all ids known, each role without `envs` gives one organization-wide entry with its id (`OrgWideEntries`); the per-environment batch is the roles' `ContextEntries`, role by role in order (`ContextualEntries`), and holds only entries for the organization's listed environments |
| Teams.BuildBatches | providers/access-management/teams.js:39-80 | the role loop builds the two batches `PartitionRoles` defines |
| Teams.ContextFor | providers/access-management/teams.js:54-68 | the environment loop of one role builds `ContextEntries` |
| Teams.EmptyEnvsGiveNothing | providers/access-management/teams.js:53-54 | an empty `envs` list is truthy: the role gives no entry in either batch |
| Teams.UnnamedObjectRejected | providers/access-management/teams.js:42-46 | an object role with an empty name is looked up as itself, finds nothing and throws |
| Teams.TeamPayloadOf | providers/access-management/teams.js:30 | the create body has the team's name and parent, and the type defaults to "internal" |
| Teams.OrgWidePost | providers/access-management/teams.js:83-92 | the organization-wide post changes no team, organization, environment or role |
| Teams.ContextPost | providers/access-management/teams.js:94-104 | the per-environment post changes the same nothing |
| Teams.TeamsRun | providers/access-management/teams.js:13-108 | a pass keeps the failure set and the organizations |
| Teams.TeamLoop | providers/access-management/teams.js:21-107 | the sibling loop keeps the same |
| Teams.OneTeam | providers/access-management/teams.js:21-106 | one team keeps the same |
| Teams.TeamBody | providers/access-management/teams.js:38-106 | the rest of one team keeps the same |
| Teams.GroupPassLoop | providers/access-management/teams.js:121-127 | the business-group passes keep the same |
| Teams.Names | providers/access-management/teams.js:22-24 | the listed team names, position by position |
| Teams.TeamsRunListed | providers/access-management/teams.js:14-21 | a non-empty list lists the organization's environments and the master teams again, from the remote as it is now, then runs the loop |
| Teams.OneTeamListed | providers/access-management/teams.js:22-38 | a listed team is not created; its listed id is used |
| Teams.OneTeamCreateFailed | providers/access-management/teams.js:29-38 | a failed create is logged once, and the call is then rejected |
| Teams.OneTeamCreated | providers/access-management/teams.js:29-38 | an unlisted team is created once under the parent, followed by a delay, and continues under its new id |
| Teams.TeamBodyRolesFailed | providers/access-management/teams.js:38 | a failed team-role listing rejects the call |
| Teams.TeamBodyUnknownRole | providers/access-management/teams.js:38-46 | an unknown role rejects the call after the team-role listing, before any post |
| Teams.TeamBodyPosts | providers/access-management/teams.js:38-106 | otherwise the two batches are posted, organization-wide first, and the children follow under the team's id |
| Teams.GroupPassNull | providers/access-management/teams.js:121-123 | a null business-group entry rejects the call |
| Teams.GroupPassMissingOrg | providers/access-management/teams.js:122-124 | a business group that names no listed organization rejects the call |
| Teams.OrgWideShape | providers/access-management/teams.js:83-92 | the organization-wide batch is posted exactly when non-empty, right after a delay; a failure adds one error line |
| Teams.ContextShape | providers/access-management/teams.js:94-104 | the per-environment batch is posted exactly when non-empty, right after a delay; a failure adds two error lines |
| Teams.BatchesPosted | providers/access-management/teams.js:82-104 | the batches posted are the non-empty ones, organization-wide first, each right after a delay; one failure does not stop the other |
| Teams.HeldRolesResent | providers/access-management/teams.js:48-87 | a role the team already holds is posted again |
| Teams.OrgWideNonEmpty | providers/access-management/teams.js:69-83 | a role without `envs` makes the organization-wide batch non-empty |
| Teams.UnlistedNotFound | providers/access-management/teams.js:22-24 | a name no listed team has is not found |
| Teams.UnlistedPrefix | providers/access-management/teams.js:19 | a name missing from the teams is missing from their first page |
| Teams.NamesAppend | providers/access-management/teams.js:31 | a created team's name is appended to the names |
| Teams.TeamsRunPreOrder | providers/access-management/teams.js:13-108 | when nothing fails, every role is known and the tree's names are distinct and new, a pass completes and creates every team once, in depth-first pre-order, adding exactly those names |
| Teams.TeamLoopPreOrder | providers/access-management/teams.js:21-107 | the same for the sibling loop |
| Teams.OneTeamPreOrder | providers/access-management/teams.js:21-106 | the same for one team and its subtree: the team first, then its children |
| Teams.TeamBodyPreOrder | providers/access-management/teams.js:38-106 | the same for the children of one team |
| Teams.PostCreatesNothing | providers/access-management/teams.js:82-104 | a role post creates no team |
| Teams.PostsCreateNothing | providers/access-management/teams.js:38-104 | the team-role listing and the two posts create no team |
| Teams.KnownRolesPartition | providers/access-management/teams.js:41-80 | with every role known, the role loop does not throw |
| Teams.ReconcileReachesPasses | providers/access-management/teams.js:110-118 | once the three opening listings succeed, the run is the passes under the master organization's first team, with the first 500 roles |
| Teams.ReconcileStopsEarly | providers/access-management/teams.js:111-115 | otherwise the run is rejected after at most those three listings, with nothing created or posted |
| Teams.TeamsRunCovers | providers/access-management/teams.js:13-108 | whatever fails, a pass only appends teams; a completed pass leaves every team of its trees listed by name |
| Teams.OneTeamCovers | providers/access-management/teams.js:21-106 | the same for one team: found in the listing, or created, since a failed create rejects the call |
| Teams.TeamsRunNoCreate | providers/access-management/teams.js:13-108 | a pass whose every team is already on the first page of 500 creates nothing and leaves the teams as they were, whatever fails |
| Teams.OneTeamNoCreate | providers/access-management/teams.js:21-106 | a listed team and its subtree create nothing |
| Teams.GroupPassLoopCovers | providers/access-management/teams.js:121-127 | a completed business-group loop leaves every team of every group listed by name |
| Teams.GroupPassLoopNoCreate | providers/access-management/teams.js:121-127 | a business-group loop over listed teams creates nothing |
| Teams.ReconcileCovers | providers/access-management/teams.js:110-127 | a completed run leaves every declared team, master and business-group, listed by name |
| Teams.ReconcileNoCreate | providers/access-management/teams.js:110-127 | a run against a remote whose first page already lists every declared team creates no team, whatever fails |
| Teams.SecondRunCreatesNothing | providers/access-management/teams.js:110-127 | after a completed run, running the same manifest again against the remote it left creates no team, while the master teams fit the first page |
| Teams.EmptyGroupsPass | providers/access-management/teams.js:121-127 | business groups that declare no teams, each naming a listed organization, issue nothing |
| Teams.NoTeamsNoCalls | providers/access-management/teams.js:110-127 | a manifest that declares no team anywhere issues the three opening listings and nothing else |
| Teams.PostOrgWide | providers/access-management/teams.js:83-92 | the organization-wide post leaves the remote and the log as `OrgWidePost` says |
| Teams.PostContextual | providers/access-management/teams.js:94-104 | the per-environment post leaves the remote and the log as `ContextPost` says |
| Teams.CreateTeams | providers/access-management/teams.js:13-108 | `createTeams` leaves the remote and the log as `TeamsRun` says |
| Teams.ReconcileSiblings | providers/access-management/teams.js:21-107 | the sibling loop leaves the remote and the log as `TeamLoop` says |
| Teams.ReconcileTeam | providers/access-management/teams.js:21-106 | one team leaves the remote and the log as `OneTeam` says |
| Teams.FinishTeam | providers/access-management/teams.js:38-106 | the rest of one team leaves the remote and the log as `TeamBody` says |
| Teams.RunGroupPasses | providers/access-management/teams.js:121-127 | the business-group passes leave the remote and the log as `GroupPassLoop` says |
| Teams.ReconcileTeams | providers/access-management/teams.js:110-127 | the exported reconciler leaves the remote and the log as `ReconcileRun` says |

## Left out

- Network transport, authentication and the HTTP client (`lib/client.js`): the platform is the in-memory `Platform.Remote`. A failed request is one that the platform answers with an error. Timeouts and errors without a response are not distinguished.
- Info log lines are not recorded. Warn and error lines are recorded with the entity they name, but not their text. `error(err.toString())` and the response bodies are not modelled.
- Settling delays are recorded as `Sleep` events. Their duration (2000 ms) and real time are not modelled.
- Concurrency: the un-awaited calls (`business-groups.js:62`, `environments.js:32`) are modelled as running in order, each finishing before the next starts. Interleavings are left out.
- Pagination: each listing returns only its first page (`limit=100`, `150` or `500`, offset 0), as the code requests. Later pages are never fetched, and the model does not fetch them either.
- The root-team listing of `teams.js:115` goes through the `cs/organizations` URL. It is modelled as the same first page of master teams that `teams.js:19` lists.
- Malformed JSON shapes are not modelled: strings where objects are expected, lists of the wrong shape, or non-object entries. Missing strings are modelled as "". Missing lists are modelled as empty lists, or as an `Option` where the code tests or dereferences them without a default.
- Profile names that are `Object.prototype` keys (such as `constructor`) are treated as unknown profiles.
- BusinessGroups.OrgData: the business-group body keeps the config's own `settings` as the entitlements. The config's name, owner and child keys, which `_.defaults` would also copy into `entitlements`, are not modelled.
- The assignment to `config.parentOrganizationId` (`business-groups.js:53`) changes the caller's manifest object. Only its effect on the request body is modelled.
- `client-providers.js` and `index.js` are not part of this model. Neither are the runtime-manager alerts.
- ConnectedApps.SecondRunPostsNothing: holds only while the first page of 100 applications still holds every application. The model does not claim idempotence beyond one page.
- Environments.SecondRunPostsNothing: holds only when no create failed in the first run and each organization's environments still fit the first page of 150. A create that failed once fails again and is posted again on the second run.
- Teams.SecondRunCreatesNothing: holds only while the first page of 500 master teams still lists every team. Role batches are posted again on every run (see held roles above), so only team creation is claimed idempotent.
- Teams.TeamsRunPreOrder: proved only when no request fails and the tree's names are distinct and new. With failures, the step lemmas describe each case.
- The failing requests are a fixed set of events in the store. An identical request therefore fails, or succeeds, the same way every time within a run: for example the provider-names listing that `mappings.js:12` repeats for every group, and the master-team listing that `teams.js:19` repeats at every recursion level. A platform that fails a request once and then answers the same request is not modelled.
