/** The group-mapping reconciler (providers/access-management/mappings.js):
    every mapping goes to the first organization. For each mapping group the
    provider is looked up by name and, when found, the teams are listed and
    each (team, group) pair is bound with one PUT. Any failure inside a group
    is caught and logged, which skips the rest of that group only. */
module Mappings {
  import opened Common
  import opened Manifest
  import opened Platform

  /** The team listing is fetched with `offset=0&limit=500`. */
  const TeamsPage: nat := 500

  /** The body of one binding PUT: a one-element list binding the external
      group to the provider as members. */
  function MappingBody(objectId: string, providerId: Id): (r: seq<GroupMapping>)
    ensures |r| == 1 && r[0].externalGroupName == objectId && r[0].providerId == providerId
    ensures r[0].membershipType == "member"
  {
    [GroupMapping(objectId, providerId, "member")]
  }

  // ---- Specification ----

  /** The pair loop of one group, against the team listing fetched for it: a
      pair whose team is not listed is warned about and skipped; a failed PUT
      throws out of the loop. */
  function PairLoop(s: Store, orgId: Id, providerId: Id, teams: seq<TeamRecord>, pairs: seq<GroupPair>): (t: Trace)
    ensures t.after.failing == s.failing && t.after.orgs == s.orgs
    ensures t.after.providers == s.providers && t.after.teams == s.teams
    decreases |pairs|
  {
    if pairs == [] then Trace(s, [], Done)
    else
      var pair := pairs[0];
      var team := FirstWith(teams, TeamName, pair.team);
      if team.None? then Then([Warn(pair.team)], PairLoop(s, orgId, providerId, teams, pairs[1..]))
      else
        var put := PutMappings(orgId, team.value.teamId, MappingBody(pair.objectId, providerId));
        var (s1, resp) := Respond(s, put);
        if resp.Failed? then Rejected(s1, [], put)
        else Then([put], PairLoop(s1, orgId, providerId, teams, pairs[1..]))
  }

  /** One group, inside its `try`: list the provider names and, when the
      provider is found, go on with its teams. A failed listing ends the group
      with one error line. */
  function GroupStep(s: Store, orgId: Id, g: MappingGroup): (e: Effect)
    ensures e.after.failing == s.failing && e.after.orgs == s.orgs
    ensures e.after.providers == s.providers && e.after.teams == s.teams
  {
    var names := ListProviderNames(orgId);
    var (s1, r1) := Respond(s, names);
    if !r1.Providers? then Effect(s1, [names, Error(g.provider)])
    else
      var provider := FirstWith(r1.providers, ProviderName, g.provider);
      if provider.None? then Effect(s1, [names, Warn(g.provider)])
      else Also([names], TeamsStep(s1, orgId, provider.value.providerId, g))
  }

  /** The rest of a group whose provider is found: the teams are listed once
      and the pairs run against that listing. A failed listing, a group
      without a `mappings` list, or a pair that throws ends the group with one
      error line. */
  function TeamsStep(s: Store, orgId: Id, providerId: Id, g: MappingGroup): (e: Effect)
    ensures e.after.failing == s.failing && e.after.orgs == s.orgs
    ensures e.after.providers == s.providers && e.after.teams == s.teams
  {
    var list := ListTeams(orgId, TeamsPage);
    var (s1, r) := Respond(s, list);
    if !r.Teams? || g.mappings.None? then Effect(s1, [list, Error(g.provider)])
    else
      var t := PairLoop(s1, orgId, providerId, r.teams, g.mappings.value);
      Effect(t.after, [list] + t.events + (if t.outcome.Abort? then [Error(g.provider)] else []))
  }

  /** The group loop of `createMappings`: every group runs, whatever the
      earlier ones did. */
  function GroupsLoop(s: Store, orgId: Id, gs: seq<MappingGroup>): (e: Effect)
    ensures e.after.failing == s.failing && e.after.orgs == s.orgs
    ensures e.after.providers == s.providers && e.after.teams == s.teams
    decreases |gs|
  {
    if gs == [] then Effect(s, [])
    else
      var first := GroupStep(s, orgId, gs[0]);
      Also(first.events, GroupsLoop(first.after, orgId, gs[1..]))
  }

  /** `createMappings`: the list is iterated without a default, so a missing
      one is a TypeError. */
  function MappingsRun(s: Store, orgId: Id, ms: Option<seq<MappingGroup>>): Trace
  {
    if ms.None? then Trace(s, [], Abort(NotIterable))
    else
      var e := GroupsLoop(s, orgId, ms.value);
      Trace(e.after, e.events, Done)
  }

  /** The exported reconciler: everything targets the first organization. */
  function ReconcileRun(s: Store, ms: Option<seq<MappingGroup>>): Trace
  {
    var (s1, resp) := Respond(s, ListOrgs);
    if !resp.Orgs? then Rejected(s1, [], ListOrgs)
    else if resp.orgs == [] then Trace(s1, [ListOrgs], Abort(NoOrganization))
    else Then([ListOrgs], MappingsRun(s1, resp.orgs[0].id, ms))
  }

  // ---- Reference definitions ----

  /** A binding PUT: the team and the body. */
  datatype Binding = Binding(teamId: Id, body: seq<GroupMapping>)

  function PutOf(e: Event): Option<Binding>
  {
    if e.PutMappings? then Some(Binding(e.teamId, e.mappings)) else None
  }

  function NamesListing(e: Event): Option<Id>
  {
    if e.ListProviderNames? then Some(e.orgId) else None
  }

  function TeamsListing(e: Event): Option<Id>
  {
    if e.ListTeams? then Some(e.orgId) else None
  }

  /** The bindings of the pairs whose team is listed, in pair order. */
  function ResolvedPuts(teams: seq<TeamRecord>, providerId: Id, pairs: seq<GroupPair>): seq<Binding>
  {
    if pairs == [] then []
    else
      var team := FirstWith(teams, TeamName, pairs[0].team);
      (if team.Some? then [Binding(team.value.teamId, MappingBody(pairs[0].objectId, providerId))] else [])
      + ResolvedPuts(teams, providerId, pairs[1..])
  }

  /** The bindings the groups ask for, given the provider names and teams the
      remote lists: those of every group whose provider is found. */
  function IntendedPuts(providers: seq<ProviderRecord>, teams: seq<TeamRecord>, gs: seq<MappingGroup>): seq<Binding>
  {
    if gs == [] then []
    else
      var provider := FirstWith(providers, ProviderName, gs[0].provider);
      (if provider.Some? && gs[0].mappings.Some?
       then ResolvedPuts(teams, provider.value.providerId, gs[0].mappings.value) else [])
      + IntendedPuts(providers, teams, gs[1..])
  }

  // ---- Properties of the pair loop ----

  /** One pair whose team is not listed: a warn, and the loop goes on. */
  lemma PairMissing(s: Store, orgId: Id, providerId: Id, teams: seq<TeamRecord>, pairs: seq<GroupPair>)
    requires pairs != [] && FirstWith(teams, TeamName, pairs[0].team).None?
    ensures PairLoop(s, orgId, providerId, teams, pairs) ==
      Then([Warn(pairs[0].team)], PairLoop(s, orgId, providerId, teams, pairs[1..]))
  {
  }

  /** The PUT binding a pair to the first listed team of its name. */
  function PutFor(orgId: Id, providerId: Id, team: TeamRecord, pair: GroupPair): Event
  {
    PutMappings(orgId, team.teamId, MappingBody(pair.objectId, providerId))
  }

  /** One pair whose PUT fails: the loop throws. */
  lemma PairRejected(s: Store, orgId: Id, providerId: Id, teams: seq<TeamRecord>, pairs: seq<GroupPair>)
    requires pairs != [] && FirstWith(teams, TeamName, pairs[0].team).Some?
    requires PutFor(orgId, providerId, FirstWith(teams, TeamName, pairs[0].team).value, pairs[0]) in s.failing
    ensures var put := PutFor(orgId, providerId, FirstWith(teams, TeamName, pairs[0].team).value, pairs[0]);
      PairLoop(s, orgId, providerId, teams, pairs) == Trace(s, [put], Abort(RequestFailed(put)))
  {
  }

  /** One pair whose PUT succeeds: the team's mappings become the body. */
  lemma PairPut(s: Store, orgId: Id, providerId: Id, teams: seq<TeamRecord>, pairs: seq<GroupPair>)
    requires pairs != [] && FirstWith(teams, TeamName, pairs[0].team).Some?
    requires PutFor(orgId, providerId, FirstWith(teams, TeamName, pairs[0].team).value, pairs[0]) !in s.failing
    ensures var put := PutFor(orgId, providerId, FirstWith(teams, TeamName, pairs[0].team).value, pairs[0]);
      PairLoop(s, orgId, providerId, teams, pairs) ==
        Then([put], PairLoop(s.(groupMappings := s.groupMappings[put.teamId := put.mappings]), orgId, providerId, teams, pairs[1..]))
  {
    var put := PutFor(orgId, providerId, FirstWith(teams, TeamName, pairs[0].team).value, pairs[0]);
    assert Respond(s, put) == (s.(groupMappings := s.groupMappings[put.teamId := put.mappings]), Accepted);
  }

  /** The loop's PUTs are a prefix of the bindings of the pairs whose team is
      listed, in pair order, and all of them when it completes. */
  lemma {:induction false} PairLoopPuts(s: Store, orgId: Id, providerId: Id, teams: seq<TeamRecord>, pairs: seq<GroupPair>)
    ensures var t := PairLoop(s, orgId, providerId, teams, pairs);
      && Select(t.events, PutOf) <= ResolvedPuts(teams, providerId, pairs)
      && (t.outcome.Done? ==> Select(t.events, PutOf) == ResolvedPuts(teams, providerId, pairs))
    decreases |pairs|
  {
    if pairs != [] {
      var pair, rest := pairs[0], pairs[1..];
      var team := FirstWith(teams, TeamName, pair.team);
      assert ResolvedPuts(teams, providerId, pairs) ==
        (if team.Some? then [Binding(team.value.teamId, MappingBody(pair.objectId, providerId))] else [])
        + ResolvedPuts(teams, providerId, rest);
      if team.None? {
        PairMissing(s, orgId, providerId, teams, pairs);
        var r := PairLoop(s, orgId, providerId, teams, rest);
        PairLoopPuts(s, orgId, providerId, teams, rest);
        SelectConcat([Warn(pair.team)], r.events, PutOf);
        SelectNone([Warn(pair.team)], PutOf);
        assert Select(PairLoop(s, orgId, providerId, teams, pairs).events, PutOf) == Select(r.events, PutOf);
      } else {
        var put := PutFor(orgId, providerId, team.value, pair);
        var b := Binding(team.value.teamId, MappingBody(pair.objectId, providerId));
        assert Select([put], PutOf) == [b];
        if put in s.failing {
          PairRejected(s, orgId, providerId, teams, pairs);
        } else {
          PairPut(s, orgId, providerId, teams, pairs);
          var s1 := s.(groupMappings := s.groupMappings[put.teamId := put.mappings]);
          var r := PairLoop(s1, orgId, providerId, teams, rest);
          PairLoopPuts(s1, orgId, providerId, teams, rest);
          SelectConcat([put], r.events, PutOf);
          PrefixExtend([b], Select(r.events, PutOf), ResolvedPuts(teams, providerId, rest));
        }
      }
    }
  }

  /** Without failing PUTs the pair loop completes. */
  lemma {:induction false} PairLoopDone(s: Store, orgId: Id, providerId: Id, teams: seq<TeamRecord>, pairs: seq<GroupPair>)
    requires MutationsSucceed(s)
    ensures PairLoop(s, orgId, providerId, teams, pairs).outcome.Done?
    decreases |pairs|
  {
    if pairs != [] {
      var team := FirstWith(teams, TeamName, pairs[0].team);
      if team.None? {
        PairMissing(s, orgId, providerId, teams, pairs);
        PairLoopDone(s, orgId, providerId, teams, pairs[1..]);
      } else {
        var put := PutFor(orgId, providerId, team.value, pairs[0]);
        assert IsMutation(put);
        PairPut(s, orgId, providerId, teams, pairs);
        PairLoopDone(s.(groupMappings := s.groupMappings[put.teamId := put.mappings]), orgId, providerId, teams, pairs[1..]);
      }
    }
  }

  /** The pair loop only issues PUTs to the organization and warns. */
  lemma {:induction false} PairLoopEvents(s: Store, orgId: Id, providerId: Id, teams: seq<TeamRecord>, pairs: seq<GroupPair>)
    ensures forall e :: e in PairLoop(s, orgId, providerId, teams, pairs).events ==>
      (e.PutMappings? && e.orgId == orgId) || e.Warn?
    decreases |pairs|
  {
    if pairs != [] {
      var team := FirstWith(teams, TeamName, pairs[0].team);
      if team.None? {
        PairMissing(s, orgId, providerId, teams, pairs);
        PairLoopEvents(s, orgId, providerId, teams, pairs[1..]);
      } else {
        var put := PutFor(orgId, providerId, team.value, pairs[0]);
        if put !in s.failing {
          PairPut(s, orgId, providerId, teams, pairs);
          PairLoopEvents(s.(groupMappings := s.groupMappings[put.teamId := put.mappings]), orgId, providerId, teams, pairs[1..]);
        }
      }
    }
  }

  // ---- Properties of one group ----

  /** The provider a group names, as the organization's names listing gives it. */
  function ProviderOf(s: Store, orgId: Id, g: MappingGroup): Option<ProviderRecord>
  {
    FirstWith(Lookup(s.providers, orgId), ProviderName, g.provider)
  }

  /** A failed names listing is caught: one error line, nothing else. */
  lemma GroupNamesFailed(s: Store, orgId: Id, g: MappingGroup)
    requires ListProviderNames(orgId) in s.failing
    ensures GroupStep(s, orgId, g) == Effect(s, [ListProviderNames(orgId), Error(g.provider)])
  {
  }

  /** An unresolved provider: no team listing, no PUT, one warn. */
  lemma GroupUnresolved(s: Store, orgId: Id, g: MappingGroup)
    requires ListProviderNames(orgId) !in s.failing && ProviderOf(s, orgId, g).None?
    ensures GroupStep(s, orgId, g) == Effect(s, [ListProviderNames(orgId), Warn(g.provider)])
  {
    assert Respond(s, ListProviderNames(orgId)) == (s, Providers(Lookup(s.providers, orgId)));
  }

  /** A resolved provider: the group goes on with its teams. */
  lemma GroupResolved(s: Store, orgId: Id, g: MappingGroup)
    requires ListProviderNames(orgId) !in s.failing && ProviderOf(s, orgId, g).Some?
    ensures GroupStep(s, orgId, g) ==
      Also([ListProviderNames(orgId)], TeamsStep(s, orgId, ProviderOf(s, orgId, g).value.providerId, g))
  {
    assert Respond(s, ListProviderNames(orgId)) == (s, Providers(Lookup(s.providers, orgId)));
  }

  /** A failed team listing, or a group with no pair list, ends the group
      with an error line and no PUT. */
  lemma TeamsNoPairs(s: Store, orgId: Id, providerId: Id, g: MappingGroup)
    requires ListTeams(orgId, TeamsPage) in s.failing || g.mappings.None?
    ensures TeamsStep(s, orgId, providerId, g) == Effect(s, [ListTeams(orgId, TeamsPage), Error(g.provider)])
  {
  }

  /** The teams are listed once and the pairs run in order against that
      listing; a pair that throws ends the group with an error line. */
  lemma TeamsPairs(s: Store, orgId: Id, providerId: Id, g: MappingGroup)
    requires ListTeams(orgId, TeamsPage) !in s.failing && g.mappings.Some?
    ensures var t := PairLoop(s, orgId, providerId, Take(s.teams, TeamsPage), g.mappings.value);
      TeamsStep(s, orgId, providerId, g) ==
        Effect(t.after, [ListTeams(orgId, TeamsPage)] + t.events + (if t.outcome.Abort? then [Error(g.provider)] else []))
  {
    assert Respond(s, ListTeams(orgId, TeamsPage)) == (s, Teams(Take(s.teams, TeamsPage)));
  }

  /** After its team listing, a group only warns, logs errors and PUTs to the organization. */
  lemma TeamsEvents(s: Store, orgId: Id, providerId: Id, g: MappingGroup)
    ensures var e := TeamsStep(s, orgId, providerId, g).events;
      && e != [] && e[0] == ListTeams(orgId, TeamsPage)
      && forall ev :: ev in e[1..] ==> ev.Warn? || ev.Error? || (ev.PutMappings? && ev.orgId == orgId)
  {
    var list := ListTeams(orgId, TeamsPage);
    if list in s.failing || g.mappings.None? {
      TeamsNoPairs(s, orgId, providerId, g);
    } else {
      TeamsPairs(s, orgId, providerId, g);
      var t := PairLoop(s, orgId, providerId, Take(s.teams, TeamsPage), g.mappings.value);
      PairLoopEvents(s, orgId, providerId, Take(s.teams, TeamsPage), g.mappings.value);
      var tail := if t.outcome.Abort? then [Error(g.provider)] else [];
      AppendAssoc([list], t.events, tail);
      assert ([list] + (t.events + tail))[1..] == t.events + tail;
    }
  }

  /** Only listings pick out a listing. */
  lemma ListingsOfTail(e: seq<Event>, orgId: Id)
    requires forall ev :: ev in e ==> ev.Warn? || ev.Error? || (ev.PutMappings? && ev.orgId == orgId)
    ensures Select(e, NamesListing) == [] && Select(e, TeamsListing) == []
  {
    assert forall i :: 0 <= i < |e| ==> e[i] in e;
    SelectNone(e, NamesListing);
    SelectNone(e, TeamsListing);
  }

  /** Every event of a group targets the organization. */
  lemma GroupEvents(s: Store, orgId: Id, g: MappingGroup)
    ensures forall ev :: ev in GroupStep(s, orgId, g).events ==>
      ev.Warn? || ev.Error? || (ev.PutMappings? && ev.orgId == orgId) ||
      ev == ListProviderNames(orgId) || ev == ListTeams(orgId, TeamsPage)
  {
    if ListProviderNames(orgId) in s.failing {
      GroupNamesFailed(s, orgId, g);
    } else if ProviderOf(s, orgId, g).None? {
      GroupUnresolved(s, orgId, g);
    } else {
      GroupResolved(s, orgId, g);
      var pid := ProviderOf(s, orgId, g).value.providerId;
      var rest := TeamsStep(s, orgId, pid, g).events;
      TeamsEvents(s, orgId, pid, g);
      assert rest == [rest[0]] + rest[1..];
    }
  }

  /** The rest of a group lists the teams once and the names never. */
  lemma TeamsListings(s: Store, orgId: Id, providerId: Id, g: MappingGroup)
    ensures var e := TeamsStep(s, orgId, providerId, g).events;
      Select(e, NamesListing) == [] && Select(e, TeamsListing) == [orgId]
  {
    var e := TeamsStep(s, orgId, providerId, g).events;
    TeamsEvents(s, orgId, providerId, g);
    ListingsOfTail(e[1..], orgId);
    assert e == [e[0]] + e[1..];
    SelectConcat([e[0]], e[1..], NamesListing);
    SelectConcat([e[0]], e[1..], TeamsListing);
  }

  /** The names are listed exactly once per group, and the teams once when the
      provider resolves and never otherwise. */
  lemma GroupListings(s: Store, orgId: Id, g: MappingGroup)
    ensures var e := GroupStep(s, orgId, g).events;
      && Select(e, NamesListing) == [orgId]
      && Select(e, TeamsListing) ==
           (if ListProviderNames(orgId) !in s.failing && ProviderOf(s, orgId, g).Some? then [orgId] else [])
  {
    var names := ListProviderNames(orgId);
    var e := GroupStep(s, orgId, g).events;
    var rest: seq<Event>;
    if names in s.failing {
      GroupNamesFailed(s, orgId, g);
      rest := [Error(g.provider)];
      ListingsOfTail(rest, orgId);
    } else if ProviderOf(s, orgId, g).None? {
      GroupUnresolved(s, orgId, g);
      rest := [Warn(g.provider)];
      ListingsOfTail(rest, orgId);
    } else {
      GroupResolved(s, orgId, g);
      var pid := ProviderOf(s, orgId, g).value.providerId;
      rest := TeamsStep(s, orgId, pid, g).events;
      TeamsListings(s, orgId, pid, g);
    }
    assert e == [names] + rest;
    SelectConcat([names], rest, NamesListing);
    SelectConcat([names], rest, TeamsListing);
  }

  /** With the team listing and every PUT succeeding, the rest of a group
      binds exactly the listed teams of its pairs. */
  lemma TeamsPuts(s: Store, orgId: Id, providerId: Id, g: MappingGroup)
    requires MutationsSucceed(s) && ListTeams(orgId, TeamsPage) !in s.failing
    ensures Select(TeamsStep(s, orgId, providerId, g).events, PutOf) ==
      if g.mappings.Some? then ResolvedPuts(Take(s.teams, TeamsPage), providerId, g.mappings.value) else []
  {
    var list := ListTeams(orgId, TeamsPage);
    var rest := TeamsStep(s, orgId, providerId, g).events;
    if g.mappings.None? {
      TeamsNoPairs(s, orgId, providerId, g);
      SelectNone(rest, PutOf);
    } else {
      TeamsPairs(s, orgId, providerId, g);
      var teams := Take(s.teams, TeamsPage);
      var t := PairLoop(s, orgId, providerId, teams, g.mappings.value);
      PairLoopDone(s, orgId, providerId, teams, g.mappings.value);
      PairLoopPuts(s, orgId, providerId, teams, g.mappings.value);
      assert rest == [list] + t.events + [];
      assert rest == [list] + t.events;
      SelectConcat([list], t.events, PutOf);
      SelectNone([list], PutOf);
    }
  }

  /** With both listings and every PUT succeeding, a group binds exactly the
      listed teams of its pairs, when its provider resolves, and nothing otherwise. */
  lemma GroupPuts(s: Store, orgId: Id, g: MappingGroup)
    requires MutationsSucceed(s)
    requires ListProviderNames(orgId) !in s.failing && ListTeams(orgId, TeamsPage) !in s.failing
    ensures Select(GroupStep(s, orgId, g).events, PutOf) ==
      var provider := ProviderOf(s, orgId, g);
      if provider.Some? && g.mappings.Some?
      then ResolvedPuts(Take(s.teams, TeamsPage), provider.value.providerId, g.mappings.value) else []
  {
    var names := ListProviderNames(orgId);
    var provider := ProviderOf(s, orgId, g);
    if provider.None? {
      GroupUnresolved(s, orgId, g);
      SelectNone([names, Warn(g.provider)], PutOf);
    } else {
      GroupResolved(s, orgId, g);
      var pid := provider.value.providerId;
      var rest := TeamsStep(s, orgId, pid, g).events;
      TeamsPuts(s, orgId, pid, g);
      SelectConcat([names], rest, PutOf);
      SelectNone([names], PutOf);
    }
  }

  /** A failed PUT skips the rest of its group: with two pairs whose teams are
      listed and a failing first PUT, the second pair is never bound. */
  lemma FailedPutSkipsRest(s: Store, orgId: Id, g: MappingGroup)
    requires ListProviderNames(orgId) !in s.failing && ProviderOf(s, orgId, g).Some?
    requires ListTeams(orgId, TeamsPage) !in s.failing
    requires g.mappings.Some? && |g.mappings.value| == 2
    requires FirstWith(Take(s.teams, TeamsPage), TeamName, g.mappings.value[0].team).Some?
    requires PutFor(orgId, ProviderOf(s, orgId, g).value.providerId,
                    FirstWith(Take(s.teams, TeamsPage), TeamName, g.mappings.value[0].team).value,
                    g.mappings.value[0]) in s.failing
    ensures var put := PutFor(orgId, ProviderOf(s, orgId, g).value.providerId,
                              FirstWith(Take(s.teams, TeamsPage), TeamName, g.mappings.value[0].team).value,
                              g.mappings.value[0]);
      GroupStep(s, orgId, g) ==
        Effect(s, [ListProviderNames(orgId), ListTeams(orgId, TeamsPage), put, Error(g.provider)])
  {
    var pid := ProviderOf(s, orgId, g).value.providerId;
    var put := PutFor(orgId, pid, FirstWith(Take(s.teams, TeamsPage), TeamName, g.mappings.value[0].team).value,
                      g.mappings.value[0]);
    PairRejected(s, orgId, pid, Take(s.teams, TeamsPage), g.mappings.value);
    TeamsPairs(s, orgId, pid, g);
    GroupResolved(s, orgId, g);
    assert [ListProviderNames(orgId)] + ([ListTeams(orgId, TeamsPage)] + [put] + [Error(g.provider)]) ==
           [ListProviderNames(orgId), ListTeams(orgId, TeamsPage), put, Error(g.provider)];
  }

  // ---- Properties of the group loop ----

  /** `n` copies of `x`. */
  function Copies(x: Id, n: nat): (r: seq<Id>)
    ensures |r| == n && forall i :: 0 <= i < n ==> r[i] == x
  {
    if n == 0 then [] else [x] + Copies(x, n - 1)
  }

  /** Every group runs whatever the earlier ones did: the names are listed
      once per group, in order, and every event targets the organization. */
  lemma {:induction false} GroupsLoopListings(s: Store, orgId: Id, gs: seq<MappingGroup>)
    ensures var e := GroupsLoop(s, orgId, gs).events;
      && Select(e, NamesListing) == Copies(orgId, |gs|)
      && forall ev :: ev in e ==> ev.Warn? || ev.Error? || (ev.PutMappings? && ev.orgId == orgId) ||
                                  ev == ListProviderNames(orgId) || ev == ListTeams(orgId, TeamsPage)
    decreases |gs|
  {
    if gs != [] {
      var first := GroupStep(s, orgId, gs[0]);
      var rest := GroupsLoop(first.after, orgId, gs[1..]);
      GroupListings(s, orgId, gs[0]);
      GroupEvents(s, orgId, gs[0]);
      GroupsLoopListings(first.after, orgId, gs[1..]);
      SelectConcat(first.events, rest.events, NamesListing);
    }
  }

  /** With both listings and every PUT succeeding, the run binds exactly the
      intended pairs, group by group and pair by pair. */
  lemma {:induction false} GroupsLoopPuts(s: Store, orgId: Id, gs: seq<MappingGroup>)
    requires MutationsSucceed(s)
    requires ListProviderNames(orgId) !in s.failing && ListTeams(orgId, TeamsPage) !in s.failing
    ensures Select(GroupsLoop(s, orgId, gs).events, PutOf) ==
      IntendedPuts(Lookup(s.providers, orgId), Take(s.teams, TeamsPage), gs)
    decreases |gs|
  {
    if gs != [] {
      var first := GroupStep(s, orgId, gs[0]);
      var rest := GroupsLoop(first.after, orgId, gs[1..]);
      GroupPuts(s, orgId, gs[0]);
      assert MutationsSucceed(first.after);
      GroupsLoopPuts(first.after, orgId, gs[1..]);
      SelectConcat(first.events, rest.events, PutOf);
    }
  }

  // ---- Properties of the reconciler ----

  /** The first organization, when the listing succeeds and has one. */
  predicate HasOrganization(s: Store)
  {
    ListOrgs !in s.failing && s.orgs != []
  }

  lemma ReconcileReachesGroups(s: Store, ms: Option<seq<MappingGroup>>)
    requires HasOrganization(s)
    ensures ReconcileRun(s, ms) == Then([ListOrgs], MappingsRun(s, s.orgs[0].id, ms))
  {
    assert Respond(s, ListOrgs) == (s, Orgs(s.orgs));
  }

  /** A missing mapping list, or no organization, rejects the run before any
      binding request. */
  lemma ReconcileRejects(s: Store, ms: Option<seq<MappingGroup>>)
    requires !HasOrganization(s) || ms.None?
    ensures var t := ReconcileRun(s, ms); t.outcome.Abort? && t.events == [ListOrgs] && t.after == s
  {
    if HasOrganization(s) {
      ReconcileReachesGroups(s, ms);
    }
  }

  /** Every request after the organization listing targets the first
      organization, and the run completes once that listing succeeds with a
      list of groups, each group's failure being caught. */
  lemma ReconcileTargetsFirstOrg(s: Store, ms: Option<seq<MappingGroup>>)
    requires HasOrganization(s) && ms.Some?
    ensures var t := ReconcileRun(s, ms);
      && t.outcome.Done?
      && Select(t.events, NamesListing) == Copies(s.orgs[0].id, |ms.value|)
      && forall e :: e in t.events ==>
           (|| e == ListOrgs || e.Warn? || e.Error? || (e.PutMappings? && e.orgId == s.orgs[0].id)
            || e == ListProviderNames(s.orgs[0].id) || e == ListTeams(s.orgs[0].id, TeamsPage))
  {
    var org := s.orgs[0].id;
    ReconcileReachesGroups(s, ms);
    var e := GroupsLoop(s, org, ms.value);
    GroupsLoopListings(s, org, ms.value);
    SelectConcat([ListOrgs], e.events, NamesListing);
    SelectNone([ListOrgs], NamesListing);
  }

  /** With the listings and every PUT succeeding, the run binds exactly the
      intended pairs of the first organization. */
  lemma ReconcilePuts(s: Store, ms: Option<seq<MappingGroup>>)
    requires HasOrganization(s) && ms.Some? && MutationsSucceed(s)
    requires ListProviderNames(s.orgs[0].id) !in s.failing && ListTeams(s.orgs[0].id, TeamsPage) !in s.failing
    ensures Select(ReconcileRun(s, ms).events, PutOf) ==
      IntendedPuts(Lookup(s.providers, s.orgs[0].id), Take(s.teams, TeamsPage), ms.value)
  {
    var org := s.orgs[0].id;
    ReconcileReachesGroups(s, ms);
    var e := GroupsLoop(s, org, ms.value);
    GroupsLoopPuts(s, org, ms.value);
    SelectConcat([ListOrgs], e.events, PutOf);
    SelectNone([ListOrgs], PutOf);
  }

  // ---- Implementation ----

  /** The pair loop of one group. */
  method BindPairs(remote: Remote, orgId: Id, providerId: Id, teams: seq<TeamRecord>, pairs: seq<GroupPair>)
    returns (o: Outcome)
    modifies remote
    ensures var t := PairLoop(old(remote.Snapshot()), orgId, providerId, teams, pairs);
      remote.Reached(old(remote.log), t.after, t.events) && o == t.outcome
  {
    ghost var s0, log0 := remote.Snapshot(), remote.log;
    ghost var done: seq<Event> := [];
    var i := 0;
    while i < |pairs|
      invariant 0 <= i <= |pairs|
      invariant remote.log == log0 + done
      invariant PairLoop(s0, orgId, providerId, teams, pairs) ==
                Then(done, PairLoop(remote.Snapshot(), orgId, providerId, teams, pairs[i..]))
    {
      var pair := pairs[i];
      ghost var before := remote.Snapshot();
      assert pairs[i..][1..] == pairs[i + 1..];
      var team := FirstWith(teams, TeamName, pair.team);
      if team.None? {
        PairMissing(before, orgId, providerId, teams, pairs[i..]);
        remote.Note(Warn(pair.team));
        AppendAssoc(log0, done, [Warn(pair.team)]);
        ThenThen(done, [Warn(pair.team)], PairLoop(before, orgId, providerId, teams, pairs[i + 1..]));
        done := done + [Warn(pair.team)];
      } else {
        var put := PutMappings(orgId, team.value.teamId, MappingBody(pair.objectId, providerId));
        var r := remote.Send(put);
        AppendAssoc(log0, done, [put]);
        if r.Failed? {
          PairRejected(before, orgId, providerId, teams, pairs[i..]);
          return Abort(RequestFailed(put));
        }
        PairPut(before, orgId, providerId, teams, pairs[i..]);
        ThenThen(done, [put], PairLoop(remote.Snapshot(), orgId, providerId, teams, pairs[i + 1..]));
        done := done + [put];
      }
      i := i + 1;
    }
    o := Done;
  }

  /** One group of `createMappings`, with its `try`/`catch`. */
  method MapGroup(remote: Remote, orgId: Id, g: MappingGroup)
    modifies remote
    ensures var e := GroupStep(old(remote.Snapshot()), orgId, g);
      remote.Reached(old(remote.log), e.after, e.events)
  {
    ghost var s0, log0 := remote.Snapshot(), remote.log;
    var names := remote.Send(ListProviderNames(orgId));
    if !names.Providers? {
      GroupNamesFailed(s0, orgId, g);
      remote.Note(Error(g.provider));
      return;
    }
    var provider := FirstWith(names.providers, ProviderName, g.provider);
    if provider.None? {
      GroupUnresolved(s0, orgId, g);
      remote.Note(Warn(g.provider));
      return;
    }
    GroupResolved(s0, orgId, g);
    ghost var rest := TeamsStep(s0, orgId, provider.value.providerId, g).events;
    MapTeams(remote, orgId, provider.value.providerId, g);
    AppendAssoc(log0, [ListProviderNames(orgId)], rest);
  }

  /** The rest of a group's `try` once its provider is found. */
  method MapTeams(remote: Remote, orgId: Id, providerId: Id, g: MappingGroup)
    modifies remote
    ensures var e := TeamsStep(old(remote.Snapshot()), orgId, providerId, g);
      remote.Reached(old(remote.log), e.after, e.events)
  {
    ghost var s0, log0 := remote.Snapshot(), remote.log;
    var list := ListTeams(orgId, TeamsPage);
    var teams := remote.Send(list);
    if !teams.Teams? || g.mappings.None? {
      TeamsNoPairs(s0, orgId, providerId, g);
      remote.Note(Error(g.provider));
      return;
    }
    TeamsPairs(s0, orgId, providerId, g);
    ghost var t := PairLoop(s0, orgId, providerId, teams.teams, g.mappings.value);
    var o := BindPairs(remote, orgId, providerId, teams.teams, g.mappings.value);
    AppendAssoc(log0, [list], t.events);
    if o.Abort? {
      remote.Note(Error(g.provider));
      AppendAssoc(log0, [list] + t.events, [Error(g.provider)]);
    } else {
      assert [list] + t.events + [] == [list] + t.events;
    }
  }

  /** The group loop of `createMappings`. */
  method MapGroups(remote: Remote, orgId: Id, gs: seq<MappingGroup>)
    modifies remote
    ensures var e := GroupsLoop(old(remote.Snapshot()), orgId, gs);
      remote.Reached(old(remote.log), e.after, e.events)
  {
    ghost var s0, log0 := remote.Snapshot(), remote.log;
    ghost var done: seq<Event> := [];
    var i := 0;
    while i < |gs|
      invariant 0 <= i <= |gs|
      invariant remote.log == log0 + done
      invariant GroupsLoop(s0, orgId, gs) == Also(done, GroupsLoop(remote.Snapshot(), orgId, gs[i..]))
    {
      ghost var step := GroupStep(remote.Snapshot(), orgId, gs[i]).events;
      assert gs[i..][1..] == gs[i + 1..];
      MapGroup(remote, orgId, gs[i]);
      AppendAssoc(log0, done, step);
      AlsoAlso(done, step, GroupsLoop(remote.Snapshot(), orgId, gs[i + 1..]));
      done := done + step;
      i := i + 1;
    }
  }

  /** `createMappings`. */
  method CreateMappings(remote: Remote, orgId: Id, ms: Option<seq<MappingGroup>>) returns (o: Outcome)
    modifies remote
    ensures var t := MappingsRun(old(remote.Snapshot()), orgId, ms);
      remote.Reached(old(remote.log), t.after, t.events) && o == t.outcome
  {
    if ms.None? {
      assert remote.log == remote.log + [];
      return Abort(NotIterable);
    }
    MapGroups(remote, orgId, ms.value);
    o := Done;
  }

  /** The exported mapping reconciler. */
  method ReconcileMappings(remote: Remote, ms: Option<seq<MappingGroup>>) returns (o: Outcome)
    modifies remote
    ensures var t := ReconcileRun(old(remote.Snapshot()), ms);
      remote.Reached(old(remote.log), t.after, t.events) && o == t.outcome
  {
    ghost var log0 := remote.log;
    var resp := remote.Send(ListOrgs);
    if !resp.Orgs? {
      return Abort(RequestFailed(ListOrgs));
    }
    if resp.orgs == [] {
      return Abort(NoOrganization);
    }
    ghost var rest := MappingsRun(remote.Snapshot(), resp.orgs[0].id, ms).events;
    o := CreateMappings(remote, resp.orgs[0].id, ms);
    AppendAssoc(log0, [ListOrgs], rest);
  }
}
