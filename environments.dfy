/** The environment reconciler (providers/access-management/environments.js):
    list the organizations once; for each top-level business-group
    configuration that names a listed organization and declares
    environments, list that organization's environments once and create every
    desired environment whose name the listing lacks. A failed create is
    caught and logged; a failed listing rejects the call. */
module Environments {
  import opened Common
  import opened Manifest
  import opened Platform

  /** The environment listing is fetched with `limit=150&offset=0`. */
  const EnvsPage: nat := 150

  // ---- Specification ----

  /** One desired environment against the organization's listing: a listed
      name is warned about; otherwise `createEnvironment` posts it and catches
      its failure. */
  function EnvStep(s: Store, orgId: Id, listing: seq<Env>, env: Environment): (e: Effect)
    ensures e.after.failing == s.failing
  {
    if FirstWith(listing, EnvName, env.name).Some? then Effect(s, [Warn(env.name)])
    else
      var create := CreateEnv(orgId, env);
      var (s1, resp) := Respond(s, create);
      Effect(s1, if resp.Failed? then [create, Error(env.name)] else [create])
  }

  /** The inner loop, against the organization's listing fetched once. */
  function EnvLoop(s: Store, orgId: Id, listing: seq<Env>, envs: seq<Environment>): (e: Effect)
    ensures e.after.failing == s.failing
    decreases |envs|
  {
    if envs == [] then Effect(s, [])
    else
      var first := EnvStep(s, orgId, listing, envs[0]);
      Also(first.events, EnvLoop(first.after, orgId, listing, envs[1..]))
  }

  /** One iteration of the outer loop. A null entry is only dereferenced when
      `_.find` calls its predicate, that is, when there is an organization. */
  function ConfigStep(s: Store, orgs: seq<Org>, entry: Option<GroupConfig>): Trace
  {
    if entry.None? then
      if orgs != [] then Trace(s, [], Abort(NullEntry)) else Trace(s, [], Done)
    else
      var config := entry.value;
      var org := FirstWith(orgs, OrgName, config.name);
      if org.None? || config.environments.None? then Trace(s, [], Done)
      else
        var list := ListEnvs(org.value.id, EnvsPage);
        var (s1, resp) := Respond(s, list);
        if !resp.Envs? then Rejected(s1, [], list)
        else
          var e := EnvLoop(s1, org.value.id, resp.envs, config.environments.value);
          Trace(e.after, [list] + e.events, Done)
  }

  /** The outer loop over the top-level configurations; an iteration that
      throws ends the call. */
  function ConfigsRun(s: Store, orgs: seq<Org>, entries: seq<Option<GroupConfig>>): Trace
    decreases |entries|
  {
    if entries == [] then Trace(s, [], Done)
    else
      var t := ConfigStep(s, orgs, entries[0]);
      if t.outcome.Abort? then t else Then(t.events, ConfigsRun(t.after, orgs, entries[1..]))
  }

  /** The exported reconciler; a missing list is empty. */
  function ReconcileRun(s: Store, configs: GroupList): Trace
  {
    var (s1, resp) := Respond(s, ListOrgs);
    if !resp.Orgs? then Rejected(s1, [], ListOrgs)
    else Then([ListOrgs], ConfigsRun(s1, resp.orgs, if configs.Some? then configs.value else []))
  }

  // ---- Reference definitions ----

  /** The desired environments whose name the listing lacks, in order. */
  function AbsentEnvs(envs: seq<Environment>, listing: seq<Env>): seq<Environment>
  {
    if envs == [] then []
    else (if FirstWith(listing, EnvName, envs[0].name).None? then [envs[0]] else []) + AbsentEnvs(envs[1..], listing)
  }

  /** The names of the desired environments the listing holds, in order. */
  function ListedNames(envs: seq<Environment>, listing: seq<Env>): seq<string>
  {
    if envs == [] then []
    else (if FirstWith(listing, EnvName, envs[0].name).Some? then [envs[0].name] else []) + ListedNames(envs[1..], listing)
  }

  /** The body of a create-environment request. */
  function PostedEnv(e: Event): Option<Environment>
  {
    if e.CreateEnv? then Some(e.env) else None
  }

  function WarnedName(e: Event): Option<string>
  {
    if e.Warn? then Some(e.subject) else None
  }

  /** The configurations with their children dropped. */
  function WithoutChildren(entries: seq<Option<GroupConfig>>): (r: seq<Option<GroupConfig>>)
    ensures |r| == |entries|
    ensures forall i :: 0 <= i < |entries| ==>
      r[i] == if entries[i].Some? then Some(entries[i].value.(children := [])) else None
  {
    seq(|entries|, i requires 0 <= i < |entries| =>
      if entries[i].Some? then Some(entries[i].value.(children := [])) else None)
  }

  // ---- Steps ----

  /** What one step posts and warns about. */
  lemma EnvStepEvents(s: Store, orgId: Id, listing: seq<Env>, env: Environment)
    ensures var e := EnvStep(s, orgId, listing, env);
      && Select(e.events, PostedEnv) == (if FirstWith(listing, EnvName, env.name).None? then [env] else [])
      && Select(e.events, WarnedName) == (if FirstWith(listing, EnvName, env.name).Some? then [env.name] else [])
      && forall ev :: ev in e.events ==> (ev.CreateEnv? && ev.orgId == orgId) || ev.Warn? || ev.Error?
  {
    var create := CreateEnv(orgId, env);
    SelectNone([Error(env.name)], PostedEnv);
    SelectNone([Error(env.name)], WarnedName);
    SelectConcat([create], [Error(env.name)], PostedEnv);
    SelectConcat([create], [Error(env.name)], WarnedName);
    assert [create] + [Error(env.name)] == [create, Error(env.name)];
  }

  // ---- Properties ----

  /** Whatever fails, the loop posts, unchanged and in order, exactly the
      desired environments absent from the listing (repeats included: the
      listing is not refreshed), and warns about exactly the listed ones. */
  lemma {:induction false} EnvLoopPosts(s: Store, orgId: Id, listing: seq<Env>, envs: seq<Environment>)
    ensures Select(EnvLoop(s, orgId, listing, envs).events, PostedEnv) == AbsentEnvs(envs, listing)
    ensures Select(EnvLoop(s, orgId, listing, envs).events, WarnedName) == ListedNames(envs, listing)
    decreases |envs|
  {
    if envs != [] {
      var first := EnvStep(s, orgId, listing, envs[0]);
      var rest := EnvLoop(first.after, orgId, listing, envs[1..]);
      EnvStepEvents(s, orgId, listing, envs[0]);
      EnvLoopPosts(first.after, orgId, listing, envs[1..]);
      SelectConcat(first.events, rest.events, PostedEnv);
      SelectConcat(first.events, rest.events, WarnedName);
    }
  }

  /** The loop only creates in, warns about, or logs errors for the
      organization it was given. */
  lemma {:induction false} EnvLoopTargets(s: Store, orgId: Id, listing: seq<Env>, envs: seq<Environment>)
    ensures forall e :: e in EnvLoop(s, orgId, listing, envs).events ==>
      (e.CreateEnv? && e.orgId == orgId) || e.Warn? || e.Error?
    decreases |envs|
  {
    if envs != [] {
      var first := EnvStep(s, orgId, listing, envs[0]);
      EnvStepEvents(s, orgId, listing, envs[0]);
      EnvLoopTargets(first.after, orgId, listing, envs[1..]);
    }
  }

  /** A configuration whose name is not a listed organization, or which
      declares no environments, issues nothing. */
  lemma ConfigSkipped(s: Store, orgs: seq<Org>, config: GroupConfig)
    requires FirstWith(orgs, OrgName, config.name).None? || config.environments.None?
    ensures ConfigStep(s, orgs, Some(config)) == Trace(s, [], Done)
  {
  }

  /** A matched configuration lists its organization's environments once and
      posts, to that organization only, the desired ones the first page lacks;
      its failed creates do not stop it. */
  lemma ConfigPosts(s: Store, orgs: seq<Org>, config: GroupConfig)
    requires FirstWith(orgs, OrgName, config.name).Some? && config.environments.Some?
    requires ListEnvs(FirstWith(orgs, OrgName, config.name).value.id, EnvsPage) !in s.failing
    ensures var id := FirstWith(orgs, OrgName, config.name).value.id;
      var t := ConfigStep(s, orgs, Some(config));
      && t.outcome == Done
      && t.events[0] == ListEnvs(id, EnvsPage)
      && Select(t.events, PostedEnv) == AbsentEnvs(config.environments.value, Take(Lookup(s.envs, id), EnvsPage))
      && forall e :: e in t.events[1..] ==> (e.CreateEnv? && e.orgId == id) || e.Warn? || e.Error?
  {
    var id := FirstWith(orgs, OrgName, config.name).value.id;
    var listing := Take(Lookup(s.envs, id), EnvsPage);
    var l := EnvLoop(s, id, listing, config.environments.value);
    assert ConfigStep(s, orgs, Some(config)) == Trace(l.after, [ListEnvs(id, EnvsPage)] + l.events, Done);
    EnvLoopPosts(s, id, listing, config.environments.value);
    EnvLoopTargets(s, id, listing, config.environments.value);
    SelectConcat([ListEnvs(id, EnvsPage)], l.events, PostedEnv);
    SelectNone([ListEnvs(id, EnvsPage)], PostedEnv);
    assert ([ListEnvs(id, EnvsPage)] + l.events)[1..] == l.events;
  }

  /** A null entry rejects the call when there is an organization to compare
      it with, and is passed over when there is none. */
  lemma NullEntryRejects(s: Store, orgs: seq<Org>)
    ensures ConfigStep(s, orgs, None).events == []
    ensures ConfigStep(s, orgs, None).outcome == if orgs != [] then Abort(NullEntry) else Done
  {
  }

  lemma WithoutChildrenTail(entries: seq<Option<GroupConfig>>)
    requires entries != []
    ensures WithoutChildren(entries)[1..] == WithoutChildren(entries[1..])
  {
  }

  lemma {:induction false} ConfigsIgnoreChildren(s: Store, orgs: seq<Org>, entries: seq<Option<GroupConfig>>)
    ensures ConfigsRun(s, orgs, entries) == ConfigsRun(s, orgs, WithoutChildren(entries))
    decreases |entries|
  {
    if entries != [] {
      var stripped := WithoutChildren(entries);
      assert ConfigStep(s, orgs, entries[0]) == ConfigStep(s, orgs, stripped[0]);
      WithoutChildrenTail(entries);
      var t := ConfigStep(s, orgs, entries[0]);
      ConfigsIgnoreChildren(t.after, orgs, entries[1..]);
    }
  }

  /** Only the top-level list is walked: the children of a business group
      are never read, so their environments are not reconciled. */
  lemma ReconcileIgnoresChildren(s: Store, entries: seq<Option<GroupConfig>>)
    ensures ReconcileRun(s, Some(entries)) == ReconcileRun(s, Some(WithoutChildren(entries)))
  {
    if ListOrgs !in s.failing {
      ConfigsIgnoreChildren(s, s.orgs, entries);
    }
  }

  /** A missing list lists the organizations and does nothing else. */
  lemma ReconcileNoConfigs(s: Store)
    ensures ReconcileRun(s, None) == if ListOrgs in s.failing then Trace(s, [ListOrgs], Abort(RequestFailed(ListOrgs)))
                                     else Trace(s, [ListOrgs], Done)
  {
  }

  // ---- A second run ----

  /** What a run leaves of the remote that the environment reconciler reads:
      the organizations and the failing requests are unchanged, and each
      organization's environment list only grows at its end. */
  ghost predicate EnvsGrow(s: Store, t: Store)
  {
    t.orgs == s.orgs && t.failing == s.failing &&
    forall o :: Lookup(s.envs, o) <= Lookup(t.envs, o)
  }

  /** Every desired environment has a namesake in `listing`. */
  ghost predicate Covers(listing: seq<Env>, envs: seq<Environment>)
  {
    forall e :: e in envs ==> FirstWith(listing, EnvName, e.name).Some?
  }

  /** Every configuration an organization matches and that declares
      environments has all of them, by name, in that organization's list. */
  ghost predicate ConfigsCovered(s: Store, orgs: seq<Org>, entries: seq<Option<GroupConfig>>)
  {
    forall i :: 0 <= i < |entries| && entries[i].Some? &&
                FirstWith(orgs, OrgName, entries[i].value.name).Some? && entries[i].value.environments.Some? ==>
      Covers(Lookup(s.envs, FirstWith(orgs, OrgName, entries[i].value.name).value.id), entries[i].value.environments.value)
  }

  lemma CoversGrow(a: seq<Env>, b: seq<Env>, envs: seq<Environment>)
    requires a <= b && Covers(a, envs)
    ensures Covers(b, envs)
  {
    forall e | e in envs ensures FirstWith(b, EnvName, e.name).Some? {
      FirstWithExtend(a, b, EnvName, e.name);
    }
  }

  lemma {:induction false} AbsentOfCovers(envs: seq<Environment>, listing: seq<Env>)
    requires Covers(listing, envs)
    ensures AbsentEnvs(envs, listing) == []
    decreases |envs|
  {
    if envs != [] {
      assert envs[0] in envs;
      assert forall e :: e in envs[1..] ==> e in envs;
      AbsentOfCovers(envs[1..], listing);
    }
  }

  /** A loop whose every environment is listed only warns: the remote is left as it was. */
  lemma {:induction false} CoveredLoopKeeps(s: Store, orgId: Id, listing: seq<Env>, envs: seq<Environment>)
    requires Covers(listing, envs)
    ensures EnvLoop(s, orgId, listing, envs).after == s
    decreases |envs|
  {
    if envs != [] {
      assert envs[0] in envs;
      assert forall e :: e in envs[1..] ==> e in envs;
      CoveredLoopKeeps(s, orgId, listing, envs[1..]);
    }
  }

  lemma EnvsGrowTrans(a: Store, b: Store, c: Store)
    requires EnvsGrow(a, b) && EnvsGrow(b, c)
    ensures EnvsGrow(a, c)
  {
    forall o ensures Lookup(a.envs, o) <= Lookup(c.envs, o) {
      assert Lookup(a.envs, o) <= Lookup(b.envs, o) <= Lookup(c.envs, o);
    }
  }

  /** One step only appends; with no create failing, an environment the
      listing lacks is in the organization's list afterwards. */
  lemma EnvStepCovers(s: Store, orgId: Id, listing: seq<Env>, env: Environment)
    ensures EnvsGrow(s, EnvStep(s, orgId, listing, env).after)
    ensures MutationsSucceed(s) ==>
      FirstWith(listing, EnvName, env.name).Some? ||
      FirstWith(Lookup(EnvStep(s, orgId, listing, env).after.envs, orgId), EnvName, env.name).Some?
  {
    var s1 := EnvStep(s, orgId, listing, env).after;
    if FirstWith(listing, EnvName, env.name).None? && CreateEnv(orgId, env) !in s.failing {
      var x := Env(FreshId(s.nextId), env.name);
      assert s1 == s.(envs := s.envs[orgId := Lookup(s.envs, orgId) + [x]], nextId := s.nextId + 1);
      assert forall o :: Lookup(s.envs, o) <= Lookup(s1.envs, o);
      var l1 := Lookup(s1.envs, orgId);
      assert l1[|l1| - 1] == x;
    } else {
      assert s1 == s;
    }
  }

  /** Whatever fails, the loop only appends environments; with no create
      failing, every desired environment the listing lacks is in the
      organization's list afterwards. */
  lemma {:induction false} EnvLoopCovers(s: Store, orgId: Id, listing: seq<Env>, envs: seq<Environment>)
    ensures EnvsGrow(s, EnvLoop(s, orgId, listing, envs).after)
    ensures MutationsSucceed(s) ==> forall e :: e in envs ==>
      FirstWith(listing, EnvName, e.name).Some? ||
      FirstWith(Lookup(EnvLoop(s, orgId, listing, envs).after.envs, orgId), EnvName, e.name).Some?
    decreases |envs|
  {
    if envs != [] {
      var env := envs[0];
      var s1 := EnvStep(s, orgId, listing, env).after;
      var after := EnvLoop(s1, orgId, listing, envs[1..]).after;
      assert EnvLoop(s, orgId, listing, envs).after == after;
      EnvStepCovers(s, orgId, listing, env);
      EnvLoopCovers(s1, orgId, listing, envs[1..]);
      EnvsGrowTrans(s, s1, after);
      if MutationsSucceed(s) && FirstWith(Lookup(s1.envs, orgId), EnvName, env.name).Some? {
        FirstWithExtend(Lookup(s1.envs, orgId), Lookup(after.envs, orgId), EnvName, env.name);
      }
      assert forall e :: e in envs ==> e == env || e in envs[1..];
    }
  }

  /** With no create failing, a completed configuration step leaves every
      desired environment of a matched configuration in its organization's
      list; whatever fails, the lists only grow. */
  lemma ConfigStepCovers(s: Store, orgs: seq<Org>, entry: Option<GroupConfig>)
    ensures EnvsGrow(s, ConfigStep(s, orgs, entry).after)
    ensures MutationsSucceed(s) && ConfigStep(s, orgs, entry).outcome.Done? &&
            entry.Some? && FirstWith(orgs, OrgName, entry.value.name).Some? && entry.value.environments.Some? ==>
      Covers(Lookup(ConfigStep(s, orgs, entry).after.envs, FirstWith(orgs, OrgName, entry.value.name).value.id),
             entry.value.environments.value)
  {
    if entry.Some? && FirstWith(orgs, OrgName, entry.value.name).Some? && entry.value.environments.Some? {
      var config := entry.value;
      var id := FirstWith(orgs, OrgName, config.name).value.id;
      var list := ListEnvs(id, EnvsPage);
      if list !in s.failing {
        var listing := Take(Lookup(s.envs, id), EnvsPage);
        var l := EnvLoop(s, id, listing, config.environments.value);
        assert ConfigStep(s, orgs, entry) == Trace(l.after, [list] + l.events, Done);
        EnvLoopCovers(s, id, listing, config.environments.value);
        if MutationsSucceed(s) {
          forall e | e in config.environments.value
            ensures FirstWith(Lookup(l.after.envs, id), EnvName, e.name).Some?
          {
            if FirstWith(listing, EnvName, e.name).Some? {
              assert listing <= Lookup(l.after.envs, id);
              FirstWithExtend(listing, Lookup(l.after.envs, id), EnvName, e.name);
            }
          }
        }
      }
    }
  }

  /** With no create failing, a completed run over the configurations leaves
      every matched configuration covered; whatever fails, the lists only grow. */
  lemma {:induction false} ConfigsRunCovers(s: Store, orgs: seq<Org>, entries: seq<Option<GroupConfig>>)
    ensures EnvsGrow(s, ConfigsRun(s, orgs, entries).after)
    ensures MutationsSucceed(s) && ConfigsRun(s, orgs, entries).outcome.Done? ==>
      ConfigsCovered(ConfigsRun(s, orgs, entries).after, orgs, entries)
    decreases |entries|
  {
    if entries != [] {
      var t := ConfigStep(s, orgs, entries[0]);
      ConfigStepCovers(s, orgs, entries[0]);
      if !t.outcome.Abort? {
        var rest := ConfigsRun(t.after, orgs, entries[1..]);
        assert ConfigsRun(s, orgs, entries) == Then(t.events, rest);
        ConfigsRunCovers(t.after, orgs, entries[1..]);
        var after := rest.after;
        if MutationsSucceed(s) && rest.outcome.Done? {
          forall i | 0 <= i < |entries| && entries[i].Some? &&
                     FirstWith(orgs, OrgName, entries[i].value.name).Some? && entries[i].value.environments.Some?
            ensures Covers(Lookup(after.envs, FirstWith(orgs, OrgName, entries[i].value.name).value.id),
                           entries[i].value.environments.value)
          {
            var id := FirstWith(orgs, OrgName, entries[i].value.name).value.id;
            if i == 0 {
              CoversGrow(Lookup(t.after.envs, id), Lookup(after.envs, id), entries[0].value.environments.value);
            } else {
              assert entries[1..][i - 1] == entries[i];
            }
          }
        }
      }
    }
  }

  /** A covered configuration step whose organization lists every environment
      on the first page posts nothing and changes nothing. */
  lemma CoveredStepPostsNothing(s: Store, orgs: seq<Org>, entry: Option<GroupConfig>)
    requires entry.Some? && FirstWith(orgs, OrgName, entry.value.name).Some? && entry.value.environments.Some? ==>
      var id := FirstWith(orgs, OrgName, entry.value.name).value.id;
      Covers(Lookup(s.envs, id), entry.value.environments.value) && |Lookup(s.envs, id)| <= EnvsPage
    ensures Select(ConfigStep(s, orgs, entry).events, PostedEnv) == []
    ensures ConfigStep(s, orgs, entry).after == s
  {
    if entry.Some? && FirstWith(orgs, OrgName, entry.value.name).Some? && entry.value.environments.Some? {
      var id := FirstWith(orgs, OrgName, entry.value.name).value.id;
      var list := ListEnvs(id, EnvsPage);
      if list !in s.failing {
        var envs := entry.value.environments.value;
        assert Take(Lookup(s.envs, id), EnvsPage) == Lookup(s.envs, id);
        ConfigPosts(s, orgs, entry.value);
        AbsentOfCovers(envs, Lookup(s.envs, id));
        CoveredLoopKeeps(s, id, Lookup(s.envs, id), envs);
      } else {
        assert ConfigStep(s, orgs, entry).events == [list];
      }
    }
  }

  /** A run over covered configurations, each of whose organizations still
      lists every environment on the first page, posts nothing and changes
      nothing. */
  lemma {:induction false} CoveredConfigsPostNothing(s: Store, orgs: seq<Org>, entries: seq<Option<GroupConfig>>)
    requires ConfigsCovered(s, orgs, entries)
    requires forall o :: o in orgs ==> |Lookup(s.envs, o.id)| <= EnvsPage
    ensures Select(ConfigsRun(s, orgs, entries).events, PostedEnv) == []
    ensures ConfigsRun(s, orgs, entries).after == s
    decreases |entries|
  {
    if entries != [] {
      var entry := entries[0];
      if entry.Some? && FirstWith(orgs, OrgName, entry.value.name).Some? {
        assert FirstWith(orgs, OrgName, entry.value.name).value in orgs;
      }
      CoveredStepPostsNothing(s, orgs, entry);
      var t := ConfigStep(s, orgs, entry);
      if !t.outcome.Abort? {
        assert forall i :: 1 <= i < |entries| ==> entries[1..][i - 1] == entries[i];
        CoveredConfigsPostNothing(s, orgs, entries[1..]);
        SelectConcat(t.events, ConfigsRun(s, orgs, entries[1..]).events, PostedEnv);
      }
    }
  }

  /** Idempotence: once a run completes with no create failing, running the
      same list again against the remote it left posts nothing, provided each
      organization still lists all its environments on the first page of 150. */
  lemma SecondRunPostsNothing(s: Store, configs: GroupList)
    requires MutationsSucceed(s)
    requires ReconcileRun(s, configs).outcome.Done?
    requires forall o :: o in s.orgs ==> |Lookup(ReconcileRun(s, configs).after.envs, o.id)| <= EnvsPage
    ensures Select(ReconcileRun(ReconcileRun(s, configs).after, configs).events, PostedEnv) == []
  {
    var list := if configs.Some? then configs.value else [];
    var r := ConfigsRun(s, s.orgs, list);
    assert ReconcileRun(s, configs) == Then([ListOrgs], r);
    ConfigsRunCovers(s, s.orgs, list);
    var s1 := r.after;
    assert ListOrgs !in s1.failing;
    CoveredConfigsPostNothing(s1, s1.orgs, list);
    assert ReconcileRun(s1, configs) == Then([ListOrgs], ConfigsRun(s1, s1.orgs, list));
    SelectConcat([ListOrgs], ConfigsRun(s1, s1.orgs, list).events, PostedEnv);
  }

  // ---- Implementation ----

  /** `createEnvironment`: one post, its failure caught and logged. */
  method CreateEnvironment(remote: Remote, orgId: Id, env: Environment)
    modifies remote
    ensures var (after, resp) := Respond(old(remote.Snapshot()), CreateEnv(orgId, env));
      remote.Reached(old(remote.log), after,
        if resp.Failed? then [CreateEnv(orgId, env), Error(env.name)] else [CreateEnv(orgId, env)])
  {
    var resp := remote.Send(CreateEnv(orgId, env));
    if resp.Failed? {
      remote.Note(Error(env.name));
    }
  }

  /** The body of the inner loop for one environment. */
  method ReconcileEnvironment(remote: Remote, orgId: Id, listing: seq<Env>, env: Environment)
    modifies remote
    ensures var e := EnvStep(old(remote.Snapshot()), orgId, listing, env);
      remote.Reached(old(remote.log), e.after, e.events)
  {
    if FirstWith(listing, EnvName, env.name).None? {
      CreateEnvironment(remote, orgId, env);
    } else {
      remote.Note(Warn(env.name));
    }
  }

  /** The inner loop over a configuration's environments (the creates are not
      awaited in the source; here they run one after the other). */
  method CreateMissingEnvironments(remote: Remote, orgId: Id, listing: seq<Env>, envs: seq<Environment>)
    modifies remote
    ensures var e := EnvLoop(old(remote.Snapshot()), orgId, listing, envs);
      remote.Reached(old(remote.log), e.after, e.events)
  {
    ghost var s0, log0 := remote.Snapshot(), remote.log;
    ghost var done: seq<Event> := [];
    var i := 0;
    while i < |envs|
      invariant 0 <= i <= |envs|
      invariant remote.log == log0 + done
      invariant EnvLoop(s0, orgId, listing, envs) == Also(done, EnvLoop(remote.Snapshot(), orgId, listing, envs[i..]))
    {
      ghost var step := EnvStep(remote.Snapshot(), orgId, listing, envs[i]).events;
      assert envs[i..][1..] == envs[i + 1..];
      ReconcileEnvironment(remote, orgId, listing, envs[i]);
      AppendAssoc(log0, done, step);
      AlsoAlso(done, step, EnvLoop(remote.Snapshot(), orgId, listing, envs[i + 1..]));
      done := done + step;
      i := i + 1;
    }
  }

  /** The body of the outer loop for one configuration. */
  method ReconcileConfig(remote: Remote, orgs: seq<Org>, entry: Option<GroupConfig>) returns (o: Outcome)
    modifies remote
    ensures var t := ConfigStep(old(remote.Snapshot()), orgs, entry);
      remote.Reached(old(remote.log), t.after, t.events) && o == t.outcome
  {
    if entry.None? {
      return if orgs != [] then Abort(NullEntry) else Done;
    }
    var config := entry.value;
    var org := FirstWith(orgs, OrgName, config.name);
    if org.None? || config.environments.None? {
      return Done;
    }
    ghost var log0 := remote.log;
    var resp := remote.Send(ListEnvs(org.value.id, EnvsPage));
    if !resp.Envs? {
      return Abort(RequestFailed(ListEnvs(org.value.id, EnvsPage)));
    }
    ghost var rest := EnvLoop(remote.Snapshot(), org.value.id, resp.envs, config.environments.value).events;
    CreateMissingEnvironments(remote, org.value.id, resp.envs, config.environments.value);
    AppendAssoc(log0, [ListEnvs(org.value.id, EnvsPage)], rest);
    o := Done;
  }

  /** The outer loop over the top-level configurations. */
  method ReconcileConfigs(remote: Remote, orgs: seq<Org>, list: seq<Option<GroupConfig>>) returns (o: Outcome)
    modifies remote
    ensures var t := ConfigsRun(old(remote.Snapshot()), orgs, list);
      remote.Reached(old(remote.log), t.after, t.events) && o == t.outcome
  {
    ghost var s0, log0 := remote.Snapshot(), remote.log;
    ghost var done: seq<Event> := [];
    var i := 0;
    while i < |list|
      invariant 0 <= i <= |list|
      invariant remote.log == log0 + done
      invariant ConfigsRun(s0, orgs, list) == Then(done, ConfigsRun(remote.Snapshot(), orgs, list[i..]))
    {
      ghost var t := ConfigStep(remote.Snapshot(), orgs, list[i]);
      assert list[i..][1..] == list[i + 1..];
      o := ReconcileConfig(remote, orgs, list[i]);
      AppendAssoc(log0, done, t.events);
      if o.Abort? {
        return;
      }
      ThenThen(done, t.events, ConfigsRun(remote.Snapshot(), orgs, list[i + 1..]));
      done := done + t.events;
      i := i + 1;
    }
    o := Done;
  }

  /** The exported reconciler. */
  method ReconcileEnvironments(remote: Remote, configs: GroupList) returns (o: Outcome)
    modifies remote
    ensures var t := ReconcileRun(old(remote.Snapshot()), configs);
      remote.Reached(old(remote.log), t.after, t.events) && o == t.outcome
  {
    ghost var log0 := remote.log;
    var resp := remote.Send(ListOrgs);
    if !resp.Orgs? {
      return Abort(RequestFailed(ListOrgs));
    }
    var list := if configs.Some? then configs.value else [];
    ghost var rest := ConfigsRun(remote.Snapshot(), resp.orgs, list).events;
    o := ReconcileConfigs(remote, resp.orgs, list);
    AppendAssoc(log0, [ListOrgs], rest);
  }
}
