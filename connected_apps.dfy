/** The connected-application reconciler (providers/access-management/connected-apps.js):
    one listing of the existing applications, then one create per desired
    application whose `client_name` the listing lacks. There is no update or
    delete, and a failed request rejects the whole call. */
module ConnectedApps {
  import opened Common
  import opened Manifest
  import opened Platform

  /** The listing is fetched with `limit=100&offset=0`. */
  const AppsPage: nat := 100

  // ---- Specification ----

  /** The loop of `createConnectedApps` against the listing fetched once. A
      completed loop has added to the remote exactly the applications it posted. */
  function AppLoop(s: Store, listing: seq<ConnectedApp>, apps: seq<ConnectedApp>): (t: Trace)
    ensures t.after.failing == s.failing
    ensures t.outcome.Done? ==> t.after.apps == s.apps + Select(t.events, PostedApp)
    decreases |apps|
  {
    if apps == [] then Trace(s, [], Done)
    else
      var app := apps[0];
      if FirstWith(listing, AppName, app.clientName).Some? then
        var rest := AppLoop(s, listing, apps[1..]);
        SelectConcat([Warn(app.clientName)], rest.events, PostedApp);
        Then([Warn(app.clientName)], rest)
      else
        var (s1, resp) := Respond(s, CreateApp(app));
        if resp.Failed? then Rejected(s1, [], CreateApp(app))
        else
          var rest := AppLoop(s1, listing, apps[1..]);
          SelectConcat([CreateApp(app)], rest.events, PostedApp);
          assert s1.apps == s.apps + [app];
          AppendAssoc(s.apps, [app], Select(rest.events, PostedApp));
          Then([CreateApp(app)], rest)
  }

  /** `createConnectedApps`: fetch the listing, then run the loop (a missing list is empty). */
  function CreateAppsRun(s: Store, apps: Option<seq<ConnectedApp>>): Trace
  {
    var (s1, resp) := Respond(s, ListApps(AppsPage));
    if !resp.Apps? then Rejected(s1, [], ListApps(AppsPage))
    else Then([ListApps(AppsPage)], AppLoop(s1, resp.apps, Desired(apps)))
  }

  /** The exported reconciler: list the organizations (the first one's id is
      read, so an empty list is a TypeError), then `createConnectedApps`. */
  function ReconcileRun(s: Store, apps: Option<seq<ConnectedApp>>): Trace
  {
    var (s1, resp) := Respond(s, ListOrgs);
    if !resp.Orgs? then Rejected(s1, [], ListOrgs)
    else if resp.orgs == [] then Trace(s1, [ListOrgs], Abort(NoOrganization))
    else Then([ListOrgs], CreateAppsRun(s1, apps))
  }

  /** The desired applications whose client name is not in the listing, in order. */
  function Absent(apps: seq<ConnectedApp>, listing: seq<ConnectedApp>): seq<ConnectedApp>
  {
    if apps == [] then []
    else (if FirstWith(listing, AppName, apps[0].clientName).None? then [apps[0]] else []) + Absent(apps[1..], listing)
  }

  /** The body of a create-application request. */
  function PostedApp(e: Event): Option<ConnectedApp>
  {
    if e.CreateApp? then Some(e.app) else None
  }

  // ---- Properties ----

  /** One step of the loop: a desired application whose name is listed only warns. */
  lemma AppLoopListed(s: Store, listing: seq<ConnectedApp>, apps: seq<ConnectedApp>)
    requires apps != [] && FirstWith(listing, AppName, apps[0].clientName).Some?
    ensures AppLoop(s, listing, apps) == Then([Warn(apps[0].clientName)], AppLoop(s, listing, apps[1..]))
  {
  }

  /** One step of the loop: a failed post stops it. */
  lemma AppLoopRejected(s: Store, listing: seq<ConnectedApp>, apps: seq<ConnectedApp>)
    requires apps != [] && FirstWith(listing, AppName, apps[0].clientName).None?
    requires CreateApp(apps[0]) in s.failing
    ensures AppLoop(s, listing, apps) == Trace(s, [CreateApp(apps[0])], Abort(RequestFailed(CreateApp(apps[0]))))
  {
  }

  /** One step of the loop: a successful post adds the application to the remote. */
  lemma AppLoopCreated(s: Store, listing: seq<ConnectedApp>, apps: seq<ConnectedApp>)
    requires apps != [] && FirstWith(listing, AppName, apps[0].clientName).None?
    requires CreateApp(apps[0]) !in s.failing
    ensures AppLoop(s, listing, apps) ==
      Then([CreateApp(apps[0])], AppLoop(s.(apps := s.apps + [apps[0]], nextId := s.nextId + 1), listing, apps[1..]))
  {
  }

  lemma AbsentStep(apps: seq<ConnectedApp>, listing: seq<ConnectedApp>)
    requires apps != []
    ensures Absent(apps, listing) ==
      if FirstWith(listing, AppName, apps[0].clientName).Some? then Absent(apps[1..], listing)
      else [apps[0]] + Absent(apps[1..], listing)
  {
  }

  /** The loop posts, unchanged and in order, exactly the applications absent
      from the listing (duplicates included, since the listing is never
      refreshed); a failed post stops it, so what was posted is a prefix of those. */
  lemma {:induction false} AppLoopPosts(s: Store, listing: seq<ConnectedApp>, apps: seq<ConnectedApp>)
    ensures var t := AppLoop(s, listing, apps);
      && Select(t.events, PostedApp) <= Absent(apps, listing)
      && (t.outcome.Done? ==> Select(t.events, PostedApp) == Absent(apps, listing))
    decreases apps
  {
    if apps != [] {
      var app, rest := apps[0], apps[1..];
      AbsentStep(apps, listing);
      if FirstWith(listing, AppName, app.clientName).Some? {
        AppLoopListed(s, listing, apps);
        var r := AppLoop(s, listing, rest);
        AppLoopPosts(s, listing, rest);
        SelectConcat([Warn(app.clientName)], r.events, PostedApp);
        SelectNone([Warn(app.clientName)], PostedApp);
        assert Select(AppLoop(s, listing, apps).events, PostedApp) == Select(r.events, PostedApp);
      } else if CreateApp(app) in s.failing {
        AppLoopRejected(s, listing, apps);
        assert Select([CreateApp(app)], PostedApp) == [app];
      } else {
        AppLoopCreated(s, listing, apps);
        var s1 := s.(apps := s.apps + [app], nextId := s.nextId + 1);
        var r := AppLoop(s1, listing, rest);
        AppLoopPosts(s1, listing, rest);
        SelectConcat([CreateApp(app)], r.events, PostedApp);
        assert Select([CreateApp(app)], PostedApp) == [app];
        PrefixExtend([app], Select(r.events, PostedApp), Absent(rest, listing));
      }
    }
  }

  /** The loop only stops on a failed post. */
  lemma {:induction false} AppLoopDone(s: Store, listing: seq<ConnectedApp>, apps: seq<ConnectedApp>)
    requires MutationsSucceed(s)
    ensures AppLoop(s, listing, apps).outcome.Done?
    decreases apps
  {
    if apps != [] {
      var app, rest := apps[0], apps[1..];
      if FirstWith(listing, AppName, app.clientName).Some? {
        AppLoopListed(s, listing, apps);
        AppLoopDone(s, listing, rest);
      } else {
        assert IsMutation(CreateApp(app));
        AppLoopCreated(s, listing, apps);
        AppLoopDone(s.(apps := s.apps + [app], nextId := s.nextId + 1), listing, rest);
      }
    }
  }

  /** Every event of the loop is a create for a desired application absent from
      the listing, or a warn naming one present in it: nothing is updated or deleted. */
  lemma {:induction false} AppLoopEvents(s: Store, listing: seq<ConnectedApp>, apps: seq<ConnectedApp>)
    ensures forall e :: e in AppLoop(s, listing, apps).events ==>
      || (e.CreateApp? && e.app in apps && FirstWith(listing, AppName, e.app.clientName).None?)
      || (e.Warn? && exists a :: a in apps && a.clientName == e.subject && FirstWith(listing, AppName, a.clientName).Some?)
    decreases |apps|
  {
    if apps != [] {
      var app := apps[0];
      if FirstWith(listing, AppName, app.clientName).Some? {
        AppLoopEvents(s, listing, apps[1..]);
      } else {
        var (s1, resp) := Respond(s, CreateApp(app));
        if !resp.Failed? {
          AppLoopEvents(s1, listing, apps[1..]);
        }
      }
    }
  }

  /** The reconciler only lists organizations and applications, posts
      applications and warns; a missing list posts nothing. */
  lemma OnlyListsAndPosts(s: Store, apps: Option<seq<ConnectedApp>>)
    ensures forall e :: e in ReconcileRun(s, apps).events ==>
      e == ListOrgs || e == ListApps(AppsPage) || e.CreateApp? || e.Warn?
    ensures apps.None? ==> forall e :: e in ReconcileRun(s, apps).events ==> !e.CreateApp?
  {
    var (s1, resp) := Respond(s, ListOrgs);
    if resp.Orgs? && resp.orgs != [] {
      var (s2, listing) := Respond(s1, ListApps(AppsPage));
      if listing.Apps? {
        AppLoopEvents(s2, listing.apps, Desired(apps));
      }
    }
  }

  /** The desired list, a missing one being empty. */
  function Desired(apps: Option<seq<ConnectedApp>>): seq<ConnectedApp>
  {
    if apps.Some? then apps.value else []
  }

  /** Both listings succeed and there is an organization. */
  predicate ListingsSucceed(s: Store)
  {
    ListOrgs !in s.failing && s.orgs != [] && ListApps(AppsPage) !in s.failing
  }

  /** The reconciler either stops before the loop, having posted nothing and
      changed nothing, or runs the loop against the first page of applications. */
  lemma ReconcileShape(s: Store, apps: Option<seq<ConnectedApp>>)
    ensures var t := ReconcileRun(s, apps);
      if ListingsSucceed(s) then t == Then([ListOrgs, ListApps(AppsPage)], AppLoop(s, Take(s.apps, AppsPage), Desired(apps)))
      else t.outcome.Abort? && t.after == s && Select(t.events, PostedApp) == []
  {
    if ListingsSucceed(s) {
      ReconcileReachesLoop(s, apps);
    } else {
      ReconcileStopsEarly(s, apps);
    }
  }

  lemma ReconcileReachesLoop(s: Store, apps: Option<seq<ConnectedApp>>)
    requires ListingsSucceed(s)
    ensures ReconcileRun(s, apps) == Then([ListOrgs, ListApps(AppsPage)], AppLoop(s, Take(s.apps, AppsPage), Desired(apps)))
  {
    var l := AppLoop(s, Take(s.apps, AppsPage), Desired(apps));
    assert Respond(s, ListOrgs) == (s, Orgs(s.orgs));
    assert ReconcileRun(s, apps) == Then([ListOrgs], CreateAppsRun(s, apps));
    assert Respond(s, ListApps(AppsPage)) == (s, Apps(Take(s.apps, AppsPage)));
    assert CreateAppsRun(s, apps) == Then([ListApps(AppsPage)], l);
    ThenThen([ListOrgs], [ListApps(AppsPage)], l);
    assert [ListOrgs] + [ListApps(AppsPage)] == [ListOrgs, ListApps(AppsPage)];
  }

  lemma ReconcileStopsEarly(s: Store, apps: Option<seq<ConnectedApp>>)
    requires !ListingsSucceed(s)
    ensures var t := ReconcileRun(s, apps);
      t.outcome.Abort? && t.after == s && Select(t.events, PostedApp) == []
  {
    var t := ReconcileRun(s, apps);
    if ListOrgs in s.failing || s.orgs == [] {
      assert t.events == [ListOrgs];
      SelectNone([ListOrgs], PostedApp);
    } else {
      assert t.events == [ListOrgs, ListApps(AppsPage)];
      SelectNone([ListOrgs, ListApps(AppsPage)], PostedApp);
    }
  }

  /** What the reconciler posts is a prefix of the desired applications absent
      from the listing, and all of them once it completes. */
  lemma ReconcilePosts(s: Store, apps: Option<seq<ConnectedApp>>)
    ensures var t := ReconcileRun(s, apps);
      && Select(t.events, PostedApp) <= Absent(Desired(apps), Take(s.apps, AppsPage))
      && (t.outcome.Done? ==> Select(t.events, PostedApp) == Absent(Desired(apps), Take(s.apps, AppsPage)))
  {
    var t := ReconcileRun(s, apps);
    ReconcileShape(s, apps);
    if ListingsSucceed(s) {
      var l := AppLoop(s, Take(s.apps, AppsPage), Desired(apps));
      AppLoopPosts(s, Take(s.apps, AppsPage), Desired(apps));
      SelectConcat([ListOrgs, ListApps(AppsPage)], l.events, PostedApp);
      SelectNone([ListOrgs, ListApps(AppsPage)], PostedApp);
    }
  }

  /** A completed run has added exactly what it posted to the remote; with no
      failing post, a run that gets past the two listings completes. */
  lemma ReconcileStore(s: Store, apps: Option<seq<ConnectedApp>>)
    ensures var t := ReconcileRun(s, apps);
      && (t.outcome.Done? ==> t.after.apps == s.apps + Select(t.events, PostedApp))
      && (MutationsSucceed(s) && ListingsSucceed(s) ==> t.outcome.Done?)
  {
    var t := ReconcileRun(s, apps);
    ReconcileShape(s, apps);
    if ListingsSucceed(s) {
      var l := AppLoop(s, Take(s.apps, AppsPage), Desired(apps));
      if MutationsSucceed(s) {
        AppLoopDone(s, Take(s.apps, AppsPage), Desired(apps));
      }
      SelectConcat([ListOrgs, ListApps(AppsPage)], l.events, PostedApp);
      SelectNone([ListOrgs, ListApps(AppsPage)], PostedApp);
    }
  }

  lemma AbsentOfCovered(apps: seq<ConnectedApp>, listing: seq<ConnectedApp>)
    requires forall a :: a in apps ==> exists b :: b in listing && b.clientName == a.clientName
    ensures Absent(apps, listing) == []
    decreases |apps|
  {
    if apps != [] {
      var b :| b in listing && b.clientName == apps[0].clientName;
      var i :| 0 <= i < |listing| && listing[i] == b;
      assert AppName(listing[i]) == apps[0].clientName;
      forall a | a in apps[1..] ensures exists b :: b in listing && b.clientName == a.clientName {
        assert a in apps;
      }
      AbsentOfCovered(apps[1..], listing);
    }
  }

  lemma AbsentCovered(apps: seq<ConnectedApp>, listing: seq<ConnectedApp>, a: ConnectedApp)
    requires a in apps && FirstWith(listing, AppName, a.clientName).None?
    ensures a in Absent(apps, listing)
    decreases |apps|
  {
    if apps[0] != a {
      AbsentCovered(apps[1..], listing, a);
    }
  }

  /** Idempotence: once a run completes, running the same list again against
      the remote it left posts nothing, provided the listing's first page still
      holds every application. */
  lemma SecondRunPostsNothing(s: Store, apps: Option<seq<ConnectedApp>>)
    requires ReconcileRun(s, apps).outcome.Done?
    requires |ReconcileRun(s, apps).after.apps| <= AppsPage
    ensures Select(ReconcileRun(ReconcileRun(s, apps).after, apps).events, PostedApp) == []
  {
    var list := Desired(apps);
    var t1 := ReconcileRun(s, apps);
    var s1 := t1.after;
    ReconcilePosts(s, apps);
    ReconcileStore(s, apps);
    var listing := Take(s.apps, AppsPage);
    forall a | a in list ensures exists b :: b in s1.apps && b.clientName == a.clientName {
      var f := FirstWith(listing, AppName, a.clientName);
      if f.Some? {
        assert f.value in s.apps;
      } else {
        AbsentCovered(list, listing, a);
        assert a in s1.apps;
      }
    }
    assert Take(s1.apps, AppsPage) == s1.apps;
    AbsentOfCovered(list, s1.apps);
    ReconcilePosts(s1, apps);
  }

  /** The listing is not refreshed: two desired applications with the same new
      client name are both posted. */
  lemma DuplicatesBothPosted(s: Store, listing: seq<ConnectedApp>, a: ConnectedApp, b: ConnectedApp)
    requires a.clientName == b.clientName
    requires FirstWith(listing, AppName, a.clientName).None?
    requires MutationsSucceed(s)
    ensures Select(AppLoop(s, listing, [a, b]).events, PostedApp) == [a, b]
  {
    AppLoopPosts(s, listing, [a, b]);
    AppLoopDone(s, listing, [a, b]);
    assert [a, b][1..] == [b] && [b][1..] == [];
    assert Absent([b], listing) == [b];
    assert Absent([a, b], listing) == [a] + Absent([b], listing);
  }

  // ---- Implementation ----

  /** The loop of `createConnectedApps`, against the listing fetched once. */
  method CreateAbsentApps(remote: Remote, listing: seq<ConnectedApp>, list: seq<ConnectedApp>) returns (o: Outcome)
    modifies remote
    ensures var t := AppLoop(old(remote.Snapshot()), listing, list);
      remote.Reached(old(remote.log), t.after, t.events) && o == t.outcome
  {
    ghost var s0, log0 := remote.Snapshot(), remote.log;
    ghost var done: seq<Event> := [];
    var i := 0;
    while i < |list|
      invariant 0 <= i <= |list|
      invariant remote.log == log0 + done
      invariant AppLoop(s0, listing, list) == Then(done, AppLoop(remote.Snapshot(), listing, list[i..]))
    {
      var app := list[i];
      ghost var before := remote.Snapshot();
      assert list[i..][1..] == list[i + 1..];
      if FirstWith(listing, AppName, app.clientName).Some? {
        AppLoopListed(before, listing, list[i..]);
        remote.Note(Warn(app.clientName));
        AppendAssoc(log0, done, [Warn(app.clientName)]);
        ThenThen(done, [Warn(app.clientName)], AppLoop(before, listing, list[i + 1..]));
        done := done + [Warn(app.clientName)];
      } else {
        var r := remote.Send(CreateApp(app));
        AppendAssoc(log0, done, [CreateApp(app)]);
        if r.Failed? {
          AppLoopRejected(before, listing, list[i..]);
          return Abort(RequestFailed(CreateApp(app)));
        }
        AppLoopCreated(before, listing, list[i..]);
        ThenThen(done, [CreateApp(app)], AppLoop(remote.Snapshot(), listing, list[i + 1..]));
        done := done + [CreateApp(app)];
      }
      i := i + 1;
    }
    o := Done;
  }

  /** `createConnectedApps`. */
  method CreateConnectedApps(remote: Remote, apps: Option<seq<ConnectedApp>>) returns (o: Outcome)
    modifies remote
    ensures var t := CreateAppsRun(old(remote.Snapshot()), apps);
      remote.Reached(old(remote.log), t.after, t.events) && o == t.outcome
  {
    ghost var log0 := remote.log;
    var resp := remote.Send(ListApps(AppsPage));
    if !resp.Apps? {
      return Abort(RequestFailed(ListApps(AppsPage)));
    }
    ghost var rest := AppLoop(remote.Snapshot(), resp.apps, Desired(apps)).events;
    o := CreateAbsentApps(remote, resp.apps, Desired(apps));
    AppendAssoc(log0, [ListApps(AppsPage)], rest);
  }

  /** The exported connected-applications reconciler. */
  method ReconcileConnectedApps(remote: Remote, apps: Option<seq<ConnectedApp>>) returns (o: Outcome)
    modifies remote
    ensures var t := ReconcileRun(old(remote.Snapshot()), apps);
      remote.Reached(old(remote.log), t.after, t.events) && o == t.outcome
  {
    ghost var log0 := remote.log;
    var resp := remote.Send(ListOrgs);
    if !resp.Orgs? {
      return Abort(RequestFailed(ListOrgs));
    }
    if resp.orgs == [] {
      return Abort(NoOrganization);
    }
    ghost var rest := CreateAppsRun(remote.Snapshot(), apps).events;
    o := CreateConnectedApps(remote, apps);
    AppendAssoc(log0, [ListOrgs], rest);
  }
}
