/** The identity-provider reconciler (providers/access-management/identity-providers.js):
    list the organizations and read the first one's id, list that
    organization's identity providers once, then post every desired provider
    whose name the listing lacks, its payload merged with a named profile's
    defaults. Any failure, including an unknown profile, rejects the call. */
module IdentityProviders {
  import opened Common
  import opened Manifest
  import opened Platform

  // ---- The tables ----

  /** `TYPES.saml` and `TYPES.openid`. */
  const SamlType := ProviderType("SAML 2.0", "saml")
  const OpenIdType := ProviderType("OpenID Connect", "openid")

  /** An entry of `PROFILES`: the defaults for the `saml` block and the
      service provider used when the manifest gives none. */
  datatype Profile = Profile(saml: map<string, Json>, serviceProvider: Json)

  const AzureClaims: map<string, Json> := map[
    "email_attribute" := JStr("http://schemas.xmlsoap.org/ws/2005/05/identity/claims/emailaddress"),
    "group_attribute" := JStr("http://schemas.xmlsoap.org/ws/2005/05/identity/claims/groups"),
    "lastname_attribute" := JStr("http://schemas.xmlsoap.org/ws/2005/05/identity/claims/surname"),
    "username_attribute" := JStr("http://schemas.xmlsoap.org/ws/2005/05/identity/claims/name"),
    "firstname_attribute" := JStr("http://schemas.xmlsoap.org/ws/2005/05/identity/claims/givenname")]

  const AzureSaml: map<string, Json> := map[
    "claims_mapping" := JObj(AzureClaims),
    "sp_initiated_sso_enabled" := JBool(true),
    "idp_initiated_sso_enabled" := JBool(true),
    "require_encrypted_saml_assertions" := JBool(false)]

  const AzureSsoUrl := "https://login.microsoftonline.com/deff24bb-2089-4400-8c8e-f71e680378b2/saml2"

  const AzureServiceProvider: Json :=
    JObj(map["urls" := JObj(map["sign_on" := JStr(AzureSsoUrl), "sign_out" := JStr(AzureSsoUrl)])])

  /** `PROFILES[name]`: only "azure" is defined. */
  function ProfileNamed(name: string): (r: Option<Profile>)
    ensures r.Some? <==> name == "azure"
  {
    if name == "azure" then Some(Profile(AzureSaml, AzureServiceProvider)) else None
  }

  // ---- The payload ----

  /** The provider kind: "saml" when the manifest gives a `saml` block. */
  function KindOf(p: IdentityProvider): ProviderType
  {
    if p.saml.Some? then SamlType else OpenIdType
  }

  /** `getData(profile, type, provider)`, or None when `PROFILES[profile]` is
      undefined and reading its `saml` throws. A missing `saml` block is
      filled from the profile whatever the kind. */
  function ProviderData(p: IdentityProvider): (r: Option<ProviderPayload>)
    ensures r.None? <==> ProfileNamed(p.profile).None?
    ensures r.Some? ==>
      var prof := ProfileNamed(p.profile).value;
      var desired := if p.saml.Some? then p.saml.value else map[];
      && r.value.name == p.name
      && r.value.providerType == (if p.saml.Some? then SamlType else OpenIdType)
      && r.value.saml.Keys == desired.Keys + prof.saml.Keys
      && (forall k :: k in desired ==> r.value.saml[k] == desired[k])
      && (forall k :: k in prof.saml && k !in desired ==> r.value.saml[k] == prof.saml[k])
      && r.value.serviceProvider ==
           (if p.serviceProvider.Some? && Truthy(p.serviceProvider.value) then p.serviceProvider.value
            else prof.serviceProvider)
  {
    var prof := ProfileNamed(p.profile);
    if prof.None? then None
    else
      var saml := Defaults(if p.saml.Some? then p.saml.value else map[], prof.value.saml);
      var sp := if p.serviceProvider.Some? && Truthy(p.serviceProvider.value) then p.serviceProvider.value
                else prof.value.serviceProvider;
      Some(ProviderPayload(KindOf(p), sp, saml, p.name))
  }

  // ---- Specification ----

  /** One desired provider against the listing fetched once: a listed name
      is warned about (its profile is never read); otherwise the payload is
      built and posted, and a failure of either rejects the call. */
  function ProviderStep(s: Store, orgId: Id, listing: seq<ProviderRecord>, p: IdentityProvider): (t: Trace)
    ensures t.after.failing == s.failing && t.after.orgs == s.orgs
    ensures Lookup(s.providers, orgId) <= Lookup(t.after.providers, orgId)
  {
    if FirstWith(listing, ProviderName, p.name).Some? then Trace(s, [Warn(p.name)], Done)
    else
      var data := ProviderData(p);
      if data.None? then Trace(s, [], Abort(UnknownProfile(p.profile)))
      else
        var post := CreateProvider(orgId, data.value);
        var (s1, resp) := Respond(s, post);
        if resp.Failed? then Rejected(s1, [], post)
        else
          assert Lookup(s1.providers, orgId) == Lookup(s.providers, orgId) + [ProviderRecord(FreshId(s.nextId), p.name)];
          Trace(s1, [post], Done)
  }

  /** The loop of `createIdentityProviders`; the first step that throws ends it. */
  function ProviderLoop(s: Store, orgId: Id, listing: seq<ProviderRecord>, ps: seq<IdentityProvider>): (t: Trace)
    ensures t.after.failing == s.failing && t.after.orgs == s.orgs
    ensures Lookup(s.providers, orgId) <= Lookup(t.after.providers, orgId)
    decreases |ps|
  {
    if ps == [] then Trace(s, [], Done)
    else
      var first := ProviderStep(s, orgId, listing, ps[0]);
      if first.outcome.Abort? then first
      else Then(first.events, ProviderLoop(first.after, orgId, listing, ps[1..]))
  }

  /** The desired list, a missing one being empty. */
  function Desired(ps: Option<seq<IdentityProvider>>): seq<IdentityProvider>
  {
    if ps.Some? then ps.value else []
  }

  /** `createIdentityProviders`: fetch the organization's providers, then run the loop. */
  function CreateProvidersRun(s: Store, orgId: Id, ps: Option<seq<IdentityProvider>>): Trace
  {
    var list := ListProviders(orgId);
    var (s1, resp) := Respond(s, list);
    if !resp.Providers? then Rejected(s1, [], list)
    else Then([list], ProviderLoop(s1, orgId, resp.providers, Desired(ps)))
  }

  /** The exported reconciler: the first organization's id is read, so an
      empty listing is a TypeError. */
  function ReconcileRun(s: Store, ps: Option<seq<IdentityProvider>>): Trace
  {
    var (s1, resp) := Respond(s, ListOrgs);
    if !resp.Orgs? then Rejected(s1, [], ListOrgs)
    else if resp.orgs == [] then Trace(s1, [ListOrgs], Abort(NoOrganization))
    else Then([ListOrgs], CreateProvidersRun(s1, resp.orgs[0].id, ps))
  }

  // ---- Reference definitions ----

  /** The payloads of the desired providers the listing lacks, in order. */
  function AbsentPayloads(ps: seq<IdentityProvider>, listing: seq<ProviderRecord>): seq<ProviderPayload>
  {
    if ps == [] then []
    else
      (if FirstWith(listing, ProviderName, ps[0].name).None? && ProviderData(ps[0]).Some?
       then [ProviderData(ps[0]).value] else [])
      + AbsentPayloads(ps[1..], listing)
  }

  /** The body of a create-provider request. */
  function PostedPayload(e: Event): Option<ProviderPayload>
  {
    if e.CreateProvider? then Some(e.provider) else None
  }

  /** A provider of that name is registered. */
  predicate Registered(records: seq<ProviderRecord>, name: string)
  {
    FirstWith(records, ProviderName, name).Some?
  }

  // ---- Properties ----

  /** The `azure` profile and the two provider kinds, as the tables define them. */
  lemma Tables()
    ensures ProfileNamed("azure") == Some(Profile(AzureSaml, AzureServiceProvider))
    ensures AzureSaml.Keys == {"claims_mapping", "sp_initiated_sso_enabled", "idp_initiated_sso_enabled",
                               "require_encrypted_saml_assertions"}
    ensures AzureSaml["claims_mapping"].JObj? && |AzureSaml["claims_mapping"].fields| == 5
    ensures SamlType.name == "saml" && OpenIdType.name == "openid" && SamlType != OpenIdType
  {
    assert AzureClaims.Keys == {"email_attribute", "group_attribute", "lastname_attribute", "username_attribute",
                                "firstname_attribute"};
  }

  /** An OpenID provider (no `saml` block) on the azure profile is still sent
      the whole azure SAML block, and the azure service provider unless it
      names a truthy one of its own. */
  lemma OpenIdGetsAzureSaml(p: IdentityProvider)
    requires p.saml.None? && p.profile == "azure"
    ensures var d := ProviderData(p);
      && d.Some? && d.value.providerType == OpenIdType && d.value.saml == AzureSaml
      && (p.serviceProvider.None? ==> d.value.serviceProvider == AzureServiceProvider)
  {
    var d := ProviderData(p).value;
    assert d.saml == Defaults(map[], AzureSaml);
    assert d.saml.Keys == AzureSaml.Keys;
  }

  /** A manifest `saml` key overrides the profile's and every profile key the
      manifest lacks is filled in. */
  lemma SamlOverrides(p: IdentityProvider, k: string)
    requires p.saml.Some? && p.profile == "azure"
    ensures var d := ProviderData(p).value;
      && d.providerType == SamlType
      && (k in p.saml.value ==> d.saml[k] == p.saml.value[k])
      && (k !in p.saml.value && k in AzureSaml ==> d.saml[k] == AzureSaml[k])
      && (k in d.saml <==> k in p.saml.value || k in AzureSaml)
  {
  }

  /** One step of the loop: a listed name only warns, whatever its profile. */
  lemma LoopListed(s: Store, orgId: Id, listing: seq<ProviderRecord>, ps: seq<IdentityProvider>)
    requires ps != [] && Registered(listing, ps[0].name)
    ensures ProviderLoop(s, orgId, listing, ps) == Then([Warn(ps[0].name)], ProviderLoop(s, orgId, listing, ps[1..]))
  {
  }

  /** One step of the loop: an unlisted provider with an unknown profile
      throws before any request. */
  lemma LoopUnknown(s: Store, orgId: Id, listing: seq<ProviderRecord>, ps: seq<IdentityProvider>)
    requires ps != [] && !Registered(listing, ps[0].name) && ProviderData(ps[0]).None?
    ensures ProviderLoop(s, orgId, listing, ps) == Trace(s, [], Abort(UnknownProfile(ps[0].profile)))
  {
  }

  /** One step of the loop: a failed post stops it. */
  lemma LoopRejected(s: Store, orgId: Id, listing: seq<ProviderRecord>, ps: seq<IdentityProvider>)
    requires ps != [] && !Registered(listing, ps[0].name) && ProviderData(ps[0]).Some?
    requires CreateProvider(orgId, ProviderData(ps[0]).value) in s.failing
    ensures var post := CreateProvider(orgId, ProviderData(ps[0]).value);
      ProviderLoop(s, orgId, listing, ps) == Trace(s, [post], Abort(RequestFailed(post)))
  {
  }

  /** The remote after a successful post of a provider named `name`. */
  function Registering(s: Store, orgId: Id, name: string): Store
  {
    s.(providers := s.providers[orgId := Lookup(s.providers, orgId) + [ProviderRecord(FreshId(s.nextId), name)]],
       nextId := s.nextId + 1)
  }

  /** A successful post registers the provider under the next fresh id. */
  lemma PostRegisters(s: Store, orgId: Id, body: ProviderPayload)
    requires CreateProvider(orgId, body) !in s.failing
    ensures Respond(s, CreateProvider(orgId, body)) == (Registering(s, orgId, body.name), Created(FreshId(s.nextId)))
  {
    assert Respond(s, CreateProvider(orgId, body)) == Apply(s, CreateProvider(orgId, body));
  }

  /** One step of the loop: a successful post registers the provider. */
  lemma LoopCreated(s: Store, orgId: Id, listing: seq<ProviderRecord>, ps: seq<IdentityProvider>)
    requires ps != [] && !Registered(listing, ps[0].name) && ProviderData(ps[0]).Some?
    requires CreateProvider(orgId, ProviderData(ps[0]).value) !in s.failing
    ensures ProviderLoop(s, orgId, listing, ps) ==
      Then([CreateProvider(orgId, ProviderData(ps[0]).value)],
           ProviderLoop(Registering(s, orgId, ps[0].name), orgId, listing, ps[1..]))
  {
    var body := ProviderData(ps[0]).value;
    PostRegisters(s, orgId, body);
    assert body.name == ps[0].name;
    assert ProviderStep(s, orgId, listing, ps[0]) == Trace(Registering(s, orgId, ps[0].name), [CreateProvider(orgId, body)], Done);
  }

  lemma AbsentStep(ps: seq<IdentityProvider>, listing: seq<ProviderRecord>)
    requires ps != []
    ensures AbsentPayloads(ps, listing) ==
      if !Registered(listing, ps[0].name) && ProviderData(ps[0]).Some?
      then [ProviderData(ps[0]).value] + AbsentPayloads(ps[1..], listing)
      else AbsentPayloads(ps[1..], listing)
  {
  }

  /** The loop posts, in order, the payloads of the desired providers absent
      from the listing (duplicates included, the listing being fetched once);
      what an early stop leaves posted is a prefix of those. */
  lemma {:induction false} LoopPosts(s: Store, orgId: Id, listing: seq<ProviderRecord>, ps: seq<IdentityProvider>)
    ensures var t := ProviderLoop(s, orgId, listing, ps);
      && Select(t.events, PostedPayload) <= AbsentPayloads(ps, listing)
      && (t.outcome.Done? ==> Select(t.events, PostedPayload) == AbsentPayloads(ps, listing))
    decreases |ps|
  {
    if ps != [] {
      var p, rest := ps[0], ps[1..];
      AbsentStep(ps, listing);
      if Registered(listing, p.name) {
        LoopListed(s, orgId, listing, ps);
        var r := ProviderLoop(s, orgId, listing, rest);
        LoopPosts(s, orgId, listing, rest);
        SelectConcat([Warn(p.name)], r.events, PostedPayload);
        SelectNone([Warn(p.name)], PostedPayload);
        assert Select(ProviderLoop(s, orgId, listing, ps).events, PostedPayload) == Select(r.events, PostedPayload);
      } else if ProviderData(p).None? {
        LoopUnknown(s, orgId, listing, ps);
        assert Select([], PostedPayload) == [];
      } else {
        var post := CreateProvider(orgId, ProviderData(p).value);
        assert Select([post], PostedPayload) == [ProviderData(p).value];
        if post in s.failing {
          LoopRejected(s, orgId, listing, ps);
        } else {
          LoopCreated(s, orgId, listing, ps);
          var s1 := Registering(s, orgId, p.name);
          var r := ProviderLoop(s1, orgId, listing, rest);
          LoopPosts(s1, orgId, listing, rest);
          SelectConcat([post], r.events, PostedPayload);
          PrefixExtend([ProviderData(p).value], Select(r.events, PostedPayload), AbsentPayloads(rest, listing));
        }
      }
    }
  }

  /** Every profile a desired provider uses in a position the loop reaches is known. */
  predicate ProfilesKnown(listing: seq<ProviderRecord>, ps: seq<IdentityProvider>)
  {
    forall i :: 0 <= i < |ps| && !Registered(listing, ps[i].name) ==> ProfileNamed(ps[i].profile).Some?
  }

  /** The loop stops only on an unknown profile of an unlisted provider or a
      failed post: with all such profiles known and no post failing, it completes. */
  lemma {:induction false} LoopDone(s: Store, orgId: Id, listing: seq<ProviderRecord>, ps: seq<IdentityProvider>)
    requires MutationsSucceed(s) && ProfilesKnown(listing, ps)
    ensures ProviderLoop(s, orgId, listing, ps).outcome.Done?
    decreases |ps|
  {
    if ps != [] {
      var p, rest := ps[0], ps[1..];
      assert ProfilesKnown(listing, rest) by {
        forall i | 0 <= i < |rest| && !Registered(listing, rest[i].name) ensures ProfileNamed(rest[i].profile).Some? {
          assert rest[i] == ps[i + 1];
        }
      }
      if Registered(listing, p.name) {
        LoopListed(s, orgId, listing, ps);
        LoopDone(s, orgId, listing, rest);
      } else {
        assert IsMutation(CreateProvider(orgId, ProviderData(p).value));
        LoopCreated(s, orgId, listing, ps);
        LoopDone(Registering(s, orgId, p.name), orgId, listing, rest);
      }
    }
  }

  /** An unlisted provider naming an unknown profile rejects the call before
      any request, leaving the remote as it was; a listed one only warns. */
  lemma UnknownProfileRejects(s: Store, orgId: Id, listing: seq<ProviderRecord>, p: IdentityProvider)
    requires ProfileNamed(p.profile).None?
    ensures var t := ProviderLoop(s, orgId, listing, [p]);
      if Registered(listing, p.name) then t == Trace(s, [Warn(p.name)], Done)
      else t == Trace(s, [], Abort(UnknownProfile(p.profile)))
  {
    assert [p][1..] == [];
  }

  /** Every event of the loop is a post, to the organization, of the payload
      of a desired provider the listing lacks, or a warn naming a listed one. */
  lemma {:induction false} LoopEvents(s: Store, orgId: Id, listing: seq<ProviderRecord>, ps: seq<IdentityProvider>)
    ensures forall e :: e in ProviderLoop(s, orgId, listing, ps).events ==>
      || (e.CreateProvider? && e.orgId == orgId &&
          exists p :: p in ps && !Registered(listing, p.name) && ProviderData(p) == Some(e.provider))
      || (e.Warn? && exists p :: p in ps && p.name == e.subject && Registered(listing, p.name))
    decreases |ps|
  {
    if ps != [] {
      var p := ps[0];
      if Registered(listing, p.name) {
        LoopListed(s, orgId, listing, ps);
        LoopEvents(s, orgId, listing, ps[1..]);
      } else if ProviderData(p).Some? {
        var post := CreateProvider(orgId, ProviderData(p).value);
        if post !in s.failing {
          LoopCreated(s, orgId, listing, ps);
          LoopEvents(Registering(s, orgId, p.name), orgId, listing, ps[1..]);
        }
      }
    }
  }

  /** A registered name stays registered as the provider list grows. */
  lemma RegisteredGrows(a: seq<ProviderRecord>, b: seq<ProviderRecord>, name: string)
    requires a <= b && Registered(a, name)
    ensures Registered(b, name)
  {
    var i :| 0 <= i < |a| && ProviderName(a[i]) == name;
    assert b[i] == a[i];
  }

  /** Every desired name is registered at the organization once the loop
      completes, provided every listed name already was. */
  lemma {:induction false} LoopCovers(s: Store, orgId: Id, listing: seq<ProviderRecord>, ps: seq<IdentityProvider>)
    requires forall n :: Registered(listing, n) ==> Registered(Lookup(s.providers, orgId), n)
    ensures var t := ProviderLoop(s, orgId, listing, ps);
      t.outcome.Done? ==> forall p :: p in ps ==> Registered(Lookup(t.after.providers, orgId), p.name)
    decreases |ps|
  {
    var t := ProviderLoop(s, orgId, listing, ps);
    if ps != [] && t.outcome.Done? {
      var p, rest := ps[0], ps[1..];
      var s1 := if Registered(listing, p.name) then s else Registering(s, orgId, p.name);
      if Registered(listing, p.name) {
        LoopListed(s, orgId, listing, ps);
      } else {
        LoopCreated(s, orgId, listing, ps);
        var a := Lookup(s.providers, orgId);
        var b := Lookup(s1.providers, orgId);
        assert b == a + [ProviderRecord(FreshId(s.nextId), p.name)];
        assert ProviderName(b[|a|]) == p.name;
        forall n | Registered(listing, n) ensures Registered(b, n) {
          RegisteredGrows(a, b, n);
        }
      }
      var r := ProviderLoop(s1, orgId, listing, rest);
      assert t.after == r.after && r.outcome.Done?;
      LoopCovers(s1, orgId, listing, rest);
      assert Registered(Lookup(s1.providers, orgId), p.name);
      RegisteredGrows(Lookup(s1.providers, orgId), Lookup(r.after.providers, orgId), p.name);
    }
  }

  /** The loop posts nothing when every desired name is listed. */
  lemma {:induction false} AbsentOfCovered(ps: seq<IdentityProvider>, listing: seq<ProviderRecord>)
    requires forall p :: p in ps ==> Registered(listing, p.name)
    ensures AbsentPayloads(ps, listing) == []
    decreases |ps|
  {
    if ps != [] {
      assert ps[0] in ps;
      forall p | p in ps[1..] ensures Registered(listing, p.name) {
        assert p in ps;
      }
      AbsentOfCovered(ps[1..], listing);
    }
  }

  /** Both listings succeed and there is an organization. */
  predicate ListingsSucceed(s: Store)
  {
    ListOrgs !in s.failing && s.orgs != [] && ListProviders(s.orgs[0].id) !in s.failing
  }

  lemma ReconcileReachesLoop(s: Store, ps: Option<seq<IdentityProvider>>)
    requires ListingsSucceed(s)
    ensures var org := s.orgs[0].id;
      ReconcileRun(s, ps) ==
        Then([ListOrgs, ListProviders(org)], ProviderLoop(s, org, Lookup(s.providers, org), Desired(ps)))
  {
    var org := s.orgs[0].id;
    var l := ProviderLoop(s, org, Lookup(s.providers, org), Desired(ps));
    assert Respond(s, ListOrgs) == (s, Orgs(s.orgs));
    assert ReconcileRun(s, ps) == Then([ListOrgs], CreateProvidersRun(s, org, ps));
    assert Respond(s, ListProviders(org)) == (s, Providers(Lookup(s.providers, org)));
    assert CreateProvidersRun(s, org, ps) == Then([ListProviders(org)], l);
    ThenThen([ListOrgs], [ListProviders(org)], l);
    assert [ListOrgs] + [ListProviders(org)] == [ListOrgs, ListProviders(org)];
  }

  lemma ReconcileStopsEarly(s: Store, ps: Option<seq<IdentityProvider>>)
    requires !ListingsSucceed(s)
    ensures var t := ReconcileRun(s, ps);
      t.outcome.Abort? && t.after == s && Select(t.events, PostedPayload) == []
  {
    var t := ReconcileRun(s, ps);
    if ListOrgs in s.failing || s.orgs == [] {
      assert t.events == [ListOrgs];
      SelectNone([ListOrgs], PostedPayload);
    } else {
      assert t.events == [ListOrgs, ListProviders(s.orgs[0].id)];
      SelectNone([ListOrgs, ListProviders(s.orgs[0].id)], PostedPayload);
    }
  }

  /** What the reconciler posts is a prefix of the payloads of the desired
      providers absent from the first organization, and all of them once it
      completes. */
  lemma ReconcilePosts(s: Store, ps: Option<seq<IdentityProvider>>)
    requires s.orgs != []
    ensures var t := ReconcileRun(s, ps);
      var absent := AbsentPayloads(Desired(ps), Lookup(s.providers, s.orgs[0].id));
      && Select(t.events, PostedPayload) <= absent
      && (t.outcome.Done? ==> Select(t.events, PostedPayload) == absent)
  {
    var org := s.orgs[0].id;
    if ListingsSucceed(s) {
      ReconcileReachesLoop(s, ps);
      var l := ProviderLoop(s, org, Lookup(s.providers, org), Desired(ps));
      var t := ReconcileRun(s, ps);
      assert t.events == [ListOrgs, ListProviders(org)] + l.events && t.outcome == l.outcome;
      LoopPosts(s, org, Lookup(s.providers, org), Desired(ps));
      SelectConcat([ListOrgs, ListProviders(org)], l.events, PostedPayload);
      SelectNone([ListOrgs, ListProviders(org)], PostedPayload);
      assert Select(t.events, PostedPayload) == Select(l.events, PostedPayload);
    } else {
      ReconcileStopsEarly(s, ps);
    }
  }

  /** Every request is a listing, or a post to the first organization. */
  lemma ReconcileEvents(s: Store, ps: Option<seq<IdentityProvider>>)
    requires s.orgs != []
    ensures forall e :: e in ReconcileRun(s, ps).events ==>
      e == ListOrgs || e == ListProviders(s.orgs[0].id) || e.Warn? || (e.CreateProvider? && e.orgId == s.orgs[0].id)
  {
    var org := s.orgs[0].id;
    if ListingsSucceed(s) {
      ReconcileReachesLoop(s, ps);
      LoopEvents(s, org, Lookup(s.providers, org), Desired(ps));
    } else {
      ReconcileStopsEarly(s, ps);
      assert ReconcileRun(s, ps).events <= [ListOrgs, ListProviders(org)];
    }
  }

  /** A run completes exactly when the listings succeed and the loop does; it
      does whenever no post fails and every unlisted profile is known. */
  lemma ReconcileDone(s: Store, ps: Option<seq<IdentityProvider>>)
    requires ListingsSucceed(s) && MutationsSucceed(s)
    requires ProfilesKnown(Lookup(s.providers, s.orgs[0].id), Desired(ps))
    ensures ReconcileRun(s, ps).outcome.Done?
  {
    ReconcileReachesLoop(s, ps);
    LoopDone(s, s.orgs[0].id, Lookup(s.providers, s.orgs[0].id), Desired(ps));
  }

  /** Idempotence: after a completed run, running the same list against the
      remote it left posts nothing. */
  lemma SecondRunPostsNothing(s: Store, ps: Option<seq<IdentityProvider>>)
    requires ReconcileRun(s, ps).outcome.Done?
    ensures Select(ReconcileRun(ReconcileRun(s, ps).after, ps).events, PostedPayload) == []
  {
    var t := ReconcileRun(s, ps);
    assert ListingsSucceed(s) by {
      if !ListingsSucceed(s) { ReconcileStopsEarly(s, ps); }
    }
    var org := s.orgs[0].id;
    var listing := Lookup(s.providers, org);
    ReconcileReachesLoop(s, ps);
    LoopCovers(s, org, listing, Desired(ps));
    var s1 := t.after;
    assert s1.orgs == s.orgs;
    AbsentOfCovered(Desired(ps), Lookup(s1.providers, org));
    ReconcilePosts(s1, ps);
  }

  /** The listing is fetched once: two desired SAML providers with the same
      new name are both posted. */
  lemma DuplicatesBothPosted(s: Store, orgId: Id, listing: seq<ProviderRecord>, a: IdentityProvider, b: IdentityProvider)
    requires a.name == b.name && !Registered(listing, a.name)
    requires a.profile == "azure" && b.profile == "azure"
    requires MutationsSucceed(s)
    ensures Select(ProviderLoop(s, orgId, listing, [a, b]).events, PostedPayload) ==
      [ProviderData(a).value, ProviderData(b).value]
  {
    assert [a, b][1..] == [b] && [b][1..] == [];
    assert ProfilesKnown(listing, [a, b]);
    LoopPosts(s, orgId, listing, [a, b]);
    LoopDone(s, orgId, listing, [a, b]);
    assert AbsentPayloads([b], listing) == [ProviderData(b).value];
    assert AbsentPayloads([a, b], listing) == [ProviderData(a).value] + AbsentPayloads([b], listing);
  }

  // ---- Implementation ----

  /** The loop of `createIdentityProviders`, against the listing fetched once. */
  method CreateAbsentProviders(remote: Remote, orgId: Id, listing: seq<ProviderRecord>, list: seq<IdentityProvider>)
    returns (o: Outcome)
    modifies remote
    ensures var t := ProviderLoop(old(remote.Snapshot()), orgId, listing, list);
      remote.Reached(old(remote.log), t.after, t.events) && o == t.outcome
  {
    ghost var s0, log0 := remote.Snapshot(), remote.log;
    ghost var done: seq<Event> := [];
    var i := 0;
    while i < |list|
      invariant 0 <= i <= |list|
      invariant remote.log == log0 + done
      invariant ProviderLoop(s0, orgId, listing, list) == Then(done, ProviderLoop(remote.Snapshot(), orgId, listing, list[i..]))
    {
      var p := list[i];
      ghost var before := remote.Snapshot();
      assert list[i..][1..] == list[i + 1..];
      if FirstWith(listing, ProviderName, p.name).Some? {
        LoopListed(before, orgId, listing, list[i..]);
        remote.Note(Warn(p.name));
        AppendAssoc(log0, done, [Warn(p.name)]);
        ThenThen(done, [Warn(p.name)], ProviderLoop(before, orgId, listing, list[i + 1..]));
        done := done + [Warn(p.name)];
      } else {
        var data := ProviderData(p);
        if data.None? {
          LoopUnknown(before, orgId, listing, list[i..]);
          assert done + [] == done;
          return Abort(UnknownProfile(p.profile));
        }
        var post := CreateProvider(orgId, data.value);
        var r := remote.Send(post);
        AppendAssoc(log0, done, [post]);
        if r.Failed? {
          LoopRejected(before, orgId, listing, list[i..]);
          return Abort(RequestFailed(post));
        }
        LoopCreated(before, orgId, listing, list[i..]);
        ThenThen(done, [post], ProviderLoop(remote.Snapshot(), orgId, listing, list[i + 1..]));
        done := done + [post];
      }
      i := i + 1;
    }
    o := Done;
  }

  /** `createIdentityProviders`. */
  method CreateIdentityProviders(remote: Remote, orgId: Id, ps: Option<seq<IdentityProvider>>) returns (o: Outcome)
    modifies remote
    ensures var t := CreateProvidersRun(old(remote.Snapshot()), orgId, ps);
      remote.Reached(old(remote.log), t.after, t.events) && o == t.outcome
  {
    ghost var log0 := remote.log;
    var resp := remote.Send(ListProviders(orgId));
    if !resp.Providers? {
      return Abort(RequestFailed(ListProviders(orgId)));
    }
    ghost var rest := ProviderLoop(remote.Snapshot(), orgId, resp.providers, Desired(ps)).events;
    o := CreateAbsentProviders(remote, orgId, resp.providers, Desired(ps));
    AppendAssoc(log0, [ListProviders(orgId)], rest);
  }

  /** The exported identity-provider reconciler. */
  method ReconcileIdentityProviders(remote: Remote, ps: Option<seq<IdentityProvider>>) returns (o: Outcome)
    modifies remote
    ensures var t := ReconcileRun(old(remote.Snapshot()), ps);
      remote.Reached(old(remote.log), t.after, t.events) && o == t.outcome
  {
    ghost var log0 := remote.log;
    var resp := remote.Send(ListOrgs);
    if !resp.Orgs? {
      return Abort(RequestFailed(ListOrgs));
    }
    if resp.orgs == [] {
      return Abort(NoOrganization);
    }
    ghost var rest := CreateProvidersRun(remote.Snapshot(), resp.orgs[0].id, ps).events;
    o := CreateIdentityProviders(remote, resp.orgs[0].id, ps);
    AppendAssoc(log0, [ListOrgs], rest);
  }
}
