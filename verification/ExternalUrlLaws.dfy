/**
 What the operations on one external URL leave, entry by entry, authority by authority and flow by flow:
 creation, reconciliation, approval, revocation and deletion when they go through.
 */
module ExternalUrlLaws {
  import opened Wrappers
  import opened RouteRegistry
  import opened ExternalUrls

  // ---- the registry around a list of authorities ----

  /** Each of the authorities leads to the upstream under the claim alone, enabled or not. */
  ghost predicate LeadsTo(routes: Routes, authorities: seq<Authority>, claim: Claim, upstream: Upstream, enabled: bool) {
    forall i :: 0 <= i < |authorities| ==>
      authorities[i] in routes && routes[authorities[i]] == Route(upstream, map[claim := enabled])
  }

  /** Authorities outside the list are as they were. */
  ghost predicate ElsewhereSame(before: Routes, after: Routes, authorities: seq<Authority>) {
    forall a :: a !in authorities ==> (a in after <==> a in before) && (a in before ==> after[a] == before[a])
  }

  /** Nobody else holds any of the authorities. */
  ghost predicate FreeFor(routes: Routes, authorities: seq<Authority>, claim: Claim) {
    forall i :: 0 <= i < |authorities| && authorities[i] in routes ==>
      forall c :: c in routes[authorities[i]].claims <==> c == claim
  }

  /** The flows are those that were there, less every one of the claim. */
  ghost predicate ClaimCut(before: Traffic, after: Traffic, claim: Claim) {
    && (forall f :: f in after.http <==> f in before.http && f.claim != claim)
    && (forall f :: f in after.upgraded <==> f in before.upgraded && f.claim != claim)
  }

  /** One of the authorities led elsewhere before. */
  ghost predicate Moves(routes: Routes, authorities: seq<Authority>, upstream: Upstream) {
    exists i :: 0 <= i < |authorities| && authorities[i] in routes && routes[authorities[i]].upstream != upstream
  }

  lemma FreeIsUnheld(routes: Routes, authorities: seq<Authority>, claim: Claim)
    requires FreeFor(routes, authorities, claim)
    ensures !AnyHeldByOther(routes, authorities, claim)
  {
    forall i | 0 <= i < |authorities| && authorities[i] in routes
      ensures !HeldByOther(routes, authorities[i], claim)
    {
      assert forall c :: c in routes[authorities[i]].claims.Keys <==> c in {claim};
    }
  }

  /** Registering free authorities. */
  lemma ProvisionLaw(t: Traffic, authorities: seq<Authority>, claim: Claim, upstream: Upstream, enabled: bool, urlOk: bool)
    requires FreeFor(t.routes, authorities, claim) && authorities != []
    ensures var (t', r) := ProvisionRoute(t, authorities, claim, upstream, enabled, urlOk);
      && LeadsTo(t'.routes, authorities, claim, upstream, enabled) && ElsewhereSame(t.routes, t'.routes, authorities)
      && (if Moves(t.routes, authorities, upstream) then ClaimCut(t, t', claim)
          else t'.http == t.http && t'.upgraded == t.upgraded)
      && r.Success? == urlOk
      && (r.Success? ==> (r.value <==> exists i :: 0 <= i < |authorities| && authorities[i] !in t.routes))
  {
    FreeIsUnheld(t.routes, authorities, claim);
    var bound := BindAll(t.routes, authorities, claim, upstream, enabled);
    forall i | 0 <= i < |authorities|
      ensures authorities[i] in bound && bound[authorities[i]] == Route(upstream, map[claim := enabled])
    {
      var a := authorities[i];
      if a in t.routes {
        assert forall c :: c in t.routes[a].claims <==> c == claim;
        assert t.routes[a].claims[claim := enabled] == map[claim := enabled];
      }
    }
    if Moves(t.routes, authorities, upstream) {
      var i :| 0 <= i < |authorities| && authorities[i] in t.routes && t.routes[authorities[i]].upstream != upstream;
      assert Rebinds(t.routes, authorities[i], upstream);
    }
    hide BindAll;
  }

  /** Registering authorities of which somebody else holds one, or none at all, changes nothing. */
  lemma RefusedProvision(t: Traffic, authorities: seq<Authority>, claim: Claim, upstream: Upstream, enabled: bool, urlOk: bool)
    requires OneClaimEach(t.routes)
    ensures var (t', r) := ProvisionRoute(t, authorities, claim, upstream, enabled, urlOk);
      && (authorities == [] ==> r == Failure(NoAuthority) && t' == t)
      && (authorities != [] && !FreeFor(t.routes, authorities, claim) ==> r == Failure(Taken) && t' == t)
  {
    if !FreeFor(t.routes, authorities, claim) {
      var i :| 0 <= i < |authorities| && authorities[i] in t.routes
        && !(forall c :: c in t.routes[authorities[i]].claims <==> c == claim);
      assert HeldByOther(t.routes, authorities[i], claim);
    }
  }

  /** A request or connection is let through exactly where its claim is registered and enabled, to that upstream. */
  lemma FlowLaw(t: Traffic, id: nat, owner: nat, host: Authority, claim: Claim)
    ensures var flow := Flow(id, owner, claim, host, if host in t.routes then t.routes[host].upstream else Upstream("", "", 0));
            var open := host in t.routes && claim in t.routes[host].claims && t.routes[host].claims[claim];
      && NextTraffic(t, OpenHttp(id, owner, host, claim)) == (if open then t.(http := t.http + {flow}) else t)
      && NextTraffic(t, OpenUpgrade(id, owner, host, claim)) == (if open then t.(upgraded := t.upgraded + {flow}) else t)
  {
  }

  /** Releasing a claim: an authority it held alone is gone, one it did not hold is as it was. */
  lemma ReleaseLaw(t: Traffic, authorities: seq<Authority>, claim: Claim)
    requires OneClaimEach(t.routes)
    ensures var t' := RevokeRoute(t, authorities, claim);
      && ElsewhereSame(t.routes, t'.routes, authorities) && ClaimCut(t, t', claim)
      && (forall i :: 0 <= i < |authorities| ==>
            if authorities[i] in t.routes && claim !in t.routes[authorities[i]].claims
            then authorities[i] in t'.routes && t'.routes[authorities[i]] == t.routes[authorities[i]]
            else authorities[i] !in t'.routes)
  {
    forall a | a in authorities && a in t.routes
      ensures if claim in t.routes[a].claims then t.routes[a].claims.Keys == {claim}
              else t.routes[a].claims - {claim} == t.routes[a].claims && !(t.routes[a].claims.Keys <= {claim})
    {
      var c :| t.routes[a].claims.Keys == {c};
      assert c in t.routes[a].claims.Keys;
      if claim in t.routes[a].claims { assert claim in t.routes[a].claims.Keys; }
    }
  }

  /** The claim is registered at each of the authorities. */
  ghost predicate RegisteredAt(routes: Routes, authorities: seq<Authority>, claim: Claim) {
    forall i :: 0 <= i < |authorities| ==> authorities[i] in routes && claim in routes[authorities[i]].claims
  }

  /** Each of the authorities keeps its upstream and has the claim alone, enabled or not. */
  ghost predicate SwitchedTo(before: Routes, after: Routes, authorities: seq<Authority>, claim: Claim, enabled: bool) {
    forall i :: 0 <= i < |authorities| ==>
      && authorities[i] in before && authorities[i] in after
      && after[authorities[i]] == Route(before[authorities[i]].upstream, map[claim := enabled])
  }

  lemma SwitchLaw(t: Traffic, authorities: seq<Authority>, claim: Claim, enabled: bool)
    requires OneClaimEach(t.routes)
    ensures var (t', r) := SetApproval(t, authorities, claim, enabled);
      if !RegisteredAt(t.routes, authorities, claim) then t' == t && r == Failure(NotActive)
      else
        && r == Success(()) && SwitchedTo(t.routes, t'.routes, authorities, claim, enabled)
        && ElsewhereSame(t.routes, t'.routes, authorities)
        && (if enabled then t'.http == t.http && t'.upgraded == t.upgraded else ClaimCut(t, t', claim))
  {
    if RegisteredAt(t.routes, authorities, claim) {
      forall i | 0 <= i < |authorities| ensures t.routes[authorities[i]].claims[claim := enabled] == map[claim := enabled] {
        assert claim in t.routes[authorities[i]].claims.Keys;
      }
    }
  }

  lemma SwitchedRegistered(before: Routes, after: Routes, authorities: seq<Authority>, claim: Claim, enabled: bool)
    requires OneClaimEach(before) && SwitchedTo(before, after, authorities, claim, enabled)
    requires ElsewhereSame(before, after, authorities)
    ensures OneClaimEach(after) && RegisteredAt(after, authorities, claim)
  {
    forall a | a in after ensures exists c :: after[a].claims.Keys == {c} {
      if a in authorities {
        assert after[a].claims.Keys == {claim};
      }
    }
  }

  // ---- approval ----

  /** The entry waits for approval under its ingress's current policy. */
  ghost predicate Approvable(w: World, id: string) {
    && id in w.store && w.store[id].ingress in w.ingresses && w.store[id].approval == Pending
    && w.store[id].policyRevision == Some(w.ingresses[w.store[id].ingress].policyRevision)
  }

  /** The claim under which the entry's route is switched: the recorded one, or that of its first authority. */
  ghost predicate SwitchClaim(e: Entry, claim: Claim) {
    || e.ingressId == Some(claim)
    || (e.ingressId == None && e.authorities != [] && claim == Shared(e.authorities[0]))
  }

  /**
   Approving an entry whose claim is registered at all its authorities: stored as approved, enabled at
   every one of them on the upstream it had, and its old flows closed. If the write fails, the entry
   stays pending and ends disabled. No other entry, authority or claim's flow is touched.
   */
  lemma ApprovalLaw(w: World, id: string, put: bool, claim: Claim)
    requires Inv(w) && Approvable(w, id) && SwitchClaim(w.store[id], claim)
    requires RegisteredAt(w.traffic.routes, w.store[id].authorities, claim)
    ensures var r, e := Approve(w, id, put), w.store[id];
      && r == w.(store := r.store, traffic := r.traffic)
      && r.store == w.store[id := e.(approval := if put then Approved else Pending)]
      && SwitchedTo(w.traffic.routes, r.traffic.routes, e.authorities, claim, put)
      && ElsewhereSame(w.traffic.routes, r.traffic.routes, e.authorities)
      && ClaimCut(w.traffic, r.traffic, claim)
  {
    hide StoreOk, AllBacked, OneClaimEach, SetApproval, SwitchedTo, ElsewhereSame, ClaimCut, RegisteredAt;
    var e := w.store[id];
    assert RouteClaim(e) == claim;
    SwitchLaw(w.traffic, e.authorities, claim, false);
    var off := SetApproval(w.traffic, e.authorities, claim, false).0;
    SwitchedRegistered(w.traffic.routes, off.routes, e.authorities, claim, false);
    SwitchLaw(off, e.authorities, claim, true);
    var on := SetApproval(off, e.authorities, claim, true).0;
    SwitchedTwice(w.traffic, off, on, e.authorities, claim);
    assert w.store[id := e] == w.store;
  }

  lemma SwitchedTwice(t: Traffic, off: Traffic, on: Traffic, authorities: seq<Authority>, claim: Claim)
    requires SwitchedTo(t.routes, off.routes, authorities, claim, false)
    requires SwitchedTo(off.routes, on.routes, authorities, claim, true)
    requires ElsewhereSame(t.routes, off.routes, authorities) && ElsewhereSame(off.routes, on.routes, authorities)
    requires ClaimCut(t, off, claim) && on.http == off.http && on.upgraded == off.upgraded
    ensures SwitchedTo(t.routes, on.routes, authorities, claim, true) && ElsewhereSame(t.routes, on.routes, authorities)
    ensures ClaimCut(t, on, claim)
  {
  }

  /** Any other approval changes nothing at all. */
  lemma RefusedApproval(w: World, id: string, put: bool, claim: Claim)
    requires Inv(w) && (id in w.store ==> SwitchClaim(w.store[id], claim))
    requires !Approvable(w, id) || !RegisteredAt(w.traffic.routes, w.store[id].authorities, claim)
    ensures Approve(w, id, put) == w
  {
    hide StoreOk, AllBacked, OneClaimEach, SetApproval, SwitchedTo, ElsewhereSame, ClaimCut, RegisteredAt;
    if Approvable(w, id) { SwitchLaw(w.traffic, w.store[id].authorities, claim, false); }
  }

  // ---- reconciliation ----

  /** The authorities the route is to have: its name and its own permalink, or the ingress's one address. */
  ghost predicate Asked(ingress: Ingress, http: bool, id: string, env: Surroundings, authorities: seq<Authority>) {
    && env.name.Some?
    && (if http then |authorities| == 2 && authorities[0] == env.name.value && authorities[1] == ingress.permalink(id)
        else |authorities| == 1 && authorities[0] == ingress.address)
  }

  lemma AskedIsGiven(ingress: Ingress, http: bool, id: string, env: Surroundings, authorities: seq<Authority>)
    requires Asked(ingress, http, id, env, authorities)
    ensures Given(ingress, http, id, env) == Some(authorities) && authorities != []
  {
    assert http ==> authorities == [env.name.value, ingress.permalink(id)];
    assert !http ==> authorities == [ingress.address];
  }

  ghost predicate UrlsAccepted(accepts: Authority -> bool, http: bool, authorities: seq<Authority>) {
    http ==> forall i :: 0 <= i < |authorities| ==> accepts(authorities[i])
  }

  /** The entry was last written under the ingress's present policy, and has its permalink. */
  ghost predicate UpToDate(e: Entry, ingress: Ingress) {
    e.policyRevision == Some(ingress.policyRevision) && (e.http ==> e.permalink)
  }

  /**
   Reconciling a current entry whose own authorities are free: the store is untouched and every one of
   them leads to the upstream, enabled exactly when the entry is approved or needs no approval. Its flows
   survive unless an authority moves.
   */
  lemma ReconcileCurrentLaw(w: World, id: string, putPending: bool, env: Surroundings, putUpdated: bool, claim: Claim)
    requires Inv(w) && id in w.store && w.store[id].ingress in w.ingresses && w.store[id].ingressId == Some(claim)
    requires w.store[id].approval != Revoked && UpToDate(w.store[id], w.ingresses[w.store[id].ingress])
    requires env.upstream.Some? && Asked(w.ingresses[w.store[id].ingress], w.store[id].http, id, env, w.store[id].authorities)
    requires FreeFor(w.traffic.routes, w.store[id].authorities, claim)
    ensures var r, e := Reconcile(w, id, putPending, env, putUpdated), w.store[id];
      && r == w.(traffic := r.traffic)
      && LeadsTo(r.traffic.routes, e.authorities, claim, env.upstream.value, e.approval == Approved || e.approval == NotRequired)
      && ElsewhereSame(w.traffic.routes, r.traffic.routes, e.authorities)
      && (if Moves(w.traffic.routes, e.authorities, env.upstream.value) then ClaimCut(w.traffic, r.traffic, claim)
          else r.traffic.http == w.traffic.http && r.traffic.upgraded == w.traffic.upgraded)
  {
    var e, ingress := w.store[id], w.ingresses[w.store[id].ingress];
    StoredUrls(w, id);
    hide Inv, ProvisionRoute, LeadsTo, ElsewhereSame, ClaimCut, FreeFor, Moves, UrlOk, Asked;
    AskedIsGiven(ingress, e.http, id, env, e.authorities);
    ProvisionLaw(w.traffic, e.authorities, claim, env.upstream.value, e.approval == Approved || e.approval == NotRequired, true);
    assert !Stale(e, ingress);
  }

  lemma StoredUrls(w: World, id: string)
    requires Inv(w) && id in w.store
    ensures UrlOk(w.accepts, w.store[id].http, w.store[id].authorities)
  {
    hide AllBacked, OneClaimEach;
  }

  /**
   Reconciling an entry that is out of date, with authorities that are free and make valid URLs, and both
   writes succeeding: it is brought up to date, waits for approval again where the ingress requires it,
   and its new authorities lead to the upstream, enabled exactly as its new approval allows.
   */
  lemma ReconcileStaleLaw(w: World, id: string, env: Surroundings, authorities: seq<Authority>, claim: Claim)
    requires Inv(w) && id in w.store && w.store[id].ingress in w.ingresses
    requires claim == if w.store[id].ingressId.Some? then w.store[id].ingressId.value else Own(id)
    requires w.store[id].approval != Revoked && !UpToDate(w.store[id], w.ingresses[w.store[id].ingress])
    requires env.upstream.Some? && Asked(w.ingresses[w.store[id].ingress], w.store[id].http, id, env, authorities)
    requires UrlsAccepted(w.accepts, w.store[id].http, authorities) && FreeFor(w.traffic.routes, authorities, claim)
    ensures var r, e, ingress := Reconcile(w, id, true, env, true), w.store[id], w.ingresses[w.store[id].ingress];
      var approval := if ingress.approvalRequired then Pending else e.approval;
      && r == w.(store := r.store, traffic := r.traffic)
      && r.store == w.store[id :=
           Entry(e.id, e.ingress, Some(claim), authorities, e.http, e.http, approval, Some(ingress.policyRevision))]
      && LeadsTo(r.traffic.routes, authorities, claim, env.upstream.value, approval == Approved || approval == NotRequired)
      && ElsewhereSame(w.traffic.routes, r.traffic.routes, authorities)
  {
    var e, ingress := w.store[id], w.ingresses[w.store[id].ingress];
    var approval := if ingress.approvalRequired then Pending else e.approval;
    hide Inv, Register, LeadsTo, ElsewhereSame, FreeFor, Asked, UrlOk, UrlsAccepted, Stale, UpToDate;
    OwnId(w, id);
    AskedIsGiven(ingress, e.http, id, env, authorities);
    OutOfDate(w.accepts, e, ingress, authorities);
    var current := e.(approval := approval);
    var updated := Refreshed(current, ingress, authorities);
    assert w.store[id := e] == w.store;
    assert w.store[id := current][id := updated] == w.store[id := updated];
    RegisterStale(w.(store := w.store[id := current]), id, current, ingress, authorities, env.upstream.value, claim);
  }

  lemma RegisterStale(w: World, id: string, e: Entry, ingress: Ingress, authorities: seq<Authority>, upstream: Upstream,
      claim: Claim)
    requires claim == ProvisionClaim(e) && Stale(e, ingress) && UrlOk(w.accepts, e.http, authorities) && authorities != []
    requires FreeFor(w.traffic.routes, authorities, claim)
    ensures var r := Register(w, id, e, ingress, authorities, upstream, true);
      && r == w.(store := w.store[id := Refreshed(e, ingress, authorities)], traffic := r.traffic)
      && LeadsTo(r.traffic.routes, authorities, claim, upstream, Enabled(e.approval))
      && ElsewhereSame(w.traffic.routes, r.traffic.routes, authorities)
  {
    hide ProvisionRoute, LeadsTo, ElsewhereSame, ClaimCut, FreeFor, Moves, UrlOk, Stale, Refreshed;
    ProvisionLaw(w.traffic, authorities, claim, upstream, Enabled(e.approval), true);
  }

  lemma OutOfDate(accepts: Authority -> bool, e: Entry, ingress: Ingress, authorities: seq<Authority>)
    ensures Stale(e, ingress) <==> !UpToDate(e, ingress)
    ensures Stale(e.(approval := Pending), ingress) <==> Stale(e, ingress)
    ensures UrlOk(accepts, e.http, authorities) <==> UrlsAccepted(accepts, e.http, authorities)
  {
  }

  lemma OwnId(w: World, id: string)
    requires Inv(w) && id in w.store
    ensures w.store[id].id == id
  {
    hide AllBacked, OneClaimEach;
  }

  // ---- creation, revocation, deletion ----

  /**
   Creating a URL on free authorities that make valid URLs: stored as pending and disabled where the
   ingress requires approval, enabled and needing none otherwise.
   */
  lemma CreateLaw(w: World, id: string, name: string, http: bool, key: string, env: Surroundings, authorities: seq<Authority>,
      claim: Claim)
    requires id !in w.issued && name in w.ingresses && env.upstream.Some?
    requires Asked(w.ingresses[name], http, id, env, authorities) && UrlsAccepted(w.accepts, http, authorities)
    requires claim == if w.ingresses[name].approvalRequired then Own(id) else Shared(key)
    requires FreeFor(w.traffic.routes, authorities, claim)
    ensures var r, gate := Create(w, id, name, http, key, env, true), w.ingresses[name].approvalRequired;
      && r.store == w.store[id :=
           Entry(id, name, Some(claim), authorities, http, http, if gate then Pending else NotRequired,
             Some(w.ingresses[name].policyRevision))]
      && LeadsTo(r.traffic.routes, authorities, claim, env.upstream.value, !gate)
      && ElsewhereSame(w.traffic.routes, r.traffic.routes, authorities)
  {
    hide ProvisionRoute, LeadsTo, ElsewhereSame, ClaimCut, FreeFor, Moves, Asked;
    AskedIsGiven(w.ingresses[name], http, id, env, authorities);
    assert UrlOk(w.accepts, http, authorities);
    hide UrlOk, UrlsAccepted;
    ProvisionLaw(w.traffic, authorities, claim, env.upstream.value, !w.ingresses[name].approvalRequired, true);
  }

  /** A gated creation whose write fails leaves the registry as it was: its claim is its own, so all it held was new. */
  lemma UnwrittenCreate(w: World, id: string, name: string, http: bool, key: string, env: Surroundings,
      authorities: seq<Authority>)
    requires Inv(w) && id !in w.issued && name in w.ingresses && w.ingresses[name].approvalRequired && env.upstream.Some?
    requires Asked(w.ingresses[name], http, id, env, authorities) && UrlsAccepted(w.accepts, http, authorities)
    ensures var r := Create(w, id, name, http, key, env, false);
      r.store == w.store && r.traffic.routes == w.traffic.routes
  {
    NewIsUnheld(w, id);
    AskedIsGiven(w.ingresses[name], http, id, env, authorities);
    hide Asked;
    assert UrlOk(w.accepts, http, authorities);
    hide UrlOk, UrlsAccepted, StoreOk, AllBacked;
    if !AnyHeldByOther(w.traffic.routes, authorities, Own(id)) {
      AllNew(w.traffic.routes, authorities, id);
      ProvisionThenRelease(w.traffic, authorities, Own(id), env.upstream.value);
    }
  }

  lemma AllNew(routes: Routes, authorities: seq<Authority>, id: string)
    requires Unheld(routes, id) && !AnyHeldByOther(routes, authorities, Own(id))
    ensures forall i :: 0 <= i < |authorities| ==> authorities[i] !in routes
  {
    forall i | 0 <= i < |authorities| ensures authorities[i] !in routes {
      assert !HeldByOther(routes, authorities[i], Own(id));
    }
  }

  lemma ProvisionThenRelease(t: Traffic, authorities: seq<Authority>, claim: Claim, upstream: Upstream)
    requires OneClaimEach(t.routes) && authorities != []
    requires forall i :: 0 <= i < |authorities| ==> authorities[i] !in t.routes
    ensures var (t', r) := ProvisionRoute(t, authorities, claim, upstream, false, true);
      r == Success(true) && RevokeRoute(t', authorities, claim).routes == t.routes
  {
    assert !AnyHeldByOther(t.routes, authorities, claim);
    assert authorities[0] !in t.routes;
    var bound := BindAll(t.routes, authorities, claim, upstream, false);
    assert forall a | a in authorities :: a in bound && bound[a].claims.Keys == {claim};
  }

  /** Revoking takes the claim's routes and flows away and nothing else; a failed write changes nothing. */
  lemma RevocationLaw(w: World, id: string, put: bool, claim: Claim)
    requires Inv(w) && id in w.store && w.store[id].ingress in w.ingresses && SwitchClaim(w.store[id], claim)
    ensures var r, e := Revoke(w, id, put), w.store[id];
      if e.approval == Revoked || !put then r == w
      else
        && r == w.(store := w.store[id := e.(approval := Revoked)], traffic := r.traffic)
        && TakenAway(w.traffic, r.traffic, e.authorities, claim)
  {
    hide StoreOk, AllBacked, OneClaimEach, RevokeRoute;
    ReleaseLaw(w.traffic, w.store[id].authorities, claim);
  }

  /** The claim is at none of the authorities, other claims' routes are as they were, and its flows are closed. */
  ghost predicate TakenAway(before: Traffic, after: Traffic, authorities: seq<Authority>, claim: Claim) {
    && ElsewhereSame(before.routes, after.routes, authorities) && ClaimCut(before, after, claim)
    && forall i :: 0 <= i < |authorities| ==>
         if authorities[i] in before.routes && claim !in before.routes[authorities[i]].claims
         then authorities[i] in after.routes && after.routes[authorities[i]] == before.routes[authorities[i]]
         else authorities[i] !in after.routes
  }

  /** Deleting takes the same away; the entry goes, or stays as revoked when its removal fails. */
  lemma DeletionLaw(w: World, id: string, discard: bool, remove: bool, claim: Claim)
    requires Inv(w) && id in w.store && SwitchClaim(w.store[id], claim)
    requires w.store[id].ingress in w.ingresses
    ensures var r, e := Delete(w, id, discard, true, remove), w.store[id];
      && TakenAway(w.traffic, r.traffic, e.authorities, claim)
      && r == w.(store := r.store, traffic := r.traffic)
      && (forall d :: d in r.store <==> d in w.store && !(remove && d == id))
      && (forall d :: d in r.store ==> r.store[d] == if d == id then e.(approval := Revoked) else w.store[d])
  {
    hide StoreOk, AllBacked, OneClaimEach, RevokeRoute;
    ReleaseLaw(w.traffic, w.store[id].authorities, claim);
  }
}
