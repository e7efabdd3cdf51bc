/**
 External URL approval (plugin-external-urls/src/index.ts) over the durable entries
 (plugin-external-urls/src/routeStore.ts). The mutation queue runs one operation at a time, so an
 operation is one step; store writes may fail anywhere in it, and a restart empties the registry. A
 crash inside an operation leaves the store as a failed write at that place would, then restarts.
 */
module ExternalUrls {
  import opened Wrappers
  import opened RouteRegistry

  datatype Approval = NotRequired | Pending | Approved | Revoked

  /**
   A stored URL. `ingressId` is the claim in its route, which an entry need not have; `http` is its
   having a subdomain.
   */
  datatype Entry = Entry(
    id: string,
    ingress: string,
    ingressId: Option<Claim>,
    authorities: seq<Authority>,
    http: bool,
    permalink: bool,
    approval: Approval,
    policyRevision: Option<string>)

  /**
   `permalink` gives the permalink authority of an entry's workspace and id; `address` is where a TCP
   ingress listens.
   */
  datatype Ingress = Ingress(
    approvalRequired: bool,
    policyRevision: string,
    permalink: string -> Authority,
    address: Authority)

  /**
   `accepts` says which hosts make a valid URL. `issued` are the ids handed out so far, `stored` those
   that were ever written to the store, `gated` those created where approval was required.
   */
  datatype World = World(
    accepts: Authority -> bool,
    ingresses: map<string, Ingress>,
    store: map<string, Entry>,
    traffic: Traffic,
    issued: set<string>,
    stored: set<string>,
    gated: set<string>)

  /** A URL is built, and may be refused, for every authority of an HTTP route; TCP routes build none. */
  predicate UrlOk(accepts: Authority -> bool, http: bool, authorities: seq<Authority>) {
    http ==> forall i :: 0 <= i < |authorities| ==> accepts(authorities[i])
  }

  predicate Enabled(a: Approval) { a == NotRequired || a == Approved }

  /** The claim a route is provisioned under, and the one it is switched or revoked under. */
  function ProvisionClaim(e: Entry): Claim { if e.ingressId.Some? then e.ingressId.value else Own(e.id) }

  function RouteClaim(e: Entry): Claim {
    if e.ingressId.Some? then e.ingressId.value else Shared(if e.authorities == [] then "" else e.authorities[0])
  }

  /**
   What the outside answers while a route is provisioned: the upstream, and the name the policy gives,
   if it allows one.
   */
  datatype Surroundings = Surroundings(upstream: Option<Upstream>, name: Option<Authority>)

  /** The authorities provisioned: an HTTP route's name and its own permalink, a TCP route's one address. */
  function Given(ingress: Ingress, http: bool, id: string, env: Surroundings): (r: Option<seq<Authority>>)
    ensures r.Some? ==> |r.value| == if http then 2 else 1
  {
    if env.name.None? then None
    else if http then Some([env.name.value, ingress.permalink(id)])
    else Some([ingress.address])
  }

  function Reconcile(w: World, id: string, putPending: bool, env: Surroundings, putUpdated: bool): World {
    if id !in w.store || w.store[id].ingress !in w.ingresses || w.store[id].approval == Revoked then w else
    var e, ingress := w.store[id], w.ingresses[w.store[id].ingress];
    if ApprovalChanged(e, ingress) && !putPending then w else
    var current := if ApprovalChanged(e, ingress) then e.(approval := Pending) else e;
    var w1 := if ApprovalChanged(e, ingress) then w.(store := w.store[id := current]) else w;
    var given := Given(ingress, e.http, id, env);
    if env.upstream.None? || given.None? then w1 else
    Register(w1, id, current, ingress, given.value, env.upstream.value, putUpdated)
  }

  /** The part of a reconciliation from the registry on, for the entry as it stands in the store. */
  function Register(w: World, id: string, e: Entry, ingress: Ingress, authorities: seq<Authority>, upstream: Upstream,
      putUpdated: bool): World
  {
    var claim := ProvisionClaim(e);
    var (t, r) := ProvisionRoute(w.traffic, authorities, claim, upstream, Enabled(e.approval),
      UrlOk(w.accepts, e.http, authorities));
    var w1 := w.(traffic := t);
    if r.Failure? then w1
    else if !Stale(e, ingress) then
      if authorities == e.authorities || !r.value then w1 else w1.(traffic := RevokeRoute(t, authorities, claim))
    else if putUpdated then w1.(store := w.store[id := Refreshed(e, ingress, authorities)])
    else if r.value then w1.(traffic := RevokeRoute(t, authorities, claim))
    else w1
  }

  predicate PolicyChanged(e: Entry, ingress: Ingress) { e.policyRevision != Some(ingress.policyRevision) }

  predicate Stale(e: Entry, ingress: Ingress) { PolicyChanged(e, ingress) || (e.http && !e.permalink) }

  predicate ApprovalChanged(e: Entry, ingress: Ingress) { ingress.approvalRequired && Stale(e, ingress) }

  function Refreshed(e: Entry, ingress: Ingress, authorities: seq<Authority>): Entry {
    e.(ingressId := Some(ProvisionClaim(e)), authorities := authorities, permalink := e.http,
       policyRevision := Some(ingress.policyRevision))
  }

  /** `key` is the shared claim of a route that needs no approval. */
  function Create(w: World, id: string, name: string, http: bool, key: string, env: Surroundings, put: bool): World {
    if id in w.issued || name !in w.ingresses || env.upstream.None? then w else
    var ingress := w.ingresses[name];
    var given := Given(ingress, http, id, env);
    if given.None? then w else
    var authorities := given.value;
    var approval := if ingress.approvalRequired then Pending else NotRequired;
    var claim := if ingress.approvalRequired then Own(id) else Shared(key);
    var (t, r) := ProvisionRoute(w.traffic, authorities, claim, env.upstream.value,
      Enabled(approval), UrlOk(w.accepts, http, authorities));
    var w1 := w.(traffic := t, issued := w.issued + {id},
      gated := if ingress.approvalRequired then w.gated + {id} else w.gated);
    if r.Failure? then w1
    else if put then
      w1.(store := w.store[id := Entry(id, name, Some(claim), authorities, http, http, approval, Some(ingress.policyRevision))],
          stored := w.stored + {id})
    else if r.value then w1.(traffic := RevokeRoute(t, authorities, claim))
    else w1
  }

  function Approve(w: World, id: string, put: bool): World {
    if id !in w.store || w.store[id].ingress !in w.ingresses then w else
    var e, ingress := w.store[id], w.ingresses[w.store[id].ingress];
    if e.approval != Pending || PolicyChanged(e, ingress) then w else
    var (off, r) := SetApproval(w.traffic, e.authorities, RouteClaim(e), false);
    if r.Failure? then w
    else if !put then w.(traffic := off)
    else w.(store := w.store[id := e.(approval := Approved)], traffic := SetApproval(off, e.authorities, RouteClaim(e), true).0)
  }

  function Revoke(w: World, id: string, put: bool): World {
    if id !in w.store || w.store[id].ingress !in w.ingresses || w.store[id].approval == Revoked || !put then w else
    var e := w.store[id];
    w.(store := w.store[id := e.(approval := Revoked)], traffic := RevokeRoute(w.traffic, e.authorities, RouteClaim(e)))
  }

  /** Deleting one URL, or, with `discard`, one of a workspace's, which skips an ingress that is gone. */
  function Delete(w: World, id: string, discard: bool, put: bool, remove: bool): World {
    if id !in w.store || (!discard && w.store[id].ingress !in w.ingresses) || !put then w else
    var e := w.store[id];
    var t := if e.ingress in w.ingresses then RevokeRoute(w.traffic, e.authorities, RouteClaim(e)) else w.traffic;
    w.(traffic := t, store := if remove then w.store - {id} else w.store[id := e.(approval := Revoked)])
  }

  function Restart(w: World, ingresses: map<string, Ingress>): World { w.(ingresses := ingresses, traffic := IDLE) }

  datatype Op =
    | CreateOp(id: string, name: string, http: bool, key: string, env: Surroundings, put: bool)
    | ReconcileOp(id: string, putPending: bool, env: Surroundings, putUpdated: bool)
    | ApproveOp(id: string, put: bool)
    | RevokeOp(id: string, put: bool)
    | DeleteOp(id: string, discard: bool, put: bool, remove: bool)
    | RestartOp(ingresses: map<string, Ingress>)

  function Next(w: World, op: Op): World {
    match op
    case CreateOp(id, name, http, key, env, put) => Create(w, id, name, http, key, env, put)
    case ReconcileOp(id, putPending, env, putUpdated) => Reconcile(w, id, putPending, env, putUpdated)
    case ApproveOp(id, put) => Approve(w, id, put)
    case RevokeOp(id, put) => Revoke(w, id, put)
    case DeleteOp(id, discard, put, remove) => Delete(w, id, discard, put, remove)
    case RestartOp(ingresses) => Restart(w, ingresses)
  }

  function Run(w: World, ops: seq<Op>): World
    decreases |ops|
  {
    if ops == [] then w else Run(Next(w, ops[0]), ops[1..])
  }

  // ---- what every operation keeps ----

  /** An HTTP entry has its name and, once it is up to date, its permalink; a TCP entry its address. */
  predicate Shaped(http: bool, permalink: bool, authorities: seq<Authority>) {
    if http then 1 <= |authorities| <= 2 && (permalink ==> |authorities| == 2) else |authorities| == 1 && !permalink
  }

  /** What was stored was stored under its own claim, if any, and after its URLs had been accepted. */
  predicate EntryOk(accepts: Authority -> bool, id: string, e: Entry) {
    && e.id == id && (e.ingressId.Some? && e.ingressId.value.Own? ==> e.ingressId.value.id == id)
    && Shaped(e.http, e.permalink, e.authorities)
    && (e.http ==> forall i :: 0 <= i < |e.authorities| ==> accepts(e.authorities[i]))
  }

  ghost predicate StoreOk(accepts: Authority -> bool, store: map<string, Entry>, issued: set<string>, stored: set<string>,
      gated: set<string>)
  {
    && (forall id :: id in store ==> EntryOk(accepts, id, store[id]))
    && (forall id :: id in store && id in gated ==> store[id].approval != NotRequired)
    && store.Keys <= stored <= issued && gated <= issued
  }

  /** Ids whose creation never reached the store. */
  function Loose(w: World): set<string> { w.issued - w.stored }

  /**
   A live claim of an entry's own is at one of the authorities of a current entry that allows its being
   enabled; or it is disabled, left behind by a creation that never reached the store.
   */
  predicate Backs(ingresses: map<string, Ingress>, store: map<string, Entry>, loose: set<string>, a: Authority,
      id: string, enabled: bool) {
    if id !in store then id in loose && !enabled
    else
      && store[id].ingressId == Some(Own(id)) && a in store[id].authorities
      && store[id].approval != Revoked && (enabled ==> Enabled(store[id].approval))
      && store[id].ingress in ingresses && !Stale(store[id], ingresses[store[id].ingress])
  }

  ghost predicate AllBacked(ingresses: map<string, Ingress>, store: map<string, Entry>, loose: set<string>,
      routes: Routes) {
    forall a, id :: a in routes && Own(id) in routes[a].claims ==> Backs(ingresses, store, loose, a, id, routes[a].claims[Own(id)])
  }

  ghost predicate Inv(w: World) {
    && StoreOk(w.accepts, w.store, w.issued, w.stored, w.gated) && OneClaimEach(w.traffic.routes)
    && AllBacked(w.ingresses, w.store, Loose(w), w.traffic.routes)
  }

  ghost predicate Initial(w: World) { StoreOk(w.accepts, w.store, w.issued, w.stored, w.gated) && w.traffic == IDLE }

  /** No authority holds the entry's own claim. */
  ghost predicate Unheld(routes: Routes, id: string) { forall a :: a in routes ==> Own(id) !in routes[a].claims }

  lemma BindBacked(w: World, store: map<string, Entry>, authorities: seq<Authority>, claim: Claim, upstream: Upstream,
      enabled: bool)
    requires OneClaimEach(w.traffic.routes) && !AnyHeldByOther(w.traffic.routes, authorities, claim)
    requires AllBacked(w.ingresses, store, Loose(w), w.traffic.routes)
    requires claim.Own? ==> forall a :: a in authorities ==> Backs(w.ingresses, store, Loose(w), a, claim.id, enabled)
    ensures AllBacked(w.ingresses, store, Loose(w), BindAll(w.traffic.routes, authorities, claim, upstream, enabled))
  {
    hide OneClaimEach, Backs;
    BindKeepsClaims(w.traffic.routes, authorities, claim, upstream, enabled);
  }

  /** Writing an entry whose own claim is not live disturbs nothing that is. */
  lemma PutUnheld(ingresses: map<string, Ingress>, store: map<string, Entry>, loose: set<string>, routes: Routes,
      id: string, e: Entry)
    requires AllBacked(ingresses, store, loose, routes) && Unheld(routes, id)
    ensures AllBacked(ingresses, store[id := e], loose, routes) && AllBacked(ingresses, store - {id}, loose, routes)
  {
  }

  lemma ReleaseBacked(ingresses: map<string, Ingress>, store: map<string, Entry>, loose: set<string>, routes: Routes,
      authorities: seq<Authority>, claim: Claim)
    requires AllBacked(ingresses, store, loose, routes)
    ensures AllBacked(ingresses, store, loose, Release(routes, authorities, claim))
  {
    hide Backs;
  }

  /** The entry is not one that a live claim of its own may belong to. */
  predicate Unfit(w: World, id: string)
    requires id in w.store
  {
    || w.store[id].ingressId != Some(Own(id)) || w.store[id].approval == Revoked
    || w.store[id].ingress !in w.ingresses || Stale(w.store[id], w.ingresses[w.store[id].ingress])
  }

  lemma UnfitIsUnheld(w: World, id: string)
    requires Inv(w) && id in w.store && Unfit(w, id)
    ensures Unheld(w.traffic.routes, id)
  {
  }

  lemma NewIsUnheld(w: World, id: string)
    requires Inv(w) && id !in w.issued
    ensures Unheld(w.traffic.routes, id)
  {
  }

  /** Releasing an entry's authorities takes its own claim out of the registry. */
  lemma ReleasedIsUnheld(w: World, id: string)
    requires Inv(w) && id in w.store
    ensures Unheld(Release(w.traffic.routes, w.store[id].authorities, RouteClaim(w.store[id])), id)
  {
    var e := w.store[id];
    var routes, left := w.traffic.routes, Release(w.traffic.routes, e.authorities, RouteClaim(e));
    forall a | a in routes && Own(id) in routes[a].claims ensures a in e.authorities && RouteClaim(e) == Own(id) {
      assert Backs(w.ingresses, w.store, Loose(w), a, id, routes[a].claims[Own(id)]);
    }
  }

  /** Taking back a registration leaves a part of what was registered before. */
  lemma UndoBacked(ingresses: map<string, Ingress>, store: map<string, Entry>, loose: set<string>, routes: Routes,
      authorities: seq<Authority>, claim: Claim, upstream: Upstream, enabled: bool)
    requires OneClaimEach(routes) && !AnyHeldByOther(routes, authorities, claim)
    requires AllBacked(ingresses, store, loose, routes)
    ensures AllBacked(ingresses, store, loose, Release(BindAll(routes, authorities, claim, upstream, enabled), authorities, claim))
  {
    hide OneClaimEach, Backs;
    BindKeepsClaims(routes, authorities, claim, upstream, enabled);
    var bound := BindAll(routes, authorities, claim, upstream, enabled);
    var left := Release(bound, authorities, claim);
    assert forall a | a in authorities :: bound[a].claims.Keys == {claim};
    assert forall a | a in left :: a in routes && left[a] == routes[a];
  }

  lemma SwitchBacked(ingresses: map<string, Ingress>, store: map<string, Entry>, loose: set<string>, routes: Routes,
      e: Entry, enabled: bool)
    requires AllBacked(ingresses, store, loose, routes) && AllActive(routes, e.authorities, RouteClaim(e))
    requires RouteClaim(e).Own? && enabled ==> RouteClaim(e).id in store && Enabled(store[RouteClaim(e).id].approval)
    ensures AllBacked(ingresses, store, loose, Switch(routes, e.authorities, RouteClaim(e), enabled))
  {
    var on := Switch(routes, e.authorities, RouteClaim(e), enabled);
    forall a, id | a in on && Own(id) in on[a].claims
      ensures Backs(ingresses, store, loose, a, id, on[a].claims[Own(id)])
    {
      if a in e.authorities { var i :| 0 <= i < |e.authorities| && e.authorities[i] == a; }
      assert Own(id) in routes[a].claims;
      assert Backs(ingresses, store, loose, a, id, routes[a].claims[Own(id)]);
    }
  }

  // ---- each operation ----

  lemma RevokeBacked(w: World, id: string)
    requires Inv(w) && id in w.store
    ensures var e := w.store[id]; var routes := Release(w.traffic.routes, e.authorities, RouteClaim(e));
      && OneClaimEach(routes) && Unheld(routes, id)
      && AllBacked(w.ingresses, w.store[id := e.(approval := Revoked)], Loose(w), routes)
      && AllBacked(w.ingresses, w.store - {id}, Loose(w), routes)
  {
    hide AllBacked, OneClaimEach, Release, Unheld;
    var e := w.store[id];
    ReleaseKeepsFlows(w.traffic.routes, e.authorities, RouteClaim(e), {});
    ReleaseBacked(w.ingresses, w.store, Loose(w), w.traffic.routes, e.authorities, RouteClaim(e));
    ReleasedIsUnheld(w, id);
    PutUnheld(w.ingresses, w.store, Loose(w), Release(w.traffic.routes, e.authorities, RouteClaim(e)), id,
      e.(approval := Revoked));
  }

  lemma PutOk(w: World, id: string, e: Entry, approval: Approval)
    requires StoreOk(w.accepts, w.store, w.issued, w.stored, w.gated) && id in w.store
    requires e == w.store[id].(approval := approval)
    requires approval != NotRequired
    ensures StoreOk(w.accepts, w.store[id := e], w.issued, w.stored, w.gated)
    ensures StoreOk(w.accepts, w.store - {id}, w.issued, w.stored, w.gated)
  {
  }

  lemma RevokeKeepsInv(w: World, id: string, put: bool)
    requires Inv(w)
    ensures Inv(Revoke(w, id, put))
  {
    hide AllBacked, OneClaimEach, Release, StoreOk;
    if id in w.store {
      RevokeBacked(w, id);
      PutOk(w, id, w.store[id].(approval := Revoked), Revoked);
    }
  }

  lemma DeleteKeepsInv(w: World, id: string, discard: bool, put: bool, remove: bool)
    requires Inv(w)
    ensures Inv(Delete(w, id, discard, put, remove))
  {
    hide AllBacked, OneClaimEach, Release, StoreOk;
    if id in w.store {
      var e := w.store[id];
      RevokeBacked(w, id);
      PutOk(w, id, e.(approval := Revoked), Revoked);
      if e.ingress !in w.ingresses {
        UnfitIsUnheld(w, id);
        PutUnheld(w.ingresses, w.store, Loose(w), w.traffic.routes, id, e.(approval := Revoked));
      }
    }
  }

  lemma ApprovedBacks(w: World, id: string)
    requires Inv(w) && id in w.store && w.store[id].approval == Pending
    ensures AllBacked(w.ingresses, w.store[id := w.store[id].(approval := Approved)], Loose(w), w.traffic.routes)
  {
  }

  lemma ApproveKeepsInv(w: World, id: string, put: bool)
    requires Inv(w)
    ensures Inv(Approve(w, id, put))
  {
    hide OneClaimEach, StoreOk, Switch, AllBacked;
    if id in w.store && w.store[id].ingress in w.ingresses && w.store[id].approval == Pending
      && AllActive(w.traffic.routes, w.store[id].authorities, RouteClaim(w.store[id])) {
      var e := w.store[id];
      var store := w.store[id := e.(approval := Approved)];
      var off := Switch(w.traffic.routes, e.authorities, RouteClaim(e), false);
      OwnIsItself(w, id);
      SwitchKeepsFlows(w.traffic.routes, e.authorities, RouteClaim(e), false, {});
      SwitchBacked(w.ingresses, w.store, Loose(w), w.traffic.routes, e, false);
      PutOk(w, id, e.(approval := Approved), Approved);
      ApprovedBacks(w.(traffic := w.traffic.(routes := off)), id);
      StillActive(w.traffic.routes, e.authorities, RouteClaim(e));
      SwitchKeepsFlows(off, e.authorities, RouteClaim(e), true, {});
      SwitchBacked(w.ingresses, store, Loose(w), off, e, true);
    }
  }

  lemma OwnIsItself(w: World, id: string)
    requires Inv(w) && id in w.store
    ensures RouteClaim(w.store[id]).Own? ==> RouteClaim(w.store[id]).id == id
  {
  }

  lemma StillActive(routes: Routes, authorities: seq<Authority>, claim: Claim)
    requires AllActive(routes, authorities, claim)
    ensures AllActive(Switch(routes, authorities, claim, false), authorities, claim)
  {
  }

  /** More ids may be loose without anything losing its backing. */
  lemma LooserBacked(ingresses: map<string, Ingress>, store: map<string, Entry>, loose: set<string>,
      looser: set<string>, routes: Routes)
    requires AllBacked(ingresses, store, loose, routes) && loose <= looser
    ensures AllBacked(ingresses, store, looser, routes)
  {
  }

  /** A registration that is kept though nothing is stored: another's claim, or the new entry's own one, disabled. */
  lemma LeftBehindBacked(w: World, id: string, authorities: seq<Authority>, claim: Claim, upstream: Upstream,
      enabled: bool)
    requires Inv(w) && id !in w.issued && ((claim == Own(id) && !enabled) || claim.Shared?)
    requires !AnyHeldByOther(w.traffic.routes, authorities, claim)
    ensures AllBacked(w.ingresses, w.store, Loose(w) + {id}, BindAll(w.traffic.routes, authorities, claim, upstream, enabled))
  {
    hide OneClaimEach, AllBacked, BindAll;
    LooserBacked(w.ingresses, w.store, Loose(w), Loose(w) + {id}, w.traffic.routes);
    var looser := w.(issued := w.issued + {id});
    assert Loose(looser) == Loose(w) + {id};
    BindBacked(looser, w.store, authorities, claim, upstream, enabled);
  }

  lemma CreateKeepsInv(w: World, id: string, name: string, http: bool, key: string, env: Surroundings, put: bool)
    requires Inv(w)
    ensures Inv(Create(w, id, name, http, key, env, put))
  {
    hide OneClaimEach, AllBacked, BindAll, Release, Unheld, UrlOk;
    if id !in w.issued && name in w.ingresses && env.upstream.Some? && Given(w.ingresses[name], http, id, env).Some? {
      var ingress, authorities := w.ingresses[name], Given(w.ingresses[name], http, id, env).value;
      var approval := if ingress.approvalRequired then Pending else NotRequired;
      var claim := if ingress.approvalRequired then Own(id) else Shared(key);
      var routes := w.traffic.routes;
      var gated := if ingress.approvalRequired then w.gated + {id} else w.gated;
      var e := Entry(id, name, Some(claim), authorities, http, http, approval, Some(ingress.policyRevision));
      NewEntryOk(w, id, e, gated, ingress.approvalRequired);
      assert w.issued + {id} - w.stored == Loose(w) + {id} && w.issued + {id} - (w.stored + {id}) == Loose(w);
      LooserBacked(w.ingresses, w.store, Loose(w), Loose(w) + {id}, routes);
      if authorities != [] && !AnyHeldByOther(routes, authorities, claim) {
        hide AnyHeldByOther, AnyNew, AnyRebinds, StoreOk;
        CreatedBacked(w, id, e, authorities, claim, env.upstream.value, Enabled(approval));
      }
    }
  }

  lemma CreatedBacked(w: World, id: string, e: Entry, authorities: seq<Authority>, claim: Claim, upstream: Upstream,
      enabled: bool)
    requires Inv(w) && id !in w.issued && authorities != [] && !AnyHeldByOther(w.traffic.routes, authorities, claim)
    requires (claim == Own(id) && !enabled) || claim.Shared?
    requires e.ingressId == Some(claim) && e.authorities == authorities && e.approval != Revoked
    requires e.ingress in w.ingresses
    requires !Stale(e, w.ingresses[e.ingress])
    ensures var bound := BindAll(w.traffic.routes, authorities, claim, upstream, enabled);
      var left := Release(bound, authorities, claim);
      && OneClaimEach(bound) && OneClaimEach(left)
      && AllBacked(w.ingresses, w.store[id := e], Loose(w), bound)
      && AllBacked(w.ingresses, w.store, Loose(w) + {id}, left)
      && AllBacked(w.ingresses, w.store, Loose(w) + {id}, bound)
  {
    hide OneClaimEach, AllBacked, BindAll, Release, Unheld, AnyHeldByOther;
    var routes := w.traffic.routes;
    NewIsUnheld(w, id);
    PutUnheld(w.ingresses, w.store, Loose(w), routes, id, e);
    LooserBacked(w.ingresses, w.store, Loose(w), Loose(w) + {id}, routes);
    BindKeepsClaims(routes, authorities, claim, upstream, enabled);
    BindBacked(w, w.store[id := e], authorities, claim, upstream, enabled);
    UndoBacked(w.ingresses, w.store, Loose(w) + {id}, routes, authorities, claim, upstream, enabled);
    LeftBehindBacked(w, id, authorities, claim, upstream, enabled);
    ReleaseKeepsFlows(BindAll(routes, authorities, claim, upstream, enabled), authorities, claim, {});
  }

  lemma NewEntryOk(w: World, id: string, e: Entry, gated: set<string>, gate: bool)
    requires StoreOk(w.accepts, w.store, w.issued, w.stored, w.gated) && id !in w.issued && e.id == id
    requires e.ingressId.Some?
    requires e.ingressId.value.Own? ==> e.ingressId.value.id == id
    requires gated == (if gate then w.gated + {id} else w.gated) && (gate ==> e.approval == Pending)
    requires Shaped(e.http, e.permalink, e.authorities)
    ensures StoreOk(w.accepts, w.store, w.issued + {id}, w.stored, gated)
    ensures UrlOk(w.accepts, e.http, e.authorities) ==> StoreOk(w.accepts, w.store[id := e], w.issued + {id}, w.stored + {id}, gated)
  {
  }

  /** A fresh entry's own claim always acquires something. */
  lemma NotNewIsShared(w: World, authorities: seq<Authority>, id: string, claim: Claim)
    requires Unheld(w.traffic.routes, id) && authorities != [] && !AnyNew(w.traffic.routes, authorities)
    requires !AnyHeldByOther(w.traffic.routes, authorities, claim)
    ensures claim != Own(id)
  {
    assert authorities[0] in w.traffic.routes && !HeldByOther(w.traffic.routes, authorities[0], claim);
    assert claim in w.traffic.routes[authorities[0]].claims.Keys;
  }

  /** An entry brought up to date backs its claim at the authorities it was given. */
  lemma RefreshedBacks(w: World, id: string, e: Entry, ingress: Ingress, authorities: seq<Authority>)
    requires Inv(w) && id in w.store && w.store[id].ingress in w.ingresses
    requires ingress == w.ingresses[w.store[id].ingress]
    requires Stale(w.store[id], ingress) && (e == w.store[id] || e == w.store[id].(approval := Pending))
    requires e.approval != Revoked
    ensures var store := w.store[id := Refreshed(e, ingress, authorities)];
      && (UrlOk(w.accepts, e.http, authorities) && Shaped(e.http, e.http, authorities) ==>
            StoreOk(w.accepts, store, w.issued, w.stored, w.gated))
      && (ProvisionClaim(e).Own? ==> ProvisionClaim(e).id == id)
      && (ProvisionClaim(e).Own? ==>
            forall a :: a in authorities ==> Backs(w.ingresses, store, Loose(w), a, id, Enabled(e.approval)))
  {
  }

  /** The path of an entry whose policy or permalink is out of date. */
  lemma StalePathKeepsInv(w: World, id: string, e: Entry, authorities: seq<Authority>, upstream: Upstream)
    requires Inv(w) && id in w.store && w.store[id].ingress in w.ingresses
    requires Stale(w.store[id], w.ingresses[w.store[id].ingress])
    requires (e == w.store[id] || e == w.store[id].(approval := Pending)) && e.approval != Revoked
    requires authorities != [] && !AnyHeldByOther(w.traffic.routes, authorities, ProvisionClaim(e))
    ensures var routes, claim, ingress := w.traffic.routes, ProvisionClaim(e), w.ingresses[w.store[id].ingress];
      var bound := BindAll(routes, authorities, claim, upstream, Enabled(e.approval));
      && OneClaimEach(bound) && OneClaimEach(Release(bound, authorities, claim))
      && (UrlOk(w.accepts, e.http, authorities) && Shaped(e.http, e.http, authorities) ==>
            StoreOk(w.accepts, w.store[id := Refreshed(e, ingress, authorities)], w.issued, w.stored, w.gated))
      && AllBacked(w.ingresses, w.store[id := Refreshed(e, ingress, authorities)], Loose(w), bound)
      && AllBacked(w.ingresses, w.store[id := e], Loose(w), Release(bound, authorities, claim))
      && (claim.Shared? || !AnyNew(routes, authorities) ==> AllBacked(w.ingresses, w.store[id := e], Loose(w), bound))
  {
    hide OneClaimEach, AllBacked, BindAll, Release, Unheld, StoreOk, Stale, Backs, Enabled;
    var routes, claim, ingress := w.traffic.routes, ProvisionClaim(e), w.ingresses[w.store[id].ingress];
    var updated := Refreshed(e, ingress, authorities);
    var bound := BindAll(routes, authorities, claim, upstream, Enabled(e.approval));
    UnfitIsUnheld(w, id);
    PutUnheld(w.ingresses, w.store, Loose(w), routes, id, e);
    PutUnheld(w.ingresses, w.store, Loose(w), routes, id, updated);
    RefreshedBacks(w, id, e, ingress, authorities);
    BindKeepsClaims(routes, authorities, claim, upstream, Enabled(e.approval));
    BindBacked(w, w.store[id := updated], authorities, claim, upstream, Enabled(e.approval));
    UndoBacked(w.ingresses, w.store[id := e], Loose(w), routes, authorities, claim, upstream, Enabled(e.approval));
    ReleaseKeepsFlows(bound, authorities, claim, {});
    if claim.Shared? || !AnyNew(routes, authorities) {
      if !AnyNew(routes, authorities) { NotNewIsShared(w, authorities, id, claim); }
      BindBacked(w, w.store[id := e], authorities, claim, upstream, Enabled(e.approval));
    }
  }

  /** The path of an entry that is up to date. */
  lemma CurrentPathKeepsInv(w: World, id: string, authorities: seq<Authority>, upstream: Upstream)
    requires Inv(w) && id in w.store && w.store[id].ingress in w.ingresses
    requires !Stale(w.store[id], w.ingresses[w.store[id].ingress])
    requires w.store[id].approval != Revoked && authorities != []
    requires !AnyHeldByOther(w.traffic.routes, authorities, ProvisionClaim(w.store[id]))
    ensures var e, routes := w.store[id], w.traffic.routes; var claim := ProvisionClaim(e);
      var bound := BindAll(routes, authorities, claim, upstream, Enabled(e.approval));
      && OneClaimEach(bound) && OneClaimEach(Release(bound, authorities, claim))
      && AllBacked(w.ingresses, w.store, Loose(w), Release(bound, authorities, claim))
      && (claim.Shared? || (e.ingressId.Some? && forall i :: 0 <= i < |authorities| ==> authorities[i] in e.authorities) ==>
           AllBacked(w.ingresses, w.store, Loose(w), bound))
  {
    hide OneClaimEach, AllBacked, BindAll, Release, Enabled;
    var e, routes := w.store[id], w.traffic.routes;
    var claim := ProvisionClaim(e);
    var bound := BindAll(routes, authorities, claim, upstream, Enabled(e.approval));
    BindKeepsClaims(routes, authorities, claim, upstream, Enabled(e.approval));
    UndoBacked(w.ingresses, w.store, Loose(w), routes, authorities, claim, upstream, Enabled(e.approval));
    ReleaseKeepsFlows(bound, authorities, claim, {});
    if claim.Shared? || (e.ingressId.Some? && forall i :: 0 <= i < |authorities| ==> authorities[i] in e.authorities) {
      BindBacked(w, w.store, authorities, claim, upstream, Enabled(e.approval));
    }
  }

  lemma HeldIsListed(w: World, id: string, authorities: seq<Authority>, claim: Claim)
    requires Inv(w) && !AnyNew(w.traffic.routes, authorities) && !AnyHeldByOther(w.traffic.routes, authorities, claim)
    requires id in w.store && claim == Own(id) && authorities != []
    ensures w.store[id].ingressId.Some? && forall i :: 0 <= i < |authorities| ==> authorities[i] in w.store[id].authorities
  {
    hide OneClaimEach;
    forall i | 0 <= i < |authorities| ensures w.store[id].ingressId.Some? && authorities[i] in w.store[id].authorities {
      assert authorities[i] in w.traffic.routes && !HeldByOther(w.traffic.routes, authorities[i], claim);
      assert Own(id) in w.traffic.routes[authorities[i]].claims.Keys;
    }
    assert authorities[0] in w.store[id].authorities;
  }

  // ---- which reconciliations leave something behind ----

  /** The authorities that reconciling a stored entry is given. */
  function GivenTo(w: World, id: string, env: Surroundings): (r: Option<seq<Authority>>)
    requires id in w.store && w.store[id].ingress in w.ingresses
    ensures r.Some? ==> Shaped(w.store[id].http, w.store[id].http, r.value)
  {
    Given(w.ingresses[w.store[id].ingress], w.store[id].http, id, env)
  }

  /** The reconciliation gets as far as the registry, and the registry takes the route. */
  predicate Registers(w: World, id: string, putPending: bool, env: Surroundings) {
    && id in w.store && w.store[id].ingress in w.ingresses && w.store[id].approval != Revoked
    && (ApprovalChanged(w.store[id], w.ingresses[w.store[id].ingress]) ==> putPending)
    && env.upstream.Some? && GivenTo(w, id, env).Some?
    && !AnyHeldByOther(w.traffic.routes, GivenTo(w, id, env).value, ProvisionClaim(w.store[id]))
  }

  /**
   What the registry is left with is accounted for by the entry. A URL that is refused afterwards leaves
   the registration behind under the entry's own claim. A URL that is accepted leaves an entry without a
   recorded claim as it is, which matters when the entry is current and keeps its authorities.
   */
  predicate Answerable(w: World, id: string, authorities: seq<Authority>)
    requires id in w.store && w.store[id].ingress in w.ingresses
  {
    var e := w.store[id];
    || ProvisionClaim(e).Shared?
    || (&& UrlOk(w.accepts, e.http, authorities)
        && (e.ingressId.Some? || Stale(e, w.ingresses[e.ingress]) || authorities != e.authorities))
  }

  predicate Accounted(w: World, op: Op) {
    op.ReconcileOp? && Registers(w, op.id, op.putPending, op.env) ==>
      Answerable(w, op.id, GivenTo(w, op.id, op.env).value)
  }

  lemma OwnClaimIsItself(w: World, id: string)
    requires Inv(w) && id in w.store
    ensures ProvisionClaim(w.store[id]).Own? ==> ProvisionClaim(w.store[id]) == Own(id)
  {
  }

  /** The entry as it stands when the registry is reached. */
  function Current(w: World, id: string): Entry
    requires id in w.store && w.store[id].ingress in w.ingresses
  {
    if ApprovalChanged(w.store[id], w.ingresses[w.store[id].ingress]) then w.store[id].(approval := Pending) else w.store[id]
  }

  /** The store and the registry after a reconciliation that registers. */
  function Outcome(w: World, id: string, authorities: seq<Authority>, upstream: Upstream,
      putUpdated: bool): (map<string, Entry>, Routes)
    requires id in w.store && w.store[id].ingress in w.ingresses
  {
    var e, ingress, current := w.store[id], w.ingresses[w.store[id].ingress], Current(w, id);
    var claim := ProvisionClaim(e);
    var bound := BindAll(w.traffic.routes, authorities, claim, upstream, Enabled(current.approval));
    var left := Release(bound, authorities, claim);
    var acquired := AnyNew(w.traffic.routes, authorities);
    if !UrlOk(w.accepts, e.http, authorities) then (w.store[id := current], bound)
    else if !Stale(e, ingress) then (w.store, if authorities == e.authorities || !acquired then bound else left)
    else if putUpdated then (w.store[id := Refreshed(current, ingress, authorities)], bound)
    else (w.store[id := current], if acquired then left else bound)
  }

  lemma RegisterOutcome(w: World, id: string, e: Entry, ingress: Ingress, authorities: seq<Authority>, upstream: Upstream,
      putUpdated: bool)
    requires authorities != [] && !AnyHeldByOther(w.traffic.routes, authorities, ProvisionClaim(e))
    ensures var r := Register(w, id, e, ingress, authorities, upstream, putUpdated);
      var bound := BindAll(w.traffic.routes, authorities, ProvisionClaim(e), upstream, Enabled(e.approval));
      var left := Release(bound, authorities, ProvisionClaim(e));
      var acquired := AnyNew(w.traffic.routes, authorities);
      var ok := UrlOk(w.accepts, e.http, authorities);
      && r == w.(store := r.store, traffic := r.traffic)
      && r.store == (if ok && Stale(e, ingress) && putUpdated then w.store[id := Refreshed(e, ingress, authorities)] else w.store)
      && r.traffic.routes ==
         if ok && acquired && (if Stale(e, ingress) then !putUpdated else authorities != e.authorities) then left else bound
  {
    hide AnyHeldByOther, BindAll, Release, UrlOk, Stale, AnyNew, AnyRebinds, Refreshed, Enabled;
  }

  lemma ReconcileOutcome(w: World, id: string, putPending: bool, env: Surroundings, putUpdated: bool)
    requires Registers(w, id, putPending, env)
    ensures var r := Reconcile(w, id, putPending, env, putUpdated);
      && r == w.(store := r.store, traffic := r.traffic)
      && (r.store, r.traffic.routes) == Outcome(w, id, GivenTo(w, id, env).value, env.upstream.value, putUpdated)
  {
    var current, ingress, authorities := Current(w, id), w.ingresses[w.store[id].ingress], GivenTo(w, id, env).value;
    SameAge(w.store[id], ingress);
    hide AnyHeldByOther, BindAll, Release, UrlOk, Stale, AnyNew, AnyRebinds, Register, Refreshed, Enabled;
    assert w.store[id := w.store[id]] == w.store;
    RegisterOutcome(w.(store := w.store[id := current]), id, current, ingress, authorities, env.upstream.value, putUpdated);
    var e := Refreshed(current, ingress, authorities);
    assert w.store[id := current][id := e] == w.store[id := e];
  }

  lemma SameAge(e: Entry, ingress: Ingress)
    ensures Stale(e.(approval := Pending), ingress) == Stale(e, ingress)
  {
  }

  lemma ReconcileElse(w: World, id: string, putPending: bool, env: Surroundings, putUpdated: bool)
    requires !Registers(w, id, putPending, env)
    ensures var r := Reconcile(w, id, putPending, env, putUpdated);
      || r == w
      || (&& id in w.store && w.store[id].ingress in w.ingresses && Stale(w.store[id], w.ingresses[w.store[id].ingress])
          && r == w.(store := w.store[id := w.store[id].(approval := Pending)]))
  {
    hide AnyHeldByOther, BindAll, Release, UrlOk, Stale, AnyNew, AnyRebinds;
  }

  lemma PendingKeepsInv(w: World, id: string)
    requires Inv(w) && id in w.store && w.store[id].ingress in w.ingresses
    requires Stale(w.store[id], w.ingresses[w.store[id].ingress])
    ensures Inv(w.(store := w.store[id := w.store[id].(approval := Pending)]))
  {
    hide OneClaimEach, AllBacked, StoreOk, Unheld, Stale;
    UnfitIsUnheld(w, id);
    PutOk(w, id, w.store[id].(approval := Pending), Pending);
    PutUnheld(w.ingresses, w.store, Loose(w), w.traffic.routes, id, w.store[id].(approval := Pending));
  }

  lemma OutcomeIsBacked(w: World, id: string, authorities: seq<Authority>, upstream: Upstream, putUpdated: bool)
    requires Inv(w) && id in w.store && w.store[id].ingress in w.ingresses && w.store[id].approval != Revoked
    requires Shaped(w.store[id].http, w.store[id].http, authorities)
    requires !AnyHeldByOther(w.traffic.routes, authorities, ProvisionClaim(w.store[id]))
    requires Answerable(w, id, authorities)
    ensures var (store, routes) := Outcome(w, id, authorities, upstream, putUpdated);
      StoreOk(w.accepts, store, w.issued, w.stored, w.gated) && OneClaimEach(routes) && AllBacked(w.ingresses, store, Loose(w), routes)
  {
    hide OneClaimEach, AllBacked, BindAll, Release, StoreOk, Unheld, Stale, UrlOk;
    var e, ingress := w.store[id], w.ingresses[w.store[id].ingress];
    assert w.store[id := e] == w.store;
    OwnClaimIsItself(w, id);
    if Stale(e, ingress) {
      PutOk(w, id, e.(approval := Pending), Pending);
      StalePathKeepsInv(w, id, Current(w, id), authorities, upstream);
    } else {
      CurrentPathKeepsInv(w, id, authorities, upstream);
      if ProvisionClaim(e).Own? && !AnyNew(w.traffic.routes, authorities) {
        HeldIsListed(w, id, authorities, ProvisionClaim(e));
      }
    }
  }

  lemma ReconcileKeepsInv(w: World, id: string, putPending: bool, env: Surroundings, putUpdated: bool)
    requires Inv(w) && Accounted(w, ReconcileOp(id, putPending, env, putUpdated))
    ensures Inv(Reconcile(w, id, putPending, env, putUpdated))
  {
    hide OneClaimEach, AllBacked, StoreOk, Stale, Reconcile, Answerable, AnyHeldByOther, Outcome;
    if Registers(w, id, putPending, env) {
      ReconcileOutcome(w, id, putPending, env, putUpdated);
      OutcomeIsBacked(w, id, GivenTo(w, id, env).value, env.upstream.value, putUpdated);
    } else {
      ReconcileElse(w, id, putPending, env, putUpdated);
      if id in w.store && w.store[id].ingress in w.ingresses && Stale(w.store[id], w.ingresses[w.store[id].ingress]) {
        PendingKeepsInv(w, id); }
    }
  }

  lemma StepKeepsInv(w: World, op: Op)
    requires Inv(w) && Accounted(w, op)
    ensures Inv(Next(w, op))
  {
    hide Inv, Create, Reconcile, Approve, Revoke, Delete, Registers, Answerable;
    match op
    case CreateOp(id, name, http, key, env, put) => CreateKeepsInv(w, id, name, http, key, env, put);
    case ReconcileOp(id, putPending, env, putUpdated) => ReconcileKeepsInv(w, id, putPending, env, putUpdated);
    case ApproveOp(id, put) => ApproveKeepsInv(w, id, put);
    case RevokeOp(id, put) => RevokeKeepsInv(w, id, put);
    case DeleteOp(id, discard, put, remove) => DeleteKeepsInv(w, id, discard, put, remove);
    case RestartOp(ingresses) => RestartKeepsInv(w, ingresses);
  }

  lemma RestartKeepsInv(w: World, ingresses: map<string, Ingress>)
    requires Inv(w)
    ensures Inv(Restart(w, ingresses))
  {
  }

  /** Every reconciliation of the run is accounted for at the state it meets. */
  predicate RunAccounted(w: World, ops: seq<Op>)
    decreases |ops|
  {
    ops == [] || (Accounted(w, ops[0]) && RunAccounted(Next(w, ops[0]), ops[1..]))
  }

  lemma {:induction false} RunKeepsInv(w: World, ops: seq<Op>)
    requires Inv(w) && RunAccounted(w, ops)
    ensures Inv(Run(w, ops))
    decreases |ops|
  {
    hide Inv, Next, Accounted;
    if ops != [] {
      StepKeepsInv(w, ops[0]);
      RunKeepsInv(Next(w, ops[0]), ops[1..]);
    }
  }
}
