/** The operations on stored URLs as methods that write the store and call the listeners, step by step. */
module ExternalUrlController {
  import opened Wrappers
  import opened RouteRegistry
  import opened RouteListener
  import opened ExternalUrls

  /** Which of the two store writes of a deletion succeed. */
  datatype Writes = Writes(put: bool, remove: bool)

  /** Deleting a workspace's URLs one by one, up to the first write that fails. */
  function DiscardAll(w: World, ids: seq<string>, writes: seq<Writes>): World
    requires |ids| == |writes|
    decreases |ids|
  {
    if ids == [] then w else
    var w1 := Delete(w, ids[0], true, writes[0].put, writes[0].remove);
    if writes[0] != Writes(true, true) then w1 else DiscardAll(w1, ids[1..], writes[1..])
  }

  class ExternalUrlController {
    const registry: WorkspaceRouteRegistry
    const accepts: Authority -> bool
    const ingresses: map<string, Ingress>
    var store: map<string, Entry>
    ghost var issued: set<string>
    ghost var stored: set<string>
    ghost var gated: set<string>

    constructor (registry: WorkspaceRouteRegistry, accepts: Authority -> bool, ingresses: map<string, Ingress>, store: map<string, Entry>)
      ensures this.registry == registry && this.accepts == accepts && this.ingresses == ingresses && this.store == store
      ensures issued == stored == store.Keys && gated == {}
    {
      this.registry, this.accepts, this.ingresses, this.store := registry, accepts, ingresses, store;
      issued, stored, gated := store.Keys, store.Keys, {};
    }

    ghost function Now(): World
      reads this, registry
    {
      World(accepts, ingresses, store, registry.Now(), issued, stored, gated)
    }

    /** A listener's `provision`: the registry first, the URLs afterwards. */
    method Provision(http: bool, authorities: seq<Authority>, claim: Claim, upstream: Upstream, enabled: bool)
      returns (r: Result<bool, RouteError>)
      modifies registry
      ensures (registry.Now(), r) == ProvisionRoute(old(registry.Now()), authorities, claim, upstream, enabled,
        UrlOk(accepts, http, authorities))
    {
      r := registry.Provision(authorities, claim, upstream, enabled);
      if r.Failure? || !http { return; }
      for i := 0 to |authorities|
        invariant forall k :: 0 <= k < i ==> accepts(authorities[k])
      {
        if !accepts(authorities[i]) { return Failure(InvalidUrl); }
      }
    }

    method ReconcileStoredRoute(id: string, putPending: bool, env: Surroundings, putUpdated: bool)
      modifies this`store, registry
      ensures Now() == Reconcile(old(Now()), id, putPending, env, putUpdated)
    {
      hide PolicyChanged, Given, Register;
      if id !in store || store[id].ingress !in ingresses { return; }
      var entry, ingress := store[id], ingresses[store[id].ingress];
      if entry.approval == Revoked { return; }
      var stale := PolicyChanged(entry, ingress) || (entry.http && !entry.permalink);
      var approvalChanged := ingress.approvalRequired && stale;
      var current := if approvalChanged then entry.(approval := Pending) else entry;
      if approvalChanged {
        if !putPending { return; }
        store := store[id := current];
      }
      var given := Given(ingress, entry.http, id, env);
      if env.upstream.None? || given.None? { return; }
      RegisterRoute(id, current, ingress, given.value, env.upstream.value, putUpdated);
    }

    /** From the registry on: taken back when the authorities changed or the entry could not be written. */
    method RegisterRoute(id: string, current: Entry, ingress: Ingress, authorities: seq<Authority>, upstream: Upstream,
        putUpdated: bool)
      modifies this`store, registry
      ensures Now() == Register(old(Now()), id, current, ingress, authorities, upstream, putUpdated)
    {
      hide ProvisionRoute, RevokeRoute, UrlOk, Refreshed, Enabled, Stale;
      var claim := ProvisionClaim(current);
      var reconciled := Provision(current.http, authorities, claim, upstream, Enabled(current.approval));
      if reconciled.Failure? { return; }
      if !Stale(current, ingress) {
        if authorities == current.authorities { return; }
        if reconciled.value { registry.Revoke(authorities, claim); }
        return;
      }
      if putUpdated {
        store := store[id := Refreshed(current, ingress, authorities)];
      } else if reconciled.value {
        registry.Revoke(authorities, claim);
      }
    }

    method CreateUrl(id: string, name: string, http: bool, key: string, env: Surroundings, put: bool)
      requires id !in issued
      modifies this, registry
      ensures Now() == Create(old(Now()), id, name, http, key, env, put)
    {
      hide ProvisionRoute, RevokeRoute;
      if name !in ingresses || env.upstream.None? { return; }
      var ingress := ingresses[name];
      var given := Given(ingress, http, id, env);
      if given.None? { return; }
      var approval := if ingress.approvalRequired then Pending else NotRequired;
      var claim := if approval == NotRequired then Shared(key) else Own(id);
      issued := issued + {id};
      if ingress.approvalRequired { gated := gated + {id}; }
      var provisioned := Provision(http, given.value, claim, env.upstream.value, Enabled(approval));
      if provisioned.Failure? { return; }
      if put {
        store := store[id := Entry(id, name, Some(claim), given.value, http, http, approval, Some(ingress.policyRevision))];
        stored := stored + {id};
      } else if provisioned.value {
        registry.Revoke(given.value, claim);
      }
    }

    method TransitionRouteApproval(id: string, approve: bool, put: bool)
      modifies this`store, registry
      ensures Now() == if approve then Approve(old(Now()), id, put) else Revoke(old(Now()), id, put)
    {
      hide SetApproval, RevokeRoute, PolicyChanged;
      if id !in store || store[id].ingress !in ingresses { return; }
      var entry, ingress := store[id], ingresses[store[id].ingress];
      if approve {
        if entry.approval != Pending || PolicyChanged(entry, ingress) { return; }
        SetApprovalRefused(registry.Now(), entry.authorities, RouteClaim(entry), false);
        var off := registry.SetApproval(entry.authorities, RouteClaim(entry), false);
        if off.Failure? { return; }
        if !put { return; }
        store := store[id := entry.(approval := Approved)];
        var on := registry.SetApproval(entry.authorities, RouteClaim(entry), true);
      } else {
        if entry.approval == Revoked || !put { return; }
        store := store[id := entry.(approval := Revoked)];
        registry.Revoke(entry.authorities, RouteClaim(entry));
      }
    }

    method DeleteUrl(id: string, put: bool, remove: bool)
      modifies this`store, registry
      ensures Now() == Delete(old(Now()), id, false, put, remove)
    {
      if id !in store || store[id].ingress !in ingresses { return; }
      DropUrl(id, put, remove);
    }

    /** Revoked first, then released, then removed. */
    method DropUrl(id: string, put: bool, remove: bool)
      requires id in store
      modifies this`store, registry
      ensures Now() == Delete(old(Now()), id, true, put, remove)
    {
      hide RevokeRoute;
      var entry := store[id];
      if !put { return; }
      store := store[id := entry.(approval := Revoked)];
      if entry.ingress in ingresses { registry.Revoke(entry.authorities, RouteClaim(entry)); }
      if remove { store := store - {id}; }
      assert remove ==> old(store)[id := entry.(approval := Revoked)] - {id} == old(store) - {id};
    }

    method RemoveWorkspaceRoutes(ids: seq<string>, writes: seq<Writes>)
      requires |ids| == |writes|
      modifies this`store, registry
      ensures Now() == DiscardAll(old(Now()), ids, writes)
    {
      hide Delete;
      ghost var spec := DiscardAll(Now(), ids, writes);
      assert ids[0..] == ids && writes[0..] == writes;
      for i := 0 to |ids|
        invariant spec == DiscardAll(Now(), ids[i..], writes[i..])
      {
        assert ids[i..][1..] == ids[i + 1..] && writes[i..][1..] == writes[i + 1..];
        if ids[i] in store {
          DropUrl(ids[i], writes[i].put, writes[i].remove);
        } else {
          NothingToDelete(Now(), ids[i], writes[i]);
        }
        if writes[i] != Writes(true, true) { return; }
      }
    }
  }

  lemma NothingToDelete(w: World, id: string, writes: Writes)
    requires id !in w.store
    ensures Delete(w, id, true, writes.put, writes.remove) == w
  {
  }

  lemma SetApprovalRefused(t: Traffic, authorities: seq<Authority>, claim: Claim, enabled: bool)
    ensures SetApproval(t, authorities, claim, enabled).1.Failure? ==> SetApproval(t, authorities, claim, enabled).0 == t
  {
  }

  /** Discarding a workspace is a run of single deletions, so it keeps what every run keeps. */
  lemma {:induction false} DiscardIsARun(w: World, ids: seq<string>, writes: seq<Writes>) returns (ops: seq<Op>)
    requires |ids| == |writes|
    ensures DiscardAll(w, ids, writes) == Run(w, ops) && forall i :: 0 <= i < |ops| ==> ops[i].DeleteOp?
    decreases |ids|
  {
    hide Delete;
    if ids == [] {
      ops := [];
    } else {
      var op := DeleteOp(ids[0], true, writes[0].put, writes[0].remove);
      var rest: seq<Op> := [];
      if writes[0] == Writes(true, true) { rest := DiscardIsARun(Next(w, op), ids[1..], writes[1..]); }
      ops := [op] + rest;
      assert ops[1..] == rest;
    }
  }
}
