/** What approval promises over runs, exactly when an operation endangers it, and inputs that do. */
module ExternalUrlTheorems {
  import opened Wrappers
  import opened RouteRegistry
  import opened ExternalUrls
  import opened Texts
  import Punycode
  import Subdomains

  // ---- the promise ----

  /** An own claim that is live, of an entry that was ever stored, is that of an entry still stored and not revoked. */
  ghost predicate NothingRevokedIsRouted(w: World) {
    forall a, id :: a in w.traffic.routes && Own(id) in w.traffic.routes[a].claims && id in w.stored ==>
      id in w.store && w.store[id].approval != Revoked
  }

  /**
   An enabled claim created where approval is required is that of a stored approved entry, at one of its
   authorities.
   */
  ghost predicate EnabledIsApproved(w: World) {
    forall a, id :: id in w.gated && Selects(w.traffic.routes, a, Own(id)) ==>
      id in w.store && w.store[id].approval == Approved && a in w.store[id].authorities
  }

  ghost predicate Promise(w: World) { NothingRevokedIsRouted(w) && EnabledIsApproved(w) }

  lemma InvKeepsPromise(w: World)
    requires Inv(w)
    ensures Promise(w)
  {
    hide OneClaimEach;
    forall a, id | a in w.traffic.routes && Own(id) in w.traffic.routes[a].claims
      ensures Backs(w.ingresses, w.store, Loose(w), a, id, w.traffic.routes[a].claims[Own(id)]) {}
  }

  /** At every operation boundary of every accounted run, whatever writes fail and whenever it restarts. */
  lemma ApprovalSafety(w: World, ops: seq<Op>)
    requires Initial(w) && RunAccounted(w, ops)
    ensures Promise(Run(w, ops))
  {
    hide Run, RunAccounted, Promise;
    InitialInv(w);
    RunKeepsInv(w, ops);
    InvKeepsPromise(Run(w, ops));
  }

  lemma InitialInv(w: World)
    requires Initial(w)
    ensures Inv(w)
  {
  }

  predicate Gone(w: World, id: string) { id in w.issued && (id in w.store ==> w.store[id].approval == Revoked) }

  lemma StepKeepsGone(w: World, op: Op, id: string)
    requires Gone(w, id)
    ensures Gone(Next(w, op), id)
  {
    hide ProvisionRoute, RevokeRoute, SetApproval, PolicyChanged, UrlOk;
  }

  /** Once revoked or deleted, an entry stays so through every later operation, whatever fails. */
  lemma {:induction false} RevokedIsFinal(w: World, ops: seq<Op>, id: string)
    requires Gone(w, id)
    ensures Gone(Run(w, ops), id)
    decreases |ops|
  {
    hide Gone, Next;
    if ops != [] {
      StepKeepsGone(w, ops[0], id);
      RevokedIsFinal(Next(w, ops[0]), ops[1..], id);
    }
  }

  // ---- a setting in which every run is accounted for ----

  /** Entries that record no claim record no policy revision either. */
  ghost predicate ClaimsRecorded(store: map<string, Entry>) {
    forall id :: id in store && store[id].ingressId.None? ==> store[id].policyRevision.None?
  }

  /** The authorities given to a reconciliation make valid URLs. */
  predicate UrlsValid(w: World, op: Op) {
    op.ReconcileOp? && op.id in w.store && w.store[op.id].ingress in w.ingresses && GivenTo(w, op.id, op.env).Some? ==>
      UrlOk(w.accepts, w.store[op.id].http, GivenTo(w, op.id, op.env).value)
  }

  predicate RunUrlsValid(w: World, ops: seq<Op>)
    decreases |ops|
  {
    ops == [] || (UrlsValid(w, ops[0]) && RunUrlsValid(Next(w, ops[0]), ops[1..]))
  }

  lemma StepKeepsClaimsRecorded(w: World, op: Op)
    requires ClaimsRecorded(w.store)
    ensures ClaimsRecorded(Next(w, op).store)
  {
    hide ProvisionRoute, RevokeRoute, SetApproval, UrlOk;
  }

  lemma ValidIsAccounted(w: World, op: Op)
    requires ClaimsRecorded(w.store) && UrlsValid(w, op)
    ensures Accounted(w, op)
  {
    hide AnyHeldByOther;
  }

  /** With valid URLs and recorded claims every run is accounted for; creations are not restricted at all. */
  lemma {:induction false} ValidUrlsAreAccounted(w: World, ops: seq<Op>)
    requires ClaimsRecorded(w.store) && RunUrlsValid(w, ops)
    ensures RunAccounted(w, ops)
    decreases |ops|
  {
    hide ClaimsRecorded, Next, Accounted, UrlsValid;
    if ops != [] {
      StepKeepsClaimsRecorded(w, ops[0]);
      ValidIsAccounted(w, ops[0]);
      ValidUrlsAreAccounted(Next(w, ops[0]), ops[1..]);
    }
  }

  // ---- the condition is exact ----

  /**
   Revoking releases the stored authorities under the recorded claim, and so misses an own claim
   elsewhere or unrecorded.
   */
  lemma RevokeMisses(w: World, id: string, a: Authority)
    requires id in w.store && w.store[id].ingress in w.ingresses && w.store[id].approval != Revoked && id in w.stored
    requires a in w.traffic.routes && Own(id) in w.traffic.routes[a].claims
    requires a !in w.store[id].authorities || RouteClaim(w.store[id]) != Own(id)
    ensures !NothingRevokedIsRouted(Revoke(w, id, true))
  {
    var r := Revoke(w, id, true);
    assert Own(id) in w.traffic.routes[a].claims.Keys;
    assert a in r.traffic.routes && Own(id) in r.traffic.routes[a].claims;
    assert r.store[id].approval == Revoked;
  }

  lemma RunOne(w: World, op: Op)
    ensures Run(w, [op]) == Next(w, op) && (RunAccounted(w, [op]) <==> Accounted(w, op))
  {
    hide Next, Accounted;
    assert [op][1..] == [];
  }

  /** A registration left behind is in the registry under the entry's own claim. */
  lemma LeftBehind(w: World, id: string, authorities: seq<Authority>, upstream: Upstream, putUpdated: bool, k: nat)
    requires Inv(w) && id in w.store && w.store[id].ingress in w.ingresses && k < |authorities|
    requires !AnyHeldByOther(w.traffic.routes, authorities, ProvisionClaim(w.store[id]))
    requires ProvisionClaim(w.store[id]) == Own(id)
    requires !UrlOk(w.accepts, w.store[id].http, authorities)
      || (!Stale(w.store[id], w.ingresses[w.store[id].ingress]) && authorities == w.store[id].authorities)
    ensures var (store, routes) := Outcome(w, id, authorities, upstream, putUpdated);
      authorities[k] in routes && Own(id) in routes[authorities[k]].claims && store == w.store[id := Current(w, id)]
  {
    hide OneClaimEach, BindAll, Release, Stale, UrlOk, StoreOk, AllBacked;
    BindKeepsClaims(w.traffic.routes, authorities, Own(id), upstream, Enabled(Current(w, id).approval));
    assert authorities[k] in authorities;
    assert w.store[id := w.store[id]] == w.store;
  }

  /** A reconciliation that is not answerable breaks the promise as soon as the entry is revoked. */
  lemma UnanswerableBreaks(w: World, op: Op) returns (ops: seq<Op>)
    requires Inv(w) && !Accounted(w, op)
    ensures ops == [RevokeOp(op.id, true)] && RunAccounted(Next(w, op), ops) && !Promise(Run(Next(w, op), ops))
  {
    var id, authorities, upstream := op.id, GivenTo(w, op.id, op.env).value, op.env.upstream.value;
    var k := MissedIndex(w, id, authorities);
    OwnClaimIsItself(w, id);
    StoredIds(w, id);
    hide Inv, Stale, UrlOk, AnyHeldByOther, Promise, NothingRevokedIsRouted, Run, RunAccounted;
    ReconcileOutcome(w, id, op.putPending, op.env, op.putUpdated);
    LeftBehind(w, id, authorities, upstream, op.putUpdated, k);
    hide Reconcile, Outcome, Revoke, GivenTo;
    var r := Next(w, op);
    RevokeMisses(r, id, authorities[k]);
    RunOne(r, RevokeOp(id, true));
    ops := [RevokeOp(id, true)];
    Broken(Run(r, ops));
  }

  lemma OnlyReconciling(w: World, op: Op)
    requires !Accounted(w, op)
    ensures op.ReconcileOp?
  {
  }

  lemma Broken(w: World)
    requires !NothingRevokedIsRouted(w)
    ensures !Promise(w)
  {
  }

  lemma StoredIds(w: World, id: string)
    requires Inv(w) && id in w.store
    ensures id in w.stored
  {
  }

  /**
   An authority that revocation will miss: one the parser refuses, which no entry lists, or any one of
   an unrecorded claim.
   */
  lemma MissedIndex(w: World, id: string, authorities: seq<Authority>) returns (k: nat)
    requires Inv(w) && id in w.store && w.store[id].ingress in w.ingresses && authorities != []
    requires !Answerable(w, id, authorities)
    ensures k < |authorities| && ProvisionClaim(w.store[id]).Own?
    ensures authorities[k] !in w.store[id].authorities || w.store[id].ingressId.None?
    ensures !UrlOk(w.accepts, w.store[id].http, authorities)
      || (!Stale(w.store[id], w.ingresses[w.store[id].ingress]) && authorities == w.store[id].authorities)
  {
    hide Stale, OneClaimEach, AllBacked;
    assert EntryOk(w.accepts, id, w.store[id]);
    if i :| 0 <= i < |authorities| && w.store[id].http && !w.accepts(authorities[i]) { k := i; } else { k := 0; }
  }

  /**
   The exact condition, at every state an accounted run reaches: an operation is accounted for exactly
   when no accounted continuation breaks the promise.
   */
  lemma AccountedExactly(w: World, before: seq<Op>, op: Op)
    requires Initial(w) && RunAccounted(w, before)
    ensures var r := Run(w, before);
      Accounted(r, op) <==> forall ops :: RunAccounted(Next(r, op), ops) ==> Promise(Run(Next(r, op), ops))
  {
    hide Inv, Run, RunAccounted, Promise, Next, Accounted;
    InitialInv(w);
    RunKeepsInv(w, before);
    var r := Run(w, before);
    if Accounted(r, op) {
      StepKeepsInv(r, op);
      forall ops | RunAccounted(Next(r, op), ops) ensures Promise(Run(Next(r, op), ops)) {
        RunKeepsInv(Next(r, op), ops);
        InvKeepsPromise(Run(Next(r, op), ops));
      }
    } else {
      assert op.ReconcileOp? by { OnlyReconciling(r, op); }
      var ops := UnanswerableBreaks(r, op);
    }
  }

  // ---- a creation whose URL is refused ----

  /**
   It changes the registry and nothing else: the claim is there at every authority, no entry is, and
   none will be under that id.
   */
  lemma RefusedCreate(w: World, id: string, name: string, key: string, env: Surroundings, put: bool)
    requires Inv(w) && id !in w.issued && name in w.ingresses && env.upstream.Some? && env.name.Some?
    requires !w.accepts(env.name.value) || !w.accepts(w.ingresses[name].permalink(id))
    requires !AnyHeldByOther(w.traffic.routes, [env.name.value, w.ingresses[name].permalink(id)],
      if w.ingresses[name].approvalRequired then Own(id) else Shared(key))
    ensures var r := Create(w, id, name, true, key, env, put); var gate := w.ingresses[name].approvalRequired;
      && r.store == w.store && id in Loose(r) && r.ingresses == w.ingresses
      && forall a | a in [env.name.value, w.ingresses[name].permalink(id)] ::
           a in r.traffic.routes && r.traffic.routes[a].claims == if gate then map[Own(id) := false] else map[Shared(key) := true]
  {
    hide OneClaimEach, AllBacked, BindAll;
    var gate := w.ingresses[name].approvalRequired;
    var authorities := [env.name.value, w.ingresses[name].permalink(id)];
    assert authorities[0] == env.name.value && authorities[1] == w.ingresses[name].permalink(id);
    assert !UrlOk(w.accepts, true, authorities);
    BindKeepsClaims(w.traffic.routes, authorities, if gate then Own(id) else Shared(key), env.upstream.value, !gate);
  }

  /**
   A disabled leftover is inert: until a restart no operation enables, moves or removes it, and its
   authority stays taken.
   */
  lemma LeftoverIsInert(w: World, op: Op, a: Authority, id: string)
    requires StoreOk(w.accepts, w.store, w.issued, w.stored, w.gated) && id in Loose(w) && !op.RestartOp?
    requires a in w.traffic.routes && w.traffic.routes[a].claims == map[Own(id) := false]
    ensures var r := Next(w, op); id in Loose(r) && a in r.traffic.routes && r.traffic.routes[a].claims == map[Own(id) := false]
  {
    hide UrlOk, Stale;
    match op
    case CreateOp(i, name, http, key, env, put) => InertCreate(w, op, a, id);
    case ReconcileOp(i, putPending, env, putUpdated) => InertReconcile(w, op, a, id);
    case ApproveOp(i, put) => if i in w.store { InertSwitch(w.traffic, w.store[i].authorities, RouteClaim(w.store[i]), a, id); }
    case RevokeOp(i, put) => if i in w.store { InertRelease(w.traffic.routes, w.store[i].authorities, RouteClaim(w.store[i]), a, id); }
    case DeleteOp(i, discard, put, remove) =>
      if i in w.store { InertRelease(w.traffic.routes, w.store[i].authorities, RouteClaim(w.store[i]), a, id); }
  }

  ghost predicate Leftover(routes: Routes, a: Authority,
      id: string) { a in routes && routes[a].claims == map[Own(id) := false] }

  lemma InertRelease(routes: Routes, authorities: seq<Authority>, claim: Claim, a: Authority, id: string)
    requires Leftover(routes, a, id) && claim != Own(id)
    ensures Leftover(Release(routes, authorities, claim), a, id)
  {
    assert Own(id) in routes[a].claims.Keys;
    assert routes[a].claims - {claim} == routes[a].claims;
  }

  lemma InertBind(routes: Routes, authorities: seq<Authority>, claim: Claim, upstream: Upstream, enabled: bool,
      a: Authority, id: string)
    requires Leftover(routes, a, id) && claim != Own(id) && !AnyHeldByOther(routes, authorities, claim)
    ensures var bound := BindAll(routes, authorities, claim, upstream, enabled);
      Leftover(bound, a, id) && Leftover(Release(bound, authorities, claim), a, id)
  {
    assert Own(id) in routes[a].claims.Keys && HeldByOther(routes, a, claim);
    assert a !in authorities;
    InertRelease(BindAll(routes, authorities, claim, upstream, enabled), authorities, claim, a, id);
  }

  lemma InertSwitch(t: Traffic, authorities: seq<Authority>, claim: Claim, a: Authority, id: string)
    requires Leftover(t.routes, a, id) && claim != Own(id)
    ensures forall enabled :: Leftover(SetApproval(t, authorities, claim, enabled).0.routes, a, id)
    ensures forall x, y :: Leftover(SetApproval(SetApproval(t, authorities, claim, x).0, authorities, claim, y).0.routes, a, id)
  {
    forall u: Traffic, enabled | Leftover(u.routes, a, id)
      ensures Leftover(SetApproval(u, authorities, claim, enabled).0.routes, a, id)
    {
      assert claim !in u.routes[a].claims;
      assert AllActive(u.routes, authorities, claim) ==> a !in authorities;
    }
  }

  lemma InertCreate(w: World, op: Op, a: Authority, id: string)
    requires op.CreateOp? && StoreOk(w.accepts, w.store, w.issued, w.stored, w.gated) && id in Loose(w)
    requires Leftover(w.traffic.routes, a, id)
    ensures id in Loose(Next(w, op)) && Leftover(Next(w, op).traffic.routes, a, id)
  {
    hide UrlOk, BindAll, Release, Leftover, StoreOk;
    if op.id !in w.issued && op.name in w.ingresses && op.env.upstream.Some? && op.env.name.Some? {
      var authorities := Given(w.ingresses[op.name], op.http, op.id, op.env).value;
      var gate := w.ingresses[op.name].approvalRequired;
      var claim := if gate then Own(op.id) else Shared(op.key);
      if !AnyHeldByOther(w.traffic.routes, authorities, claim) {
        InertBind(w.traffic.routes, authorities, claim, op.env.upstream.value, !gate, a, id);
      }
    }
  }

  lemma InertReconcile(w: World, op: Op, a: Authority, id: string)
    requires op.ReconcileOp? && StoreOk(w.accepts, w.store, w.issued, w.stored, w.gated) && id in Loose(w)
    requires Leftover(w.traffic.routes, a, id)
    ensures id in Loose(Next(w, op)) && Leftover(Next(w, op).traffic.routes, a, id)
  {
    if Registers(w, op.id, op.putPending, op.env) {
      var claim := ProvisionClaim(w.store[op.id]);
      assert claim != Own(id);
      hide UrlOk, BindAll, Release, Leftover, StoreOk, AnyHeldByOther, Stale;
      ReconcileOutcome(w, op.id, op.putPending, op.env, op.putUpdated);
      hide Reconcile;
      InertBind(w.traffic.routes, GivenTo(w, op.id, op.env).value, claim, op.env.upstream.value,
        Enabled(Current(w, op.id).approval), a, id);
    } else {
      hide UrlOk, Leftover, StoreOk, Registers, Reconcile;
      ReconcileElse(w, op.id, op.putPending, op.env, op.putUpdated);
    }
  }

  // ---- inputs ----

  /**
   The automatic name of a workspace called "xn" passes the prefix policy and the label check, and makes
   no valid URL.
   */
  lemma XnNamesAreRefused(accepts: Authority -> bool, lowered: string, index: nat, domain: string)
    requires Punycode.Parses(accepts) && Subdomains.Normalized(lowered) == "xn" && |Decimal(index)| <= 11
    ensures var name := Subdomains.Prefix(lowered) + Decimal(index);
      Subdomains.SubdomainOk(name) && !accepts(name + "." + domain)
  {
    Subdomains.AutomaticName(lowered, index);
    Punycode.NumberedNameIsRefused(accepts, index, domain);
    assert Subdomains.Prefix(lowered) == "xn--";
  }

  lemma XnIsItself()
    ensures Subdomains.Normalized("xn") == "xn"
  {
    assert Subdomains.Cleaned("xn") == "xn";
  }

  /**
   Creating a URL automatically for workspace "xn", where no approval is needed, fails and leaves an
   enabled route without an entry.
   */
  lemma XnCreationLeavesAnEnabledRoute(w: World, id: string, name: string, key: string, index: nat, domain: string,
      upstream: Upstream, put: bool)
    requires Inv(w) && Punycode.Parses(w.accepts) && id !in w.issued && |Decimal(index)| <= 11
    requires name in w.ingresses && !w.ingresses[name].approvalRequired
    requires Subdomains.Prefix("xn") + Decimal(index) + "." + domain !in w.traffic.routes
    requires w.ingresses[name].permalink(id) !in w.traffic.routes
    ensures var authority := Subdomains.Prefix("xn") + Decimal(index) + "." + domain;
      var r := Create(w, id, name, true, key, Surroundings(Some(upstream), Some(authority)), put);
      Selects(r.traffic.routes, authority, Shared(key)) && r.store == w.store
  {
    hide Inv, Subdomains.Prefix, Decimal, Create;
    XnIsItself();
    XnNamesAreRefused(w.accepts, "xn", index, domain);
    var authority := Subdomains.Prefix("xn") + Decimal(index) + "." + domain;
    var authorities := [authority, w.ingresses[name].permalink(id)];
    assert authorities[0] == authority;
    assert forall i | 0 <= i < |authorities| :: authorities[i] !in w.traffic.routes;
    RefusedCreate(w, id, name, key, Surroundings(Some(upstream), Some(authority)), put);
    assert authority in authorities;
  }

  /** An approved HTTP entry that is up to date: its name and permalink are stored, and nothing is registered yet. */
  predicate Settled(w: World, id: string, a: Authority) {
    && id in w.store && w.store[id].http && w.store[id].approval == Approved && w.store[id].ingress in w.ingresses
    && w.store[id].authorities == [a, w.ingresses[w.store[id].ingress].permalink(id)]
    && w.store[id].ingressId == Some(Own(id)) && !Stale(w.store[id], w.ingresses[w.store[id].ingress])
  }

  /** A policy that moves such an entry to a name of that kind: its route stays enabled after the entry is revoked. */
  lemma LeftoverOutlivesRevocation(w: World, id: string, a: Authority, index: nat, domain: string, upstream: Upstream)
    requires Initial(w) && Punycode.Parses(w.accepts) && Settled(w, id, a)
    ensures var b := "xn--" + Decimal(index) + "." + domain;
      var r := Revoke(Reconcile(w, id, true, Surroundings(Some(upstream), Some(b)), true), id, true);
      r.store[id].approval == Revoked && Selects(r.traffic.routes, b, Own(id))
  {
    var b := "xn--" + Decimal(index) + "." + domain;
    Punycode.NumberedNameIsRefused(w.accepts, index, domain);
    OutlivesAt(w, id, a, b, upstream);
  }

  lemma OutlivesAt(w: World, id: string, a: Authority, b: Authority, upstream: Upstream)
    requires Initial(w) && Settled(w, id, a) && !w.accepts(b)
    ensures var r := Revoke(Reconcile(w, id, true, Surroundings(Some(upstream), Some(b)), true), id, true);
      r.store[id].approval == Revoked && Selects(r.traffic.routes, b, Own(id))
  {
    var env := Surroundings(Some(upstream), Some(b));
    var p := w.ingresses[w.store[id].ingress].permalink(id);
    assert EntryOk(w.accepts, id, w.store[id]);
    assert w.store[id].authorities[0] == a && w.store[id].authorities[1] == p;
    assert b !in w.store[id].authorities;
    assert [b, p][0] == b && !UrlOk(w.accepts, true, [b, p]) && !AnyHeldByOther(map[], [b, p], Own(id));
    ReconcileOutcome(w, id, true, env, true);
    hide Reconcile;
    var r1 := Reconcile(w, id, true, env, true);
    var bound := BindAll(map[], [b, p], Own(id), upstream, true);
    assert b in [b, p] && bound[b].claims == map[Own(id) := true];
    assert w.store[id := w.store[id]] == w.store;
    assert r1.traffic.routes == bound && r1.store == w.store;
    assert Release(bound, [a, p], Own(id))[b] == bound[b];
  }

  /**
   An approved, current entry that records no claim, HTTP or TCP: it is provisioned under its id and
   revoked under its authority, so after revocation it is still enabled, though every URL is valid.
   */
  lemma UnrecordedClaimOutlivesRevocation(w: World, id: string, env: Surroundings)
    requires Initial(w) && id in w.store && w.store[id].approval == Approved && w.store[id].ingressId == None
    requires w.store[id].ingress in w.ingresses && !Stale(w.store[id], w.ingresses[w.store[id].ingress])
    requires env.upstream.Some? && GivenTo(w, id, env) == Some(w.store[id].authorities)
    ensures var r := Revoke(Reconcile(w, id, true, env, true), id, true); var a := w.store[id].authorities[0];
      r.store[id].approval == Revoked && Selects(r.traffic.routes, a, Own(id))
  {
    var e := w.store[id];
    var a := e.authorities[0];
    assert EntryOk(w.accepts, id, e);
    assert UrlOk(w.accepts, e.http, e.authorities) && !AnyHeldByOther(map[], e.authorities, Own(id));
    ReconcileOutcome(w, id, true, env, true);
    hide Reconcile;
    var r1 := Reconcile(w, id, true, env, true);
    var bound := BindAll(map[], e.authorities, Own(id), env.upstream.value, true);
    assert a in e.authorities && bound[a].claims == map[Own(id) := true];
    assert r1.traffic.routes == bound && r1.store == w.store;
    assert Own(id) in bound[a].claims.Keys;
    assert bound[a].claims - {Shared(a)} == bound[a].claims;
  }
}
