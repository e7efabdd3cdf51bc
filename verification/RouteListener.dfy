/** The registry, its flow tracker and the TCP listener as objects whose methods update them in place. */
module RouteListener {
  import opened Wrappers
  import opened RouteRegistry

  /** `[...new Set(authorities)]`. */
  method Distinct(authorities: seq<Authority>) returns (r: seq<Authority>)
    ensures forall a :: a in r <==> a in authorities
    ensures forall i, j :: 0 <= i < j < |r| ==> r[i] != r[j]
  {
    r := [];
    for i := 0 to |authorities|
      invariant forall a :: a in r <==> a in authorities[..i]
      invariant forall i, j :: 0 <= i < j < |r| ==> r[i] != r[j]
    {
      if authorities[i] !in r { r := r + [authorities[i]]; }
    }
  }

  lemma SameElements(routes: Routes, a: seq<Authority>, b: seq<Authority>, claim: Claim, upstream: Upstream,
      enabled: bool)
    requires forall x :: x in a <==> x in b
    ensures Provision(routes, a, claim, upstream, enabled) == Provision(routes, b, claim, upstream, enabled)
  {
    SubsetAsks(routes, a, b, claim, upstream);
    SubsetAsks(routes, b, a, claim, upstream);
    assert BindAll(routes, a, claim, upstream, enabled) == BindAll(routes, b, claim, upstream, enabled);
  }

  lemma SubsetAsks(routes: Routes, a: seq<Authority>, b: seq<Authority>, claim: Claim, upstream: Upstream)
    requires forall x :: x in a ==> x in b
    ensures AnyHeldByOther(routes, a, claim) ==> AnyHeldByOther(routes, b, claim)
    ensures AnyRebinds(routes, a, upstream) ==> AnyRebinds(routes, b, upstream)
    ensures AnyNew(routes, a) ==> AnyNew(routes, b)
    ensures a != [] ==> b != []
  {
    forall i | 0 <= i < |a| ensures exists j :: 0 <= j < |b| && b[j] == a[i] { assert a[i] in b; }
    if a != [] { assert a[0] in b; }
  }

  lemma InAppend(s: seq<Authority>, a: Authority)
    ensures forall b :: b in s + [a] <==> b in s || b == a
  {
  }

  lemma BindOneMore(routes: Routes, s: seq<Authority>, a: Authority, claim: Claim, upstream: Upstream, enabled: bool)
    requires a !in s
    ensures BindAll(routes, s + [a], claim, upstream, enabled) ==
      Bind(BindAll(routes, s, claim, upstream, enabled), a, claim, upstream, enabled)
    ensures var bound := BindAll(routes, s, claim, upstream, enabled);
      (a in bound <==> a in routes) && (a in routes ==> bound[a] == routes[a])
  {
    InAppend(s, a);
    var one, more := BindAll(routes, s, claim, upstream, enabled), BindAll(routes, s + [a], claim, upstream, enabled);
    assert more.Keys == one.Keys + {a};
    assert forall b | b in more :: more[b] == Bind(one, a, claim, upstream, enabled)[b];
  }

  lemma ReleaseOneMore(routes: Routes, s: seq<Authority>, a: Authority, claim: Claim)
    ensures Release(routes, s + [a], claim) == Release(Release(routes, s, claim), [a], claim)
  {
    InAppend(s, a);
    var once, both := Release(routes, s, claim), Release(routes, s + [a], claim);
    var twice := Release(once, [a], claim);
    assert forall b | b in once && b in s :: once[b].claims == routes[b].claims - {claim};
    assert forall b | b in once && b in s :: once[b].claims - {claim} == once[b].claims;
    forall b ensures b in both <==> b in twice {
      if b in once && b == a && b in s {
        assert once[b].claims.Keys == routes[b].claims.Keys - {claim};
        assert exists c :: c in routes[b].claims.Keys && c != claim;
      }
    }
    assert forall b | b in both :: both[b] == twice[b];
  }

  lemma SwitchOneMore(routes: Routes, s: seq<Authority>, a: Authority, claim: Claim, enabled: bool)
    ensures Switch(routes, s + [a], claim, enabled) == Switch(Switch(routes, s, claim, enabled), [a], claim, enabled)
  {
    InAppend(s, a);
    var once := Switch(routes, s, claim, enabled);
    if a in routes {
      assert routes[a].claims[claim := enabled][claim := enabled] == routes[a].claims[claim := enabled];
    }
    assert forall b | b in routes :: Switch(routes, s + [a], claim, enabled)[b] == Switch(once, [a], claim, enabled)[b];
  }

  /** The loop that takes a claim's flows out of one set. */
  method TakeOut(flows: set<Flow>, claim: Claim) returns (left: set<Flow>)
    ensures left == WithoutClaim(flows, claim)
  {
    left := flows;
    var todo := flows;
    while todo != {}
      invariant todo <= left <= flows
      invariant forall f :: f in flows - left ==> f.claim == claim
      invariant forall f :: f in left - todo ==> f.claim != claim
      decreases |todo|
    {
      var flow :| flow in todo;
      todo := todo - {flow};
      if flow.claim == claim { left := left - {flow}; }
    }
  }

  class WorkspaceRouteRegistry {
    var routes: Routes
    var http: set<Flow>
    var upgraded: set<Flow>

    constructor ()
      ensures Now() == IDLE
    {
      routes, http, upgraded := map[], {}, {};
    }

    function Now(): Traffic
      reads this
    {
      Traffic(routes, http, upgraded)
    }

    /** The registry's own `provision`, which clears the claim's flows before a rebind. */
    method Provision(authorities: seq<Authority>, claim: Claim, upstream: Upstream,
        enabled: bool) returns (r: Result<bool, RouteError>)
      modifies this
      ensures (Now(), r) == ProvisionRoute(old(Now()), authorities, claim, upstream, enabled, true)
    {
      hide BindAll;
      var distinct := Distinct(authorities);
      SameElements(routes, distinct, authorities, claim, upstream, enabled);
      if |distinct| == 0 { return Failure(NoAuthority); }
      for i := 0 to |distinct|
        invariant forall k :: 0 <= k < i ==> !HeldByOther(routes, distinct[k], claim)
      {
        if distinct[i] in routes && routes[distinct[i]].claims.Keys != {claim} { return Failure(Taken); }
      }
      var requiresRebind := exists i :: 0 <= i < |distinct| && distinct[i] in routes && routes[distinct[i]].upstream != upstream;
      assert requiresRebind == AnyRebinds(routes, distinct, upstream);
      if requiresRebind { this.DestroyClaim(claim); }
      var acquired := BindEach(distinct, claim, upstream, enabled);
      return Success(acquired);
    }

    /** The loop that binds each authority. */
    method BindEach(distinct: seq<Authority>, claim: Claim, upstream: Upstream, enabled: bool) returns (acquired: bool)
      requires forall i, j :: 0 <= i < j < |distinct| ==> distinct[i] != distinct[j]
      requires !AnyHeldByOther(routes, distinct, claim)
      modifies this`routes
      ensures routes == BindAll(old(routes), distinct, claim, upstream, enabled)
      ensures acquired == AnyNew(old(routes), distinct)
    {
      hide BindAll;
      acquired := false;
      BindNone(routes, claim, upstream, enabled);
      for i := 0 to |distinct|
        invariant routes == BindAll(old(routes), distinct[..i], claim, upstream, enabled)
        invariant acquired == exists k :: 0 <= k < i && distinct[k] !in old(routes)
      {
        var authority := distinct[i];
        BindOneMore(old(routes), distinct[..i], authority, claim, upstream, enabled);
        assert distinct[..i] + [authority] == distinct[..i + 1];
        assert !HeldByOther(old(routes), distinct[i], claim);
        if authority !in routes {
          routes := routes[authority := Route(upstream, map[claim := enabled])];
          acquired := true;
        } else {
          assert claim in routes[authority].claims.Keys;
          acquired := claim !in routes[authority].claims || acquired;
          routes := routes[authority := Route(upstream, routes[authority].claims[claim := enabled])];
        }
      }
      assert distinct[..|distinct|] == distinct;
    }

    method DestroyClaim(claim: Claim)
      modifies this`http, this`upgraded
      ensures Now() == RouteRegistry.DestroyClaim(old(Now()), claim)
    {
      http := TakeOut(http, claim);
      upgraded := TakeOut(upgraded, claim);
    }

    /** A listener's `revoke`: the loop over the route's authorities, then the claim's flows. */
    method Revoke(authorities: seq<Authority>, claim: Claim)
      modifies this
      ensures Now() == RevokeRoute(old(Now()), authorities, claim)
    {
      hide Release;
      ReleaseNone(routes, claim);
      for i := 0 to |authorities|
        invariant routes == Release(old(routes), authorities[..i], claim) && http == old(http)
        invariant upgraded == old(upgraded)
      {
        var authority := authorities[i];
        ReleaseOneMore(old(routes), authorities[..i], authority, claim);
        ReleaseOne(routes, authority, claim);
        assert authorities[..i] + [authority] == authorities[..i + 1];
        if authority in routes {
          var claims := routes[authority].claims - {claim};
          if |claims| == 0 { routes := routes - {authority};
          } else { routes := routes[authority := Route(routes[authority].upstream, claims)]; }
        }
      }
      assert authorities[..|authorities|] == authorities;
      this.DestroyClaim(claim);
    }

    /** A listener's `setApproval`. */
    method SetApproval(authorities: seq<Authority>, claim: Claim, enabled: bool) returns (r: Result<(), RouteError>)
      modifies this
      ensures (Now(), r) == RouteRegistry.SetApproval(old(Now()), authorities, claim, enabled)
    {
      hide Switch;
      if exists i :: 0 <= i < |authorities| && (authorities[i] !in routes || claim !in routes[authorities[i]].claims) {
        return Failure(NotActive); }
      SwitchNone(routes, claim, enabled);
      for i := 0 to |authorities|
        invariant routes == Switch(old(routes), authorities[..i], claim, enabled) && http == old(http)
        invariant upgraded == old(upgraded)
        invariant routes.Keys == old(routes).Keys
      {
        var authority := authorities[i];
        SwitchOneMore(old(routes), authorities[..i], authority, claim, enabled);
        SwitchOne(routes, authority, claim, enabled);
        assert authorities[..i] + [authority] == authorities[..i + 1];
        routes := routes[authority := Route(routes[authority].upstream, routes[authority].claims[claim := enabled])];
      }
      assert authorities[..|authorities|] == authorities;
      if !enabled { this.DestroyClaim(claim); }
      return Success(());
    }
  }

  lemma BindNone(routes: Routes, claim: Claim, upstream: Upstream, enabled: bool)
    ensures BindAll(routes, [], claim, upstream, enabled) == routes
  {
  }

  lemma ReleaseNone(routes: Routes, claim: Claim)
    ensures Release(routes, [], claim) == routes
  {
  }

  lemma ReleaseOne(routes: Routes, a: Authority, claim: Claim)
    ensures Release(routes, [a], claim) ==
      if a !in routes then routes
      else if |routes[a].claims - {claim}| == 0 then routes - {a}
      else routes[a := Route(routes[a].upstream, routes[a].claims - {claim})]
  {
    if a in routes {
      var left := routes[a].claims - {claim};
      assert |left| == 0 <==> left.Keys == {};
      assert left.Keys == routes[a].claims.Keys - {claim};
    }
  }

  lemma SwitchNone(routes: Routes, claim: Claim, enabled: bool)
    ensures Switch(routes, [], claim, enabled) == routes
  {
  }

  lemma SwitchOne(routes: Routes, a: Authority, claim: Claim, enabled: bool)
    requires a in routes
    ensures Switch(routes, [a], claim, enabled) == routes[a := Route(routes[a].upstream, routes[a].claims[claim := enabled])]
  {
  }
}
