/**
 The in-memory route registry and the live HTTP flows it is shared with
 (plugin-external-urls/src/httpRouteRegistry.ts, plugin-external-urls/src/httpFlows.ts, and where
 plugin-external-urls/src/httpIngress.ts calls them).
 */
module RouteRegistry {
  import opened Wrappers

  type Authority = string

  /** The id of the stored entry itself, or the key shared by entries that need no approval. */
  datatype Claim = Own(id: string) | Shared(key: string)

  datatype Upstream = Upstream(protocol: string, host: string, port: nat)

  datatype Route = Route(upstream: Upstream, claims: map<Claim, bool>)

  type Routes = map<Authority, Route>

  datatype RouteError = NoAuthority | Taken | NotActive | InvalidUrl

  /** A live request or upgraded connection, with the authority it came through and where it goes. */
  datatype Flow = Flow(id: nat, owner: nat, claim: Claim, authority: Authority, upstream: Upstream)

  datatype Traffic = Traffic(routes: Routes, http: set<Flow>, upgraded: set<Flow>)

  // ---- the registry ----

  predicate HeldByOther(routes: Routes, a: Authority, claim: Claim) { a in routes && routes[a].claims.Keys != {claim} }

  predicate Rebinds(routes: Routes, a: Authority, upstream: Upstream) { a in routes && routes[a].upstream != upstream }

  predicate AnyHeldByOther(routes: Routes, authorities: seq<Authority>, claim: Claim) {
    exists i :: 0 <= i < |authorities| && HeldByOther(routes, authorities[i], claim)
  }

  predicate AnyRebinds(routes: Routes, authorities: seq<Authority>, upstream: Upstream) {
    exists i :: 0 <= i < |authorities| && Rebinds(routes, authorities[i], upstream)
  }

  predicate AnyNew(routes: Routes, authorities: seq<Authority>) {
    exists i :: 0 <= i < |authorities| && authorities[i] !in routes
  }

  function Bind(routes: Routes, a: Authority, claim: Claim, upstream: Upstream, enabled: bool): Routes {
    routes[a := Route(upstream, (if a in routes then routes[a].claims else map[])[claim := enabled])]
  }

  /** All the authorities bound to one claim and upstream. */
  function BindAll(routes: Routes, authorities: seq<Authority>, claim: Claim, upstream: Upstream,
      enabled: bool): Routes {
    map a | a in routes.Keys + (set b | b in authorities) ::
      if a in authorities then Route(upstream, (if a in routes then routes[a].claims else map[])[claim := enabled]) else routes[a]
  }

  datatype Provisioned = Provisioned(routes: Routes, acquired: bool, rebound: bool)

  function Provision(routes: Routes, authorities: seq<Authority>, claim: Claim, upstream: Upstream,
      enabled: bool): Result<Provisioned, RouteError> {
    if authorities == [] then Failure(NoAuthority)
    else if AnyHeldByOther(routes, authorities, claim) then Failure(Taken)
    else Success(Provisioned(BindAll(routes, authorities, claim, upstream, enabled),
          AnyNew(routes, authorities), AnyRebinds(routes, authorities, upstream)))
  }

  function Release(routes: Routes, authorities: seq<Authority>, claim: Claim): Routes {
    map a | a in routes && !(a in authorities && routes[a].claims.Keys <= {claim}) ::
      if a in authorities then Route(routes[a].upstream, routes[a].claims - {claim}) else routes[a]
  }

  predicate AllActive(routes: Routes, authorities: seq<Authority>, claim: Claim) {
    forall i :: 0 <= i < |authorities| ==> authorities[i] in routes && claim in routes[authorities[i]].claims
  }

  function Switch(routes: Routes, authorities: seq<Authority>, claim: Claim, enabled: bool): Routes {
    map a | a in routes :: if a in authorities then Route(routes[a].upstream, routes[a].claims[claim := enabled]) else routes[a]
  }

  /** The enabled claim of an authority, if it has one. */
  predicate Selects(routes: Routes, a: Authority, claim: Claim) {
    a in routes && claim in routes[a].claims && routes[a].claims[claim]
  }

  // ---- the flows ----

  function WithoutClaim(flows: set<Flow>, claim: Claim): set<Flow> { set f | f in flows && f.claim != claim }

  function WithoutOwner(flows: set<Flow>, owner: nat): set<Flow> { set f | f in flows && f.owner != owner }

  function DestroyClaim(t: Traffic, claim: Claim): Traffic {
    t.(http := WithoutClaim(t.http, claim), upgraded := WithoutClaim(t.upgraded, claim))
  }

  // ---- what a listener does ----

  /** `provision`: `urlOk` is whether the URLs built after registering are valid. */
  function ProvisionRoute(t: Traffic, authorities: seq<Authority>, claim: Claim, upstream: Upstream, enabled: bool,
      urlOk: bool): (Traffic, Result<bool, RouteError>) {
    var r := Provision(t.routes, authorities, claim, upstream, enabled);
    if r.Failure? then (t, Failure(r.error)) else
    var cleared := if r.value.rebound then DestroyClaim(t, claim) else t;
    (cleared.(routes := r.value.routes), if urlOk then Success(r.value.acquired) else Failure(InvalidUrl))
  }

  function RevokeRoute(t: Traffic, authorities: seq<Authority>, claim: Claim): Traffic {
    DestroyClaim(t, claim).(routes := Release(t.routes, authorities, claim))
  }

  function SetApproval(t: Traffic, authorities: seq<Authority>, claim: Claim,
      enabled: bool): (Traffic, Result<(), RouteError>) {
    if !AllActive(t.routes, authorities, claim) then (t, Failure(NotActive)) else
    var switched := t.(routes := Switch(t.routes, authorities, claim, enabled));
    (if enabled then switched else DestroyClaim(switched, claim), Success(()))
  }

  datatype Step =
    | ProvisionStep(authorities: seq<Authority>, claim: Claim, upstream: Upstream, enabled: bool, urlOk: bool)
    | RevokeStep(authorities: seq<Authority>, claim: Claim)
    | ApprovalStep(authorities: seq<Authority>, claim: Claim, enabled: bool)
    | OpenHttp(id: nat, owner: nat, host: Authority, claim: Claim)
    | OpenUpgrade(id: nat, owner: nat, host: Authority, claim: Claim)
    | Drop(flow: Flow)
    | CloseListener(owner: nat)

  function NextTraffic(t: Traffic, s: Step): Traffic {
    match s
    case ProvisionStep(authorities, claim, upstream, enabled, urlOk) => ProvisionRoute(t, authorities, claim, upstream, enabled, urlOk).0
    case RevokeStep(authorities, claim) => RevokeRoute(t, authorities, claim)
    case ApprovalStep(authorities, claim, enabled) => SetApproval(t, authorities, claim, enabled).0
    case OpenHttp(id, owner, host, claim) =>
      if !Selects(t.routes, host, claim) then t
      else t.(http := t.http + {Flow(id, owner, claim, host, t.routes[host].upstream)})
    case OpenUpgrade(id, owner, host, claim) =>
      if !Selects(t.routes, host, claim) then t
      else t.(upgraded := t.upgraded + {Flow(id, owner, claim, host, t.routes[host].upstream)})
    case Drop(flow) => t.(http := t.http - {flow}, upgraded := t.upgraded - {flow})
    case CloseListener(owner) => t.(http := WithoutOwner(t.http, owner), upgraded := WithoutOwner(t.upgraded, owner))
  }

  function RunTraffic(t: Traffic, steps: seq<Step>): Traffic
    decreases |steps|
  {
    if steps == [] then t else RunTraffic(NextTraffic(t, steps[0]), steps[1..])
  }

  const IDLE := Traffic(map[], {}, {})

  // ---- routing and flows agree ----

  /** Every registered authority has exactly one claim. */
  ghost predicate OneClaimEach(routes: Routes) { forall a :: a in routes ==> exists c :: routes[a].claims.Keys == {c} }

  /** The flow goes where its authority's route now goes, under the claim it was opened with. */
  predicate Targets(routes: Routes, f: Flow) {
    f.authority in routes && routes[f.authority].claims.Keys == {f.claim} && routes[f.authority].upstream == f.upstream
  }

  ghost predicate FlowsTarget(routes: Routes, flows: set<Flow>) { forall f :: f in flows ==> Targets(routes, f) }

  ghost predicate Agrees(t: Traffic) { OneClaimEach(t.routes) && FlowsTarget(t.routes, t.http) && FlowsTarget(t.routes, t.upgraded) }

  lemma BindKeepsClaims(routes: Routes, authorities: seq<Authority>, claim: Claim, upstream: Upstream, enabled: bool)
    requires OneClaimEach(routes) && !AnyHeldByOther(routes, authorities, claim)
    ensures OneClaimEach(BindAll(routes, authorities, claim, upstream, enabled))
    ensures var bound := BindAll(routes, authorities, claim, upstream, enabled);
      forall a :: a in authorities ==> a in bound && bound[a].claims == map[claim := enabled]
  {
    var bound := BindAll(routes, authorities, claim, upstream, enabled);
    forall a | a in authorities ensures bound[a].claims == map[claim := enabled] {
      var i :| 0 <= i < |authorities| && authorities[i] == a;
      assert !HeldByOther(routes, authorities[i], claim);
    }
    forall a | a in bound ensures exists c :: bound[a].claims.Keys == {c} {
      if a in authorities { assert bound[a].claims.Keys == {claim}; }
    }
  }

  /** Without a rebind no flow's upstream changes; with one, the claim's flows are gone first. */
  lemma BindKeepsFlows(routes: Routes, authorities: seq<Authority>, claim: Claim, upstream: Upstream, enabled: bool,
      flows: set<Flow>)
    requires OneClaimEach(routes) && FlowsTarget(routes, flows) && !AnyHeldByOther(routes, authorities, claim)
    ensures var bound := BindAll(routes, authorities, claim, upstream, enabled);
      && FlowsTarget(bound, WithoutClaim(flows, claim))
      && (!AnyRebinds(routes, authorities, upstream) ==> FlowsTarget(bound, flows))
  {
    BindKeepsClaims(routes, authorities, claim, upstream, enabled);
    var bound := BindAll(routes, authorities, claim, upstream, enabled);
    forall f | f in flows && (f.claim != claim || !AnyRebinds(routes, authorities, upstream))
      ensures Targets(bound, f)
    {
      assert Targets(routes, f);
      if f.authority in authorities {
        var i :| 0 <= i < |authorities| && authorities[i] == f.authority;
        assert !HeldByOther(routes, authorities[i], claim);
        assert f.claim in {f.claim} && f.claim == claim;
        assert !Rebinds(routes, authorities[i], upstream);
        assert bound[f.authority].claims.Keys == {claim};
      }
    }
  }

  lemma ReleaseKeepsFlows(routes: Routes, authorities: seq<Authority>, claim: Claim, flows: set<Flow>)
    requires OneClaimEach(routes) && FlowsTarget(routes, flows)
    ensures var left := Release(routes, authorities, claim); OneClaimEach(left) && FlowsTarget(left, WithoutClaim(flows, claim))
  {
    var left := Release(routes, authorities, claim);
    forall a | a in left ensures exists c :: left[a].claims.Keys == {c} {
      var c :| routes[a].claims.Keys == {c};
      if a in authorities { assert c != claim; assert left[a].claims.Keys == {c}; }
    }
    forall f | f in WithoutClaim(flows, claim) ensures Targets(left, f) {
      assert Targets(routes, f);
      assert f.claim in routes[f.authority].claims;
      if f.authority in authorities { assert left[f.authority].claims.Keys == {f.claim}; }
    }
  }

  lemma SwitchKeepsFlows(routes: Routes, authorities: seq<Authority>, claim: Claim, enabled: bool, flows: set<Flow>)
    requires OneClaimEach(routes) && FlowsTarget(routes, flows) && AllActive(routes, authorities, claim)
    ensures var on := Switch(routes, authorities, claim, enabled);
      OneClaimEach(on) && FlowsTarget(on, flows) && FlowsTarget(on, WithoutClaim(flows, claim))
  {
    var on := Switch(routes, authorities, claim, enabled);
    forall a | a in on ensures on[a].claims.Keys == routes[a].claims.Keys {
      if a in authorities { var i :| 0 <= i < |authorities| && authorities[i] == a; }
    }
    forall f | f in flows ensures Targets(on, f) { assert Targets(routes, f); }
  }

  lemma StepAgrees(t: Traffic, s: Step)
    requires Agrees(t)
    ensures Agrees(NextTraffic(t, s))
  {
    hide OneClaimEach, BindAll, Release, Switch;
    match s
    case ProvisionStep(authorities, claim, upstream, enabled, _) =>
      if !AnyHeldByOther(t.routes, authorities, claim) {
        BindKeepsClaims(t.routes, authorities, claim, upstream, enabled);
        BindKeepsFlows(t.routes, authorities, claim, upstream, enabled, t.http);
        BindKeepsFlows(t.routes, authorities, claim, upstream, enabled, t.upgraded);
      }
    case RevokeStep(authorities, claim) =>
      ReleaseKeepsFlows(t.routes, authorities, claim, t.http);
      ReleaseKeepsFlows(t.routes, authorities, claim, t.upgraded);
    case ApprovalStep(authorities, claim, enabled) =>
      if AllActive(t.routes, authorities, claim) {
        SwitchKeepsFlows(t.routes, authorities, claim, enabled, t.http);
        SwitchKeepsFlows(t.routes, authorities, claim, enabled, t.upgraded);
      }
    case OpenHttp(_, _, host, claim) => if Selects(t.routes, host, claim) { SelectedIsTheClaim(t.routes, host, claim); }
    case OpenUpgrade(_, _, host, claim) => if Selects(t.routes, host, claim) { SelectedIsTheClaim(t.routes, host, claim); }
    case Drop(_) =>
    case CloseListener(_) =>
  }

  lemma SelectedIsTheClaim(routes: Routes, a: Authority, claim: Claim)
    requires OneClaimEach(routes) && Selects(routes, a, claim)
    ensures routes[a].claims.Keys == {claim}
  {
    var c :| routes[a].claims.Keys == {c};
    assert claim in routes[a].claims.Keys;
  }

  /** In every run each authority has one claim and every live flow goes where that claim's route goes now. */
  lemma {:induction false} RunAgrees(t: Traffic, steps: seq<Step>)
    requires Agrees(t)
    ensures Agrees(RunTraffic(t, steps))
    decreases |steps|
  {
    hide Agrees, NextTraffic;
    if steps != [] {
      StepAgrees(t, steps[0]);
      RunAgrees(NextTraffic(t, steps[0]), steps[1..]);
    }
  }

  ghost predicate NoFlows(t: Traffic, claim: Claim) { forall f :: f in t.http + t.upgraded ==> f.claim != claim }

  /** Revoking, disabling through setApproval, and rebinding leave the claim without a flow. */
  lemma ClosedClaims(t: Traffic, steps: seq<Step>, s: Step)
    requires t == IDLE
    ensures var now := RunTraffic(t, steps); var next := NextTraffic(now, s);
      && (s.RevokeStep? ==> NoFlows(next, s.claim))
      && (s.ApprovalStep? && !s.enabled && AllActive(now.routes, s.authorities, s.claim) ==> NoFlows(next, s.claim))
      && (s.ProvisionStep? && next != now && AnyRebinds(now.routes, s.authorities, s.upstream) ==> NoFlows(next, s.claim))
      && Agrees(next)
  {
    hide RunTraffic;
    RunAgrees(t, steps);
    StepAgrees(RunTraffic(t, steps), s);
  }

  /** A registration that is refused changes nothing; one refused for its URL afterwards has registered. */
  lemma FailedProvision(t: Traffic, authorities: seq<Authority>, claim: Claim, upstream: Upstream, enabled: bool,
      urlOk: bool)
    ensures var r := ProvisionRoute(t, authorities, claim, upstream, enabled, urlOk);
      && (r.1.Failure? && r.1.error != InvalidUrl ==> r.0 == t)
      && (r.1 == Failure(InvalidUrl) ==> forall a :: a in authorities ==>
           a in r.0.routes && claim in r.0.routes[a].claims && r.0.routes[a].claims[claim] == enabled)
  {
  }
}
