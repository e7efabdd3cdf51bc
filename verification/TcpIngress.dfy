/** The TCP listener (plugin-external-urls/src/tcpIngress.ts): one route, a bounded set of connections. */
module TcpIngress {
  import opened Wrappers
  import opened RouteRegistry

  datatype TcpRoute = TcpRoute(claim: Claim, upstream: Upstream, enabled: bool)

  /** A forwarded connection, with the claim it was accepted under and where it goes. */
  datatype Connection = Connection(id: nat, claim: Claim, upstream: Upstream)

  datatype Tcp = Tcp(route: Option<TcpRoute>, connections: set<Connection>)

  datatype TcpError = PathGiven | NotTcp | TargetsOther | Inactive

  function TcpProvision(t: Tcp, hasPath: bool, tcp: bool, claim: Claim, upstream: Upstream,
      enabled: bool): (Tcp, Result<bool, TcpError>) {
    if hasPath then (t, Failure(PathGiven))
    else if !tcp then (t, Failure(NotTcp))
    else if t.route.Some? && t.route.value.claim != claim then (t, Failure(TargetsOther))
    else
      var kept := if t.route.Some? && t.route.value.upstream != upstream then {} else t.connections;
      (Tcp(Some(TcpRoute(claim, upstream, enabled)), kept), Success(t.route.None?))
  }

  function TcpRevoke(t: Tcp, claim: Claim): Tcp {
    if t.route.None? || t.route.value.claim != claim then t else Tcp(None, {})
  }

  function TcpApproval(t: Tcp, claim: Claim, enabled: bool): (Tcp, Result<(), TcpError>) {
    if t.route.None? || t.route.value.claim != claim then (t, Failure(Inactive))
    else (Tcp(Some(t.route.value.(enabled := enabled)), if enabled then t.connections else {}), Success(()))
  }

  function Forward(t: Tcp, maximum: nat, id: nat): Tcp {
    if t.route.None? || !t.route.value.enabled || |t.connections| >= maximum then t
    else t.(connections := t.connections + {Connection(id, t.route.value.claim, t.route.value.upstream)})
  }

  class TcpIngressListener {
    const maximum: nat
    var route: Option<TcpRoute>
    var connections: set<Connection>

    constructor (maximum: nat)
      ensures this.maximum == maximum && Now() == Tcp(None, {})
    {
      this.maximum, route, connections := maximum, None, {};
    }

    function Now(): Tcp
      reads this
    {
      Tcp(route, connections)
    }

    method Provision(hasPath: bool, tcp: bool, claim: Claim, upstream: Upstream,
        enabled: bool) returns (r: Result<bool, TcpError>)
      modifies this
      ensures (Now(), r) == TcpProvision(old(Now()), hasPath, tcp, claim, upstream, enabled)
    {
      if hasPath { return Failure(PathGiven); }
      if !tcp { return Failure(NotTcp); }
      if route.Some? && route.value.claim != claim { return Failure(TargetsOther); }
      var acquired := route.None?;
      if !acquired && route.value.upstream != upstream { connections := {}; }
      route := Some(TcpRoute(claim, upstream, enabled));
      return Success(acquired);
    }

    method Revoke(claim: Claim)
      modifies this
      ensures Now() == TcpRevoke(old(Now()), claim)
    {
      if route.None? || route.value.claim != claim { return; }
      route := None;
      connections := {};
    }

    method SetApproval(claim: Claim, enabled: bool) returns (r: Result<(), TcpError>)
      modifies this
      ensures (Now(), r) == TcpApproval(old(Now()), claim, enabled)
    {
      if route.None? || route.value.claim != claim { return Failure(Inactive); }
      route := Some(route.value.(enabled := enabled));
      if !enabled { connections := {}; }
      return Success(());
    }

    method ForwardClient(id: nat)
      modifies this
      ensures Now() == Forward(old(Now()), maximum, id)
    {
      if route.None? || !route.value.enabled { return; }
      if |connections| >= maximum { return; }
      connections := connections + {Connection(id, route.value.claim, route.value.upstream)};
    }
  }

  /**
   A client is forwarded, under the route's claim and to its upstream, exactly while the route is enabled
   and there is room; nobody else is affected.
   */
  lemma ForwardExact(t: Tcp, maximum: nat, id: nat, c: Connection)
    ensures c in Forward(t, maximum, id).connections <==>
      || c in t.connections
      || (t.route.Some? && t.route.value.enabled && |t.connections| < maximum && c.id == id
          && c.claim == t.route.value.claim && c.upstream == t.route.value.upstream)
    ensures Forward(t, maximum, id).route == t.route
  {
  }

  datatype TcpStep =
    | ProvisionTcp(hasPath: bool, tcp: bool, claim: Claim, upstream: Upstream, enabled: bool)
    | RevokeTcp(claim: Claim)
    | ApproveTcp(claim: Claim, enabled: bool)
    | Accept(id: nat)
    | Lose(connection: Connection)
    | CloseTcp

  function TcpNext(t: Tcp, maximum: nat, s: TcpStep): Tcp {
    match s
    case ProvisionTcp(hasPath, tcp, claim, upstream, enabled) => TcpProvision(t, hasPath, tcp, claim, upstream, enabled).0
    case RevokeTcp(claim) => TcpRevoke(t, claim)
    case ApproveTcp(claim, enabled) => TcpApproval(t, claim, enabled).0
    case Accept(id) => Forward(t, maximum, id)
    case Lose(c) => t.(connections := t.connections - {c})
    case CloseTcp => Tcp(None, {})
  }

  function TcpRun(t: Tcp, maximum: nat, steps: seq<TcpStep>): Tcp
    decreases |steps|
  {
    if steps == [] then t else TcpRun(TcpNext(t, maximum, steps[0]), maximum, steps[1..])
  }

  /** At most the maximum, none without a route, and all of them going where the route goes under its claim. */
  ghost predicate TcpAgrees(t: Tcp, maximum: nat) {
    && |t.connections| <= maximum
    && (t.route.None? ==> t.connections == {})
    && forall c :: c in t.connections ==> c.claim == t.route.value.claim && c.upstream == t.route.value.upstream
  }

  lemma TcpStepAgrees(t: Tcp, maximum: nat, s: TcpStep)
    requires TcpAgrees(t, maximum)
    ensures TcpAgrees(TcpNext(t, maximum, s), maximum)
  {
    match s
    case Lose(c) => SmallerIsSmaller(t.connections, c);
    case _ =>
  }

  lemma SmallerIsSmaller(s: set<Connection>, c: Connection)
    ensures |s - {c}| <= |s|
  {
    if c in s { assert s == (s - {c}) + {c}; } else { assert s - {c} == s; }
  }

  lemma {:induction false} TcpRunAgrees(t: Tcp, maximum: nat, steps: seq<TcpStep>)
    requires TcpAgrees(t, maximum)
    ensures TcpAgrees(TcpRun(t, maximum, steps), maximum)
    decreases |steps|
  {
    hide TcpAgrees, TcpNext;
    if steps != [] {
      TcpStepAgrees(t, maximum, steps[0]);
      TcpRunAgrees(TcpNext(t, maximum, steps[0]), maximum, steps[1..]);
    }
  }

  // ---- a registry with one authority ----

  function AsRoutes(t: Tcp, authority: Authority): Routes {
    if t.route.None? then map[] else map[authority := Route(t.route.value.upstream, map[t.route.value.claim := t.route.value.enabled])]
  }

  /**
   On a well-formed request the listener grants, revokes and switches exactly as the registry would for
   its one authority.
   */
  lemma TcpIsARegistry(t: Tcp, authority: Authority, claim: Claim, upstream: Upstream, enabled: bool)
    ensures var r := TcpProvision(t, false, true, claim, upstream, enabled);
      var p := RouteRegistry.Provision(AsRoutes(t, authority), [authority], claim, upstream, enabled);
      (r.1.Success? <==> p.Success?) && (p.Success? ==> AsRoutes(r.0, authority) == p.value.routes && r.1.value == p.value.acquired)
    ensures AsRoutes(TcpRevoke(t, claim), authority) == Release(AsRoutes(t, authority), [authority], claim)
    ensures var r := TcpApproval(t, claim, enabled);
      && (r.1.Success? <==> AllActive(AsRoutes(t, authority), [authority], claim))
      && (r.1.Success? ==> AsRoutes(r.0, authority) == Switch(AsRoutes(t, authority), [authority], claim, enabled))
  {
    TcpProvisionIsProvision(t, authority, claim, upstream, enabled);
    TcpRevokeIsRelease(t, authority, claim);
    var routes := AsRoutes(t, authority);
    assert [authority][0] == authority;
  }

  lemma TcpProvisionIsProvision(t: Tcp, authority: Authority, claim: Claim, upstream: Upstream, enabled: bool)
    ensures var r := TcpProvision(t, false, true, claim, upstream, enabled);
      var p := RouteRegistry.Provision(AsRoutes(t, authority), [authority], claim, upstream, enabled);
      (r.1.Success? <==> p.Success?) && (p.Success? ==> AsRoutes(r.0, authority) == p.value.routes && r.1.value == p.value.acquired)
  {
    var routes := AsRoutes(t, authority);
    assert [authority][0] == authority;
    if t.route.Some? {
      assert routes[authority].claims.Keys == {t.route.value.claim};
      assert t.route.value.claim == claim ==> routes[authority].claims[claim := enabled] == map[claim := enabled];
    }
  }

  lemma TcpRevokeIsRelease(t: Tcp, authority: Authority, claim: Claim)
    ensures AsRoutes(TcpRevoke(t, claim), authority) == Release(AsRoutes(t, authority), [authority], claim)
  {
    var routes := AsRoutes(t, authority);
    if t.route.Some? && t.route.value.claim != claim {
      assert t.route.value.claim in routes[authority].claims.Keys;
      assert routes[authority].claims - {claim} == routes[authority].claims;
    }
  }
}
