/** Where every IPv4 address goes once the tunnel is configured, and once it is torn down again. */
module TunnelTraffic {
  import opened Integers
  import opened TunnelRoutes

  // ---- Effect of the requests on the table ---------------------------------------------------

  lemma {:induction false} RouteForAppend(routes: seq<Route>, r: Route, q: Prefix)
    ensures var found := RouteFor(routes, q);
            RouteFor(routes + [r], q) == if found.Some? then found else if r.dst == q then Some(r) else None
  {
    if routes == [] {
      assert routes + [r] == [r] && [r][1..] == [];
    } else {
      assert (routes + [r])[1..] == routes[1..] + [r];
      RouteForAppend(routes[1..], r, q);
    }
  }

  lemma {:induction false} OnlyRouteFor(routes: seq<Route>, i: nat)
    requires Distinct(routes) && i < |routes|
    ensures RouteFor(routes, routes[i].dst) == Some(routes[i])
  {
    if i > 0 { OnlyRouteFor(routes[1..], i - 1); }
  }

  /** A request that is not refused leaves a route for its destination: the old one if there was one. */
  function Filled(routes: seq<Route>, r: Route, q: Prefix): Option<Route> {
    if q == r.dst && RouteFor(routes, q).None? then Some(r) else RouteFor(routes, q)
  }

  lemma AddFills(k: Kernel, r: Route)
    requires k.capable && AddOrFail(k, r).error.None?
    ensures var k' := AddOrFail(k, r).kernel;
            k' == k.(routes := k'.routes) && forall q :: RouteFor(k'.routes, q) == Filled(k.routes, r, q)
  {
    forall q ensures RouteFor(AddOrFail(k, r).kernel.routes, q) == Filled(k.routes, r, q) {
      RouteForAppend(k.routes, r, q);
    }
  }

  lemma AddKeepsDistinct(k: Kernel, r: Route)
    requires Distinct(k.routes)
    ensures Distinct(RouteAdd(k, r).routes)
  {}

  predicate Listed(hosts: seq<Host>, q: Prefix) { |q| == 32 && V4(q) in hosts }

  lemma {:induction false} PinAllFills(k: Kernel, hosts: seq<Host>, link: nat, gw: Ip)
    requires k.capable && Distinct(k.routes) && PinAll(k, hosts, link, gw).error.None?
    ensures var k' := PinAll(k, hosts, link, gw).kernel;
            && k' == k.(routes := k'.routes) && Distinct(k'.routes)
            && forall q :: RouteFor(k'.routes, q) ==
                           if Listed(hosts, q) then Filled(k.routes, Route(q, link, Some(gw)), q)
                           else RouteFor(k.routes, q)
  {
    if hosts != [] {
      var host := hosts[|hosts| - 1];
      var before := PinAll(k, hosts[..|hosts| - 1], link, gw).kernel;
      PinAllFills(k, hosts[..|hosts| - 1], link, gw);
      assert hosts == hosts[..|hosts| - 1] + [host];
      if host.V4? {
        var r := Route(host.ip, link, Some(gw));
        AddFills(before, r);
        AddKeepsDistinct(before, r);
      }
    }
  }

  /** The exception hosts that get pinned: only IPv4 ones, and only through a gateway. */
  predicate Pinned(routes: seq<Route>, hosts: seq<Host>, q: Prefix) {
    Listed(hosts, q) && Original(routes).Some? && Original(routes).value.gw.Some?
  }

  function After(k: Kernel, hosts: seq<Host>, q: Prefix): Option<Route>
    requires k.tunnel.Some?
  {
    var prior := RouteFor(k.routes, q);
    if prior.Some? then prior
    else if Pinned(k.routes, hosts, q) then Some(Route(q, Original(k.routes).value.link, Original(k.routes).value.gw))
    else if q == LOW_HALF || q == HIGH_HALF then Some(Route(q, k.tunnel.value, None))
    else None
  }

  lemma PinExceptionsFills(k: Kernel, hosts: seq<Host>)
    requires k.capable && Distinct(k.routes) && PinExceptions(k, hosts).error.None?
    ensures var k' := PinExceptions(k, hosts).kernel;
            && k' == k.(routes := k'.routes) && Distinct(k'.routes)
            && forall q :: RouteFor(k'.routes, q) ==
                 if Pinned(k.routes, hosts, q)
                 then Filled(k.routes, Route(q, Original(k.routes).value.link, Original(k.routes).value.gw), q)
                 else RouteFor(k.routes, q)
  {
    var original := Original(k.routes);
    if original.Some? && original.value.gw.Some? {
      PinAllFills(k, hosts, original.value.link, original.value.gw.value);
    }
  }

  lemma OverrideFills(k: Kernel, link: nat)
    requires k.capable && Distinct(k.routes) && Override(k, link).error.None?
    ensures var k' := Override(k, link).kernel;
            && k' == k.(routes := k'.routes) && Distinct(k'.routes)
            && forall q :: RouteFor(k'.routes, q) ==
                 if q == LOW_HALF || q == HIGH_HALF then Filled(k.routes, Route(q, link, None), q)
                 else RouteFor(k.routes, q)
  {
    var low, high := Route(LOW_HALF, link, None), Route(HIGH_HALF, link, None);
    AddFills(k, low);
    AddKeepsDistinct(k, low);
    AddFills(RouteAdd(k, low), high);
    AddKeepsDistinct(RouteAdd(k, low), high);
  }

  /** The table after a configuration that reported success. */
  lemma TableAfter(k: Kernel, hosts: seq<Host>)
    requires k.capable && Distinct(k.routes) && Configure(k, hosts).error.None?
    ensures var k' := Configure(k, hosts).kernel;
            var t := k'.routes;
            && k.tunnel.Some? && k'.tunnel == k.tunnel && k'.capable && Distinct(t)
            && (forall q :: RouteFor(t, q) == After(k, hosts, q))
            && RouteFor(t, LOW_HALF).value.link == RouteFor(t, HIGH_HALF).value.link == k.tunnel.value
  {
    var ready := LinkSetUp(AddrAdd(k).0).0;
    var t := Configure(k, hosts).kernel.routes;
    PinnedThenOverridden(ready, hosts);
    assert forall q :: After(ready, hosts, q) == After(k, hosts, q);
    OnLinkIsRouteFor(t, LOW_HALF, k.tunnel.value);
    OnLinkIsRouteFor(t, HIGH_HALF, k.tunnel.value);
  }

  lemma PinnedThenOverridden(k: Kernel, hosts: seq<Host>)
    requires k.capable && k.tunnel.Some? && Distinct(k.routes) && PinExceptions(k, hosts).error.None?
    requires Override(PinExceptions(k, hosts).kernel, k.tunnel.value).error.None?
    ensures var k' := Override(PinExceptions(k, hosts).kernel, k.tunnel.value).kernel;
            && k' == k.(routes := k'.routes) && Distinct(k'.routes)
            && forall q :: RouteFor(k'.routes, q) == After(k, hosts, q)
  {
    PinExceptionsFills(k, hosts);
    OverrideFills(PinExceptions(k, hosts).kernel, k.tunnel.value);
  }

  lemma OnLinkIsRouteFor(routes: seq<Route>, dst: Prefix, link: nat)
    requires Distinct(routes)
    ensures OnLink(routes, dst, link) <==> RouteFor(routes, dst).Some? && RouteFor(routes, dst).value.link == link
  {
    if OnLink(routes, dst, link) {
      var i :| 0 <= i < |routes| && routes[i].dst == dst && routes[i].link == link;
      OnlyRouteFor(routes, i);
    }
    var found := RouteFor(routes, dst);
    if found.Some? {
      var i :| 0 <= i < |routes| && routes[i] == found.value;
    }
  }

  // ---- Lookups -------------------------------------------------------------------------------

  /** Tables that agree on the prefixes of `ip` from two bits up differ only in shorter matches. */
  lemma {:induction false} LookupFromTwo(t: seq<Route>, t': seq<Route>, ip: Ip, len: nat)
    requires 1 <= len <= 32
    requires forall n :: 2 <= n <= len ==> RouteFor(t, ip[..n]) == RouteFor(t', ip[..n])
    ensures var r := LookupUpTo(t, ip, len);
            LookupUpTo(t', ip, len) == if r.Some? && |r.value.dst| >= 2 then r else LookupUpTo(t', ip, 1)
    ensures var r := LookupUpTo(t, ip, len);
            !(r.Some? && |r.value.dst| >= 2) ==> r == LookupUpTo(t, ip, 1)
  {
    if len > 1 {
      assert RouteFor(t, ip[..len]) == RouteFor(t', ip[..len]);
      if RouteFor(t, ip[..len]).None? { LookupFromTwo(t, t', ip, len - 1); }
    } else {
      LongestUpTo(t, ip, 1);
    }
  }

  lemma Halves(ip: Ip)
    ensures ip[..1] == [ip[0]] && ip[..0] == [] && ip[..32] == ip
    ensures ip[..1] == LOW_HALF || ip[..1] == HIGH_HALF
  {
    if ip[0] { assert ip[..1] == HIGH_HALF; } else { assert ip[..1] == LOW_HALF; }
  }

  /** Every address, after a configuration that reported success: pinned hosts go through the original
      gateway (or a host route they had), routes of two bits or more are kept, and everything else
      enters the tunnel. */
  lemma WhereTrafficGoes(k: Kernel, hosts: seq<Host>, ip: Ip)
    requires k.capable && Distinct(k.routes) && Configure(k, hosts).error.None?
    ensures var now, before := Lookup(Configure(k, hosts).kernel.routes, ip), Lookup(k.routes, ip);
            var original := Original(k.routes);
            && now.Some?
            && if Pinned(k.routes, hosts, ip)
               then now == if RouteFor(k.routes, ip).Some? then RouteFor(k.routes, ip)
                           else Some(Route(ip, original.value.link, original.value.gw))
               else if before.Some? && |before.value.dst| >= 2 then now == before
               else now.value.dst == [ip[0]] && now.value.link == k.tunnel.value
  {
    var t := Configure(k, hosts).kernel.routes;
    TableAfter(k, hosts);
    Halves(ip);
    if !Pinned(k.routes, hosts, ip) {
      forall n | 2 <= n <= 32 ensures RouteFor(k.routes, ip[..n]) == RouteFor(t, ip[..n]) {
        assert RouteFor(t, ip[..n]) == After(k, hosts, ip[..n]);
      }
      LookupFromTwo(k.routes, t, ip, 32);
    }
  }

  /** The documented setting: one default route and nothing else at 0.0.0.0. Then success alone says
      that the requests had effect, exceptions follow the default's gateway, and no address is left on
      the old default route. */
  lemma DefaultIsNeverUsed(k: Kernel, hosts: seq<Host>, ip: Ip, d: Route)
    requires Distinct(k.routes) && d in k.routes && d.dst == []
    requires forall r :: r in k.routes && IsZero(r.dst) ==> r == d
    requires Configure(k, hosts).error.None?
    ensures k.capable && Original(k.routes) == Some(d)
    ensures var now := Lookup(Configure(k, hosts).kernel.routes, ip); now.Some? && now.value != d
  {
    if !k.capable { NoEffectWithoutCapability(k, hosts); }
    var i :| 0 <= i < |k.routes| && k.routes[i] == d;
    assert IsZero(d.dst);
    WhereTrafficGoes(k, hosts, ip);
    LookupIsLongest(k.routes, ip);
    LookupIsLongest(Configure(k, hosts).kernel.routes, ip);
  }

  lemma {:induction false} PinAllIdle(k: Kernel, hosts: seq<Host>, link: nat, gw: Ip)
    requires !k.capable
    ensures PinAll(k, hosts, link, gw) == Outcome(k, None)
  {
    if hosts != [] { PinAllIdle(k, hosts[..|hosts| - 1], link, gw); }
  }

  /** Without CAP_NET_ADMIN nothing changes, and success means it was all there before. */
  lemma NoEffectWithoutCapability(k: Kernel, hosts: seq<Host>)
    requires !k.capable
    ensures Configure(k, hosts) == Outcome(k, Verify(k))
  {
    var original := Original(k.routes);
    if original.Some? && original.value.gw.Some? {
      PinAllIdle(k, hosts, original.value.link, original.value.gw.value);
    }
  }

  // ---- When configuration succeeds -----------------------------------------------------------

  predicate Accepted(k: Kernel, q: Prefix) { RouteFor(k.routes, q).Some? || SetRoute(q) !in k.refused }

  predicate FreeForTunnel(k: Kernel, q: Prefix)
    requires k.tunnel.Some?
  {
    var r := RouteFor(k.routes, q);
    if r.Some? then r.value.link == k.tunnel.value else SetRoute(q) !in k.refused
  }

  ghost predicate AllAccepted(k: Kernel, hosts: seq<Host>) { forall q :: Listed(hosts, q) ==> Accepted(k, q) }

  lemma AllAcceptedMore(k: Kernel, rest: seq<Host>, host: Host)
    ensures AllAccepted(k, rest + [host]) <==> AllAccepted(k, rest) && (host.V4? ==> Accepted(k, host.ip))
  {
    var hosts := rest + [host];
    assert host in hosts;
    assert forall q: Prefix :: Listed(hosts, q) <==> Listed(rest, q) || (|q| == 32 && host == V4(q));
    if host.V4? { assert Listed(hosts, host.ip); }
  }

  lemma {:induction false} PinAllSucceeds(k: Kernel, hosts: seq<Host>, link: nat, gw: Ip)
    requires k.capable && Distinct(k.routes)
    ensures PinAll(k, hosts, link, gw).error.None? <==> AllAccepted(k, hosts)
  {
    if hosts != [] {
      var host, rest := hosts[|hosts| - 1], hosts[..|hosts| - 1];
      PinAllSucceeds(k, rest, link, gw);
      assert hosts == rest + [host];
      AllAcceptedMore(k, rest, host);
      if PinAll(k, rest, link, gw).error.None? { PinAllFills(k, rest, link, gw); }
    }
  }

  /** With the capability, configuration reports success exactly when the link exists and the kernel
      turns down none of the requests it needs, a half already routed elsewhere counting as one. */
  lemma SuccessExactly(k: Kernel, hosts: seq<Host>)
    requires k.capable && Distinct(k.routes)
    ensures Configure(k, hosts).error.None? <==>
            && k.tunnel.Some? && (k.addressed || SetAddr !in k.refused) && SetUp !in k.refused
            && (forall q :: Pinned(k.routes, hosts, q) ==> Accepted(k, q))
            && FreeForTunnel(k, LOW_HALF) && FreeForTunnel(k, HIGH_HALF)
  {
    if k.tunnel.Some? && (k.addressed || SetAddr !in k.refused) && SetUp !in k.refused {
      var ready := LinkSetUp(AddrAdd(k).0).0;
      PinExceptionsSucceeds(ready, hosts);
      if PinExceptions(ready, hosts).error.None? {
        PinExceptionsFills(ready, hosts);
        OverrideSucceeds(PinExceptions(ready, hosts).kernel);
      }
    }
  }

  lemma PinExceptionsSucceeds(k: Kernel, hosts: seq<Host>)
    requires k.capable && Distinct(k.routes)
    ensures PinExceptions(k, hosts).error.None? <==> forall q :: Pinned(k.routes, hosts, q) ==> Accepted(k, q)
  {
    var original := Original(k.routes);
    if original.Some? && original.value.gw.Some? {
      PinAllSucceeds(k, hosts, original.value.link, original.value.gw.value);
      assert forall q :: Pinned(k.routes, hosts, q) <==> Listed(hosts, q);
    }
  }

  lemma OverrideSucceeds(k: Kernel)
    requires k.capable && Distinct(k.routes) && k.tunnel.Some? && k.up && k.addressed
    ensures var done := Override(k, k.tunnel.value);
            (done.error.None? && Verify(done.kernel).None?) <==>
            FreeForTunnel(k, LOW_HALF) && FreeForTunnel(k, HIGH_HALF)
  {
    var link := k.tunnel.value;
    var low := Route(LOW_HALF, link, None);
    if AddOrFail(k, low).error.None? { AddFills(k, low); }
    var done := Override(k, link);
    if done.error.None? {
      OverrideFills(k, link);
      OnLinkIsRouteFor(done.kernel.routes, LOW_HALF, link);
      OnLinkIsRouteFor(done.kernel.routes, HIGH_HALF, link);
    }
  }

  // ---- Teardown ------------------------------------------------------------------------------

  lemma {:induction false} WithoutFinds(routes: seq<Route>, dst: Prefix, link: nat, q: Prefix)
    requires Distinct(routes)
    ensures var found := RouteFor(routes, q);
            RouteFor(Without(routes, dst, link), q) ==
            if q == dst && found.Some? && found.value.link == link then None else found
    ensures forall r :: r in Without(routes, dst, link) ==> r in routes
  {
    if routes != [] && !(routes[0].dst == dst && routes[0].link == link) {
      WithoutFinds(routes[1..], dst, link, q);
    } else if routes != [] {
      var rest := RouteFor(routes[1..], q);
      if rest.Some? {
        var i :| 0 <= i < |routes[1..]| && routes[1..][i] == rest.value;
        assert routes[i + 1].dst != routes[0].dst;
      }
    }
  }

  lemma {:induction false} WithoutDistinct(routes: seq<Route>, dst: Prefix, link: nat)
    requires Distinct(routes)
    ensures Distinct(Without(routes, dst, link))
  {
    if routes != [] && !(routes[0].dst == dst && routes[0].link == link) {
      var rest := Without(routes[1..], dst, link);
      WithoutDistinct(routes[1..], dst, link);
      WithoutFinds(routes[1..], dst, link, dst);
      forall i | 0 <= i < |rest| ensures rest[i].dst != routes[0].dst {
        assert rest[i] in routes[1..];
        var j :| 0 <= j < |routes[1..]| && routes[1..][j] == rest[i];
        assert routes[j + 1] == rest[i];
      }
    }
  }

  /** The table after connecting and disconnecting: only the pinned host routes are left over, and a
      /1 route that was on the tunnel link before is gone too. */
  lemma TableAfterTeardown(k: Kernel, hosts: seq<Host>)
    requires k.capable && Distinct(k.routes) && Configure(k, hosts).error.None?
    ensures forall q :: RouteFor(Teardown(Configure(k, hosts).kernel).routes, q) ==
                        if q == LOW_HALF || q == HIGH_HALF then None else After(k, hosts, q)
  {
    TableAfter(k, hosts);
    var k1 := Configure(k, hosts).kernel;
    var link := k.tunnel.value;
    forall q
      ensures RouteFor(Teardown(k1).routes, q) == if q == LOW_HALF || q == HIGH_HALF then None else After(k, hosts, q)
    {
      WithoutFinds(k1.routes, LOW_HALF, link, q);
      WithoutDistinct(k1.routes, LOW_HALF, link);
      WithoutFinds(Without(k1.routes, LOW_HALF, link), HIGH_HALF, link, q);
    }
  }

  /** After teardown an address resolves as it did originally, unless it is an exception host that got
      a new host route, or its route was a /1 on the tunnel link. */
  lemma TeardownRestores(k: Kernel, hosts: seq<Host>, ip: Ip)
    requires k.capable && Distinct(k.routes) && Configure(k, hosts).error.None?
    ensures var now, before := Lookup(Teardown(Configure(k, hosts).kernel).routes, ip), Lookup(k.routes, ip);
            now == before <==> !(Pinned(k.routes, hosts, ip) && RouteFor(k.routes, ip).None?)
                               && !(before.Some? && |before.value.dst| == 1)
  {
    var t := Teardown(Configure(k, hosts).kernel).routes;
    TableAfterTeardown(k, hosts);
    Halves(ip);
    assert RouteFor(t, ip[..32]) == After(k, hosts, ip[..32]);
    if Pinned(k.routes, hosts, ip) && RouteFor(k.routes, ip).None? {
      LongestUpTo(k.routes, ip, 31);
    } else {
      forall n | 2 <= n <= 32 ensures RouteFor(k.routes, ip[..n]) == RouteFor(t, ip[..n]) {
        assert RouteFor(t, ip[..n]) == After(k, hosts, ip[..n]);
      }
      assert RouteFor(t, ip[..0]) == After(k, hosts, ip[..0]) && RouteFor(t, ip[..1]).None?;
      WithoutHalves(k.routes, t, ip);
    }
  }

  /** Dropping the /1 routes changes the lookups that used them and no other. */
  lemma WithoutHalves(t: seq<Route>, t': seq<Route>, ip: Ip)
    requires forall n :: 2 <= n <= 32 ==> RouteFor(t, ip[..n]) == RouteFor(t', ip[..n])
    requires RouteFor(t', ip[..1]).None? && RouteFor(t', ip[..0]) == RouteFor(t, ip[..0])
    ensures Lookup(t', ip) == Lookup(t, ip) <==> !(Lookup(t, ip).Some? && |Lookup(t, ip).value.dst| == 1)
  {
    LookupFromTwo(t, t', ip, 32);
    assert LookupUpTo(t', ip, 1) == RouteFor(t, ip[..0]);
  }

  /** The host routes left behind outlive a change of network: on the next connect an exception host
      still goes through the gateway of the first one. */
  lemma StaleException(k: Kernel, hosts: seq<Host>, ip: Ip, k': Kernel)
    requires k.capable && Distinct(k.routes) && Configure(k, hosts).error.None?
    requires Pinned(k.routes, hosts, ip) && RouteFor(k.routes, ip).None?
    requires RouteFor(k'.routes, ip) == RouteFor(Teardown(Configure(k, hosts).kernel).routes, ip)
    requires k'.capable && Distinct(k'.routes) && Configure(k', hosts).error.None?
    ensures var first := Original(k.routes).value;
            Lookup(Configure(k', hosts).kernel.routes, ip) == Some(Route(ip, first.link, first.gw))
  {
    TableAfterTeardown(k, hosts);
    TableAfter(k', hosts);
    Halves(ip);
    assert RouteFor(Configure(k', hosts).kernel.routes, ip) == After(k', hosts, ip);
  }
}
