/** The VPN route override when it fails, what it leaves behind in every case, and the exception list. */
module TunnelOutcomes {
  import opened Integers
  import opened TunnelRoutes
  import opened TunnelTraffic

  // ---- The exception list --------------------------------------------------------------------

  /** The list after hosts were added one by one. */
  function AddAll(hosts: seq<Option<Host>>): seq<Host> {
    if hosts == [] then [] else AddHost(AddAll(hosts[..|hosts| - 1]), hosts[|hosts| - 1])
  }

  /** The list has exactly the hosts added, each once, and adding never reorders it. */
  lemma {:induction false} ListOfHosts(hosts: seq<Option<Host>>)
    ensures forall h :: h in AddAll(hosts) <==> Some(h) in hosts
    ensures forall i, j :: 0 <= i < j < |AddAll(hosts)| ==> AddAll(hosts)[i] != AddAll(hosts)[j]
    ensures hosts != [] ==> AddAll(hosts[..|hosts| - 1]) <= AddAll(hosts)
  {
    if hosts != [] {
      var rest, last := hosts[..|hosts| - 1], hosts[|hosts| - 1];
      ListOfHosts(rest);
      assert forall h :: Some(h) in hosts <==> Some(h) in rest || Some(h) == last;
    }
  }

  // ---- Errors --------------------------------------------------------------------------------

  ghost predicate PinsAccepted(k: Kernel, hosts: seq<Host>) {
    forall q :: Pinned(k.routes, hosts, q) ==> Accepted(k, q)
  }

  lemma OverrideFails(k: Kernel)
    requires k.capable && Distinct(k.routes) && k.tunnel.Some? && k.up && k.addressed
    ensures Override(k, k.tunnel.value).error ==
            if Accepted(k, LOW_HALF) && Accepted(k, HIGH_HALF) then None else Some(RouteFailed)
  {
    var low := Route(LOW_HALF, k.tunnel.value, None);
    if AddOrFail(k, low).error.None? { AddFills(k, low); }
  }

  lemma PinErrors(k: Kernel, hosts: seq<Host>)
    requires k.capable && Distinct(k.routes)
    ensures PinExceptions(k, hosts).error == if PinsAccepted(k, hosts) then None else Some(RouteFailed)
  {
    PinExceptionsSucceeds(k, hosts);
    PinErrorIsRoute(k, hosts);
  }

  lemma PinErrorIsRoute(k: Kernel, hosts: seq<Host>)
    ensures PinExceptions(k, hosts).error in {None, Some(RouteFailed)}
  {
    var original := Original(k.routes);
    if original.Some? && original.value.gw.Some? {
      PinAllErrorIsRoute(k, hosts, original.value.link, original.value.gw.value);
    }
  }

  lemma {:induction false} PinAllErrorIsRoute(k: Kernel, hosts: seq<Host>, link: nat, gw: Ip)
    ensures PinAll(k, hosts, link, gw).error in {None, Some(RouteFailed)}
  {
    if hosts != [] { PinAllErrorIsRoute(k, hosts[..|hosts| - 1], link, gw); }
  }

  lemma HalvesStay(k: Kernel, hosts: seq<Host>, half: Prefix)
    requires k.capable && Distinct(k.routes) && k.tunnel.Some? && PinExceptions(k, hosts).error.None?
    requires half == LOW_HALF || half == HIGH_HALF
    ensures var k' := PinExceptions(k, hosts).kernel;
            && k'.tunnel == k.tunnel && Accepted(k', half) == Accepted(k, half)
            && FreeForTunnel(k', half) == FreeForTunnel(k, half)
  {
    PinExceptionsFills(k, hosts);
    assert !Pinned(k.routes, hosts, half);
  }

  /** Exactly which error is reported: the link, the address, the flag, a route, or the read-back, in that
      order; the read-back fails only for a half that was already routed to another link. */
  lemma ErrorExactly(k: Kernel, hosts: seq<Host>)
    requires k.capable && Distinct(k.routes)
    ensures Configure(k, hosts).error ==
            if k.tunnel.None? then Some(LinkMissing)
            else if !k.addressed && SetAddr in k.refused then Some(AddrFailed)
            else if SetUp in k.refused then Some(UpFailed)
            else if !PinsAccepted(k, hosts) || !Accepted(k, LOW_HALF) || !Accepted(k, HIGH_HALF)
            then Some(RouteFailed)
            else if !FreeForTunnel(k, LOW_HALF) || !FreeForTunnel(k, HIGH_HALF) then Some(OverrideAbsent)
            else None
  {
    if k.tunnel.Some? && (k.addressed || SetAddr !in k.refused) && SetUp !in k.refused {
      var ready := LinkSetUp(AddrAdd(k).0).0;
      PinErrors(ready, hosts);
      assert PinsAccepted(ready, hosts) == PinsAccepted(k, hosts) by {
        assert forall q :: Accepted(ready, q) == Accepted(k, q);
      }
      if PinExceptions(ready, hosts).error.None? {
        PinExceptionsFills(ready, hosts);
        HalvesStay(ready, hosts, LOW_HALF);
        HalvesStay(ready, hosts, HIGH_HALF);
        var pinned := PinExceptions(ready, hosts).kernel;
        OverrideFails(pinned);
        OverrideSucceeds(pinned);
        if Override(pinned, k.tunnel.value).error.None? { OverrideFills(pinned, k.tunnel.value); }
      }
    }
  }

  /** The same without the capability: the table is only read back, in this order. */
  lemma ReadBackExactly(k: Kernel, hosts: seq<Host>)
    requires !k.capable
    ensures Configure(k, hosts).error ==
            if k.tunnel.None? then Some(LinkMissing)
            else if !k.up then Some(NotUp)
            else if !k.addressed then Some(AddrAbsent)
            else if exists low, high :: low in k.routes && high in k.routes && low.dst == LOW_HALF
                                        && high.dst == HIGH_HALF && low.link == high.link == k.tunnel.value
            then None
            else Some(OverrideAbsent)
  {
    NoEffectWithoutCapability(k, hosts);
    if k.tunnel.Some? {
      OnLinkIs(k.routes, LOW_HALF, k.tunnel.value);
      OnLinkIs(k.routes, HIGH_HALF, k.tunnel.value);
    }
  }

  lemma OnLinkIs(routes: seq<Route>, dst: Prefix, link: nat)
    ensures OnLink(routes, dst, link) <==> exists r :: r in routes && r.dst == dst && r.link == link
  {
    if r :| r in routes && r.dst == dst && r.link == link {
      var i :| 0 <= i < |routes| && routes[i] == r;
    }
  }

  // ---- What is left behind -------------------------------------------------------------------

  /** A route that configuration may add: a half on the tunnel link, or a pinned exception host. */
  predicate OwnRoute(k: Kernel, hosts: seq<Host>, r: Route) {
    || (k.tunnel.Some? && (r == Route(LOW_HALF, k.tunnel.value, None) || r == Route(HIGH_HALF, k.tunnel.value, None)))
    || (Pinned(k.routes, hosts, r.dst)
        && r.link == Original(k.routes).value.link && r.gw == Original(k.routes).value.gw)
  }

  predicate OnlyAdds(k: Kernel, k': Kernel, hosts: seq<Host>) {
    && k'.tunnel == k.tunnel && k'.capable == k.capable && k'.refused == k.refused
    && (k.up ==> k'.up) && (k.addressed ==> k'.addressed) && k.routes <= k'.routes
    && forall i :: |k.routes| <= i < |k'.routes| ==> OwnRoute(k, hosts, k'.routes[i])
  }

  lemma AddStep(k: Kernel, k': Kernel, hosts: seq<Host>, r: Route)
    requires OnlyAdds(k, k', hosts) && OwnRoute(k, hosts, r)
    ensures OnlyAdds(k, AddOrFail(k', r).kernel, hosts)
  {}

  lemma {:induction false} PinAllAdds(k: Kernel, k': Kernel, hosts: seq<Host>, all: seq<Host>, link: nat, gw: Ip)
    requires OnlyAdds(k, k', all) && hosts <= all && Original(k.routes).Some?
    requires Original(k.routes).value.link == link && Original(k.routes).value.gw == Some(gw)
    ensures OnlyAdds(k, PinAll(k', hosts, link, gw).kernel, all)
  {
    if hosts != [] {
      var rest, host := hosts[..|hosts| - 1], hosts[|hosts| - 1];
      PinAllAdds(k, k', rest, all, link, gw);
      if host.V4? {
        assert all[|hosts| - 1] == host && host in all;
        AddStep(k, PinAll(k', rest, link, gw).kernel, all, Route(host.ip, link, Some(gw)));
      }
    }
  }

  lemma PinExceptionsAdds(k: Kernel, k': Kernel, hosts: seq<Host>)
    requires OnlyAdds(k, k', hosts) && k'.routes == k.routes
    ensures OnlyAdds(k, PinExceptions(k', hosts).kernel, hosts)
  {
    var original := Original(k.routes);
    if original.Some? && original.value.gw.Some? {
      PinAllAdds(k, k', hosts, hosts, original.value.link, original.value.gw.value);
    }
  }

  lemma OverrideAdds(k: Kernel, k': Kernel, hosts: seq<Host>, link: nat)
    requires OnlyAdds(k, k', hosts) && k.tunnel == Some(link)
    ensures OnlyAdds(k, Override(k', link).kernel, hosts)
  {
    AddStep(k, k', hosts, Route(LOW_HALF, link, None));
    AddStep(k, AddOrFail(k', Route(LOW_HALF, link, None)).kernel, hosts, Route(HIGH_HALF, link, None));
  }

  /** Whatever fails, configuration removes nothing and adds nothing but its own routes, after those that were
      there; success leaves the link up and addressed. */
  lemma ConfigureOnlyAdds(k: Kernel, hosts: seq<Host>)
    ensures var done := Configure(k, hosts);
            OnlyAdds(k, done.kernel, hosts) && (done.error.None? ==> done.kernel.up && done.kernel.addressed)
  {
    var (k1, addr) := AddrAdd(k);
    if k.tunnel.Some? && addr != Refused {
      var (k2, up) := LinkSetUp(k1);
      PinExceptionsAdds(k, k2, hosts);
      OverrideAdds(k, PinExceptions(k2, hosts).kernel, hosts, k.tunnel.value);
    }
  }

  lemma {:induction false} WithoutIs(routes: seq<Route>, dst: Prefix, link: nat, r: Route)
    requires Distinct(routes)
    ensures r in Without(routes, dst, link) <==> r in routes && !(r.dst == dst && r.link == link)
  {
    if routes != [] {
      if routes[0].dst == dst && routes[0].link == link {
        assert r in routes <==> r == routes[0] || r in routes[1..];
        if r in routes[1..] {
          var i :| 0 <= i < |routes[1..]| && routes[1..][i] == r;
          assert routes[i + 1] == r;
        }
      } else {
        WithoutIs(routes[1..], dst, link, r);
      }
    }
  }

  /** Teardown takes away exactly the two halves on the tunnel link and the address. */
  lemma TeardownExactly(k: Kernel, r: Route)
    requires Distinct(k.routes)
    ensures var k' := Teardown(k);
            if k.tunnel.None? || !k.capable then k' == k
            else
              && k' == k.(routes := k'.routes, addressed := false)
              && (r in k'.routes <==>
                    r in k.routes && !(r.link == k.tunnel.value && (r.dst == LOW_HALF || r.dst == HIGH_HALF)))
  {
    if k.tunnel.Some? && k.capable {
      WithoutIs(k.routes, LOW_HALF, k.tunnel.value, r);
      WithoutDistinct(k.routes, LOW_HALF, k.tunnel.value);
      WithoutIs(Without(k.routes, LOW_HALF, k.tunnel.value), HIGH_HALF, k.tunnel.value, r);
    }
  }
}
