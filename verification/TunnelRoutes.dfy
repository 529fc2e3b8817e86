/** sdks/go/vpn/tunnel_route_linux.go: pinning exception hosts, overriding the default route with two
    /1 routes, reading the result back, and tearing it down. */
module TunnelRoutes {
  import opened Integers

  /** An IPv4 address as its 32 bits, and a destination prefix as the bits it fixes. */
  type Ip = a: seq<bool> | |a| == 32 witness seq(32, i => false)
  type Prefix = p: seq<bool> | |p| <= 32

  const LOW_HALF: Prefix := [false]  // 0.0.0.0/1
  const HIGH_HALF: Prefix := [true]  // 128.0.0.0/1

  predicate IsZero(p: Prefix) { forall i :: 0 <= i < |p| ==> !p[i] }

  datatype Route = Route(dst: Prefix, link: nat, gw: Option<Ip>)

  /** An address given by the caller; IPv4-mapped IPv6 addresses count as V4. */
  datatype Host = V4(ip: Ip) | V6(group: nat)

  datatype Op = SetAddr | SetUp | SetRoute(dst: Prefix)
  datatype Reply = Done | Exists | Refused
  datatype Error = LinkMissing | AddrFailed | UpFailed | RouteFailed | NotUp | AddrAbsent | OverrideAbsent

  /** What netlink sees: the tunnel link if it exists, whether it is up and carries the inner address,
      the main route table in listing order, and the requests the kernel turns down. Without
      CAP_NET_ADMIN (`capable`) requests are answered but have no effect. */
  datatype Kernel = Kernel(tunnel: Option<nat>, capable: bool, up: bool, addressed: bool,
                           routes: seq<Route>, refused: set<Op>)

  // ---- The route table -----------------------------------------------------------------------

  function RouteFor(routes: seq<Route>, dst: Prefix): (r: Option<Route>)
    ensures r.Some? ==> r.value in routes && r.value.dst == dst
    ensures r.None? ==> forall i :: 0 <= i < |routes| ==> routes[i].dst != dst
  {
    if routes == [] then None
    else if routes[0].dst == dst then Some(routes[0])
    else RouteFor(routes[1..], dst)
  }

  predicate Distinct(routes: seq<Route>) {
    forall i, j :: 0 <= i < j < |routes| ==> routes[i].dst != routes[j].dst
  }

  /** Longest-prefix match among prefixes of at most `len` bits. */
  function LookupUpTo(routes: seq<Route>, ip: Ip, len: nat): Option<Route>
    requires len <= 32
  {
    var r := RouteFor(routes, ip[..len]);
    if r.Some? || len == 0 then r else LookupUpTo(routes, ip, len - 1)
  }

  function Lookup(routes: seq<Route>, ip: Ip): Option<Route> { LookupUpTo(routes, ip, 32) }

  /** The answer matches the address, and no longer route does; there is none only if nothing matches. */
  lemma LookupIsLongest(routes: seq<Route>, ip: Ip)
    ensures match Lookup(routes, ip)
            case Some(r) => r in routes && r.dst <= ip && forall s :: s in routes && s.dst <= ip ==> |s.dst| <= |r.dst|
            case None => forall s :: s in routes ==> !(s.dst <= ip)
  {
    LongestUpTo(routes, ip, 32);
  }

  lemma {:induction false} LongestUpTo(routes: seq<Route>, ip: Ip, len: nat)
    requires len <= 32
    ensures match LookupUpTo(routes, ip, len)
            case Some(r) =>
              && r in routes && r.dst <= ip && |r.dst| <= len
              && forall s :: s in routes && s.dst <= ip && |s.dst| <= len ==> |s.dst| <= |r.dst|
            case None => forall s :: s in routes && |s.dst| <= len ==> !(s.dst <= ip)
  {
    if RouteFor(routes, ip[..len]).None? {
      forall s | s in routes && s.dst <= ip ensures |s.dst| != len {
        var i :| 0 <= i < |routes| && routes[i] == s;
        assert s.dst != ip[..len];
      }
      if len > 0 { LongestUpTo(routes, ip, len - 1); }
    }
  }

  // ---- Netlink requests ----------------------------------------------------------------------

  function AddReply(k: Kernel, r: Route): Reply {
    if !k.capable then Done
    else if RouteFor(k.routes, r.dst).Some? then Exists
    else if SetRoute(r.dst) in k.refused then Refused
    else Done
  }

  function RouteAdd(k: Kernel, r: Route): Kernel {
    if k.capable && AddReply(k, r) == Done then k.(routes := k.routes + [r]) else k
  }

  function AddrAdd(k: Kernel): (Kernel, Reply) {
    if !k.capable then (k, Done)
    else if k.addressed then (k, Exists)
    else if SetAddr in k.refused then (k, Refused)
    else (k.(addressed := true), Done)
  }

  function LinkSetUp(k: Kernel): (Kernel, Reply) {
    if !k.capable then (k, Done)
    else if SetUp in k.refused then (k, Refused)
    else (k.(up := true), Done)
  }

  /** Remove the route to `dst` if it is on `link`. */
  function Without(routes: seq<Route>, dst: Prefix, link: nat): seq<Route> {
    if routes == [] then []
    else if routes[0].dst == dst && routes[0].link == link then routes[1..]
    else [routes[0]] + Without(routes[1..], dst, link)
  }

  function RouteDel(k: Kernel, dst: Prefix, link: nat): Kernel {
    if k.capable then k.(routes := Without(k.routes, dst, link)) else k
  }

  // ---- The SDK -------------------------------------------------------------------------------

  function AddHost(hosts: seq<Host>, host: Option<Host>): seq<Host> {
    if host.None? || host.value in hosts then hosts else hosts + [host.value]
  }

  /** `defaultRouteOriginal`: the first route listed whose address is 0.0.0.0, whatever its length. */
  function Original(routes: seq<Route>): (r: Option<Route>)
    ensures r.Some? ==> r.value in routes && IsZero(r.value.dst)
    ensures r.None? ==> forall i :: 0 <= i < |routes| ==> !IsZero(routes[i].dst)
  {
    if routes == [] then None
    else if IsZero(routes[0].dst) then Some(routes[0])
    else Original(routes[1..])
  }

  datatype Outcome = Outcome(kernel: Kernel, error: Option<Error>)

  function AddOrFail(k: Kernel, r: Route): Outcome {
    Outcome(RouteAdd(k, r), if AddReply(k, r) == Refused then Some(RouteFailed) else None)
  }

  /** Pin every IPv4 exception host through the original gateway. */
  function PinAll(k: Kernel, hosts: seq<Host>, link: nat, gw: Ip): Outcome {
    if hosts == [] then Outcome(k, None)
    else
      var done := PinAll(k, hosts[..|hosts| - 1], link, gw);
      match hosts[|hosts| - 1]
      case V6(_) => done
      case V4(ip) => if done.error.Some? then done else AddOrFail(done.kernel, Route(ip, link, Some(gw)))
  }

  function PinExceptions(k: Kernel, hosts: seq<Host>): Outcome {
    match Original(k.routes)
    case None => Outcome(k, None)
    case Some(r) => if r.gw.None? then Outcome(k, None) else PinAll(k, hosts, r.link, r.gw.value)
  }

  function Override(k: Kernel, link: nat): Outcome {
    var low := AddOrFail(k, Route(LOW_HALF, link, None));
    if low.error.Some? then low else AddOrFail(low.kernel, Route(HIGH_HALF, link, None))
  }

  predicate OnLink(routes: seq<Route>, dst: Prefix, link: nat) {
    exists i :: 0 <= i < |routes| && routes[i].dst == dst && routes[i].link == link
  }

  /** `verifyTunnelConfigured` */
  function Verify(k: Kernel): Option<Error> {
    if k.tunnel.None? then Some(LinkMissing)
    else if !k.up then Some(NotUp)
    else if !k.addressed then Some(AddrAbsent)
    else if !OnLink(k.routes, LOW_HALF, k.tunnel.value) || !OnLink(k.routes, HIGH_HALF, k.tunnel.value)
    then Some(OverrideAbsent)
    else None
  }

  /** `configureTunnelInterface`; a failure leaves the requests made so far in place. */
  function Configure(k: Kernel, hosts: seq<Host>): Outcome {
    if k.tunnel.None? then Outcome(k, Some(LinkMissing))
    else
      var (k1, addr) := AddrAdd(k);
      if addr == Refused then Outcome(k1, Some(AddrFailed))
      else
        var (k2, up) := LinkSetUp(k1);
        if up == Refused then Outcome(k2, Some(UpFailed))
        else
          var pinned := PinExceptions(k2, hosts);
          if pinned.error.Some? then pinned
          else
            var done := Override(pinned.kernel, k.tunnel.value);
            if done.error.Some? then done else Outcome(done.kernel, Verify(done.kernel))
  }

  /** `teardownTunnelInterface`: only the two /1 routes and the address go. */
  function Teardown(k: Kernel): Kernel {
    if k.tunnel.None? then k
    else
      var k' := RouteDel(RouteDel(k, LOW_HALF, k.tunnel.value), HIGH_HALF, k.tunnel.value);
      if k.capable then k'.(addressed := false) else k'
  }

  /** The package's global list and the kernel it talks to. */
  class Tunnel {
    var exceptionHosts: seq<Host>
    var kernel: Kernel

    constructor (kernel: Kernel)
      ensures this.kernel == kernel && exceptionHosts == []
    {
      this.kernel, exceptionHosts := kernel, [];
    }

    method AddExceptionHost(host: Option<Host>)
      modifies this`exceptionHosts
      ensures exceptionHosts == AddHost(old(exceptionHosts), host)
    {
      if host.None? { return; }
      for i := 0 to |exceptionHosts|
        invariant exceptionHosts == old(exceptionHosts)
        invariant host.value !in exceptionHosts[..i]
      {
        if exceptionHosts[i] == host.value { return; }
      }
      exceptionHosts := exceptionHosts + [host.value];
    }

    method ResetExceptionHosts()
      modifies this`exceptionHosts
      ensures exceptionHosts == []
    {
      exceptionHosts := [];
    }

    method Add(r: Route) returns (reply: Reply)
      modifies this`kernel
      ensures reply == AddReply(old(kernel), r) && kernel == RouteAdd(old(kernel), r)
    {
      reply := AddReply(kernel, r);
      kernel := RouteAdd(kernel, r);
    }

    method DefaultRouteOriginal() returns (r: Option<Route>)
      ensures r == Original(kernel.routes)
    {
      var routes := kernel.routes;
      for i := 0 to |routes|
        invariant Original(routes) == Original(routes[i..])
      {
        if IsZero(routes[i].dst) { return Some(routes[i]); }
        assert routes[i..][1..] == routes[i + 1..];
      }
      r := None;
    }

    method PinExceptionHosts() returns (error: Option<Error>)
      modifies this`kernel
      ensures Outcome(kernel, error) == PinExceptions(old(kernel), exceptionHosts)
    {
      var original := DefaultRouteOriginal();
      if original.None? || original.value.gw.None? { return None; }
      var link, gw := original.value.link, original.value.gw.value;
      for i := 0 to |exceptionHosts|
        invariant Outcome(kernel, None) == PinAll(old(kernel), exceptionHosts[..i], link, gw)
      {
        PinAllNext(old(kernel), exceptionHosts, i, link, gw);
        if exceptionHosts[i].V4? {
          var reply := Add(Route(exceptionHosts[i].ip, link, Some(gw)));
          if reply == Refused {
            PinAllStops(old(kernel), exceptionHosts, i + 1, link, gw);
            return Some(RouteFailed);
          }
        }
      }
      assert exceptionHosts[..|exceptionHosts|] == exceptionHosts;
      error := None;
    }

    method ConfigureTunnelInterface() returns (error: Option<Error>)
      modifies this`kernel
      ensures Outcome(kernel, error) == Configure(old(kernel), exceptionHosts)
    {
      if kernel.tunnel.None? { return Some(LinkMissing); }
      var link := kernel.tunnel.value;
      var (addressed, addr) := AddrAdd(kernel);
      kernel := addressed;
      if addr == Refused { return Some(AddrFailed); }
      var (raised, up) := LinkSetUp(kernel);
      kernel := raised;
      if up == Refused { return Some(UpFailed); }
      error := PinExceptionHosts();
      if error.Some? { return; }
      var reply := Add(Route(LOW_HALF, link, None));
      if reply == Refused { return Some(RouteFailed); }
      reply := Add(Route(HIGH_HALF, link, None));
      if reply == Refused { return Some(RouteFailed); }
      error := VerifyTunnelConfigured();
    }

    method VerifyTunnelConfigured() returns (error: Option<Error>)
      ensures error == Verify(kernel)
    {
      if kernel.tunnel.None? { return Some(LinkMissing); }
      if !kernel.up { return Some(NotUp); }
      if !kernel.addressed { return Some(AddrAbsent); }
      var routes := kernel.routes;
      var seen: set<Prefix> := {};
      for i := 0 to |routes|
        invariant forall dst :: dst in seen <==> OnLink(routes[..i], dst, kernel.tunnel.value)
      {
        SeenOneMore(routes, i, kernel.tunnel.value);
        if routes[i].link == kernel.tunnel.value { seen := seen + {routes[i].dst}; }
      }
      assert routes[..|routes|] == routes;
      error := if LOW_HALF in seen && HIGH_HALF in seen then None else Some(OverrideAbsent);
    }

    method TeardownTunnelInterface()
      modifies this`kernel
      ensures kernel == Teardown(old(kernel))
    {
      if kernel.tunnel.None? { return; }
      kernel := RouteDel(kernel, LOW_HALF, kernel.tunnel.value);
      kernel := RouteDel(kernel, HIGH_HALF, kernel.tunnel.value);
      if kernel.capable { kernel := kernel.(addressed := false); }
    }
  }

  lemma SeenOneMore(routes: seq<Route>, i: nat, link: nat)
    requires i < |routes|
    ensures forall dst :: OnLink(routes[..i + 1], dst, link) <==>
              OnLink(routes[..i], dst, link) || (routes[i].dst == dst && routes[i].link == link)
  {
    forall dst
      ensures OnLink(routes[..i + 1], dst, link) <==>
              OnLink(routes[..i], dst, link) || (routes[i].dst == dst && routes[i].link == link)
    {
      if OnLink(routes[..i], dst, link) {
        var j :| 0 <= j < i && routes[..i][j].dst == dst && routes[..i][j].link == link;
        assert routes[..i + 1][j] == routes[j];
      }
      if routes[i].dst == dst && routes[i].link == link { assert routes[..i + 1][i] == routes[i]; }
      if OnLink(routes[..i + 1], dst, link) {
        var j :| 0 <= j <= i && routes[..i + 1][j].dst == dst && routes[..i + 1][j].link == link;
        assert j < i ==> routes[..i][j] == routes[j];
      }
    }
  }

  lemma PinAllNext(k: Kernel, hosts: seq<Host>, i: nat, link: nat, gw: Ip)
    requires i < |hosts| && PinAll(k, hosts[..i], link, gw).error.None?
    ensures PinAll(k, hosts[..i + 1], link, gw) ==
            var done := PinAll(k, hosts[..i], link, gw);
            if hosts[i].V6? then done else AddOrFail(done.kernel, Route(hosts[i].ip, link, Some(gw)))
  {
    assert hosts[..i + 1][..i] == hosts[..i];
  }

  /** The first refused host ends the loop. */
  lemma {:induction false} PinAllStops(k: Kernel, hosts: seq<Host>, n: nat, link: nat, gw: Ip)
    requires n <= |hosts| && PinAll(k, hosts[..n], link, gw).error.Some?
    ensures PinAll(k, hosts, link, gw) == PinAll(k, hosts[..n], link, gw)
    decreases |hosts|
  {
    if n == |hosts| {
      assert hosts[..n] == hosts;
    } else {
      assert hosts[..|hosts| - 1][..n] == hosts[..n];
      PinAllStops(k, hosts[..|hosts| - 1], n, link, gw);
    }
  }
}
