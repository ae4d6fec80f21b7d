// The gateway namespace's WireGuard devices and pod routes, and the two things the
// pod-endpoint controller does to them: configure one pod's peer, and remove the
// peers no live PodEndpoint claims.

module WireguardPeers {
  import opened Wrappers
  import opened Names
  import opened Prefixes

  /** A device's peers by public key, with their allowed networks. */
  type Device = map<string, set<Cidr>>

  /** Devices by link name, and the main table's routes by destination. */
  datatype State = State(devices: map<string, Device>, routes: map<Cidr, string>)

  datatype Error = Unavailable | NoSuchLink | Malformed

  // ---------------------------------------------------------------- the kernel

  /** Replaces the peer's networks by one; WireGuard takes that network away from any other peer. */
  function WithPeer(d: Device, key: string, net: Cidr): Device {
    map k | k in d.Keys + {key} :: if k == key then {net} else d[k] - {net}
  }

  /** A network belongs to at most one peer of a device. */
  ghost predicate Disjoint(d: Device) {
    forall k, other :: k in d && other in d && k != other ==> d[k] !! d[other]
  }

  // ---------------------------------------------------------------- the controller's two operations

  function Reconciled(s: State, link: string, key: string, net: Cidr, calls: nat): State {
    if calls == 0 || link !in s.devices then s
    else
      var peered := s.(devices := s.devices[link := WithPeer(s.devices[link], key, net)]);
      if calls == 1 then peered else peered.(routes := peered.routes[net := link])
  }

  function Dead(d: Device, claimed: set<string>): set<string> {
    d.Keys - claimed
  }

  /** Addresses of the networks the dead peers were allowed; prefix lengths are forgotten here. */
  function DeadAddresses(d: Device, claimed: set<string>): set<Address> {
    set k, net | k in Dead(d, claimed) && net in d[k] :: net.base
  }

  function Kept(d: Device, claimed: set<string>): Device {
    d - Dead(d, claimed)
  }

  function RoutesOn(routes: map<Cidr, string>, link: string): set<Cidr> {
    set dst | dst in routes && routes[dst] == link
  }

  function RoutesTo(routes: map<Cidr, string>, link: string, addresses: set<Address>): set<Cidr> {
    set dst | dst in routes && routes[dst] == link && dst.base in addresses
  }

  /** All doomed routes are gone and that many calls used, or as many are gone as there were calls. */
  ghost predicate RoutesDeleted(routes: map<Cidr, string>, next: map<Cidr, string>, doomed: set<Cidr>, calls: nat, ok: bool, left: nat) {
    Shrinks(routes, next) && routes.Keys - next.Keys <= doomed &&
    if Size(doomed) <= calls then ok && left == calls - Size(doomed) && routes.Keys - next.Keys == doomed
    else !ok && left == 0 && Size(routes.Keys - next.Keys) == calls
  }

  function Doomed(s: State, link: string, claimed: set<string>): set<Cidr> {
    if link !in s.devices then {}
    else RoutesTo(s.routes, link, DeadAddresses(s.devices[link], claimed))
  }

  function Cleaned(s: State, link: string, claimed: set<string>): State {
    if link !in s.devices then s
    else State(s.devices[link := Kept(s.devices[link], claimed)], s.routes - Doomed(s, link, claimed))
  }

  /** `calls` kernel calls carry a link's cleanup through: reading the device, each doomed route, and the peers. */
  predicate Enough(s: State, link: string, claimed: set<string>, calls: nat) {
    calls > 0 && link in s.devices && (Dead(s.devices[link], claimed) == {} || calls - 1 > Size(Doomed(s, link, claimed)))
  }

  /** The number of routes in a set; spelled out only where counting matters. */
  function Size(routes: set<Cidr>): nat {
    |routes|
  }

  /** Some routes are gone and the others are as they were. */
  ghost predicate Shrinks(routes: map<Cidr, string>, next: map<Cidr, string>) {
    next.Keys <= routes.Keys && forall dst :: dst in next ==> next[dst] == routes[dst]
  }

  /** The routes one state has and the next has not. */
  function Lost(s: State, next: State): set<Cidr> {
    s.routes.Keys - next.routes.Keys
  }

  /** Stopped before the peers were removed: as many doomed routes are gone as calls were left, nothing else. */
  ghost predicate Interrupted(s: State, next: State, link: string, claimed: set<string>, calls: nat) {
    next.devices == s.devices && Shrinks(s.routes, next.routes) && Lost(s, next) <= Doomed(s, link, claimed) &&
    Size(Lost(s, next)) == if calls == 0 || link !in s.devices then 0 else calls - 1
  }

  // ---------------------------------------------------------------- which peers are claimed

  datatype Gateway = Gateway(namespace: string, name: string, link: string, onNode: bool, deleting: bool)
  datatype Endpoint = Endpoint(namespace: string, gateway: string, publicKey: string)

  function Id(namespace: string, name: string): string {
    Fold(namespace + "/" + name)
  }

  predicate Serves(g: Gateway) {
    g.onNode && !g.deleting
  }

  /** The link of the last listed gateway with this identity that serves the node. */
  function LinkOf(gs: seq<Gateway>, id: string): Option<string> {
    if gs == [] then None
    else
      var g := gs[|gs| - 1];
      if Serves(g) && Id(g.namespace, g.name) == id then Some(g.link) else LinkOf(gs[..|gs| - 1], id)
  }

  /** The keys of the listed endpoints that belong to the gateway of this link. */
  function Claimed(gs: seq<Gateway>, es: seq<Endpoint>, link: string): set<string> {
    set i | 0 <= i < |es| && LinkOf(gs, Id(es[i].namespace, es[i].gateway)) == Some(link) :: es[i].publicKey
  }

  /** Some listed gateway that serves the node owns the link, so a cleanup visits it. */
  ghost predicate Visited(gs: seq<Gateway>, link: string) {
    exists id :: LinkOf(gs, id) == Some(link)
  }

  function Lookup(m: map<string, set<string>>, link: string): set<string> {
    if link in m then m[link] else {}
  }

  ghost predicate Built(gs: seq<Gateway>, es: seq<Endpoint>, claims: map<string, set<string>>) {
    forall link :: Lookup(claims, link) == Claimed(gs, es, link)
  }

  method GatewayLinks(gs: seq<Gateway>) returns (links: map<string, string>)
    ensures forall id :: (id in links <==> LinkOf(gs, id).Some?) && (id in links ==> LinkOf(gs, id) == Some(links[id]))
  {
    links := map[];
    var n := 0;
    while n < |gs|
      invariant 0 <= n <= |gs|
      invariant forall id :: (id in links <==> LinkOf(gs[..n], id).Some?) && (id in links ==> LinkOf(gs[..n], id) == Some(links[id]))
    {
      assert gs[..n + 1][..n] == gs[..n];
      if gs[n].onNode && !gs[n].deleting {
        links := links[Id(gs[n].namespace, gs[n].name) := gs[n].link];
      }
      n := n + 1;
    }
    assert gs[..n] == gs;
  }

  /** Both maps of a cleanup: the links to clean, and per link the keys that stay. */
  method BuildClaims(gs: seq<Gateway>, es: seq<Endpoint>) returns (links: set<string>, claims: map<string, set<string>>)
    ensures forall link :: link in links <==> Visited(gs, link)
    ensures Built(gs, es, claims)
    ensures AllPlain(gs, es) ==> forall link :: link in links <==> Owned(gs, link)
    ensures AllPlain(gs, es) ==> forall link, key :: key in Lookup(claims, link) <==> ClaimedBy(gs, es, link, key)
  {
    hide AllPlain, ClaimedBy, Owned;
    var byId := GatewayLinks(gs);
    links := byId.Values;
    claims := map[];
    var n := 0;
    while n < |es|
      invariant 0 <= n <= |es| && Built(gs, es[..n], claims)
    {
      ghost var before := claims;
      var id := Id(es[n].namespace, es[n].gateway);
      if id in byId {
        var link := byId[id];
        if link !in claims {
          claims := claims[link := {}];
        }
        claims := claims[link := claims[link] + {es[n].publicKey}];
      }
      forall link
        ensures Lookup(claims, link) == Claimed(gs, es[..n + 1], link)
      {
        ClaimedSnoc(gs, es, n, link);
        assert Lookup(before, link) == Claimed(gs, es[..n], link);
      }
      n := n + 1;
    }
    assert es[..n] == es;
    forall link | AllPlain(gs, es)
      ensures (link in links <==> Owned(gs, link)) && forall key :: key in Lookup(claims, link) <==> ClaimedBy(gs, es, link, key)
    {
      ClaimedExactly(gs, es, link);
    }
  }

  lemma ClaimedSnoc(gs: seq<Gateway>, es: seq<Endpoint>, n: nat, link: string)
    requires n < |es|
    ensures Claimed(gs, es[..n + 1], link) == Claimed(gs, es[..n], link) +
              if LinkOf(gs, Id(es[n].namespace, es[n].gateway)) == Some(link) then {es[n].publicKey} else {}
  {
    hide LinkOf, Id;
    var before, after := es[..n], es[..n + 1];
    assert after[n] == es[n] && forall i :: 0 <= i < n ==> after[i] == before[i];
    forall key | key in Claimed(gs, before, link)
      ensures key in Claimed(gs, after, link)
    {
      var i :| 0 <= i < |before| && LinkOf(gs, Id(before[i].namespace, before[i].gateway)) == Some(link) && key == before[i].publicKey;
      assert after[i].publicKey == key;
    }
  }

  class GatewayNamespace {
    var devices: map<string, Device>
    var routes: map<Cidr, string>

    ghost function Now(): State
      reads this
    {
      State(devices, routes)
    }

    /** `cidr` is the endpoint's parsed address, if its key and address parse; `calls` kernel calls then succeed. */
    method ReconcilePeer(link: string, key: string, cidr: Option<Cidr>, calls: nat) returns (r: Result<(), Error>)
      modifies this
      ensures cidr.None? ==> Now() == old(Now()) && r.Err?
      ensures cidr.Some? ==> Now() == Reconciled(old(Now()), link, key, Network(cidr.value), calls)
      ensures r.Ok? <==> cidr.Some? && calls >= 2 && link in old(devices)
    {
      if cidr.None? {
        return Err(Malformed);
      }
      var net := Network(cidr.value);
      if calls == 0 {
        return Err(Unavailable);
      }
      if link !in devices {
        return Err(NoSuchLink);
      }
      devices := devices[link := WithPeer(devices[link], key, net)];
      if calls == 1 {
        return Err(Unavailable);
      }
      routes := routes[net := link];
      return Ok(());
    }

    /** Deletes the link's routes to the addresses one by one; says how many calls are left. */
    method DeleteRoutes(link: string, addresses: set<Address>, calls: nat) returns (ok: bool, left: nat)
      modifies `routes
      ensures RoutesDeleted(old(routes), routes, RoutesTo(old(routes), link, addresses), calls, ok, left)
    {
      hide *;
      ghost var start := routes;
      ghost var doomed := RoutesTo(routes, link, addresses);
      var used := 0;
      var listed := RoutesOn(routes, link);
      NothingYet(routes, link, addresses);
      while listed != {}
        invariant used == Size(doomed - listed) <= calls && Midway(start, routes, doomed, listed, addresses)
        decreases |listed|
      {
        var dst :| dst in listed;
        NextRoute(start, routes, doomed, listed, addresses, dst);
        if dst.base in addresses {
          if used == calls {
            Stopped(start, routes, doomed, listed, addresses, calls);
            return false, 0;
          }
          used := used + 1;
          routes := routes - {dst};
        }
        listed := listed - {dst};
      }
      Completed(start, routes, doomed, listed, addresses, calls);
      return true, calls - used;
    }

    method FindDead(d: Device, claimed: set<string>) returns (dead: set<string>, addresses: set<Address>)
      ensures dead == Dead(d, claimed) && addresses == DeadAddresses(d, claimed)
    {
      dead, addresses := {}, {};
      var todo := d.Keys;
      while todo != {}
        invariant todo <= d.Keys
        invariant dead == Dead(d, claimed) - todo
        invariant addresses == set k, net | k in dead && net in d[k] :: net.base
        decreases |todo|
      {
        var k :| k in todo;
        if k !in claimed {
          dead := dead + {k};
          addresses := addresses + set net | net in d[k] :: net.base;
        }
        todo := todo - {k};
      }
    }

    /** Removes the unclaimed peers of a link: their routes first, then the peers. */
    method CleanUpWgLink(link: string, claims: map<string, set<string>>, calls: nat) returns (removed: Option<set<string>>)
      modifies this
      ensures removed.Some? <==> Enough(old(Now()), link, Lookup(claims, link), calls)
      ensures removed.Some? ==>
                Now() == Cleaned(old(Now()), link, Lookup(claims, link)) && removed.value == Dead(old(devices)[link], Lookup(claims, link))
      ensures removed.None? ==> Interrupted(old(Now()), Now(), link, Lookup(claims, link), calls)
    {
      hide DeadAddresses, Lookup, RoutesTo, Size;
      if calls == 0 || link !in devices {
        NothingLost(Now(), link, Lookup(claims, link), calls);
        return None;
      }
      var claimed := Lookup(claims, link);
      var d := devices[link];
      ghost var start := Now();
      var dead, addresses := FindDead(d, claimed);
      if dead == {} {
        NoneDead(Now(), link, claimed);
      } else {
        var ok, left := DeleteRoutes(link, addresses, calls - 1);
        assert Lost(start, Now()) == start.routes.Keys - routes.Keys;
        if !ok || left == 0 {
          return None;
        }
        assert routes == start.routes - Doomed(start, link, claimed);
        devices := devices[link := d - dead];
      }
      return Some(dead);
    }

    /** Cleans every link; one that fails does not keep the others from being cleaned. */
    method CleanUpLinks(links: set<string>, claims: map<string, set<string>>, calls: map<string, nat>) returns (removed: set<string>)
      modifies this
      ensures CleanedAll(old(Now()), Now(), links, claims, calls, removed)
    {
      hide Lookup, Budget, Cleaned, Interrupted, CleanedAll, Dead, Enough;
      removed := {};
      ghost var start := Now();
      var todo := links;
      CleanedNone(start, claims, calls);
      assert links - todo == {};
      while todo != {}
        invariant todo <= links && CleanedAll(start, Now(), links - todo, claims, calls, removed)
        decreases |todo|
      {
        ghost var before := Now();
        var link :| link in todo;
        var result := CleanUpWgLink(link, claims, Budget(calls, link));
        if result.Some? {
          OneCleaned(start, before, links - todo, claims, calls, link, removed);
          removed := removed + result.value;
        } else {
          OneInterrupted(start, before, Now(), links - todo, claims, calls, link, removed);
        }
        assert links - (todo - {link}) == links - todo + {link};
        todo := todo - {link};
      }
      assert links - todo == links;
    }

    /** A cleanup from one listing of gateways and endpoints, if they can be listed; returns the keys removed. */
    method CleanUp(listed: bool, gs: seq<Gateway>, es: seq<Endpoint>, calls: map<string, nat>) returns (removed: Option<set<string>>)
      modifies this
      ensures removed.Some? <==> listed
      ensures !listed ==> Now() == old(Now())
      ensures listed ==> CleanStep(old(Now()), Now(), gs, es, calls, removed.value)
    {
      hide CleanedAll;
      if !listed {
        return None;
      }
      var links, claims := BuildClaims(gs, es);
      var keys := CleanUpLinks(links, claims, calls);
      return Some(keys);
    }
  }

  // ---------------------------------------------------------------- what a whole cleanup may do

  ghost predicate Gone(s: State, next: State, link: string, key: string) {
    link in s.devices && key in s.devices[link] && link in next.devices && key !in next.devices[link]
  }

  function Budget(calls: map<string, nat>, link: string): nat {
    if link in calls then calls[link] else 0
  }

  /** With enough calls the link loses exactly its unclaimed peers and their routes; otherwise no peer, and routes as far as calls go. */
  ghost predicate LinkCleaned(s: State, next: State, link: string, claimed: set<string>, calls: nat)
    requires link in s.devices && link in next.devices
  {
    if Enough(s, link, claimed, calls)
    then next.devices[link] == Kept(s.devices[link], claimed) && Doomed(s, link, claimed) !! next.routes.Keys
    else next.devices[link] == s.devices[link] &&
         Size(Doomed(s, link, claimed) - next.routes.Keys) == if calls == 0 then 0 else calls - 1
  }

  ghost predicate OnlyDoomed(s: State, next: State, links: set<string>, claims: map<string, set<string>>) {
    forall dst :: dst in Lost(s, next) ==> s.routes[dst] in links && dst in Doomed(s, s.routes[dst], Lookup(claims, s.routes[dst]))
  }

  /** Every link is cleaned as far as its calls go; others lose nothing, and nothing is added. */
  ghost predicate CleanedLinks(s: State, next: State, links: set<string>, claims: map<string, set<string>>, calls: map<string, nat>) {
    next.devices.Keys == s.devices.Keys && Shrinks(s.routes, next.routes) && OnlyDoomed(s, next, links, claims) &&
    (forall link :: link in s.devices && link in links ==> LinkCleaned(s, next, link, Lookup(claims, link), Budget(calls, link))) &&
    (forall link :: link in s.devices && link !in links ==> next.devices[link] == s.devices[link])
  }

  /** `removed` names exactly the peers that went. */
  ghost predicate Reports(s: State, next: State, removed: set<string>) {
    forall key :: key in removed <==> exists link :: Gone(s, next, link, key)
  }

  ghost predicate CleanedAll(s: State, next: State, links: set<string>, claims: map<string, set<string>>, calls: map<string, nat>, removed: set<string>) {
    CleanedLinks(s, next, links, claims, calls) && Reports(s, next, removed)
  }

  ghost predicate ExactlyVisited(gs: seq<Gateway>, links: set<string>) {
    forall link :: link in links <==> Visited(gs, link)
  }

  ghost predicate CleanStep(s: State, next: State, gs: seq<Gateway>, es: seq<Endpoint>, calls: map<string, nat>, removed: set<string>) {
    exists links, claims :: CleanedAll(s, next, links, claims, calls, removed) && Built(gs, es, claims) && ExactlyVisited(gs, links)
  }

  lemma CleanedNone(s: State, claims: map<string, set<string>>, calls: map<string, nat>)
    ensures CleanedAll(s, s, {}, claims, calls, {})
  {
    hide Size;
  }

  /** A link not yet cleaned has the device and routes it started with. */
  lemma SameDoomed(s: State, mid: State, links: set<string>, claims: map<string, set<string>>, calls: map<string, nat>, link: string)
    requires CleanedLinks(s, mid, links, claims, calls) && link !in links
    ensures link in s.devices <==> link in mid.devices
    ensures link in s.devices ==> mid.devices[link] == s.devices[link]
    ensures Doomed(mid, link, Lookup(claims, link)) == Doomed(s, link, Lookup(claims, link))
  {
    hide LinkCleaned, DeadAddresses, Lookup, Size;
  }

  /** One link's step, seen from where the cleanup started. */
  ghost predicate Stepped(mid: State, next: State, link: string, claimed: set<string>) {
    next.devices.Keys == mid.devices.Keys && (forall l :: l in mid.devices && l != link ==> next.devices[l] == mid.devices[l]) &&
    Shrinks(mid.routes, next.routes) && Lost(mid, next) <= Doomed(mid, link, claimed)
  }

  lemma OtherCleaned(s: State, mid: State, next: State, l: string, claimed: set<string>, calls: nat)
    requires l in s.devices && l in mid.devices && l in next.devices && LinkCleaned(s, mid, l, claimed, calls)
    requires next.devices[l] == mid.devices[l] && forall dst :: dst in Doomed(s, l, claimed) ==> (dst in next.routes <==> dst in mid.routes)
    ensures LinkCleaned(s, next, l, claimed, calls)
  {
    hide Doomed, Enough, Size;
    assert Doomed(s, l, claimed) - next.routes.Keys == Doomed(s, l, claimed) - mid.routes.Keys;
  }

  lemma OneMore(s: State, mid: State, next: State, links: set<string>, claims: map<string, set<string>>, calls: map<string, nat>, link: string)
    requires CleanedLinks(s, mid, links, claims, calls) && link !in links && Stepped(mid, next, link, Lookup(claims, link))
    requires link in s.devices ==> link in next.devices && LinkCleaned(s, next, link, Lookup(claims, link), Budget(calls, link))
    ensures CleanedLinks(s, next, links + {link}, claims, calls)
  {
    hide Lookup, LinkCleaned, Budget, Doomed, OnlyDoomed;
    SameDoomed(s, mid, links, claims, calls, link);
    DoomedOnLink(s, link, Lookup(claims, link));
    MoreDoomed(s, mid, next, links, claims, link);
    forall l | l in s.devices && l in links
      ensures LinkCleaned(s, next, l, Lookup(claims, l), Budget(calls, l))
    {
      DoomedOnLink(s, l, Lookup(claims, l));
      OtherCleaned(s, mid, next, l, Lookup(claims, l), Budget(calls, l));
    }
  }

  lemma MoreDoomed(s: State, mid: State, next: State, links: set<string>, claims: map<string, set<string>>, link: string)
    requires OnlyDoomed(s, mid, links, claims) && Shrinks(s.routes, mid.routes) && Shrinks(mid.routes, next.routes)
    requires forall dst :: dst in Lost(mid, next) ==> s.routes[dst] == link && dst in Doomed(s, link, Lookup(claims, link))
    ensures OnlyDoomed(s, next, links + {link}, claims)
  {
    hide Doomed, Lookup;
    assert Lost(s, next) == Lost(s, mid) + Lost(mid, next);
  }

  lemma OneCleaned(s: State, mid: State, links: set<string>, claims: map<string, set<string>>, calls: map<string, nat>, link: string,
                   removed: set<string>)
    requires CleanedAll(s, mid, links, claims, calls, removed) && link !in links && Enough(mid, link, Lookup(claims, link), Budget(calls, link))
    ensures CleanedAll(s, Cleaned(mid, link, Lookup(claims, link)), links + {link}, claims, calls,
                       removed + Dead(mid.devices[link], Lookup(claims, link)))
  {
    hide CleanedLinks, Lookup, Budget, Doomed, Reports, Cleaned, LinkCleaned, Stepped;
    var claimed := Lookup(claims, link);
    var next := Cleaned(mid, link, claimed);
    SameDoomed(s, mid, links, claims, calls, link);
    CleanedHere(s, mid, link, claimed, Budget(calls, link));
    CleanedSteps(mid, link, claimed);
    OneMore(s, mid, next, links, claims, calls, link);
    ReportsMore(s, mid, link, claimed, removed);
  }

  lemma CleanedHere(s: State, mid: State, link: string, claimed: set<string>, calls: nat)
    requires link in s.devices && link in mid.devices && mid.devices[link] == s.devices[link]
    requires Doomed(mid, link, claimed) == Doomed(s, link, claimed) && Enough(mid, link, claimed, calls)
    ensures link in Cleaned(mid, link, claimed).devices && LinkCleaned(s, Cleaned(mid, link, claimed), link, claimed, calls)
  {
    hide Size;
    assert Enough(s, link, claimed, calls);
    hide Enough, Doomed, Size;
  }

  lemma CleanedSteps(mid: State, link: string, claimed: set<string>)
    requires link in mid.devices
    ensures Stepped(mid, Cleaned(mid, link, claimed), link, claimed)
  {
    DoomedOnLink(mid, link, claimed);
    hide Doomed;
    var doomed := Doomed(mid, link, claimed);
    assert mid.routes.Keys - (mid.routes - doomed).Keys == doomed;
  }

  lemma ReportsMore(s: State, mid: State, link: string, claimed: set<string>, removed: set<string>)
    requires Reports(s, mid, removed) && link in mid.devices && link in s.devices && mid.devices[link] == s.devices[link]
    ensures Reports(s, Cleaned(mid, link, claimed), removed + Dead(mid.devices[link], claimed))
  {
    hide Doomed;
    var next := Cleaned(mid, link, claimed);
    forall l, key
      ensures Gone(s, next, l, key) <==> Gone(s, mid, l, key) || (l == link && key in Dead(mid.devices[link], claimed))
    {
    }
    forall key | key in Dead(mid.devices[link], claimed)
      ensures exists l :: Gone(s, next, l, key)
    {
      assert Gone(s, next, link, key);
    }
  }

  lemma OneInterrupted(s: State, mid: State, next: State, links: set<string>, claims: map<string, set<string>>, calls: map<string, nat>, link: string,
                       removed: set<string>)
    requires CleanedAll(s, mid, links, claims, calls, removed) && link !in links && !Enough(mid, link, Lookup(claims, link), Budget(calls, link))
    requires Interrupted(mid, next, link, Lookup(claims, link), Budget(calls, link))
    ensures CleanedAll(s, next, links + {link}, claims, calls, removed)
  {
    hide CleanedLinks, Lookup, Budget, Doomed, Dead, Kept, Size;
    var claimed := Lookup(claims, link);
    SameDoomed(s, mid, links, claims, calls, link);
    if link in s.devices {
      DoomedOnLink(mid, link, claimed);
      assert Doomed(s, link, claimed) - next.routes.Keys == Lost(mid, next);
    }
    OneMore(s, mid, next, links, claims, calls, link);
    forall l, key
      ensures Gone(s, next, l, key) <==> Gone(s, mid, l, key)
    {
    }
  }

  lemma DoomedOnLink(s: State, link: string, claimed: set<string>)
    ensures forall dst :: dst in Doomed(s, link, claimed) ==> dst in s.routes && s.routes[dst] == link
  {
  }

  lemma NothingLost(s: State, link: string, claimed: set<string>, calls: nat)
    requires calls == 0 || link !in s.devices
    ensures Interrupted(s, s, link, claimed, calls)
  {
    assert Lost(s, s) == {};
  }

  lemma NoneDead(s: State, link: string, claimed: set<string>)
    requires link in s.devices && Dead(s.devices[link], claimed) == {}
    ensures Cleaned(s, link, claimed) == s
  {
    assert Doomed(s, link, claimed) == {};
    assert Kept(s.devices[link], claimed) == s.devices[link];
    assert s.routes - {} == s.routes;
  }

  /** With `listed` still to look at, the doomed routes seen so far are gone. */
  ghost predicate Midway(start: map<Cidr, string>, routes: map<Cidr, string>, doomed: set<Cidr>, listed: set<Cidr>, addresses: set<Address>) {
    routes == start - (doomed - listed) && doomed <= start.Keys && forall dst :: dst in listed ==> (dst in doomed <==> dst.base in addresses)
  }

  lemma NothingYet(routes: map<Cidr, string>, link: string, addresses: set<Address>)
    ensures Size(RoutesTo(routes, link, addresses) - RoutesOn(routes, link)) == 0
    ensures Midway(routes, routes, RoutesTo(routes, link, addresses), RoutesOn(routes, link), addresses)
  {
    assert RoutesTo(routes, link, addresses) - RoutesOn(routes, link) == {};
  }

  lemma OneMoreGone(gone: set<Cidr>, doomed: set<Cidr>, dst: Cidr)
    requires gone <= doomed && dst in doomed && dst !in gone
    ensures Size(gone + {dst}) == Size(gone) + 1 <= Size(doomed)
  {
    Smaller(gone + {dst}, doomed);
  }

  lemma NextRoute(start: map<Cidr, string>, routes: map<Cidr, string>, doomed: set<Cidr>, listed: set<Cidr>, addresses: set<Address>, dst: Cidr)
    requires Midway(start, routes, doomed, listed, addresses) && dst in listed
    ensures if dst.base in addresses
            then Midway(start, routes - {dst}, doomed, listed - {dst}, addresses) &&
                 Size(doomed - (listed - {dst})) == Size(doomed - listed) + 1 <= Size(doomed)
            else Midway(start, routes, doomed, listed - {dst}, addresses) && Size(doomed - (listed - {dst})) == Size(doomed - listed)
  {
    hide Size;
    if dst in doomed {
      assert doomed - (listed - {dst}) == (doomed - listed) + {dst};
      assert start - (doomed - listed) - {dst} == start - ((doomed - listed) + {dst});
      OneMoreGone(doomed - listed, doomed, dst);
    } else {
      assert doomed - (listed - {dst}) == doomed - listed;
    }
  }

  lemma Completed(start: map<Cidr, string>, routes: map<Cidr, string>, doomed: set<Cidr>, listed: set<Cidr>, addresses: set<Address>, calls: nat)
    requires Midway(start, routes, doomed, listed, addresses) && listed == {} && Size(doomed - listed) <= calls
    ensures RoutesDeleted(start, routes, doomed, calls, true, calls - Size(doomed - listed))
  {
    hide Size;
    assert doomed - listed == doomed;
    assert start.Keys - routes.Keys == doomed;
  }

  lemma Stopped(start: map<Cidr, string>, routes: map<Cidr, string>, doomed: set<Cidr>, listed: set<Cidr>, addresses: set<Address>, calls: nat)
    requires Midway(start, routes, doomed, listed, addresses) && Size(doomed - listed) == calls < Size(doomed)
    ensures RoutesDeleted(start, routes, doomed, calls, false, 0)
  {
    hide Size;
    assert start.Keys - routes.Keys == doomed - listed;
  }

  lemma {:induction false} Smaller<T>(a: set<T>, b: set<T>)
    requires a <= b
    ensures |a| <= |b|
  {
    if a != {} {
      var x :| x in a;
      Smaller(a - {x}, b - {x});
    }
  }

  // ---------------------------------------------------------------- what a cleanup is for

  /** Kubernetes namespaces and names hold no slash. */
  ghost predicate Plain(s: string) {
    '/' !in s
  }

  ghost predicate AllPlain(gs: seq<Gateway>, es: seq<Endpoint>) {
    (forall i :: 0 <= i < |gs| ==> Plain(gs[i].namespace) && Plain(gs[i].name)) &&
    (forall i :: 0 <= i < |es| ==> Plain(es[i].namespace) && Plain(es[i].gateway))
  }

  ghost predicate Is(g: Gateway, namespace: string, name: string) {
    Serves(g) && EqualFold(g.namespace, namespace) && EqualFold(g.name, name)
  }

  /** Of the gateways serving the node, the last listed of that namespace and name; it has this link. */
  ghost predicate LastOf(gs: seq<Gateway>, i: int, namespace: string, name: string, link: string) {
    0 <= i < |gs| && Is(gs[i], namespace, name) && gs[i].link == link && forall j :: i < j < |gs| ==> !Is(gs[j], namespace, name)
  }

  /** A listed endpoint with this key belongs, by namespace and name, to the gateway of this link. */
  ghost predicate ClaimedBy(gs: seq<Gateway>, es: seq<Endpoint>, link: string, key: string) {
    exists n, i :: 0 <= n < |es| && es[n].publicKey == key && LastOf(gs, i, es[n].namespace, es[n].gateway, link)
  }

  ghost predicate Owned(gs: seq<Gateway>, link: string) {
    exists i :: 0 <= i < |gs| && LastOf(gs, i, gs[i].namespace, gs[i].name, link)
  }

  lemma IdSplits(a: string, b: string, c: string, d: string)
    requires Plain(a) && Plain(b) && Plain(c) && Plain(d)
    ensures Id(a, b) == Id(c, d) <==> EqualFold(a, c) && EqualFold(b, d)
  {
    FoldAppend(a + "/", b);
    FoldAppend(c + "/", d);
    FoldAppend(a, "/");
    FoldAppend(c, "/");
    if Id(a, b) == Id(c, d) {
      assert Id(a, b)[|a|] == '/' && Id(c, d)[|c|] == '/';
      FoldPlain(a + "/" + b, |a|);
      FoldPlain(c + "/" + d, |c|);
      assert Fold(a) == Id(a, b)[..|a|] && Fold(b) == Id(a, b)[|a| + 1..];
      assert Fold(c) == Id(c, d)[..|c|] && Fold(d) == Id(c, d)[|c| + 1..];
    }
  }

  /** Folding keeps the one slash where it is. */
  lemma FoldPlain(s: string, n: nat)
    requires n < |s| && forall i :: 0 <= i < |s| && s[i] == '/' ==> i == n
    ensures forall i :: 0 <= i < |s| && Fold(s)[i] == '/' ==> i == n
  {
  }

  lemma {:induction false} LinkOfExactly(gs: seq<Gateway>, namespace: string, name: string, link: string)
    requires AllPlain(gs, []) && Plain(namespace) && Plain(name)
    ensures LinkOf(gs, Id(namespace, name)) == Some(link) <==> exists i :: LastOf(gs, i, namespace, name, link)
  {
    hide Id, Plain, Is;
    if gs != [] {
      var init, last := gs[..|gs| - 1], gs[|gs| - 1];
      IsExactly(last, namespace, name);
      LinkOfExactly(init, namespace, name, link);
      if Is(last, namespace, name) {
        assert last.link == link ==> LastOf(gs, |gs| - 1, namespace, name, link);
      } else {
        assert forall i :: LastOf(gs, i, namespace, name, link) <==> LastOf(init, i, namespace, name, link);
      }
    }
  }

  lemma IsExactly(g: Gateway, namespace: string, name: string)
    requires Plain(g.namespace) && Plain(g.name) && Plain(namespace) && Plain(name)
    ensures Is(g, namespace, name) <==> Serves(g) && Id(g.namespace, g.name) == Id(namespace, name)
  {
    hide Id, Plain, Fold;
    IdSplits(g.namespace, g.name, namespace, name);
  }

  /** Keys are claimed, and links visited, by namespace and name. */
  lemma ClaimedExactly(gs: seq<Gateway>, es: seq<Endpoint>, link: string)
    requires AllPlain(gs, es)
    ensures forall key :: key in Claimed(gs, es, link) <==> ClaimedBy(gs, es, link, key)
    ensures Visited(gs, link) <==> Owned(gs, link)
  {
    hide LinkOf, Id, Plain, LastOf;
    forall n | 0 <= n < |es|
      ensures LinkOf(gs, Id(es[n].namespace, es[n].gateway)) == Some(link) <==>
              exists i :: LastOf(gs, i, es[n].namespace, es[n].gateway, link)
    {
      LinkOfExactly(gs, es[n].namespace, es[n].gateway, link);
    }
    VisitedExactly(gs, link);
  }

  lemma VisitedExactly(gs: seq<Gateway>, link: string)
    requires AllPlain(gs, [])
    ensures Visited(gs, link) <==> Owned(gs, link)
  {
    hide LinkOf, Id, Plain, LastOf;
    if id :| LinkOf(gs, id) == Some(link) {
      var i := LinkOfListed(gs, id);
      LinkOfExactly(gs, gs[i].namespace, gs[i].name, link);
      var k :| LastOf(gs, k, gs[i].namespace, gs[i].name, link);
      LastOfSelf(gs, k, gs[i].namespace, gs[i].name, link);
    }
    if i :| 0 <= i < |gs| && LastOf(gs, i, gs[i].namespace, gs[i].name, link) {
      LinkOfExactly(gs, gs[i].namespace, gs[i].name, link);
    }
  }

  lemma LastOfSelf(gs: seq<Gateway>, k: int, namespace: string, name: string, link: string)
    requires LastOf(gs, k, namespace, name, link)
    ensures 0 <= k < |gs| && LastOf(gs, k, gs[k].namespace, gs[k].name, link)
  {
    hide Fold;
  }

  lemma {:induction false} LinkOfListed(gs: seq<Gateway>, id: string) returns (i: nat)
    requires LinkOf(gs, id).Some?
    ensures i < |gs| && Id(gs[i].namespace, gs[i].name) == id && gs[i].link == LinkOf(gs, id).value
  {
    var g := gs[|gs| - 1];
    if Serves(g) && Id(g.namespace, g.name) == id {
      i := |gs| - 1;
    } else {
      i := LinkOfListed(gs[..|gs| - 1], id);
    }
  }

  /** A serving gateway whose namespace and name no later one has is always visited. */
  lemma OwnNameVisited(gs: seq<Gateway>, i: nat)
    requires AllPlain(gs, []) && i < |gs| && Serves(gs[i])
    requires forall j :: i < j < |gs| && Serves(gs[j]) ==> !(EqualFold(gs[j].namespace, gs[i].namespace) && EqualFold(gs[j].name, gs[i].name))
    ensures Visited(gs, gs[i].link)
  {
    hide Plain, Visited, Fold;
    assert LastOf(gs, i, gs[i].namespace, gs[i].name, gs[i].link);
    VisitedExactly(gs, gs[i].link);
  }

  /**
   * After a cleanup, on the link of a serving gateway and with enough calls, a peer is there iff it was there and
   * a listed endpoint of that gateway's namespace and name has its key. Its networks are as before. The routes of the
   * link that went are to the base address of a removed peer's network, and none to such a network is left.
   */
  lemma CleanUpExact(s: State, next: State, gs: seq<Gateway>, es: seq<Endpoint>, calls: map<string, nat>, removed: set<string>, link: string,
                     claimed: set<string>)
    requires CleanStep(s, next, gs, es, calls, removed) && link in s.devices && AllPlain(gs, es) && Owned(gs, link)
    requires (forall key :: key in claimed <==> ClaimedBy(gs, es, link, key)) && Enough(s, link, claimed, Budget(calls, link))
    ensures link in next.devices
    ensures forall key :: key in next.devices[link] <==> key in s.devices[link] && ClaimedBy(gs, es, link, key)
    ensures forall key :: key in next.devices[link] ==> next.devices[link][key] == s.devices[link][key]
    ensures forall key, net :: key in s.devices[link] && key !in next.devices[link] && net in s.devices[link][key] ==>
              !(net in next.routes && next.routes[net] == link)
    ensures forall dst :: dst in s.routes && s.routes[dst] == link && dst !in next.routes ==>
              exists key, net :: key in s.devices[link] && key !in next.devices[link] && net in s.devices[link][key] && net.base == dst.base
    ensures forall key :: key in s.devices[link] && !ClaimedBy(gs, es, link, key) ==> key in removed
  {
    hide Claimed, Visited, ClaimedBy, Owned, DeadAddresses, Enough, Size;
    ClaimedExactly(gs, es, link);
    assert Claimed(gs, es, link) == claimed;
    var links, claims :| CleanedAll(s, next, links, claims, calls, removed) && Built(gs, es, claims) && ExactlyVisited(gs, links);
    assert Lookup(claims, link) == claimed;
    assert LinkCleaned(s, next, link, Lookup(claims, link), Budget(calls, link));
    forall key | key in s.devices[link] && key !in claimed
      ensures key in removed
      ensures forall net :: net in s.devices[link][key] ==> !(net in next.routes && next.routes[net] == link)
    {
      assert Gone(s, next, link, key);
      forall net | net in s.devices[link][key]
        ensures !(net in next.routes && next.routes[net] == link)
      {
        DeadAddressed(s.devices[link], claimed, key, net);
      }
    }
    forall dst | dst in s.routes && s.routes[dst] == link && dst !in next.routes
      ensures exists key, net :: key in s.devices[link] && key !in next.devices[link] && net in s.devices[link][key] && net.base == dst.base
    {
      assert dst in Lost(s, next);
      DeadHolder(s.devices[link], claimed, dst.base);
    }
  }

  lemma DeadHolder(d: Device, claimed: set<string>, address: Address)
    requires address in DeadAddresses(d, claimed)
    ensures exists key, net :: key in d && key !in claimed && net in d[key] && net.base == address
  {
  }

  lemma DeadAddressed(d: Device, claimed: set<string>, key: string, net: Cidr)
    requires key in d && key !in claimed && net in d[key]
    ensures net.base in DeadAddresses(d, claimed)
  {
  }
}
