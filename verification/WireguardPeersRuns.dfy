// Peers and routes over whole runs of reconciles, cleanups and link changes.

module WireguardPeersRuns {
  import opened Wrappers
  import opened Prefixes
  import opened WireguardPeers

  // ---------------------------------------------------------------- runs

  /** A pod reconcile, a cleanup from one listing, or the gateway controller adding or deleting a link. */
  datatype Op =
    | Reconcile(link: string, key: string, net: Cidr, calls: nat)
    | Clean(gateways: seq<Gateway>, endpoints: seq<Endpoint>, budget: map<string, nat>)
    | LinkAdd(link: string)
    | LinkDel(link: string)

  ghost predicate Step(s: State, next: State, op: Op) {
    match op
    case Reconcile(link, key, net, calls) => next == Reconciled(s, link, key, net, calls)
    case Clean(gs, es, budget) => exists removed :: CleanStep(s, next, gs, es, budget, removed)
    case LinkAdd(link) => next == if link in s.devices then s else s.(devices := s.devices[link := map[]])
    case LinkDel(link) =>
      next == State(s.devices - {link}, map dst | dst in s.routes && s.routes[dst] != link :: s.routes[dst])
  }

  ghost predicate IsRun(states: seq<State>, ops: seq<Op>) {
    |states| == |ops| + 1 && forall i :: 0 <= i < |ops| ==> Step(states[i], states[i + 1], ops[i])
  }

  // ---------------------------------------------------------------- allowed networks stay disjoint

  ghost predicate AllDisjoint(s: State) {
    forall link :: link in s.devices ==> Disjoint(s.devices[link])
  }

  /** Every allowed network is a single host, which is how pods are given addresses. */
  ghost predicate Hosts(s: State) {
    forall link, key, net :: link in s.devices && key in s.devices[link] && net in s.devices[link][key] ==> net.len == 32
  }

  ghost predicate HostOp(op: Op) {
    op.Reconcile? ==> op.net.len == 32
  }

  /** What a cleanup does to one link and to the routes, whichever listing it was made from. */
  lemma CleanFacts(s: State, next: State, gs: seq<Gateway>, es: seq<Endpoint>, budget: map<string, nat>, link: string)
    requires Step(s, next, Clean(gs, es, budget))
    ensures next.devices.Keys == s.devices.Keys && Shrinks(s.routes, next.routes)
    ensures link in s.devices && Visited(gs, link) ==> LinkCleaned(s, next, link, Claimed(gs, es, link), Budget(budget, link))
    ensures link in s.devices && !Visited(gs, link) ==> next.devices[link] == s.devices[link]
    ensures forall dst :: dst in Lost(s, next) && s.routes[dst] == link ==> Visited(gs, link) && dst in Doomed(s, link, Claimed(gs, es, link))
  {
    hide LinkCleaned, Doomed, Claimed, Visited, Budget;
    var removed :| CleanStep(s, next, gs, es, budget, removed);
    var links, claims :| CleanedAll(s, next, links, claims, budget, removed) && Built(gs, es, claims) && ExactlyVisited(gs, links);
    assert Lookup(claims, link) == Claimed(gs, es, link);
  }

  lemma CleanShrinks(s: State, next: State, gs: seq<Gateway>, es: seq<Endpoint>, budget: map<string, nat>, link: string, key: string)
    requires Step(s, next, Clean(gs, es, budget)) && link in next.devices && key in next.devices[link]
    ensures link in s.devices && key in s.devices[link] && next.devices[link][key] == s.devices[link][key]
  {
    hide Step, Doomed, Claimed, Visited, Enough, Size;
    CleanFacts(s, next, gs, es, budget, link);
  }

  lemma StepDisjoint(s: State, next: State, op: Op)
    requires Step(s, next, op) && AllDisjoint(s)
    ensures AllDisjoint(next)
  {
    if op.Clean? {
      hide Step;
      forall link, k, other | link in next.devices && k in next.devices[link] && other in next.devices[link] && k != other
        ensures next.devices[link][k] !! next.devices[link][other]
      {
        CleanShrinks(s, next, op.gateways, op.endpoints, op.budget, link, k);
        CleanShrinks(s, next, op.gateways, op.endpoints, op.budget, link, other);
      }
    }
  }

  lemma StepHosts(s: State, next: State, op: Op)
    requires Step(s, next, op) && Hosts(s) && HostOp(op)
    ensures Hosts(next)
  {
    if op.Clean? {
      hide Step;
      forall link, key | link in next.devices && key in next.devices[link]
        ensures link in s.devices && key in s.devices[link] && next.devices[link][key] == s.devices[link][key]
      {
        CleanShrinks(s, next, op.gateways, op.endpoints, op.budget, link, key);
      }
    }
  }

  /** WireGuard keeps the peers of a device disjoint in every run. */
  lemma {:induction false} RunDisjoint(states: seq<State>, ops: seq<Op>)
    requires IsRun(states, ops) && states[0].devices == map[]
    ensures AllDisjoint(states[|ops|])
    decreases |ops|
  {
    hide Step;
    if ops != [] {
      var n := |ops| - 1;
      RunDisjoint(states[..n + 1], ops[..n]);
      StepDisjoint(states[n], states[n + 1], ops[n]);
    }
  }

  lemma {:induction false} RunHosts(states: seq<State>, ops: seq<Op>)
    requires IsRun(states, ops) && states[0].devices == map[] && forall i :: 0 <= i < |ops| ==> HostOp(ops[i])
    ensures Hosts(states[|ops|])
    decreases |ops|
  {
    hide Step;
    if ops != [] {
      var n := |ops| - 1;
      RunHosts(states[..n + 1], ops[..n]);
      StepHosts(states[n], states[n + 1], ops[n]);
    }
  }

  // ---------------------------------------------------------------- every allowed network is routed

  ghost predicate Covered(s: State, link: string, key: string) {
    link in s.devices && key in s.devices[link] ==>
      forall net :: net in s.devices[link][key] ==> net in s.routes && s.routes[net] == link
  }

  ghost predicate LinkCovered(s: State, link: string) {
    forall key :: Covered(s, link, key)
  }

  ghost predicate AllCovered(s: State) {
    forall link, key :: Covered(s, link, key)
  }

  lemma AllByLink(s: State)
    ensures AllCovered(s) <==> forall link :: LinkCovered(s, link)
  {
    if forall link :: LinkCovered(s, link) {
      forall link, key
        ensures Covered(s, link, key)
      {
        assert LinkCovered(s, link);
      }
    }
  }

  /** No peer of another link is allowed this network. */
  ghost predicate NoOtherHolder(s: State, link: string, net: Cidr) {
    forall other, key :: other in s.devices && other != link && key in s.devices[other] ==> net !in s.devices[other][key]
  }

  /** A reconcile that gets as far as the peer needs the route to be there; one that writes it must take it from no other peer. */
  ghost predicate ReconcileSafe(s: State, link: string, net: Cidr, calls: nat) {
    calls == 0 || link !in s.devices ||
    if calls == 1 then net in s.routes && s.routes[net] == link else NoOtherHolder(s, link, net)
  }

  lemma PeerAfter(s: State, link: string, key: string, net: Cidr, calls: nat, l: string, k: string)
    requires Covered(s, l, k) && link in s.devices && calls > 0
    ensures var after := Reconciled(s, link, key, net, calls);
            Covered(after, l, k) <==>
            if calls > 1 then (l != link && l in s.devices && k in s.devices[l] ==> net !in s.devices[l][k])
            else (l == link && k == key ==> net in s.routes && s.routes[net] == link)
  {
    var after := Reconciled(s, link, key, net, calls);
    if l == link {
      assert k in after.devices[l] ==> after.devices[l][k] == if k == key then {net} else s.devices[l][k] - {net};
    } else if l in s.devices {
      assert after.devices[l] == s.devices[l];
    }
  }

  /** A reconcile, stopping anywhere, keeps every peer routed exactly then. */
  lemma ReconcileCovers(s: State, link: string, key: string, net: Cidr, calls: nat)
    requires AllCovered(s)
    ensures AllCovered(Reconciled(s, link, key, net, calls)) <==> ReconcileSafe(s, link, net, calls)
  {
    if calls > 0 && link in s.devices {
      var after := Reconciled(s, link, key, net, calls);
      hide Covered, Reconciled;
      forall l, k
        ensures Covered(after, l, k) <==>
                if calls > 1 then (l != link && l in s.devices && k in s.devices[l] ==> net !in s.devices[l][k])
                else (l == link && k == key ==> net in s.routes && s.routes[net] == link)
      {
        PeerAfter(s, link, key, net, calls, l, k);
      }
    }
  }

  /** A cleanup that finishes must keep no network with a removed one's base address; one that cannot finish must not reach the routes. */
  ghost predicate LinkSafe(s: State, link: string, claimed: set<string>, calls: nat)
    requires link in s.devices
  {
    if Enough(s, link, claimed, calls)
    then forall key, net :: key in s.devices[link] && key in claimed && net in s.devices[link][key] ==> net.base !in DeadAddresses(s.devices[link], claimed)
    else calls <= 1
  }

  ghost predicate CleanSafe(s: State, gs: seq<Gateway>, es: seq<Endpoint>, budget: map<string, nat>) {
    forall link :: link in s.devices && Visited(gs, link) ==> LinkSafe(s, link, Claimed(gs, es, link), Budget(budget, link))
  }

  lemma PeerCovers(s: State, next: State, link: string, key: string)
    requires Covered(s, link, key) && Shrinks(s.routes, next.routes) && link in s.devices && key in s.devices[link]
    requires link in next.devices && key in next.devices[link] && next.devices[link][key] == s.devices[link][key]
    ensures Covered(next, link, key) <==> forall net :: net in s.devices[link][key] ==> net !in Lost(s, next)
  {
  }

  lemma KeptCovers(s: State, next: State, link: string, claimed: set<string>, key: string)
    requires Covered(s, link, key) && Shrinks(s.routes, next.routes) && link in s.devices && key in s.devices[link] && key in claimed
    requires link in next.devices && next.devices[link] == Kept(s.devices[link], claimed) && Doomed(s, link, claimed) !! next.routes.Keys
    requires forall dst :: dst in Lost(s, next) && s.routes[dst] == link ==> dst in Doomed(s, link, claimed)
    ensures Covered(next, link, key) <==> forall net :: net in s.devices[link][key] ==> net.base !in DeadAddresses(s.devices[link], claimed)
  {
    hide DeadAddresses;
    PeerCovers(s, next, link, key);
    assert forall net :: net in s.devices[link][key] ==> (net in Lost(s, next) <==> net in Doomed(s, link, claimed));
  }

  /** On a finished link that is the exact condition. */
  lemma FinishedCovers(s: State, next: State, link: string, claimed: set<string>, calls: nat)
    requires AllCovered(s) && Shrinks(s.routes, next.routes) && link in s.devices && link in next.devices
    requires LinkCleaned(s, next, link, claimed, calls) && Enough(s, link, claimed, calls)
    requires forall dst :: dst in Lost(s, next) && s.routes[dst] == link ==> dst in Doomed(s, link, claimed)
    ensures LinkCovered(next, link) <==> LinkSafe(s, link, claimed, calls)
  {
    hide DeadAddresses, Enough, Doomed, Lost, Shrinks, Size;
    forall key | key in s.devices[link] && key in claimed
      ensures Covered(next, link, key) <==> forall net :: net in s.devices[link][key] ==> net.base !in DeadAddresses(s.devices[link], claimed)
    {
      KeptCovers(s, next, link, claimed, key);
    }
  }

  /** On an unfinished link a single call only reads the device. */
  lemma UnreachedCovers(s: State, next: State, link: string, claimed: set<string>, calls: nat)
    requires AllCovered(s) && Shrinks(s.routes, next.routes) && link in s.devices && link in next.devices
    requires LinkCleaned(s, next, link, claimed, calls) && !Enough(s, link, claimed, calls) && calls <= 1
    requires forall dst :: dst in Lost(s, next) && s.routes[dst] == link ==> dst in Doomed(s, link, claimed)
    ensures LinkCovered(next, link)
  {
    hide DeadAddresses, Enough, Doomed;
    NoneGone(Doomed(s, link, claimed), next.routes.Keys);
    forall key
      ensures Covered(next, link, key)
    {
      assert Covered(s, link, key);
      assert forall dst :: dst in Lost(s, next) ==> s.routes[dst] != link;
    }
  }

  lemma NoneGone(doomed: set<Cidr>, left: set<Cidr>)
    requires Size(doomed - left) == 0
    ensures doomed <= left
  {
    forall dst | dst in doomed
      ensures dst in left
    {
      assert dst !in doomed - left;
    }
  }

  lemma CleanStaysCovered(s: State, next: State, gs: seq<Gateway>, es: seq<Endpoint>, budget: map<string, nat>)
    requires AllCovered(s) && Step(s, next, Clean(gs, es, budget)) && CleanSafe(s, gs, es, budget)
    ensures AllCovered(next)
  {
    hide Step, LinkCleaned, Doomed, Claimed, Visited, Covered, Budget, Enough, DeadAddresses;
    forall link
      ensures LinkCovered(next, link)
    {
      CleanFacts(s, next, gs, es, budget, link);
      if link in s.devices && Visited(gs, link) {
        var claimed, calls := Claimed(gs, es, link), Budget(budget, link);
        assert LinkSafe(s, link, claimed, calls);
        if Enough(s, link, claimed, calls) {
          FinishedCovers(s, next, link, claimed, calls);
        } else {
          UnreachedCovers(s, next, link, claimed, calls);
        }
      } else {
        forall key
          ensures Covered(next, link, key)
        {
          Unvisited(s, next, link, key);
        }
      }
    }
    AllByLink(next);
  }

  lemma Unvisited(s: State, next: State, link: string, key: string)
    requires Covered(s, link, key) && Shrinks(s.routes, next.routes) && next.devices.Keys == s.devices.Keys
    requires link in s.devices ==> next.devices[link] == s.devices[link]
    requires link in s.devices ==> forall dst :: dst in Lost(s, next) ==> s.routes[dst] != link
    ensures Covered(next, link, key)
  {
  }

  // ---------------------------------------------------------------- every outcome a cleanup may have

  /** Some of the routes, as many as asked for. */
  lemma {:induction false} SomeOf(all: set<Cidr>, n: nat) returns (some: set<Cidr>)
    requires n <= Size(all)
    ensures some <= all && Size(some) == n
  {
    if n == 0 {
      some := {};
    } else {
      var dst :| dst in all;
      var rest := SomeOf(all - {dst}, n - 1);
      some := rest + {dst};
    }
  }

  /** The same with one of them chosen. */
  lemma SomeWith(all: set<Cidr>, n: nat, dst: Cidr) returns (some: set<Cidr>)
    requires 0 < n <= Size(all) && dst in all
    ensures some <= all && Size(some) == n && dst in some
  {
    var rest := SomeOf(all - {dst}, n - 1);
    some := rest + {dst};
  }

  /** A cleanup that runs out of calls may have deleted any doomed routes, as many as it had calls for. */
  lemma MayStop(s: State, link: string, claimed: set<string>, calls: nat, gone: set<Cidr>)
    requires gone <= Doomed(s, link, claimed) && Size(gone) == if calls == 0 || link !in s.devices then 0 else calls - 1
    ensures Interrupted(s, s.(routes := s.routes - gone), link, claimed, calls)
  {
    DoomedOnLink(s, link, claimed);
    hide Doomed, Size;
    assert Lost(s, s.(routes := s.routes - gone)) == gone;
  }

  lemma StopSize(s: State, link: string, claimed: set<string>, calls: nat)
    requires !Enough(s, link, claimed, calls) && link in s.devices && calls > 0
    ensures calls - 1 <= Size(Doomed(s, link, claimed))
  {
  }

  lemma AddLink(s: State, mid: State, links: set<string>, claims: map<string, set<string>>, calls: map<string, nat>, removed: set<string>, link: string)
    returns (next: State, more: set<string>)
    requires CleanedAll(s, mid, links, claims, calls, removed) && link !in links
    ensures CleanedAll(s, next, links + {link}, claims, calls, more)
  {
    hide CleanedAll, Interrupted, Doomed, Size, Lookup, Budget;
    var claimed, n := Lookup(claims, link), Budget(calls, link);
    if Enough(mid, link, claimed, n) {
      OneCleaned(s, mid, links, claims, calls, link, removed);
      next, more := Cleaned(mid, link, claimed), removed + Dead(mid.devices[link], claimed);
    } else {
      NothingSize();
      var gone: set<Cidr> := {};
      if n > 0 && link in mid.devices {
        StopSize(mid, link, claimed, n);
        gone := SomeOf(Doomed(mid, link, claimed), n - 1);
      }
      MayStop(mid, link, claimed, n, gone);
      next, more := mid.(routes := mid.routes - gone), removed;
      OneInterrupted(s, mid, next, links, claims, calls, link, removed);
    }
  }

  lemma NothingSize()
    ensures Size({}) == 0
  {
  }

  lemma {:induction false} SomeClean(s: State, links: set<string>, claims: map<string, set<string>>, calls: map<string, nat>)
    returns (next: State, removed: set<string>)
    ensures CleanedAll(s, next, links, claims, calls, removed)
    decreases |links|
  {
    hide CleanedAll;
    if links == {} {
      CleanedNone(s, claims, calls);
      next, removed := s, {};
    } else {
      var link :| link in links;
      var mid, before := SomeClean(s, links - {link}, claims, calls);
      next, removed := AddLink(s, mid, links - {link}, claims, calls, before, link);
      assert links - {link} + {link} == links;
    }
  }

  /** The links and claims a listing gives. */
  lemma Listing(gs: seq<Gateway>, es: seq<Endpoint>) returns (links: set<string>, claims: map<string, set<string>>)
    ensures ExactlyVisited(gs, links) && Built(gs, es, claims)
  {
    links := set i | 0 <= i < |gs| && Visited(gs, gs[i].link) :: gs[i].link;
    claims := map link | link in links :: Claimed(gs, es, link);
    forall link | Visited(gs, link)
      ensures link in links
    {
      var id :| LinkOf(gs, id) == Some(link);
      var i := LinkOfListed(gs, id);
    }
    forall link
      ensures Lookup(claims, link) == Claimed(gs, es, link)
    {
      if key :| key in Claimed(gs, es, link) {
        assert Visited(gs, link);
      }
    }
  }

  /** If a route is doomed and every peer is routed, some removed peer's own network is. */
  lemma DoomedPeer(s: State, link: string, claimed: set<string>) returns (key: string, net: Cidr)
    requires AllCovered(s) && link in s.devices && Size(Doomed(s, link, claimed)) > 0
    ensures key in s.devices[link] && net in s.devices[link][key] && net in Doomed(s, link, claimed)
  {
    var dst :| dst in Doomed(s, link, claimed);
    key, net :| key in Dead(s.devices[link], claimed) && net in s.devices[link][key] && net.base == dst.base;
    assert Covered(s, link, key);
  }

  /** A step that is not safe has an outcome in which a peer is not routed. */
  lemma CleanBreaks(s: State, gs: seq<Gateway>, es: seq<Endpoint>, budget: map<string, nat>) returns (next: State)
    requires AllCovered(s) && !CleanSafe(s, gs, es, budget)
    ensures Step(s, next, Clean(gs, es, budget)) && !AllCovered(next)
  {
    hide CleanedAll, Claimed, Visited, Budget, LinkSafe, ExactlyVisited, Built, Interrupted, AllCovered;
    var link :| link in s.devices && Visited(gs, link) && !LinkSafe(s, link, Claimed(gs, es, link), Budget(budget, link));
    var links, claims := Listing(gs, es);
    var mid, removed := SomeClean(s, links - {link}, claims, budget);
    ListingAt(gs, es, links, claims, link);
    assert links - {link} + {link} == links;
    if Enough(s, link, Claimed(gs, es, link), Budget(budget, link)) {
      var more: set<string>;
      next, more := AddLink(s, mid, links - {link}, claims, budget, removed, link);
      assert CleanStep(s, next, gs, es, budget, more);
      CleanFacts(s, next, gs, es, budget, link);
      FinishedCovers(s, next, link, Claimed(gs, es, link), Budget(budget, link));
      AllByLink(next);
    } else {
      next := StopBadly(s, mid, links - {link}, claims, budget, removed, link);
      assert CleanStep(s, next, gs, es, budget, removed);
    }
  }

  lemma ListingAt(gs: seq<Gateway>, es: seq<Endpoint>, links: set<string>, claims: map<string, set<string>>, link: string)
    requires ExactlyVisited(gs, links) && Built(gs, es, claims)
    ensures link in links <==> Visited(gs, link)
    ensures Lookup(claims, link) == Claimed(gs, es, link)
  {
  }

  lemma StopBadly(s: State, mid: State, links: set<string>, claims: map<string, set<string>>, calls: map<string, nat>, removed: set<string>, link: string)
    returns (next: State)
    requires AllCovered(s) && CleanedAll(s, mid, links, claims, calls, removed) && link !in links && link in s.devices
    requires !LinkSafe(s, link, Lookup(claims, link), Budget(calls, link)) && !Enough(s, link, Lookup(claims, link), Budget(calls, link))
    ensures CleanedAll(s, next, links + {link}, claims, calls, removed) && !AllCovered(next)
  {
    hide CleanedLinks, Reports, Interrupted, Doomed, Size, Lookup, Budget;
    var claimed, n := Lookup(claims, link), Budget(calls, link);
    SameDoomed(s, mid, links, claims, calls, link);
    StopSize(s, link, claimed, n);
    var key, net := DoomedPeer(s, link, claimed);
    var gone := SomeWith(Doomed(mid, link, claimed), n - 1, net);
    MayStop(mid, link, claimed, n, gone);
    next := mid.(routes := mid.routes - gone);
    OneInterrupted(s, mid, next, links, claims, calls, link, removed);
    assert !Covered(next, link, key);
  }

  /**
   * Whatever the listing, the calls available and the order routes are deleted in, a cleanup keeps every peer routed
   * in all its outcomes exactly when it is safe beforehand.
   */
  lemma CleanCovers(s: State, gs: seq<Gateway>, es: seq<Endpoint>, budget: map<string, nat>)
    requires AllCovered(s)
    ensures (forall next :: Step(s, next, Clean(gs, es, budget)) ==> AllCovered(next)) <==> CleanSafe(s, gs, es, budget)
  {
    hide Step, CleanSafe, AllCovered;
    if CleanSafe(s, gs, es, budget) {
      forall next | Step(s, next, Clean(gs, es, budget))
        ensures AllCovered(next)
      {
        CleanStaysCovered(s, next, gs, es, budget);
      }
    } else {
      var next := CleanBreaks(s, gs, es, budget);
    }
  }

  // ---------------------------------------------------------------- coverage over runs, exactly

  ghost predicate Safe(s: State, op: Op) {
    match op
    case Reconcile(link, _, net, calls) => ReconcileSafe(s, link, net, calls)
    case Clean(gs, es, budget) => CleanSafe(s, gs, es, budget)
    case LinkAdd(_) => true
    case LinkDel(_) => true
  }

  lemma StepStaysCovered(s: State, next: State, op: Op)
    requires AllCovered(s) && Step(s, next, op) && Safe(s, op)
    ensures AllCovered(next)
  {
    match op {
      case Reconcile(link, key, net, calls) => ReconcileCovers(s, link, key, net, calls);
      case Clean(gs, es, budget) => CleanStaysCovered(s, next, gs, es, budget);
      case LinkAdd(_) =>
        assert forall l, k :: Covered(s, l, k) ==> Covered(next, l, k);
      case LinkDel(_) =>
        assert forall l, k :: Covered(s, l, k) ==> Covered(next, l, k);
    }
  }

  lemma StepBreaks(s: State, op: Op) returns (next: State)
    requires AllCovered(s) && !Safe(s, op)
    ensures Step(s, next, op) && !AllCovered(next)
  {
    match op {
      case Reconcile(link, key, net, calls) =>
        ReconcileCovers(s, link, key, net, calls);
        next := Reconciled(s, link, key, net, calls);
      case Clean(gs, es, budget) => next := CleanBreaks(s, gs, es, budget);
    }
  }

  /** Every operation has an outcome in every state. */
  lemma SomeStep(s: State, op: Op) returns (next: State)
    ensures Step(s, next, op)
  {
    match op {
      case Reconcile(link, key, net, calls) => next := Reconciled(s, link, key, net, calls);
      case Clean(gs, es, budget) =>
        hide CleanedAll, Built, ExactlyVisited;
        var links, claims := Listing(gs, es);
        var removed: set<string>;
        next, removed := SomeClean(s, links, claims, budget);
        assert CleanStep(s, next, gs, es, budget, removed);
      case LinkAdd(link) => next := if link in s.devices then s else s.(devices := s.devices[link := map[]]);
      case LinkDel(link) => next := State(s.devices - {link}, map dst | dst in s.routes && s.routes[dst] != link :: s.routes[dst]);
    }
  }

  lemma {:induction false} Continue(states: seq<State>, ops: seq<Op>, n: nat) returns (all: seq<State>)
    requires n <= |ops| && IsRun(states, ops[..n])
    ensures IsRun(all, ops) && states <= all
    decreases |ops| - n
  {
    hide Step;
    if n == |ops| {
      assert ops[..n] == ops;
      all := states;
    } else {
      var next := SomeStep(states[n], ops[n]);
      var longer := states + [next];
      forall i | 0 <= i < n + 1
        ensures Step(longer[i], longer[i + 1], ops[..n + 1][i])
      {
        assert i < n ==> Step(states[i], states[i + 1], ops[..n][i]);
      }
      all := Continue(longer, ops, n + 1);
    }
  }

  ghost predicate Starts(states: seq<State>, ops: seq<Op>, start: State) {
    IsRun(states, ops) && states[0] == start
  }

  /** In every run of these operations from here, every peer is routed at every moment. */
  ghost predicate AlwaysCovered(start: State, ops: seq<Op>) {
    forall states :: Starts(states, ops, start) ==> forall i :: 0 <= i <= |ops| ==> AllCovered(states[i])
  }

  /** In every run of these operations from here, every operation is safe in the state it finds. */
  ghost predicate AlwaysSafe(start: State, ops: seq<Op>) {
    forall states :: Starts(states, ops, start) ==> forall i :: 0 <= i < |ops| ==> Safe(states[i], ops[i])
  }

  lemma {:induction false} SafeRunCovered(states: seq<State>, ops: seq<Op>, i: nat)
    requires IsRun(states, ops) && AllCovered(states[0]) && (forall k :: 0 <= k < |ops| ==> Safe(states[k], ops[k])) && i <= |ops|
    ensures AllCovered(states[i])
  {
    hide Step, Safe, AllCovered;
    if i > 0 {
      SafeRunCovered(states, ops, i - 1);
      StepStaysCovered(states[i - 1], states[i], ops[i - 1]);
    }
  }

  /** The two are the same, so whether a run can lose a route is decided by the states its operations find. */
  lemma RunCoveredExactly(start: State, ops: seq<Op>)
    requires AllCovered(start)
    ensures AlwaysCovered(start, ops) <==> AlwaysSafe(start, ops)
  {
    hide Step, Safe, AllCovered;
    if AlwaysSafe(start, ops) {
      forall states, i | Starts(states, ops, start) && 0 <= i <= |ops|
        ensures AllCovered(states[i])
      {
        SafeRunCovered(states, ops, i);
      }
    }
    if !AlwaysSafe(start, ops) {
      var states :| Starts(states, ops, start) && !forall i :: 0 <= i < |ops| ==> Safe(states[i], ops[i]);
      var i :| 0 <= i < |ops| && !Safe(states[i], ops[i]);
      if AllCovered(states[i]) {
        var other := BadRun(states, ops, i);
        assert Starts(other, ops, start);
      }
    }
  }

  lemma BadRun(states: seq<State>, ops: seq<Op>, i: nat) returns (all: seq<State>)
    requires IsRun(states, ops) && i < |ops| && AllCovered(states[i]) && !Safe(states[i], ops[i])
    ensures IsRun(all, ops) && all[0] == states[0] && !AllCovered(all[i + 1])
  {
    hide Step, Safe, AllCovered;
    var next := StepBreaks(states[i], ops[i]);
    var head := states[..i + 1] + [next];
    forall k | 0 <= k < i + 1
      ensures Step(head[k], head[k + 1], ops[..i + 1][k])
    {
      assert k < i ==> Step(states[k], states[k + 1], ops[k]);
    }
    all := Continue(head, ops, i + 1);
  }

  // ---------------------------------------------------------------- what one pod can rely on

  /** No other peer of the link has another network with this base address. */
  ghost predicate BaseAlone(s: State, link: string, key: string, net: Cidr) {
    link in s.devices ==> forall k, n :: k in s.devices[link] && k != key && n in s.devices[link][k] && n.base == net.base ==> n == net
  }

  lemma AloneSurvives(d: Device, claimed: set<string>, key: string, net: Cidr)
    requires Disjoint(d) && key in d && key in claimed && net in d[key]
    requires forall k, n :: k in d && k != key && n in d[k] && n.base == net.base ==> n == net
    ensures net.base !in DeadAddresses(d, claimed)
  {
  }

  lemma HostsApart(s: State, link: string, key: string, net: Cidr)
    requires Hosts(s) && net.len == 32
    ensures BaseAlone(s, link, key, net)
  {
  }

  /** A cleanup keeps a claimed peer with its networks, and its route to each network whose base address no other peer shares. */
  lemma CleanKeeps(s: State, next: State, gs: seq<Gateway>, es: seq<Endpoint>, budget: map<string, nat>, link: string, key: string)
    requires Step(s, next, Clean(gs, es, budget)) && AllDisjoint(s)
    requires link in s.devices && key in s.devices[link] && (Visited(gs, link) ==> key in Claimed(gs, es, link))
    ensures link in next.devices && key in next.devices[link] && next.devices[link][key] == s.devices[link][key]
    ensures forall net :: net in s.devices[link][key] && BaseAlone(s, link, key, net) && net in s.routes && s.routes[net] == link ==>
              net in next.routes && next.routes[net] == link
  {
    hide Step, Claimed, Visited, DeadAddresses, Enough, Size;
    CleanFacts(s, next, gs, es, budget, link);
    forall net | net in s.devices[link][key] && BaseAlone(s, link, key, net) && net in s.routes && s.routes[net] == link && Visited(gs, link)
      ensures net in next.routes
    {
      AloneSurvives(s.devices[link], Claimed(gs, es, link), key, net);
    }
  }

  /**
   * The peer's last reconcile stopped before its route was written, or since it was reconciled a
   * cleanup of its link found it unclaimed.
   */
  ghost predicate Unsettled(ops: seq<Op>, link: string, key: string) {
    ops != [] &&
    var before := Unsettled(ops[..|ops| - 1], link, key);
    match ops[|ops| - 1]
    case Reconcile(l, k, _, calls) => if l == link && k == key && calls > 0 then calls == 1 else before
    case Clean(gs, es, _) => before || (Visited(gs, link) && key !in Claimed(gs, es, link))
    case LinkAdd(_) => before
    case LinkDel(_) => before
  }

  ghost predicate Settled(s: State, ops: seq<Op>) {
    AllDisjoint(s) && forall link, key :: !Unsettled(ops, link, key) ==> Covered(s, link, key)
  }

  /** No reconciled network is held on another link, and no network of a cleaned link shares its base address with another. */
  ghost predicate Separate(s: State, op: Op) {
    match op
    case Reconcile(link, _, net, _) => NoOtherHolder(s, link, net)
    case Clean(_, _, _) => forall link, key, net :: link in s.devices && key in s.devices[link] && net in s.devices[link][key] ==> BaseAlone(s, link, key, net)
    case LinkAdd(_) => true
    case LinkDel(_) => true
  }

  lemma SettledStep(s: State, next: State, ops: seq<Op>, op: Op)
    requires Settled(s, ops) && Step(s, next, op) && Separate(s, op)
    ensures Settled(next, ops + [op])
  {
    hide CleanStep, Claimed, Visited, AllDisjoint, BaseAlone;
    StepDisjoint(s, next, op);
    assert (ops + [op])[..|ops|] == ops;
    forall link, key | !Unsettled(ops + [op], link, key)
      ensures Covered(next, link, key)
    {
      match op {
        case Clean(gs, es, budget) =>
          if link in next.devices && key in next.devices[link] {
            CleanShrinks(s, next, gs, es, budget, link, key);
            CleanKeeps(s, next, gs, es, budget, link, key);
            assert Covered(s, link, key);
          }
        case Reconcile(l, k, net, calls) =>
          if !(l == link && k == key && calls > 0) {
            assert Covered(s, link, key);
          }
        case LinkAdd(_) =>
          assert Covered(s, link, key);
        case LinkDel(_) =>
          assert Covered(s, link, key);
      }
    }
  }

  /** In every run of such steps, whatever stops where, every settled peer is routed on its link. */
  lemma {:induction false} RunCovered(states: seq<State>, ops: seq<Op>)
    requires IsRun(states, ops) && states[0].devices == map[] && forall i :: 0 <= i < |ops| ==> Separate(states[i], ops[i])
    ensures Settled(states[|ops|], ops)
    decreases |ops|
  {
    hide Step, Settled, Separate;
    if ops == [] {
      NothingSettled(states[0]);
    } else {
      var n := |ops| - 1;
      RunCovered(states[..n + 1], ops[..n]);
      SettledStep(states[n], states[n + 1], ops[..n], ops[n]);
      assert ops == ops[..n] + [ops[n]];
    }
  }

  /** With single hosts only the reuse across links matters. */
  lemma {:induction false} RunCoveredHosts(states: seq<State>, ops: seq<Op>)
    requires IsRun(states, ops) && states[0].devices == map[] && forall i :: 0 <= i < |ops| ==> HostOp(ops[i])
    requires forall i :: 0 <= i < |ops| && ops[i].Reconcile? ==> NoOtherHolder(states[i], ops[i].link, ops[i].net)
    ensures Settled(states[|ops|], ops)
  {
    hide Step, Settled, NoOtherHolder, BaseAlone;
    forall i | 0 <= i < |ops|
      ensures Separate(states[i], ops[i])
    {
      RunHosts(states[..i + 1], ops[..i]);
      forall link, key, net | link in states[i].devices && key in states[i].devices[link] && net in states[i].devices[link][key]
        ensures BaseAlone(states[i], link, key, net)
      {
        HostsApart(states[i], link, key, net);
      }
    }
    RunCovered(states, ops);
  }

  lemma NothingSettled(s: State)
    requires s.devices == map[]
    ensures Settled(s, [])
  {
  }

  // ---------------------------------------------------------------- a pod stays served

  ghost predicate Installed(s: State, link: string, key: string, net: Cidr) {
    link in s.devices && key in s.devices[link] && s.devices[link][key] == {net} && net in s.routes && s.routes[net] == link
  }

  /** The pod stays listed under its gateway, its link stays, and no other pod is given its address or key. */
  ghost predicate Undisturbed(op: Op, link: string, key: string, net: Cidr) {
    match op
    case Reconcile(l, k, n, _) => (l == link && k == key) == (n == net)
    case Clean(gs, es, _) => Visited(gs, link) ==> key in Claimed(gs, es, link)
    case LinkAdd(_) => true
    case LinkDel(l) => l != link
  }

  /** A cleanup leaves a pod alone if its endpoint is listed under the namespace and name of the link's gateway. */
  lemma ListedUndisturbed(gs: seq<Gateway>, es: seq<Endpoint>, budget: map<string, nat>, link: string, key: string, net: Cidr)
    requires AllPlain(gs, es) && (Owned(gs, link) ==> ClaimedBy(gs, es, link, key))
    ensures Undisturbed(Clean(gs, es, budget), link, key, net)
  {
    hide Claimed, Visited, ClaimedBy, Owned;
    ClaimedExactly(gs, es, link);
  }

  /** No other peer of the link is given another network with this base address; two single hosts never are. */
  ghost predicate BaseFree(op: Op, link: string, key: string, net: Cidr) {
    op.Reconcile? && op.link == link && op.key != key && op.net.base == net.base ==> op.net == net
  }

  lemma AloneStep(s: State, next: State, op: Op, link: string, key: string, net: Cidr)
    requires Step(s, next, op) && BaseAlone(s, link, key, net) && BaseFree(op, link, key, net)
    ensures BaseAlone(next, link, key, net)
  {
    if op.Clean? {
      hide Step;
      forall k | link in next.devices && k in next.devices[link]
        ensures link in s.devices && k in s.devices[link] && next.devices[link][k] == s.devices[link][k]
      {
        CleanShrinks(s, next, op.gateways, op.endpoints, op.budget, link, k);
      }
    }
  }

  lemma {:induction false} RunAlone(states: seq<State>, ops: seq<Op>, link: string, key: string, net: Cidr)
    requires IsRun(states, ops) && states[0].devices == map[] && forall i :: 0 <= i < |ops| ==> BaseFree(ops[i], link, key, net)
    ensures BaseAlone(states[|ops|], link, key, net)
    decreases |ops|
  {
    hide Step, BaseFree;
    if ops != [] {
      var n := |ops| - 1;
      RunAlone(states[..n + 1], ops[..n], link, key, net);
      AloneStep(states[n], states[n + 1], ops[n], link, key, net);
    }
  }

  lemma InstalledStep(s: State, next: State, op: Op, link: string, key: string, net: Cidr)
    requires Step(s, next, op) && AllDisjoint(s) && BaseAlone(s, link, key, net)
    requires Installed(s, link, key, net) && Undisturbed(op, link, key, net)
    ensures Installed(next, link, key, net)
  {
    hide AllDisjoint, BaseAlone, Claimed, Visited;
    if op.Clean? {
      hide Step;
      CleanKeeps(s, next, op.gateways, op.endpoints, op.budget, link, key);
    }
  }

  /** Once a reconcile of a pod completes, its peer and route stay through any run that leaves the pod alone. */
  lemma {:induction false} PodStays(states: seq<State>, ops: seq<Op>, at: nat, link: string, key: string, net: Cidr)
    requires IsRun(states, ops) && states[0].devices == map[] && forall i :: 0 <= i < |ops| ==> BaseFree(ops[i], link, key, net)
    requires at < |ops| && ops[at].Reconcile? && ops[at].calls >= 2 && link in states[at].devices
    requires ops[at].link == link && ops[at].key == key && ops[at].net == net
    requires forall i :: at < i < |ops| ==> Undisturbed(ops[i], link, key, net)
    ensures Installed(states[|ops|], link, key, net)
    decreases |ops|
  {
    hide Undisturbed, AllDisjoint, BaseAlone, BaseFree;
    var n := |ops| - 1;
    assert Step(states[n], states[n + 1], ops[n]);
    if at < n {
      hide Step, Installed;
      RunDisjoint(states[..n + 1], ops[..n]);
      RunAlone(states[..n + 1], ops[..n], link, key, net);
      PodStays(states[..n + 1], ops[..n], at, link, key, net);
      InstalledStep(states[n], states[n + 1], ops[n], link, key, net);
    }
  }

  /** Pods are given single hosts, so for them nothing need be said of base addresses. */
  lemma HostPodStays(states: seq<State>, ops: seq<Op>, at: nat, link: string, key: string, net: Cidr)
    requires IsRun(states, ops) && states[0].devices == map[] && forall i :: 0 <= i < |ops| ==> HostOp(ops[i])
    requires at < |ops| && ops[at].Reconcile? && ops[at].calls >= 2 && link in states[at].devices
    requires ops[at].link == link && ops[at].key == key && ops[at].net == net
    requires forall i :: at < i < |ops| ==> Undisturbed(ops[i], link, key, net)
    ensures Installed(states[|ops|], link, key, net)
  {
    hide Step, Undisturbed, Installed;
    assert HostOp(ops[at]);
    assert forall i :: 0 <= i < |ops| ==> HostOp(ops[i]) ==> BaseFree(ops[i], link, key, net);
    PodStays(states, ops, at, link, key, net);
  }

  // ---------------------------------------------------------------- where the plain claims fail

  /** A run of these operations from a namespace without devices, ending in this state. */
  ghost predicate Reaches(ops: seq<Op>, s: State) {
    exists states :: IsRun(states, ops) && states[0] == State(map[], map[]) && states[|ops|] == s
  }

  lemma ReachesStep(ops: seq<Op>, s: State, op: Op, next: State)
    requires Reaches(ops, s) && Step(s, next, op)
    ensures Reaches(ops + [op], next)
  {
    hide Step;
    var states :| IsRun(states, ops) && states[0] == State(map[], map[]) && states[|ops|] == s;
    var all, longer := ops + [op], states + [next];
    forall i | 0 <= i < |all|
      ensures Step(longer[i], longer[i + 1], all[i])
    {
      assert i < |ops| ==> Step(states[i], states[i + 1], ops[i]);
    }
    assert IsRun(longer, all);
  }

  const NONE := State(map[], map[])

  lemma ReachesNone()
    ensures Reaches([], NONE)
  {
    assert IsRun([NONE], []);
  }

  lemma ReachesOne(link: string)
    ensures Reaches([LinkAdd(link)], State(map[link := map[]], map[]))
  {
    ReachesNone();
    ReachesStep([], NONE, LinkAdd(link), State(map[link := map[]], map[]));
    assert [] + [LinkAdd(link)] == [LinkAdd(link)];
  }

  lemma ReachesPeer(ops: seq<Op>, s: State, link: string, key: string, net: Cidr, calls: nat)
    requires Reaches(ops, s)
    ensures Reaches(ops + [Reconcile(link, key, net, calls)], Reconciled(s, link, key, net, calls))
  {
    hide Reaches;
    ReachesStep(ops, s, Reconcile(link, key, net, calls), Reconciled(s, link, key, net, calls));
  }

  /** Reusing a pod's address on a second link takes the route from the first link's stale peer. */
  lemma AddressReused()
    ensures exists s :: !AllCovered(s) &&
              Reaches([LinkAdd("a"), LinkAdd("b"), Reconcile("a", "k", Host(1), 2), Reconcile("b", "l", Host(1), 2)], s)
  {
    hide Reaches;
    var net := Host(1);
    var two := State(map["a" := map[], "b" := map[]], map[]);
    var three := Reconciled(two, "a", "k", net, 2);
    var four := Reconciled(three, "b", "l", net, 2);
    ReachesOne("a");
    ReachesStep([LinkAdd("a")], State(map["a" := map[]], map[]), LinkAdd("b"), two);
    ReachesPeer([LinkAdd("a")] + [LinkAdd("b")], two, "a", "k", net, 2);
    ReachesPeer([LinkAdd("a")] + [LinkAdd("b")] + [Reconcile("a", "k", net, 2)], three, "b", "l", net, 2);
    assert [LinkAdd("a")] + [LinkAdd("b")] + [Reconcile("a", "k", net, 2)] + [Reconcile("b", "l", net, 2)] ==
           [LinkAdd("a"), LinkAdd("b"), Reconcile("a", "k", net, 2), Reconcile("b", "l", net, 2)];
    assert four.devices["a"]["k"] == {net} && four.routes[net] == "b";
    assert !Covered(four, "a", "k");
  }

  /** A reconcile that stops before the route leaves its peer without one. */
  lemma RouteMissing()
    ensures exists s :: !AllCovered(s) && Reaches([LinkAdd("a"), Reconcile("a", "k", Host(1), 1)], s)
  {
    hide Reaches;
    var one := State(map["a" := map[]], map[]);
    ReachesOne("a");
    ReachesPeer([LinkAdd("a")], one, "a", "k", Host(1), 1);
    assert [LinkAdd("a")] + [Reconcile("a", "k", Host(1), 1)] == [LinkAdd("a"), Reconcile("a", "k", Host(1), 1)];
    assert !Covered(Reconciled(one, "a", "k", Host(1), 1), "a", "k");
  }

  const GATEWAY := Gateway("ns", "gw", "a", true, false)

  lemma OnlyGateway(es: seq<Endpoint>)
    ensures forall link :: Visited([GATEWAY], link) <==> link == "a"
    ensures forall link :: link != "a" ==> Claimed([GATEWAY], es, link) == {}
  {
    var id := Id("ns", "gw");
    assert [GATEWAY][..0] == [];
    assert forall i :: LinkOf([], i).None?;
    assert forall i, link :: LinkOf([GATEWAY], i) == Some(link) ==> link == "a";
    assert LinkOf([GATEWAY], id) == Some("a");
  }

  lemma SingleClean(s: State, next: State, es: seq<Endpoint>, calls: nat)
    requires s.devices.Keys == next.devices.Keys == {"a"} && Shrinks(s.routes, next.routes)
    requires LinkCleaned(s, next, "a", Claimed([GATEWAY], es, "a"), calls)
    requires forall dst :: dst in Lost(s, next) ==> s.routes[dst] == "a" && dst in Doomed(s, "a", Claimed([GATEWAY], es, "a"))
    ensures Step(s, next, Clean([GATEWAY], es, map["a" := calls]))
  {
    hide LinkCleaned, Doomed, Claimed, Visited;
    OnlyGateway(es);
    var claims := map["a" := Claimed([GATEWAY], es, "a")];
    var removed := s.devices["a"].Keys - next.devices["a"].Keys;
    forall key
      ensures key in removed <==> exists link :: Gone(s, next, link, key)
    {
      assert key in removed ==> Gone(s, next, "a", key);
    }
    assert CleanedAll(s, next, {"a"}, claims, map["a" := calls], removed);
    assert CleanStep(s, next, [GATEWAY], es, map["a" := calls], removed);
  }

  /** One unclaimed peer with its route. */
  const STALE := State(map["a" := map["k" := {Host(1)}]], map[Host(1) := "a"])

  lemma ReachesStale()
    ensures Reaches([LinkAdd("a")] + [Reconcile("a", "k", Host(1), 2)], STALE)
  {
    hide Reaches;
    ReachesOne("a");
    ReachesPeer([LinkAdd("a")], State(map["a" := map[]], map[]), "a", "k", Host(1), 2);
    assert WithPeer(map[], "k", Host(1)) == map["k" := {Host(1)}];
    assert Reconciled(State(map["a" := map[]], map[]), "a", "k", Host(1), 2) == STALE;
  }

  lemma StaleDoomed()
    ensures Dead(STALE.devices["a"], {}) == {"k"} && Doomed(STALE, "a", {}) == {Host(1)}
  {
    DeadAddressed(STALE.devices["a"], {}, "k", Host(1));
  }

  /** A cleanup that stops between the routes and the peers leaves a peer without its route. */
  lemma CleanupStops()
    ensures exists s :: !AllCovered(s) &&
              Reaches([LinkAdd("a"), Reconcile("a", "k", Host(1), 2), Clean([GATEWAY], [], map["a" := 2])], s)
  {
    hide Reaches, Doomed, Dead, CleanStep;
    var end := State(map["a" := map["k" := {Host(1)}]], map[]);
    ReachesStale();
    StaleDoomed();
    assert Claimed([GATEWAY], [], "a") == {};
    assert STALE.routes.Keys == {Host(1)} && Lost(STALE, end) == {Host(1)};
    assert Doomed(STALE, "a", {}) - end.routes.Keys == {Host(1)};
    SingleClean(STALE, end, [], 2);
    ReachesStep([LinkAdd("a")] + [Reconcile("a", "k", Host(1), 2)], STALE, Clean([GATEWAY], [], map["a" := 2]), end);
    assert [LinkAdd("a")] + [Reconcile("a", "k", Host(1), 2)] + [Clean([GATEWAY], [], map["a" := 2])] ==
           [LinkAdd("a"), Reconcile("a", "k", Host(1), 2), Clean([GATEWAY], [], map["a" := 2])];
    assert !Covered(end, "a", "k");
  }

  const WIDE := Cidr(0, 24)
  const KEPT := [Endpoint("ns", "gw", "kept")]

  lemma OnlyKept()
    ensures Claimed([GATEWAY], KEPT, "a") == {"kept"}
  {
    var id := Id("ns", "gw");
    assert [GATEWAY][..0] == [];
    assert LinkOf([GATEWAY], id) == Some("a");
    assert KEPT[0].publicKey in Claimed([GATEWAY], KEPT, "a");
  }

  /** A peer with a wide network beside one with its base address. */
  const BOTH := State(map["a" := map["dead" := {WIDE}, "kept" := {Host(0)}]], map[WIDE := "a", Host(0) := "a"])

  lemma ReachesBoth()
    ensures Reaches([LinkAdd("a")] + [Reconcile("a", "dead", WIDE, 2)] + [Reconcile("a", "kept", Host(0), 2)], BOTH)
  {
    hide Reaches, Reconciled, Step;
    var one, two := State(map["a" := map[]], map[]), State(map["a" := map["dead" := {WIDE}]], map[WIDE := "a"]);
    ReachesOne("a");
    ReachesPeer([LinkAdd("a")], one, "a", "dead", WIDE, 2);
    TwoPeers();
    ReachesPeer([LinkAdd("a")] + [Reconcile("a", "dead", WIDE, 2)], two, "a", "kept", Host(0), 2);
  }

  lemma TwoPeers()
    ensures var one, two := State(map["a" := map[]], map[]), State(map["a" := map["dead" := {WIDE}]], map[WIDE := "a"]);
            Reconciled(one, "a", "dead", WIDE, 2) == two && Reconciled(two, "a", "kept", Host(0), 2) == BOTH
  {
    assert WithPeer(map[], "dead", WIDE) == map["dead" := {WIDE}];
    assert {WIDE} - {Host(0)} == {WIDE};
    assert WithPeer(map["dead" := {WIDE}], "kept", Host(0)) == map["dead" := {WIDE}, "kept" := {Host(0)}];
  }

  lemma BothDoomed()
    ensures Dead(BOTH.devices["a"], {"kept"}) == {"dead"} && Doomed(BOTH, "a", {"kept"}) == {WIDE, Host(0)}
    ensures Kept(BOTH.devices["a"], {"kept"}) == map["kept" := {Host(0)}]
  {
    DeadAddressed(BOTH.devices["a"], {"kept"}, "dead", WIDE);
  }

  /** With networks wider than a host, a removed peer's address takes a kept peer's route along. */
  lemma LengthIgnored()
    ensures exists s :: !Covered(s, "a", "kept") &&
              Reaches([LinkAdd("a"), Reconcile("a", "dead", WIDE, 2), Reconcile("a", "kept", Host(0), 2), Clean([GATEWAY], KEPT, map["a" := 9])], s)
  {
    hide Reaches, Claimed, Doomed, Dead, Kept, CleanStep;
    var end := State(map["a" := map["kept" := {Host(0)}]], map[]);
    ReachesBoth();
    BothDoomed();
    OnlyKept();
    SingleClean(BOTH, end, KEPT, 9);
    ReachesStep([LinkAdd("a")] + [Reconcile("a", "dead", WIDE, 2)] + [Reconcile("a", "kept", Host(0), 2)],
                BOTH, Clean([GATEWAY], KEPT, map["a" := 9]), end);
    assert [LinkAdd("a")] + [Reconcile("a", "dead", WIDE, 2)] + [Reconcile("a", "kept", Host(0), 2)] + [Clean([GATEWAY], KEPT, map["a" := 9])] ==
           [LinkAdd("a"), Reconcile("a", "dead", WIDE, 2), Reconcile("a", "kept", Host(0), 2), Clean([GATEWAY], KEPT, map["a" := 9])];
    assert !Covered(end, "a", "kept");
  }
}
