// Longest-prefix match on the table SetPodRoutes leaves behind.

module PodRoutesLookup {
  import opened Wrappers
  import opened Prefixes
  import opened PodRoutes

  // ---------------------------------------------------------------- lookup

  /** The longest prefix wins, then the lowest metric. */
  ghost predicate Better(k: Key, other: Key) {
    k.dst.len > other.dst.len || (k.dst.len == other.dst.len && k.metric <= other.metric)
  }

  ghost predicate Best(t: map<Key, Hop>, a: Address, k: Key) {
    k in t && Contains(k.dst, a) && forall other :: other in t && Contains(other.dst, a) ==> Better(k, other)
  }

  ghost predicate GoesOut(t: map<Key, Hop>, a: Address, link: Link) {
    exists k :: Best(t, a, k) && t[k].link == link
  }

  /** At most one route is best, so an address goes out on at most one link. */
  lemma BestUnique(t: map<Key, Hop>, a: Address, k: Key, other: Key)
    requires Best(t, a, k) && Best(t, a, other)
    ensures k == other
  {
  }

  lemma {:induction false} BestExists(t: map<Key, Hop>, a: Address, k: Key)
    requires k in t && Contains(k.dst, a)
    ensures exists best :: Best(t, a, best) && Better(best, k)
    decreases |t|
  {
    hide Contains;
    var rest := t - {k};
    if exists other :: other in rest && Contains(other.dst, a) {
      var other :| other in rest && Contains(other.dst, a);
      assert t.Keys == rest.Keys + {k};
      BestExists(rest, a, other);
      var best :| Best(rest, a, best) && Better(best, other);
      assert Best(t, a, if Better(k, best) then k else best);
    } else {
      assert Best(t, a, k);
    }
  }

  // ---------------------------------------------------------------- what the writes do to the table

  ghost predicate Replaces(ws: seq<Write>, hop: Hop) {
    forall i :: 0 <= i < |ws| ==> ws[i].Replace? && ws[i].hop == hop
  }

  ghost predicate Sets(ws: seq<Write>, k: Key) {
    k.metric == 0 && exists i :: 0 <= i < |ws| && ws[i].Replace? && ws[i].dst == k.dst
  }

  lemma {:induction false} ReplacedKeys(t: Tables, ws: seq<Write>, hop: Hop)
    requires Replaces(ws, hop)
    ensures Applied(t, ws).v6 == t.v6
    ensures var after := Applied(t, ws);
            forall k :: (k in after.v4 <==> k in t.v4 || Sets(ws, k)) &&
                        (k in after.v4 ==> after.v4[k] == if Sets(ws, k) then hop else t.v4[k])
  {
    if ws != [] {
      var init, last := ws[..|ws| - 1], ws[|ws| - 1];
      ReplacedKeys(t, init, hop);
      forall k
        ensures Sets(ws, k) <==> Sets(init, k) || k == Key(last.dst, 0)
      {
        if Sets(init, k) {
          var i :| 0 <= i < |init| && init[i].Replace? && init[i].dst == k.dst;
          assert ws[i].dst == k.dst;
        }
      }
    }
  }

  /** The list has this route; an IPv4 default may be listed without a destination. */
  ghost predicate Has(es: seq<Entry>, k: Key) {
    exists i :: 0 <= i < |es| && es[i].V4? && es[i].metric == k.metric && (es[i].dst == Some(k.dst) || (es[i].dst.None? && k.dst == EVERYWHERE))
  }

  /** The list holds every route of the pod's main tables: none leaves through another link. */
  ghost predicate Lists(t: Tables, es: seq<Entry>) {
    (forall k :: k in t.v4 ==> Has(es, k)) && (forall n :: n in t.v6 ==> V6(n) in es)
  }

  lemma DeletionsOf(es: seq<Entry>)
    ensures forall k :: Delete(k) in Deletions(es) <==> Has(es, k)
    ensures forall n :: DeleteV6(n) in Deletions(es) <==> V6(n) in es
  {
    var ws := Deletions(es);
    forall k | Has(es, k)
      ensures Delete(k) in ws
    {
      var i :| 0 <= i < |es| && es[i].V4? && es[i].metric == k.metric && (es[i].dst == Some(k.dst) || (es[i].dst.None? && k.dst == EVERYWHERE));
      assert ws[i] == Delete(k);
    }
    forall n | V6(n) in es
      ensures DeleteV6(n) in ws
    {
      var i :| 0 <= i < |es| && es[i] == V6(n);
      assert ws[i] == DeleteV6(n);
    }
  }

  lemma DeletionsCut(es: seq<Entry>, n: nat)
    requires n <= |es|
    ensures Deletions(es)[..n] == Deletions(es[..n])
  {
  }

  ghost predicate OnEth0(t: Tables) {
    forall k :: k in t.v4 ==> t.v4[k].link == Eth0
  }

  lemma {:induction false} DeletedKeys(t: Tables, ws: seq<Write>)
    requires forall i :: 0 <= i < |ws| ==> !ws[i].Replace?
    ensures forall k :: k in Applied(t, ws).v4 <==> k in t.v4 && Delete(k) !in ws
    ensures forall n :: n in Applied(t, ws).v6 <==> n in t.v6 && DeleteV6(n) !in ws
  {
    if ws != [] {
      var init, last := ws[..|ws| - 1], ws[|ws| - 1];
      assert ws == init + [last];
      DeletedKeys(t, init);
    }
  }

  lemma DeletedAll(t: Tables, es: seq<Entry>)
    requires Lists(t, es)
    ensures Applied(t, Deletions(es)) == Tables(map[], {})
  {
    var after := Applied(t, Deletions(es));
    DeletedKeys(t, Deletions(es));
    DeletionsOf(es);
    assert after.v4.Keys == {};
    assert after.v6 == {};
  }

  // ---------------------------------------------------------------- the policy

  /** The address lies in one of the listed networks. */
  ghost predicate InAny(cidrs: seq<Option<Cidr>>, a: Address) {
    exists i :: 0 <= i < |cidrs| && cidrs[i].Some? && Contains(Network(cidrs[i].value), a)
  }

  ghost predicate AllParse(cidrs: seq<Option<Cidr>>) {
    forall i :: 0 <= i < |cidrs| ==> cidrs[i].Some?
  }

  lemma ExceptionKeys(cidrs: seq<Option<Cidr>>, hop: Hop, k: Key)
    requires AllParse(cidrs)
    ensures Sets(Exceptions(cidrs, hop), k) <==>
            k.metric == 0 && exists i :: 0 <= i < |cidrs| && k.dst == Network(cidrs[i].value)
  {
    hide Network;
    var ws := Exceptions(cidrs, hop);
    assert |ws| == |cidrs|;
    if i :| 0 <= i < |cidrs| && k.dst == Network(cidrs[i].value) {
      assert ws[i].dst == k.dst;
    }
  }

  /** The routes once eth0's were dropped and the two fixed ones written. */
  function Base(gw: Address): map<Key, Hop> {
    map[Key(Host(gw), 0) := Hop(Eth0, Direct)][Key(EVERYWHERE, 0) := Hop(Wireguard, LinkLocal)]
  }

  lemma PreparedTable(t: Tables, es: seq<Entry>, q: Request, gw: Address)
    requires q.toGateway && Lists(t, es)
    ensures Applied(t, Preparation(es, q, gw)) == Tables(Base(gw), {})
  {
    hide Deletions;
    var host, default := Replace(Host(gw), Hop(Eth0, Direct)), Replace(EVERYWHERE, Hop(Wireguard, LinkLocal));
    DeletedAll(t, es);
    AppliedSnoc(t, Deletions(es), host);
    AppliedSnoc(t, Deletions(es) + [host], default);
    assert Preparation(es, q, gw) == Deletions(es) + [host] + [default];
  }

  lemma GatewayTable(t: Tables, es: seq<Entry>, q: Request, gw: Address)
    requires q.toGateway && Lists(t, es) && AllParse(Listed(q))
    ensures Applied(t, Plan(es, q, gw)).v6 == {}
    ensures var after := Applied(t, Plan(es, q, gw)).v4; var ws := Exceptions(Listed(q), HopOf(q, gw));
            forall k :: (k in after <==> k in Base(gw) || Sets(ws, k)) &&
                        (k in after ==> after[k] == if Sets(ws, k) then Hop(Eth0, Gateway(gw)) else Base(gw)[k])
  {
    hide Preparation, Lists;
    var ws := Exceptions(Listed(q), HopOf(q, gw));
    PreparedTable(t, es, q, gw);
    AppliedAppend(t, Preparation(es, q, gw), ws);
    ReplacedKeys(Tables(Base(gw), {}), ws, Hop(Eth0, Gateway(gw)));
  }

  /**
   * Default to the gateway: an address leaves on eth0 exactly when it is the original next hop or
   * lies in an exception or excluded network, however those overlap or repeat; all others use the tunnel.
   */
  lemma GatewayPolicy(t: Tables, es: seq<Entry>, q: Request, gw: Address, a: Address)
    requires q.toGateway && Lists(t, es) && AllParse(Listed(q))
    ensures GoesOut(Applied(t, Plan(es, q, gw)).v4, a, Eth0) <==> a == gw || InAny(q.exceptions + q.excluded, a)
    ensures GoesOut(Applied(t, Plan(es, q, gw)).v4, a, Wireguard) <==> !(a == gw || InAny(q.exceptions + q.excluded, a))
  {
    hide Applied, Plan, Lists, Mask, Exceptions, Sets;
    var after, cidrs := Applied(t, Plan(es, q, gw)).v4, Listed(q);
    var ws := Exceptions(cidrs, HopOf(q, gw));
    GatewayTable(t, es, q, gw);
    ContainsEnds(a, gw);
    var everywhere, host := Key(EVERYWHERE, 0), Key(Host(gw), 0);
    assert everywhere in Base(gw) && host in Base(gw);
    BestExists(after, a, everywhere);
    var k :| Best(after, a, k) && Better(k, everywhere);
    ExceptionKeys(cidrs, HopOf(q, gw), k);
    if a == gw {
      assert Better(k, host);
      assert k == host;
    }
    if i :| 0 <= i < |cidrs| && Contains(Network(cidrs[i].value), a) {
      var e := Key(Network(cidrs[i].value), 0);
      ExceptionKeys(cidrs, HopOf(q, gw), e);
      assert Better(k, e);
      assert k == everywhere ==> e == k;
    }
    assert GoesOut(after, a, after[k].link);
    if other :| Best(after, a, other) && after[other].link != after[k].link {
      BestUnique(after, a, k, other);
    }
  }

  /** Wherever the gateway programming stops after the old routes are gone, every eth0 route is the next hop's or an exception's. */
  lemma {:induction false} GatewayRoutesClosed(t: Tables, es: seq<Entry>, q: Request, gw: Address, n: nat, k: Key)
    requires q.toGateway && Lists(t, es) && |es| <= n <= |Plan(es, q, gw)|
    requires k in Applied(t, Plan(es, q, gw)[..n]).v4 && Applied(t, Plan(es, q, gw)[..n]).v4[k].link == Eth0
    ensures k == Key(Host(gw), 0) ||
            exists i :: 0 <= i < |Listed(q)| && Listed(q)[i].Some? && k == Key(Network(Listed(q)[i].value), 0)
    decreases n
  {
    hide Lists, Network, Deletions;
    var plan := Plan(es, q, gw);
    if n == |es| {
      assert plan[..n] == Deletions(es);
      DeletedAll(t, es);
    } else {
      var before, w := Applied(t, plan[..n - 1]), plan[n - 1];
      assert plan[..n][..n - 1] == plan[..n - 1];
      assert w.Replace?;
      if k != Key(w.dst, 0) {
        GatewayRoutesClosed(t, es, q, gw, n - 1, k);
      } else if n > |es| + 2 {
        var i := n - |es| - 3;
        assert w == Exceptions(Listed(q), HopOf(q, gw))[i];
      }
    }
  }

  /** While the old routes are being deleted, exactly those not deleted yet still take traffic out, on eth0. */
  lemma GatewayDeleting(t: Tables, es: seq<Entry>, q: Request, gw: Address, n: nat, a: Address)
    requires q.toGateway && OnEth0(t) && n <= |es|
    ensures GoesOut(Applied(t, Plan(es, q, gw)[..n]).v4, a, Eth0) <==>
            exists k :: k in t.v4 && !Has(es[..n], k) && Contains(k.dst, a)
    ensures !GoesOut(Applied(t, Plan(es, q, gw)[..n]).v4, a, Wireguard)
  {
    hide Applied, Contains, Has;
    var ws := Deletions(es)[..n];
    assert Plan(es, q, gw)[..n] == ws;
    var after := Applied(t, ws).v4;
    DeletionsCut(es, n);
    DeletionsOf(es[..n]);
    DeletedKeys(t, ws);
    KeptHops(t, ws);
    if k :| k in t.v4 && !Has(es[..n], k) && Contains(k.dst, a) {
      BestExists(after, a, k);
    }
  }

  lemma {:induction false} KeptHops(t: Tables, ws: seq<Write>)
    requires forall i :: 0 <= i < |ws| ==> !ws[i].Replace?
    ensures forall k :: k in Applied(t, ws).v4 ==> k in t.v4 && Applied(t, ws).v4[k] == t.v4[k]
  {
    if ws != [] {
      KeptHops(t, ws[..|ws| - 1]);
    }
  }

  /** With only the next hop's route written, nothing else goes anywhere. */
  lemma GatewayHostOnly(t: Tables, es: seq<Entry>, q: Request, gw: Address, a: Address)
    requires q.toGateway && Lists(t, es)
    ensures GoesOut(Applied(t, Plan(es, q, gw)[..|es| + 1]).v4, a, Eth0) <==> a == gw
    ensures !GoesOut(Applied(t, Plan(es, q, gw)[..|es| + 1]).v4, a, Wireguard)
  {
    hide Applied, Deletions, Lists, Contains;
    var host, k := Replace(Host(gw), Hop(Eth0, Direct)), Key(Host(gw), 0);
    assert Plan(es, q, gw)[..|es| + 1] == Deletions(es) + [host];
    DeletedAll(t, es);
    AppliedSnoc(t, Deletions(es), host);
    var after := Applied(t, Deletions(es) + [host]).v4;
    assert after.Keys == {k} && after[k].link == Eth0;
    ContainsEnds(a, gw);
    assert a == gw ==> Best(after, a, k);
  }

  /** From then on, the policy holds of the exceptions written so far. */
  lemma GatewayWriting(t: Tables, es: seq<Entry>, q: Request, gw: Address, n: nat, a: Address)
    requires q.toGateway && Lists(t, es) && |es| + 2 <= n <= |Plan(es, q, gw)|
    ensures var leaves := a == gw || InAny((q.exceptions + q.excluded)[..n - |es| - 2], a);
            (GoesOut(Applied(t, Plan(es, q, gw)[..n]).v4, a, Eth0) <==> leaves) &&
            (GoesOut(Applied(t, Plan(es, q, gw)[..n]).v4, a, Wireguard) <==> !leaves)
  {
    hide Applied, GoesOut, Lists, InAny, Network;
    var m := n - |es| - 2;
    var some := Request(true, Listed(q)[..m], []);
    assert Listed(some) == Listed(q)[..m] == some.exceptions + some.excluded;
    assert AllParse(Listed(some));
    assert Exceptions(Listed(some), HopOf(q, gw)) == Exceptions(Listed(q), HopOf(q, gw))[..m];
    assert Plan(es, q, gw)[..n] == Plan(es, some, gw);
    GatewayPolicy(t, es, some, gw, a);
  }

  /** Only the old next hop and the excepted addresses leave on eth0. */
  ghost predicate Closed(t: map<Key, Hop>, q: Request, gw: Address) {
    forall a :: GoesOut(t, a, Eth0) ==> a == gw || InAny(q.exceptions + q.excluded, a)
  }

  /** Every old route among the first `n` deletions' survivors reaches such addresses only. */
  ghost predicate NothingToLeak(t: Tables, es: seq<Entry>, q: Request, gw: Address, n: nat) {
    forall k, a :: k in t.v4 && !Has(es[..if n < |es| then n else |es|], k) && Contains(k.dst, a) ==>
      a == gw || InAny(q.exceptions + q.excluded, a)
  }

  /** Programming that stops after any number of writes fails closed exactly when no old route it left reaches anything else. */
  lemma GatewayFailsClosed(t: Tables, es: seq<Entry>, q: Request, gw: Address, n: nat)
    requires q.toGateway && OnEth0(t) && Lists(t, es) && n <= |Plan(es, q, gw)|
    ensures Closed(Applied(t, Plan(es, q, gw)[..n]).v4, q, gw) <==> NothingToLeak(t, es, q, gw, n)
  {
    hide Applied, GoesOut, Exceptions, OnEth0, Contains, InAny, Has;
    var after := Applied(t, Plan(es, q, gw)[..n]).v4;
    if n <= |es| {
      forall a
        ensures GoesOut(after, a, Eth0) <==> exists k :: k in t.v4 && !Has(es[..n], k) && Contains(k.dst, a)
      {
        GatewayDeleting(t, es, q, gw, n, a);
      }
    } else {
      assert es[..|es|] == es;
      forall a | GoesOut(after, a, Eth0)
        ensures a == gw || InAny(q.exceptions + q.excluded, a)
      {
        if n == |es| + 1 {
          GatewayHostOnly(t, es, q, gw, a);
        } else {
          GatewayWriting(t, es, q, gw, n, a);
          InSome(q.exceptions + q.excluded, n - |es| - 2, a);
        }
      }
    }
  }

  lemma InSome(cidrs: seq<Option<Cidr>>, m: nat, a: Address)
    requires m <= |cidrs|
    ensures InAny(cidrs[..m], a) ==> InAny(cidrs, a)
  {
    if i :| 0 <= i < m && cidrs[..m][i].Some? && Contains(Network(cidrs[..m][i].value), a) {
      assert cidrs[i] == cidrs[..m][i];
    }
  }

  /** When the first deletion fails, the old default route still takes every address out on eth0. */
  lemma DeletionLeaks(gw: Address, a: Address)
    ensures var t, es := Tables(map[Key(EVERYWHERE, 0) := Hop(Eth0, Gateway(gw))], {}), [V4(None, 0, Gateway(gw))];
            Lists(t, es) && GoesOut(Applied(t, Plan(es, Request(true, [], []), gw)[..0]).v4, a, Eth0) &&
            (a != gw ==> !Closed(Applied(t, Plan(es, Request(true, [], []), gw)[..0]).v4, Request(true, [], []), gw))
  {
    var t, es := Tables(map[Key(EVERYWHERE, 0) := Hop(Eth0, Gateway(gw))], {}), [V4(None, 0, Gateway(gw))];
    assert es[0].V4?;
    ContainsEnds(a, gw);
    assert es[..0] == [];
    GatewayDeleting(t, es, Request(true, [], []), gw, 0, a);
    assert Key(EVERYWHERE, 0) in t.v4;
  }

  // ---------------------------------------------------------------- default to Azure networking

  /** Some exception containing the address is at least as long as every old route containing it. */
  ghost predicate Excepted(t: Tables, cidrs: seq<Option<Cidr>>, a: Address) {
    exists i :: 0 <= i < |cidrs| && cidrs[i].Some? && Contains(Network(cidrs[i].value), a) &&
                Outranks(t, cidrs[i].value, a)
  }

  ghost predicate Outranks(t: Tables, c: Cidr, a: Address) {
    forall k :: k in t.v4 && Contains(k.dst, a) ==> c.len >= k.dst.len
  }

  /**
   * Default to Azure networking: the tunnel is used exactly for the excepted addresses,
   * and every other address the old routes reached still leaves on eth0.
   */
  lemma AzurePolicy(t: Tables, es: seq<Entry>, q: Request, gw: Address, a: Address)
    requires !q.toGateway && OnEth0(t) && AllParse(q.exceptions)
    ensures GoesOut(Applied(t, Plan(es, q, gw)).v4, a, Wireguard) <==> Excepted(t, q.exceptions, a)
    ensures GoesOut(Applied(t, Plan(es, q, gw)).v4, a, Eth0) <==>
            !Excepted(t, q.exceptions, a) && exists k :: k in t.v4 && Contains(k.dst, a)
  {
    hide Applied, Mask, Exceptions, Sets;
    var cidrs := q.exceptions;
    var ws := Exceptions(cidrs, HopOf(q, gw));
    assert Plan(es, q, gw) == ws;
    var after := Applied(t, ws).v4;
    ExceptionsReplace(cidrs, HopOf(q, gw));
    ReplacedKeys(t, ws, Hop(Wireguard, LinkLocal));
    forall k
      ensures Sets(ws, k) <==> k.metric == 0 && exists i :: 0 <= i < |cidrs| && k.dst == Network(cidrs[i].value)
    {
      ExceptionKeys(cidrs, HopOf(q, gw), k);
    }
    forall k | Best(after, a, k)
      ensures after[k].link == Wireguard <==> Excepted(t, cidrs, a)
    {
      AzureBest(t, cidrs, ws, after, a, k);
    }
    if i :| 0 <= i < |cidrs| && Contains(Network(cidrs[i].value), a) {
      BestExists(after, a, Key(Network(cidrs[i].value), 0));
    }
    if k :| k in t.v4 && Contains(k.dst, a) {
      BestExists(after, a, k);
      var best :| Best(after, a, best);
      assert GoesOut(after, a, after[best].link);
    }
  }

  lemma ExceptionsReplace(cidrs: seq<Option<Cidr>>, hop: Hop)
    ensures Replaces(Exceptions(cidrs, hop), hop)
  {
  }

  lemma AzureBest(t: Tables, cidrs: seq<Option<Cidr>>, ws: seq<Write>, after: map<Key, Hop>, a: Address, k: Key)
    requires OnEth0(t) && AllParse(cidrs) && Best(after, a, k)
    requires forall k :: (k in after <==> k in t.v4 || Sets(ws, k)) &&
                         (k in after ==> after[k] == if Sets(ws, k) then Hop(Wireguard, LinkLocal) else t.v4[k])
    requires forall k :: Sets(ws, k) <==> k.metric == 0 && exists i :: 0 <= i < |cidrs| && k.dst == Network(cidrs[i].value)
    ensures after[k].link == Wireguard <==> Excepted(t, cidrs, a)
  {
    hide Mask, Sets;
    if Sets(ws, k) {
      var i :| 0 <= i < |cidrs| && k.dst == Network(cidrs[i].value);
      forall old' | old' in t.v4 && Contains(old'.dst, a)
        ensures k.dst.len >= old'.dst.len
      {
        assert Better(k, old');
      }
      assert Outranks(t, cidrs[i].value, a);
    }
    if Excepted(t, cidrs, a) {
      var i :| 0 <= i < |cidrs| && cidrs[i].Some? && Contains(Network(cidrs[i].value), a) && Outranks(t, cidrs[i].value, a);
      var e := Key(Network(cidrs[i].value), 0);
      assert Sets(ws, e) && Better(k, e);
      assert !Sets(ws, k) ==> k == e;
    }
  }

  // ---------------------------------------------------------------- next hops

  /** The key is that of a listed network. */
  ghost predicate IsException(cidrs: seq<Option<Cidr>>, k: Key) {
    k.metric == 0 && exists i :: 0 <= i < |cidrs| && cidrs[i].Some? && k.dst == Network(cidrs[i].value)
  }

  ghost predicate Delivers(t: map<Key, Hop>, a: Address, hop: Hop) {
    exists k :: Best(t, a, k) && t[k] == hop
  }

  /** The whole table in gateway mode, next hops included; no IPv6 route is left. */
  lemma GatewayHops(t: Tables, es: seq<Entry>, q: Request, gw: Address, k: Key)
    requires q.toGateway && Lists(t, es) && AllParse(Listed(q))
    ensures Applied(t, Plan(es, q, gw)).v6 == {}
    ensures var after, excepted := Applied(t, Plan(es, q, gw)).v4, IsException(q.exceptions + q.excluded, k);
            (k in after <==> excepted || k == Key(Host(gw), 0) || k == Key(EVERYWHERE, 0)) &&
            (k in after ==>
               after[k] == if excepted then Hop(Eth0, Gateway(gw)) else if k == Key(Host(gw), 0) then Hop(Eth0, Direct)
                           else Hop(Wireguard, LinkLocal))
  {
    hide Applied, Plan, Lists, Network;
    GatewayTable(t, es, q, gw);
    ExceptionKeys(Listed(q), HopOf(q, gw), k);
  }

  /** The whole table in Azure mode: the exceptions through the tunnel, every other old route as it was. */
  lemma AzureHops(t: Tables, es: seq<Entry>, q: Request, gw: Address, k: Key)
    requires !q.toGateway && AllParse(q.exceptions)
    ensures Applied(t, Plan(es, q, gw)).v6 == t.v6
    ensures var after, excepted := Applied(t, Plan(es, q, gw)).v4, IsException(q.exceptions, k);
            (k in after <==> excepted || k in t.v4) && (k in after ==> after[k] == if excepted then Hop(Wireguard, LinkLocal) else t.v4[k])
  {
    hide Applied, Network;
    var ws := Exceptions(q.exceptions, HopOf(q, gw));
    assert Plan(es, q, gw) == ws;
    ExceptionsReplace(q.exceptions, HopOf(q, gw));
    ReplacedKeys(t, ws, Hop(Wireguard, LinkLocal));
    ExceptionKeys(q.exceptions, HopOf(q, gw), k);
  }

  /** The old next hop is reached directly, listed networks through it, and everything else through the tunnel. */
  function GatewayHop(direct: bool, listed: bool, gw: Address): Hop {
    if direct then Hop(Eth0, Direct) else if listed then Hop(Eth0, Gateway(gw)) else Hop(Wireguard, LinkLocal)
  }

  /** In gateway mode every address has exactly that next hop; the direct route goes only if its own /32 is listed. */
  lemma GatewayNextHop(t: Tables, es: seq<Entry>, q: Request, gw: Address, a: Address, hop: Hop)
    requires q.toGateway && Lists(t, es) && AllParse(Listed(q))
    ensures var cidrs := q.exceptions + q.excluded;
            Delivers(Applied(t, Plan(es, q, gw)).v4, a, hop) <==>
            hop == GatewayHop(a == gw && !IsException(cidrs, Key(Host(gw), 0)), InAny(cidrs, a), gw)
  {
    hide Applied, Plan, Lists, Mask, IsException;
    var after, cidrs := Applied(t, Plan(es, q, gw)).v4, q.exceptions + q.excluded;
    var everywhere, host := Key(EVERYWHERE, 0), Key(Host(gw), 0);
    GatewayHops(t, es, q, gw, everywhere);
    GatewayHops(t, es, q, gw, host);
    ContainsEnds(a, gw);
    BestExists(after, a, everywhere);
    var k :| Best(after, a, k) && Better(k, everywhere);
    GatewayHops(t, es, q, gw, k);
    BestListed(after, cidrs, a, k) by {
      forall e | IsException(cidrs, e)
        ensures e in after
      {
        GatewayHops(t, es, q, gw, e);
      }
    }
    assert a == gw ==> k == host;
    forall other | Best(after, a, other)
      ensures other == k
    {
      BestUnique(after, a, k, other);
    }
  }

  /** A table that has every listed network sends an address of one along a route at least as long. */
  lemma BestListed(t: map<Key, Hop>, cidrs: seq<Option<Cidr>>, a: Address, k: Key)
    requires Best(t, a, k) && forall e :: IsException(cidrs, e) ==> e in t
    ensures IsException(cidrs, k) ==> InAny(cidrs, a)
    ensures InAny(cidrs, a) && k.dst == EVERYWHERE ==> IsException(cidrs, k)
  {
    hide Mask;
    if i :| 0 <= i < |cidrs| && cidrs[i].Some? && Contains(Network(cidrs[i].value), a) {
      var e := Key(Network(cidrs[i].value), 0);
      assert IsException(cidrs, e) && Better(k, e);
    }
  }

  lemma AzureChoice(t: Tables, cidrs: seq<Option<Cidr>>, after: map<Key, Hop>, a: Address, k: Key)
    requires AllParse(cidrs) && Best(after, a, k) && forall e :: e in after <==> IsException(cidrs, e) || e in t.v4
    ensures IsException(cidrs, k) <==> Excepted(t, cidrs, a)
  {
    hide Mask;
    if IsException(cidrs, k) {
      var i :| 0 <= i < |cidrs| && cidrs[i].Some? && k.dst == Network(cidrs[i].value);
      assert forall o :: o in t.v4 && Contains(o.dst, a) ==> Better(k, o);
      assert Outranks(t, cidrs[i].value, a);
    }
    if Excepted(t, cidrs, a) {
      var i :| 0 <= i < |cidrs| && cidrs[i].Some? && Contains(Network(cidrs[i].value), a) && Outranks(t, cidrs[i].value, a);
      var e := Key(Network(cidrs[i].value), 0);
      assert IsException(cidrs, e) && Better(k, e);
      assert k in t.v4 ==> k == e;
    }
  }

  /** In Azure mode an excepted address goes through the tunnel and every other one exactly where it went before. */
  lemma AzureNextHop(t: Tables, es: seq<Entry>, q: Request, gw: Address, a: Address, hop: Hop)
    requires !q.toGateway && AllParse(q.exceptions)
    ensures Delivers(Applied(t, Plan(es, q, gw)).v4, a, hop) <==>
            if Excepted(t, q.exceptions, a) then hop == Hop(Wireguard, LinkLocal) else Delivers(t.v4, a, hop)
  {
    hide Applied, Plan, Mask, IsException, Excepted;
    var after, cidrs := Applied(t, Plan(es, q, gw)).v4, q.exceptions;
    forall k
      ensures (k in after <==> IsException(cidrs, k) || k in t.v4) &&
              (k in after ==> after[k] == if IsException(cidrs, k) then Hop(Wireguard, LinkLocal) else t.v4[k])
    {
      AzureHops(t, es, q, gw, k);
    }
    forall k | Best(after, a, k)
      ensures IsException(cidrs, k) <==> Excepted(t, cidrs, a)
      ensures !Excepted(t, cidrs, a) ==> Best(t.v4, a, k)
    {
      AzureChoice(t, cidrs, after, a, k);
    }
    if Excepted(t, cidrs, a) {
      var e := ExceptedKey(t, cidrs, a);
      BestExists(after, a, e);
    } else if k :| Best(t.v4, a, k) {
      BestExists(after, a, k);
      var best :| Best(after, a, best);
      BestUnique(t.v4, a, k, best);
    }
  }

  lemma ExceptedKey(t: Tables, cidrs: seq<Option<Cidr>>, a: Address) returns (e: Key)
    requires Excepted(t, cidrs, a)
    ensures IsException(cidrs, e) && Contains(e.dst, a)
  {
    hide Mask;
    var i :| 0 <= i < |cidrs| && cidrs[i].Some? && Contains(Network(cidrs[i].value), a) && Outranks(t, cidrs[i].value, a);
    e := Key(Network(cidrs[i].value), 0);
  }

  // ---------------------------------------------------------------- the CNI result

  /** The last report of a destination is the one that counts. */
  ghost predicate LastReport(reports: seq<Report>, i: int, dst: Cidr) {
    0 <= i < |reports| && reports[i].dst == dst && forall j :: i < j < |reports| ==> reports[j].dst != dst
  }

  /** In gateway mode the CNI result names exactly the table's destinations, each with its next hop. */
  lemma GatewayReported(t: Tables, es: seq<Entry>, q: Request, gw: Address, before: seq<Report>, dst: Cidr)
    requires q.toGateway && Lists(t, es) && AllParse(Listed(q))
    ensures var after, reports := Applied(t, Plan(es, q, gw)).v4, Reported(before, q, gw);
            (Key(dst, 0) in after <==> exists i :: LastReport(reports, i, dst)) &&
            (forall i :: LastReport(reports, i, dst) ==> Key(dst, 0) in after && reports[i].via == after[Key(dst, 0)].via)
  {
    hide Applied, Plan, Lists, Network;
    var reports, cidrs := Reported(before, q, gw), Listed(q);
    GatewayHops(t, es, q, gw, Key(dst, 0));
    assert reports[0] == Report(Host(gw), Direct) && reports[1] == Report(EVERYWHERE, LinkLocal);
    forall i | 2 <= i < |reports|
      ensures reports[i] == Report(Network(cidrs[i - 2].value), Gateway(gw))
    {
    }
    if IsException(cidrs, Key(dst, 0)) {
      var i :| 0 <= i < |cidrs| && cidrs[i].Some? && dst == Network(cidrs[i].value);
      assert reports[i + 2].dst == dst;
    } else {
      assert forall i :: 2 <= i < |reports| ==> reports[i].dst != dst;
    }
    HasLast(reports, dst);
  }

  lemma HasLast(reports: seq<Report>, dst: Cidr)
    ensures (exists i :: LastReport(reports, i, dst)) <==> exists i :: 0 <= i < |reports| && reports[i].dst == dst
  {
    if i :| 0 <= i < |reports| && reports[i].dst == dst {
      var n := |reports| - 1;
      while reports[n].dst != dst
        invariant i <= n < |reports|
        invariant forall j :: n < j < |reports| ==> reports[j].dst != dst
        decreases n
      {
        n := n - 1;
      }
      assert LastReport(reports, n, dst);
    }
  }

  /** In Azure mode the earlier reports stay, and the new ones name exactly the exceptions, with their next hop. */
  lemma AzureReported(t: Tables, es: seq<Entry>, q: Request, gw: Address, before: seq<Report>, dst: Cidr)
    requires !q.toGateway && AllParse(q.exceptions)
    ensures var after, reports := Applied(t, Plan(es, q, gw)).v4, Reported(before, q, gw);
            before <= reports &&
            (IsException(q.exceptions, Key(dst, 0)) <==> exists i :: |before| <= i < |reports| && reports[i].dst == dst) &&
            (forall i :: |before| <= i < |reports| && reports[i].dst == dst ==>
               Key(dst, 0) in after && reports[i].via == after[Key(dst, 0)].via)
  {
    hide Applied, Plan, Network;
    var reports, cidrs := Reported(before, q, gw), q.exceptions;
    AzureHops(t, es, q, gw, Key(dst, 0));
    forall i | |before| <= i < |reports|
      ensures reports[i] == Report(Network(cidrs[i - |before|].value), LinkLocal)
    {
    }
    if IsException(cidrs, Key(dst, 0)) {
      var i :| 0 <= i < |cidrs| && cidrs[i].Some? && dst == Network(cidrs[i].value);
      assert reports[|before| + i].dst == dst;
    }
  }

  /** The next hop kept is that of the last IPv4 default route listed, with or without a destination. */
  lemma {:induction false} DefaultIs(es: seq<Entry>, i: nat)
    requires i < |es| && IsDefault(es[i]) && forall j :: i < j < |es| ==> !IsDefault(es[j])
    ensures DefaultOf(es) == Some(es[i].via)
    decreases |es|
  {
    if i < |es| - 1 {
      DefaultIs(es[..|es| - 1], i);
    }
  }

  ghost predicate IsDefault(e: Entry) {
    e.V4? && (e.dst.None? || e.dst == Some(Cidr(0, 0)))
  }

  lemma {:induction false} NoDefault(es: seq<Entry>)
    ensures DefaultOf(es).None? <==> forall i :: 0 <= i < |es| ==> !IsDefault(es[i])
  {
    if es != [] {
      NoDefault(es[..|es| - 1]);
      assert IsDefault(es[|es| - 1]) <==> es[|es| - 1].V4? && DstOf(es[|es| - 1]) == EVERYWHERE;
    }
  }
}
