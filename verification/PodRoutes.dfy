// The pod's main route table: what SetPodRoutes writes into it, and which link
// longest-prefix match then picks for every IPv4 destination.

module Prefixes {
  type Address = n: int | 0 <= n < 0x1_0000_0000
  type Length = n: int | 0 <= n <= 32

  datatype Cidr = Cidr(base: Address, len: Length)

  function Pow2(n: nat): (r: nat)
    ensures r > 0
  {
    if n == 0 then 1 else 2 * Pow2(n - 1)
  }

  /** The address with all but its first `len` bits cleared. */
  function Mask(a: Address, len: Length): (r: Address) {
    ModBelow(a, Pow2(32 - len));
    a - a % Pow2(32 - len)
  }

  lemma ModBelow(a: nat, p: nat)
    requires p > 0
    ensures 0 <= a % p <= a
  {
    assert a == p * (a / p) + a % p && p * (a / p) >= 0;
  }

  /** net.ParseCIDR keeps the network, not the host part. */
  function Network(c: Cidr): Cidr {
    Cidr(Mask(c.base, c.len), c.len)
  }

  predicate Contains(c: Cidr, a: Address) {
    Mask(a, c.len) == c.base
  }

  const EVERYWHERE := Cidr(0, 0)

  function Host(a: Address): Cidr {
    Cidr(a, 32)
  }

  /** A network contains exactly the addresses of its block. */
  lemma ContainsRange(c: Cidr, a: Address)
    ensures Contains(Network(c), a) <==> Network(c).base <= a < Network(c).base + Pow2(32 - c.len)
  {
    hide Pow2;
    SameBlock(c.base, a, Pow2(32 - c.len));
  }

  lemma SameBlock(x: int, y: int, p: int)
    requires p > 0
    ensures y - y % p == x - x % p <==> x - x % p <= y < x - x % p + p
  {
    assert x == p * (x / p) + x % p && y == p * (y / p) + y % p;
    if p * (x / p) <= y < p * (x / p) + p {
      SameQuotient(y, p, x / p);
    }
  }

  lemma SameQuotient(y: int, p: int, q: int)
    requires p > 0 && p * q <= y < p * q + p
    ensures y / p == q
  {
    var d := y / p;
    assert y == p * d + y % p;
    assert d < q ==> p * (d + 1) <= p * q;
    assert d > q ==> p * (q + 1) <= p * d;
  }

  lemma ContainsEnds(a: Address, b: Address)
    ensures Contains(EVERYWHERE, a)
    ensures Contains(Host(b), a) <==> a == b
  {
    assert Pow2(0) == 1 && Pow2(4) == 16;
    assert Pow2(8) == 256;
    assert Pow2(12) == 4096;
    assert Pow2(16) == 0x1_0000;
    assert Pow2(20) == 0x10_0000;
    assert Pow2(24) == 0x100_0000;
    assert Pow2(28) == 0x1000_0000;
    assert Pow2(32) == 0x1_0000_0000;
  }
}

module PodRoutes {
  import opened Wrappers
  import opened Sequences
  import opened Prefixes

  datatype Link = Eth0 | Wireguard
  datatype Via = Direct | Gateway(addr: Address) | LinkLocal
  datatype Hop = Hop(link: Link, via: Via)

  /** The kernel holds one route per destination and metric. */
  datatype Key = Key(dst: Cidr, metric: nat)
  datatype Tables = Tables(v4: map<Key, Hop>, v6: set<string>)

  /** A listed eth0 route; an IPv4 default may be listed without a destination. */
  datatype Entry = V4(dst: Option<Cidr>, metric: nat, via: Via) | V6(name: string)

  datatype Error = Unavailable | NoDefaultRoute | Malformed
  datatype Report = Report(dst: Cidr, via: Via)

  function DstOf(e: Entry): Cidr
    requires e.V4?
  {
    if e.dst.None? then EVERYWHERE else e.dst.value
  }

  // ---------------------------------------------------------------- the writes, in order

  datatype Write = Delete(key: Key) | DeleteV6(name: string) | Replace(dst: Cidr, hop: Hop)

  function Written(t: Tables, w: Write): Tables {
    match w
    case Delete(key) => t.(v4 := t.v4 - {key})
    case DeleteV6(name) => t.(v6 := t.v6 - {name})
    case Replace(dst, hop) => t.(v4 := t.v4[Key(dst, 0) := hop])
  }

  function Applied(t: Tables, ws: seq<Write>): Tables {
    if ws == [] then t else Written(Applied(t, ws[..|ws| - 1]), ws[|ws| - 1])
  }

  /** The gateway of the last IPv4 default route listed. */
  function DefaultOf(es: seq<Entry>): Option<Via> {
    if es == [] then None
    else
      var e := es[|es| - 1];
      if e.V4? && DstOf(e) == EVERYWHERE then Some(e.via) else DefaultOf(es[..|es| - 1])
  }

  function Deletion(e: Entry): Write {
    match e
    case V4(_, metric, _) => Delete(Key(DstOf(e), metric))
    case V6(name) => DeleteV6(name)
  }

  function Deletions(es: seq<Entry>): (r: seq<Write>)
    ensures |r| == |es|
  {
    seq(|es|, i requires 0 <= i < |es| => Deletion(es[i]))
  }

  predicate Bad(c: Option<Cidr>) { c.None? }

  /** Exceptions are routed one by one until one does not parse. */
  function Exceptions(cidrs: seq<Option<Cidr>>, hop: Hop): (r: seq<Write>)
    ensures |r| == FirstIndex(cidrs, Bad)
  {
    seq(FirstIndex(cidrs, Bad), i requires 0 <= i < FirstIndex(cidrs, Bad) => Replace(Network(cidrs[i].value), hop))
  }

  datatype Request = Request(toGateway: bool, exceptions: seq<Option<Cidr>>, excluded: seq<Option<Cidr>>)

  function Listed(q: Request): seq<Option<Cidr>> {
    if q.toGateway then q.exceptions + q.excluded else q.exceptions
  }

  function HopOf(q: Request, gw: Address): Hop {
    if q.toGateway then Hop(Eth0, Gateway(gw)) else Hop(Wireguard, LinkLocal)
  }

  function Preparation(es: seq<Entry>, q: Request, gw: Address): seq<Write> {
    if q.toGateway
    then Deletions(es) + [Replace(Host(gw), Hop(Eth0, Direct)), Replace(EVERYWHERE, Hop(Wireguard, LinkLocal))]
    else []
  }

  function Plan(es: seq<Entry>, q: Request, gw: Address): seq<Write> {
    Preparation(es, q, gw) + Exceptions(Listed(q), HopOf(q, gw))
  }

  function Reports(cidrs: seq<Option<Cidr>>, via: Via): seq<Report> {
    seq(FirstIndex(cidrs, Bad), i requires 0 <= i < FirstIndex(cidrs, Bad) => Report(Network(cidrs[i].value), via))
  }

  /** What the CNI result lists afterwards: what it listed before stays unless eth0's routes were dropped. */
  function Reported(before: seq<Report>, q: Request, gw: Address): seq<Report> {
    (if q.toGateway then [Report(Host(gw), Direct), Report(EVERYWHERE, LinkLocal)] else before) +
    Reports(Listed(q), HopOf(q, gw).via)
  }

  /** The writes that happen when only `calls` of them succeed. */
  function Cut(ws: seq<Write>, calls: nat): seq<Write> {
    if calls >= |ws| then ws else ws[..calls]
  }

  lemma AppliedNone(t: Tables)
    ensures Applied(t, []) == t
  {
  }

  lemma AppliedSnoc(t: Tables, ws: seq<Write>, w: Write)
    ensures Applied(t, ws + [w]) == Written(Applied(t, ws), w)
  {
  }

  lemma {:induction false} AppliedAppend(t: Tables, a: seq<Write>, b: seq<Write>)
    ensures Applied(t, a + b) == Applied(Applied(t, a), b)
  {
    if b == [] {
      assert a + b == a;
    } else {
      var init := b[..|b| - 1];
      AppliedAppend(t, a, init);
      assert (a + b)[..|a + b| - 1] == a + init;
    }
  }

  class PodNamespace {
    var tables: Tables

    /** One netlink write; fails when no more calls succeed. */
    method Try(w: Write, left: nat) returns (ok: bool)
      modifies this
      ensures ok <==> left > 0
      ensures tables == if ok then Written(old(tables), w) else old(tables)
    {
      ok := left > 0;
      if ok {
        match w {
          case Delete(key) => tables := tables.(v4 := tables.v4 - {key});
          case DeleteV6(name) => tables := tables.(v6 := tables.v6 - {name});
          case Replace(dst, hop) => tables := tables.(v4 := tables.v4[Key(dst, 0) := hop]);
        }
      }
    }

    method FindDefault(es: seq<Entry>) returns (found: Option<Via>)
      ensures found == DefaultOf(es)
    {
      found := None;
      var n := 0;
      while n < |es|
        invariant 0 <= n <= |es| && found == DefaultOf(es[..n])
      {
        assert es[..n + 1][..n] == es[..n];
        if es[n].V4? && (es[n].dst.None? || es[n].dst.value == EVERYWHERE) {
          found := Some(es[n].via);
        }
        n := n + 1;
      }
      assert es[..n] == es;
    }

    method DeleteAll(es: seq<Entry>, calls: nat) returns (ok: bool)
      modifies this
      ensures ok <==> calls >= |es|
      ensures tables == Applied(old(tables), Cut(Deletions(es), calls))
    {
      ghost var plan := Deletions(es);
      ghost var start := tables;
      ok := true;
      var n := 0;
      while n < |es|
        invariant 0 <= n <= |es| && n <= calls && tables == Applied(start, plan[..n])
      {
        AppliedSnoc(start, plan[..n], plan[n]);
        assert plan[..n + 1] == plan[..n] + [plan[n]];
        ok := Try(Deletion(es[n]), calls - n);
        if !ok {
          return;
        }
        n := n + 1;
      }
      assert plan[..n] == plan;
    }

    method Prepare(es: seq<Entry>, q: Request, gw: Address, calls: nat) returns (ok: bool)
      requires q.toGateway
      modifies this
      ensures ok <==> calls >= |es| + 2
      ensures tables == Applied(old(tables), Cut(Preparation(es, q, gw), calls))
    {
      hide Deletion;
      ghost var start, deletions, plan := tables, Deletions(es), Preparation(es, q, gw);
      ok := DeleteAll(es, calls);
      if !ok {
        assert Cut(plan, calls) == Cut(deletions, calls);
        return;
      }
      ok := Try(Replace(Host(gw), Hop(Eth0, Direct)), calls - |es|);
      AppliedSnoc(start, deletions, plan[|es|]);
      if !ok {
        assert Cut(plan, calls) == deletions;
        return;
      }
      ok := Try(Replace(EVERYWHERE, Hop(Wireguard, LinkLocal)), calls - |es| - 1);
      AppliedSnoc(start, deletions + [plan[|es|]], plan[|es| + 1]);
      assert plan == deletions + [plan[|es|]] + [plan[|es| + 1]];
      assert !ok ==> Cut(plan, calls) == deletions + [plan[|es|]];
    }

    method AddExceptions(cidrs: seq<Option<Cidr>>, hop: Hop, calls: nat, before: seq<Report>)
      returns (r: Result<(), Error>, reported: seq<Report>)
      modifies this
      ensures tables == Applied(old(tables), Cut(Exceptions(cidrs, hop), calls))
      ensures r.Ok? <==> calls >= |cidrs| == FirstIndex(cidrs, Bad)
      ensures r.Ok? ==> reported == before + Reports(cidrs, hop.via)
    {
      hide Network;
      ghost var plan := Exceptions(cidrs, hop);
      ghost var start := tables;
      reported := before;
      var n := 0;
      while n < |cidrs|
        invariant 0 <= n <= |cidrs| && n <= |plan| && n <= calls
        invariant tables == Applied(start, plan[..n])
        invariant forall i :: 0 <= i < n ==> cidrs[i].Some?
        invariant reported == before + Reports(cidrs, hop.via)[..n]
      {
        if cidrs[n].None? {
          FirstIs(cidrs, Bad, n);
          assert plan[..n] == plan;
          return Err(Malformed), reported;
        }
        AppliedSnoc(start, plan[..n], plan[n]);
        assert plan[..n + 1] == plan[..n] + [plan[n]];
        var ok := Try(Replace(Network(cidrs[n].value), hop), calls - n);
        if !ok {
          return Err(Unavailable), reported;
        }
        reported := reported + [Report(Network(cidrs[n].value), hop.via)];
        n := n + 1;
      }
      assert plan[..n] == plan;
      return Ok(()), reported;
    }

    /** `links` says both links and eth0's route list could be read; then `calls` route writes succeed. */
    method SetPodRoutes(links: bool, es: seq<Entry>, q: Request, before: seq<Report>, calls: nat)
      returns (r: Result<(), Error>, reported: seq<Report>)
      requires DefaultOf(es).Some? ==> DefaultOf(es).value.Gateway?
      modifies this
      ensures !links || DefaultOf(es).None? ==> r.Err? && tables == old(tables)
      ensures links && DefaultOf(es).Some? ==>
                var gw := DefaultOf(es).value.addr;
                tables == Applied(old(tables), Cut(Plan(es, q, gw), calls)) &&
                (r.Ok? <==> calls >= |Plan(es, q, gw)| && forall i :: 0 <= i < |Listed(q)| ==> Listed(q)[i].Some?) &&
                (r.Ok? ==> reported == Reported(before, q, gw))
    {
      hide Exceptions, Reports, Network, Deletions, Applied, DefaultOf, FirstIndex;
      var cidrs := if q.toGateway then q.exceptions + q.excluded else q.exceptions;
      reported := before;
      if !links {
        return Err(Unavailable), reported;
      }
      var found := FindDefault(es);
      if found.None? {
        return Err(NoDefaultRoute), reported;
      }
      var gw := found.value.addr;
      ghost var start, plan := tables, Plan(es, q, gw);
      var left := calls;
      if q.toGateway {
        var ok := Prepare(es, q, gw, calls);
        if !ok {
          assert Cut(plan, calls) == Cut(Preparation(es, q, gw), calls);
          return Err(Unavailable), reported;
        }
        left := calls - |es| - 2;
        reported := [Report(Host(gw), Direct), Report(EVERYWHERE, LinkLocal)];
      }
      AppliedNone(start);
      ghost var rest := Exceptions(cidrs, HopOf(q, gw));
      AppliedAppend(start, Preparation(es, q, gw), Cut(rest, left));
      assert Cut(plan, calls) == Preparation(es, q, gw) + Cut(rest, left);
      r, reported := AddExceptions(cidrs, HopOf(q, gw), left, reported);
    }
  }
}
