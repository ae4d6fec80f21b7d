// Every table the daemon can leave in the gateway namespace, and how it treats connections.

module GatewayNatRuns {
  import opened Wrappers
  import opened LinkNames
  import opened IpTables
  import opened GatewayNat
  import R = IpTablesRuns

  // ---------------------------------------------------------------- the shape of every reachable table

  ghost predicate ValidPort(port: int) {
    0 < port < 0x8000_0000
  }

  ghost predicate IsMarkJump(r: Rule) {
    exists port :: ValidPort(port) && r == JumpTo(MarkChain(port))
  }

  ghost predicate IsSnatJump(r: Rule) {
    exists port :: ValidPort(port) && r == JumpTo(SnatChain(port, ""))
  }

  /** Built-in chains hold jumps to their ports' chains; a port's chain holds its own rule or nothing yet. */
  ghost predicate Shaped(t: Table) {
    PREROUTING in t && POSTROUTING in t &&
    (forall r :: r in t[PREROUTING] ==> IsMarkJump(r)) && (forall r :: r in t[POSTROUTING] ==> IsSnatJump(r)) &&
    (forall port :: ValidPort(port) ==> MarkShaped(t, port) && SnatShaped(t, port))
  }

  ghost predicate MarkShaped(t: Table, port: int) {
    MarkChain(port).target in t ==> t[MarkChain(port).target] == [] || t[MarkChain(port).target] == [MarkRule(port)]
  }

  ghost predicate SnatShaped(t: Table, port: int) {
    var c := SnatChain(port, "").target;
    c in t ==> t[c] == [] || exists ip :: t[c] == [SnatRule(port, ip)]
  }

  /** The port's traffic is marked: the jump is there and the chain holds its rule. */
  ghost predicate Marking(t: Table, port: int) {
    var m := MarkChain(port);
    PREROUTING in t && JumpTo(m) in t[PREROUTING] && m.target in t && t[m.target] == [MarkRule(port)]
  }

  ghost predicate Natting(t: Table, port: int, ip: string) {
    var m := SnatChain(port, ip);
    POSTROUTING in t && JumpTo(m) in t[POSTROUTING] && m.target in t && t[m.target] == [SnatRule(port, ip)]
  }

  /** The port's chain holds the rule for this address, whether or not anything jumps to it. */
  ghost predicate Holds(t: Table, port: int, ip: string) {
    var c := SnatChain(port, "").target;
    c in t && t[c] == [SnatRule(port, ip)]
  }

  /** All the table has of a managed chain: what it holds, if it is there, and whether its jump is. */
  datatype Half = Half(chain: Option<seq<Rule>>, jump: bool)

  function HalfOf(t: Table, m: Managed): Half {
    Half(if m.target in t then Some(t[m.target]) else None, m.source in t && JumpTo(m) in t[m.source])
  }

  /** All the table has of a port. */
  datatype Port = Port(mark: Half, snat: Half)

  function PortOf(t: Table, port: int): Port {
    Port(HalfOf(t, MarkChain(port)), HalfOf(t, SnatChain(port, "")))
  }

  /** The address a port with these chains has its connections NATed to, if any. */
  function Served(p: Port, port: int): Option<string> {
    if p.mark == Half(Some([MarkRule(port)]), true) && p.snat.jump && p.snat.chain.Some? && |p.snat.chain.value| == 1 &&
       p.snat.chain.value[0].target.Snat? && p.snat.chain.value == [SnatRule(port, p.snat.chain.value[0].target.ip)]
    then Some(p.snat.chain.value[0].target.ip) else None
  }

  lemma ServedIs(t: Table, port: int, ip: string)
    ensures Served(PortOf(t, port), port) == Some(ip) <==> Marking(t, port) && Natting(t, port, ip)
  {
    hide Print, InterfaceName;
    if Natting(t, port, ip) {
      assert [SnatRule(port, ip)][0].target == Snat(ip);
    }
  }

  lemma NamesApart(a: int, b: int)
    requires ValidPort(a) && ValidPort(b)
    ensures MarkChain(a).target != SnatChain(b, "").target
    ensures MarkChain(a).target == MarkChain(b).target ==> a == b
    ensures SnatChain(a, "").target == SnatChain(b, "").target ==> a == b
    ensures InterfaceName(a) == InterfaceName(b) ==> a == b
    ensures MarkChain(a).target !in {PREROUTING, POSTROUTING} && SnatChain(a, "").target !in {PREROUTING, POSTROUTING}
  {
    var m, n := MarkChain(a).target, SnatChain(b, "").target;
    assert m[15] == 'M' && n[15] == 'S';
    assert m[|MARK_CHAIN|..] == Print(a) && MarkChain(b).target[|MARK_CHAIN|..] == Print(b);
    assert SnatChain(a, "").target[|SNAT_CHAIN|..] == Print(a) && n[|SNAT_CHAIN|..] == Print(b);
    assert InterfaceName(a)[|LINK_PREFIX|..] == Print(a) && InterfaceName(b)[|LINK_PREFIX|..] == Print(b);
    assert m[0] == 'E' && SnatChain(a, "").target[0] == 'E' && PREROUTING[0] == 'P' && POSTROUTING[0] == 'P';
    if Print(a) == Print(b) {
      PrintInjective(a, b);
    }
  }

  ghost predicate PortOk(t: Table, port: int) {
    MarkShaped(t, port) && SnatShaped(t, port) &&
    R.SingleJump(t, MarkChain(port)) && R.SingleJump(t, SnatChain(port, ""))
  }

  ghost predicate Reachable(t: Table) {
    JumpClosed(t) && Shaped(t) && forall port :: ValidPort(port) ==> PortOk(t, port)
  }

  // ---------------------------------------------------------------- each operation keeps the shape

  /** What an operation on `port` may do to the two built-in chains and to one managed chain. */
  ghost predicate TouchesOnly(before: Table, after: Table, m: Managed) {
    (forall c :: c != m.target && c != m.source ==> (c in after <==> c in before) && (c in before ==> after[c] == before[c])) &&
    m.source in before && m.source in after &&
    (forall r :: r != JumpTo(m) ==> (r in after[m.source] <==> r in before[m.source])) &&
    (m.target in after ==> after[m.target] == m.rules || after[m.target] == [] || (m.target in before && after[m.target] == before[m.target]))
  }

  lemma EnsureTouches(t: Table, m: Managed, calls: nat)
    requires m.source in t && m.source != m.target
    ensures TouchesOnly(t, Ensured(t, m, calls), m)
  {
  }

  lemma UnlinkTouches(t: Table, m: Managed)
    requires m.source in t && m.source != m.target
    ensures TouchesOnly(t, WithoutRule(t, m.source, JumpTo(m)), m)
    ensures TouchesOnly(t, WithoutRule(t, m.source, JumpTo(m)) - {m.target}, m)
  {
  }

  lemma MarkStep(t: Table, after: Table, port: int)
    requires Reachable(t) && ValidPort(port) && JumpClosed(after)
    requires TouchesOnly(t, after, MarkChain(port))
    requires forall q :: ValidPort(q) ==> R.SingleJump(after, MarkChain(q)) && R.SingleJump(after, SnatChain(q, ""))
    ensures Reachable(after)
  {
    hide JumpClosed, R.SingleJump, Print, InterfaceName, IsMarkJump, IsSnatJump;
    NamesApart(port, port);
    forall q | ValidPort(q)
      ensures MarkShaped(after, q) && SnatShaped(after, q)
    {
      assert PortOk(t, q);
      NamesApart(port, q);
      NamesApart(q, port);
    }
    OwnJumps(port);
  }

  lemma SnatStep(t: Table, after: Table, port: int, ip: string)
    requires Reachable(t) && ValidPort(port) && JumpClosed(after)
    requires TouchesOnly(t, after, SnatChain(port, ip))
    requires forall q :: ValidPort(q) ==> R.SingleJump(after, MarkChain(q)) && R.SingleJump(after, SnatChain(q, ""))
    ensures Reachable(after)
  {
    hide JumpClosed, R.SingleJump, Print, InterfaceName, IsMarkJump, IsSnatJump;
    NamesApart(port, port);
    forall q | ValidPort(q)
      ensures MarkShaped(after, q) && SnatShaped(after, q)
    {
      assert PortOk(t, q);
      NamesApart(port, q);
      NamesApart(q, port);
    }
    OwnJumps(port);
  }

  lemma OwnJumps(port: int)
    requires ValidPort(port)
    ensures IsMarkJump(JumpTo(MarkChain(port))) && IsSnatJump(JumpTo(SnatChain(port, "")))
  {
  }

  /** What the table has of one managed chain does not change when another is worked on. */
  lemma HalfKept(t: Table, after: Table, m: Managed, n: Managed)
    requires TouchesOnly(t, after, m) && n.target != m.target && n.target != m.source && n.source != m.target
    requires n.source != m.source || JumpTo(n) != JumpTo(m)
    ensures HalfOf(after, n) == HalfOf(t, n)
  {
  }

  lemma OthersSame(t: Table, after: Table, m: Managed, port: int, other: int)
    requires ValidPort(port) && ValidPort(other) && port != other
    requires (m == MarkChain(port) || exists ip :: m == SnatChain(port, ip)) && TouchesOnly(t, after, m)
    ensures PortOf(after, other) == PortOf(t, other)
  {
    hide Print, InterfaceName, TouchesOnly, HalfOf;
    NamesApart(port, other);
    NamesApart(other, port);
    HalfKept(t, after, m, MarkChain(other));
    HalfKept(t, after, m, SnatChain(other, ""));
  }

  lemma EnsureStep(t: Table, m: Managed, calls: nat, port: int)
    requires Reachable(t) && ValidPort(port) && (m == MarkChain(port) || exists ip :: m == SnatChain(port, ip))
    ensures Reachable(Ensured(t, m, calls))
    ensures forall other :: ValidPort(other) && other != port ==> PortOf(Ensured(t, m, calls), other) == PortOf(t, other)
  {
    hide Print, InterfaceName, Ensured, PortOf, MarkShaped, SnatShaped, R.SingleJump, JumpClosed;
    var after := Ensured(t, m, calls);
    NamesApart(port, port);
    R.EnsureClosed(t, m, calls);
    EnsureTouches(t, m, calls);
    forall q | ValidPort(q)
      ensures R.SingleJump(after, MarkChain(q)) && R.SingleJump(after, SnatChain(q, ""))
    {
      assert PortOk(t, q);
      EnsureSingleFor(t, m, calls, port, q);
    }
    if m == MarkChain(port) {
      MarkStep(t, after, port);
    } else {
      var ip :| m == SnatChain(port, ip);
      SnatStep(t, after, port, ip);
    }
    forall other | ValidPort(other) && other != port
      ensures PortOf(after, other) == PortOf(t, other)
    {
      OthersSame(t, after, m, port, other);
    }
  }

  lemma EnsureSingleFor(t: Table, m: Managed, calls: nat, port: int, q: int)
    requires ValidPort(port) && ValidPort(q) && (m == MarkChain(port) || exists ip :: m == SnatChain(port, ip))
    requires R.SingleJump(t, MarkChain(q)) && R.SingleJump(t, SnatChain(q, ""))
    ensures R.SingleJump(Ensured(t, m, calls), MarkChain(q)) && R.SingleJump(Ensured(t, m, calls), SnatChain(q, ""))
  {
    hide Print, InterfaceName, Ensured, R.SingleJump;
    NamesApart(port, q);
    NamesApart(q, port);
    R.EnsureSingle(t, m, calls, MarkChain(q));
    R.EnsureSingle(t, m, calls, SnatChain(q, ""));
  }

  lemma RemoveOneStep(t: Table, m: Managed, calls: nat, port: int)
    requires Reachable(t) && ValidPort(port) && (m == MarkChain(port) || m == SnatChain(port, ""))
    ensures Reachable(RemovedOne(t, m, calls).0)
    ensures forall other :: ValidPort(other) && other != port ==> PortOf(RemovedOne(t, m, calls).0, other) == PortOf(t, other)
  {
    hide Print, InterfaceName, PortOf, MarkShaped, SnatShaped, R.SingleJump, JumpClosed, WithoutRule;
    var after := RemovedOne(t, m, calls).0;
    NamesApart(port, port);
    assert PortOk(t, port);
    R.UnlinkClosed(t, m.source, JumpTo(m));
    UnlinkTouches(t, m);
    forall q | ValidPort(q)
      ensures R.SingleJump(after, MarkChain(q)) && R.SingleJump(after, SnatChain(q, ""))
    {
      assert PortOk(t, q);
      RemoveOneSingle(t, m, calls, MarkChain(q));
      RemoveOneSingle(t, m, calls, SnatChain(q, ""));
    }
    if after != t {
      if m == MarkChain(port) {
        MarkStep(t, after, port);
      } else {
        SnatStep(t, after, port, "");
      }
      forall other | ValidPort(other) && other != port
        ensures PortOf(after, other) == PortOf(t, other)
      {
        OthersSame(t, after, m, port, other);
      }
    }
  }

  lemma RemoveOneSingle(t: Table, m: Managed, calls: nat, n: Managed)
    requires R.SingleJump(t, n)
    ensures R.SingleJump(RemovedOne(t, m, calls).0, n)
  {
  }

  /** With its only jump gone a managed chain can be deleted. */
  lemma UnlinkedFree(t: Table, m: Managed)
    requires JumpClosed(t) && R.SingleJump(t, m) && m.source in t
    ensures JumpClosed(WithoutRule(t, m.source, JumpTo(m)) - {m.target})
  {
  }

  lemma RemovedTwo(t: Table, a: Managed, b: Managed, calls: nat)
    ensures var (mid, left) := if a.target in t then RemovedOne(t, a, calls) else (t, Some(calls));
            Removed(t, [a, b], t.Keys, calls) ==
              if left.None? || b.target !in t then (mid, left) else RemovedOne(mid, b, left.value)
  {
    assert [a, b][..1] == [a] && [a][..0] == [];
    assert Removed(t, [], t.Keys, calls) == (t, Some(calls));
    assert Removed(t, [a], t.Keys, calls) == if a.target in t then RemovedOne(t, a, calls) else (t, Some(calls));
  }

  // ---------------------------------------------------------------- what each operation does to its own port, call by call

  /** Ensuring a chain: the chain, its jump, its rules. */
  function HalfEnsured(h: Half, rules: seq<Rule>, calls: nat): Half {
    if calls == 0 then h
    else
      var chain := if h.chain.None? then Some([]) else h.chain;
      if calls == 1 then Half(chain, h.jump) else if calls == 2 then Half(chain, true) else Half(Some(rules), true)
  }

  /** Removing a chain that is there: its jump, then the chain; also the calls left unless it stopped. */
  function HalfRemoved(h: Half, calls: nat): (Half, Option<nat>) {
    if h.chain.None? then (h, Some(calls))
    else if calls == 0 then (h, None)
    else if calls == 1 then (h.(jump := false), None)
    else (Half(None, false), Some(calls - 2))
  }

  function PortAfter(p: Port, op: LinkOp): Port {
    match op
    case Configure(port, ip, calls) =>
      Port(HalfEnsured(p.mark, [MarkRule(port)], calls),
           if calls < 3 then p.snat else HalfEnsured(p.snat, [SnatRule(port, ip)], calls - 3))
    case TearDown(_, calls) =>
      var (mark, left) := HalfRemoved(p.mark, calls);
      Port(mark, if left.None? then p.snat else HalfRemoved(p.snat, left.value).0)
  }

  lemma EnsureHalf(t: Table, m: Managed, calls: nat)
    requires JumpClosed(t) && m.source in t && m.source != m.target && m.rules != [] && R.NoJumps(m.rules)
    ensures HalfOf(Ensured(t, m, calls), m) == HalfEnsured(HalfOf(t, m), m.rules, calls)
    ensures EnsureDone(t, m, calls) <==> calls >= 3
  {
    R.EnsureClosed(t, m, 2);
  }

  lemma RemoveHalf(t: Table, m: Managed, calls: nat)
    requires JumpClosed(t) && R.SingleJump(t, m) && m.source in t && m.source != m.target && m.target in t
    ensures HalfOf(RemovedOne(t, m, calls).0, m) == HalfRemoved(HalfOf(t, m), calls).0
    ensures RemovedOne(t, m, calls).1 == HalfRemoved(HalfOf(t, m), calls).1
  {
    hide JumpClosed;
    UnlinkedFree(t, m);
    JumpGone(t, m);
  }

  lemma JumpGone(t: Table, m: Managed)
    requires R.SingleJump(t, m) && m.source in t
    ensures m.source in WithoutRule(t, m.source, JumpTo(m)) && JumpTo(m) !in WithoutRule(t, m.source, JumpTo(m))[m.source]
    ensures WithoutRule(t, m.source, JumpTo(m)).Keys == t.Keys
    ensures forall c :: c in t && c != m.source ==> WithoutRule(t, m.source, JumpTo(m))[c] == t[c]
  {
  }

  /** What an operation on one port leaves of every port. */
  ghost predicate Moves(t: Table, after: Table, op: LinkOp) {
    forall port :: ValidPort(port) ==>
      PortOf(after, port) == if port == op.port then PortAfter(PortOf(t, port), op) else PortOf(t, port)
  }

  lemma ConfigureStep(t: Table, port: int, ip: string, calls: nat)
    requires Reachable(t) && ValidPort(port)
    ensures Reachable(Configured(t, port, ip, calls)) && Moves(t, Configured(t, port, ip, calls), Configure(port, ip, calls))
  {
    hide Ensured, EnsureDone, Print, InterfaceName, JumpClosed, PortOk, MarkShaped, SnatShaped, IsMarkJump, IsSnatJump, HalfOf, TouchesOnly;
    var m, n := MarkChain(port), SnatChain(port, ip);
    var marking := Ensured(t, m, calls);
    NamesApart(port, port);
    SnatSame(port, ip);
    EnsureStep(t, m, calls, port);
    EnsureHalf(t, m, calls);
    EnsureTouches(t, m, calls);
    HalfKept(t, marking, m, SnatChain(port, ""));
    if calls >= 3 {
      EnsureStep(marking, n, calls - 3, port);
      EnsureHalf(marking, n, calls - 3);
      EnsureTouches(marking, n, calls - 3);
      HalfKept(marking, Ensured(marking, n, calls - 3), n, m);
    }
  }

  /** The address does not change which chain and jump a port has. */
  lemma SnatSame(port: int, ip: string)
    ensures forall t: Table :: HalfOf(t, SnatChain(port, ip)) == HalfOf(t, SnatChain(port, ""))
  {
  }

  lemma TearDownStep(t: Table, port: int, calls: nat)
    requires Reachable(t) && ValidPort(port)
    ensures Reachable(TornDown(t, port, calls)) && Moves(t, TornDown(t, port, calls), TearDown(port, calls))
  {
    hide RemovedOne, Print, InterfaceName, JumpClosed, MarkShaped, SnatShaped, IsMarkJump, IsSnatJump, R.SingleJump, TouchesOnly;
    var a, b := MarkChain(port), SnatChain(port, "");
    NamesApart(port, port);
    RemovedTwo(t, a, b, calls);
    var (mid, left) := if a.target in t then RemovedOne(t, a, calls) else (t, Some(calls));
    assert PortOk(t, port);
    if a.target in t {
      RemoveOneStep(t, a, calls, port);
      RemoveHalf(t, a, calls);
      RemoveKeeps(t, a, calls, b);
    }
    if left.Some? && b.target in t {
      assert PortOk(mid, port);
      RemoveOneStep(mid, b, left.value, port);
      RemoveHalf(mid, b, left.value);
      RemoveKeeps(mid, b, left.value, a);
    }
  }

  lemma RemoveKeeps(t: Table, m: Managed, calls: nat, n: Managed)
    requires m.source in t && m.source != m.target && n.target != m.target && n.target != m.source && n.source != m.target && n.source != m.source
    ensures HalfOf(RemovedOne(t, m, calls).0, n) == HalfOf(t, n)
  {
    hide JumpClosed, WithoutRule, TouchesOnly, HalfOf;
    UnlinkTouches(t, m);
    HalfKept(t, WithoutRule(t, m.source, JumpTo(m)), m, n);
    HalfKept(t, WithoutRule(t, m.source, JumpTo(m)) - {m.target}, m, n);
  }

  // ---------------------------------------------------------------- what the table does to a connection

  /** The port whose marking chain, reached from these rules, fits it. */
  ghost predicate MarksFrom(t: Table, rules: seq<Rule>, p: Packet, port: int) {
    ValidPort(port) && JumpTo(MarkChain(port)) in rules && p.inIf == InterfaceName(port) &&
    MarkChain(port).target in t && t[MarkChain(port).target] == [MarkRule(port)]
  }

  lemma MarkChainEval(t: Table, p: Packet, port: int, depth: nat)
    requires MarkShaped(t, port) && MarkChain(port).target in t
    ensures var v := Eval(t, t[MarkChain(port).target], p, depth);
            !v.done && v.snat.None? &&
            v.mark == if t[MarkChain(port).target] == [MarkRule(port)] && p.inIf == InterfaceName(port) then port else p.mark
  {
  }

  /** Marking a connection: the port of the link it enters on, or the mark it had. */
  lemma {:induction false} EvalMark(t: Table, rules: seq<Rule>, p: Packet, depth: nat)
    requires depth > 0 && forall r :: r in rules ==> IsMarkJump(r)
    requires forall port :: ValidPort(port) ==> MarkShaped(t, port)
    ensures var v := Eval(t, rules, p, depth);
            !v.done && v.snat.None? &&
            ((exists port :: MarksFrom(t, rules, p, port) && v.mark == port) ||
             (v.mark == p.mark && forall port :: !MarksFrom(t, rules, p, port)))
  {
    hide Print, InterfaceName, MarkShaped;
    if rules != [] {
      var r, rest := rules[0], rules[1..];
      assert rules == [r] + rest;
      assert IsMarkJump(r);
      var q :| ValidPort(q) && r == JumpTo(MarkChain(q));
      var c := MarkChain(q).target;
      var mid := p;
      if c in t {
        MarkChainEval(t, p, q, depth - 1);
        mid := p.(mark := Eval(t, t[c], p, depth - 1).mark);
      }
      EvalMark(t, rest, mid, depth);
      MarksCons(t, rules, p, q);
      forall port
        ensures MarksFrom(t, rest, mid, port) <==> MarksFrom(t, rest, p, port)
      {
      }
    }
  }

  lemma MarksCons(t: Table, rules: seq<Rule>, p: Packet, q: int)
    requires ValidPort(q) && rules != [] && rules[0] == JumpTo(MarkChain(q))
    ensures forall port :: MarksFrom(t, rules, p, port) <==>
              MarksFrom(t, rules[1..], p, port) || (port == q && MarksFrom(t, rules[..1], p, q))
    ensures MarksFrom(t, rules[..1], p, q) ==> forall port :: MarksFrom(t, rules, p, port) ==> port == q
  {
    hide Print, InterfaceName;
    assert rules == rules[..1] + rules[1..];
    forall port | ValidPort(port)
      ensures JumpTo(MarkChain(port)) in rules[..1] <==> port == q
      ensures InterfaceName(port) == InterfaceName(q) ==> port == q
    {
      NamesApart(port, q);
    }
  }

  ghost predicate NatsFrom(t: Table, rules: seq<Rule>, p: Packet, port: int, ip: string) {
    ValidPort(port) && JumpTo(SnatChain(port, "")) in rules && p.mark == port && p.outIf == HOST_LINK &&
    SnatChain(port, "").target in t && t[SnatChain(port, "").target] == [SnatRule(port, ip)]
  }

  lemma SnatChainEval(t: Table, p: Packet, port: int, depth: nat)
    requires SnatShaped(t, port) && SnatChain(port, "").target in t
    ensures var c := SnatChain(port, "").target; var v := Eval(t, t[c], p, depth);
            v.mark == p.mark && (v.done <==> v.snat.Some?) &&
            forall ip :: v.snat == Some(ip) <==> p.mark == port && p.outIf == HOST_LINK && t[c] == [SnatRule(port, ip)]
  {
  }

  /** Source NAT: to the address in the chain of the port the connection is marked with, leaving on host0. */
  lemma {:induction false} EvalSnat(t: Table, rules: seq<Rule>, p: Packet, depth: nat, ip: string)
    requires depth > 0 && forall r :: r in rules ==> IsSnatJump(r)
    requires forall port :: ValidPort(port) ==> SnatShaped(t, port)
    ensures Eval(t, rules, p, depth).snat == Some(ip) <==> NatsFrom(t, rules, p, p.mark, ip)
  {
    hide Print, InterfaceName, SnatShaped;
    if rules != [] {
      var r, rest := rules[0], rules[1..];
      assert rules == [r] + rest;
      assert IsSnatJump(r);
      var q :| ValidPort(q) && r == JumpTo(SnatChain(q, ""));
      var c := SnatChain(q, "").target;
      if ValidPort(p.mark) {
        NamesApart(p.mark, q);
      }
      if c in t {
        SnatChainEval(t, p, q, depth - 1);
      }
      EvalSnat(t, rest, p, depth, ip);
    }
  }

  /** On a reachable table, exactly the connections of a marked and NATed gateway are NATed, to its address. */
  lemma NatExactly(t: Table, inIf: string, outIf: string, source: string, depth: nat, ip: string)
    requires Reachable(t) && depth > 0
    ensures SourceNat(t, inIf, outIf, source, depth) == Some(ip) <==>
            outIf == HOST_LINK && exists port :: ValidPort(port) && inIf == InterfaceName(port) && Marking(t, port) && Natting(t, port, ip)
  {
    hide Print, InterfaceName, Eval, JumpClosed, IsMarkJump, IsSnatJump, MarkShaped, SnatShaped;
    var first := Packet(inIf, "", 0, source);
    EvalMark(t, t[PREROUTING], first, depth);
    var marked := Eval(t, t[PREROUTING], first, depth).mark;
    var second := Packet("", outIf, marked, source);
    EvalSnat(t, t[POSTROUTING], second, depth, ip);
    if port :| ValidPort(port) && inIf == InterfaceName(port) && Marking(t, port) && Natting(t, port, ip) {
      assert MarksFrom(t, t[PREROUTING], first, port);
      var other :| MarksFrom(t, t[PREROUTING], first, other) && marked == other;
      NamesApart(port, other);
    }
  }

  // ---------------------------------------------------------------- whole runs

  /** A namespace whose NAT table the daemon has not touched. */
  ghost predicate Untouched(t: Table) {
    JumpClosed(t) && PREROUTING in t && POSTROUTING in t && t[PREROUTING] == [] && t[POSTROUTING] == [] &&
    (forall port :: ValidPort(port) ==> MarkChain(port).target !in t && SnatChain(port, "").target !in t)
  }

  lemma UntouchedReachable(t: Table)
    requires Untouched(t)
    ensures Reachable(t)
  {
  }

  const UNSET := Port(Half(None, false), Half(None, false))

  lemma UntouchedUnset(t: Table)
    requires Untouched(t)
    ensures forall port :: ValidPort(port) ==> PortOf(t, port) == UNSET
  {
    hide Print, InterfaceName, JumpClosed;
  }

  /** What the run's operations on a port add up to, call by call. */
  function StateOf(ops: seq<LinkOp>, port: int): Port {
    if ops == [] then UNSET
    else
      var before, op := StateOf(ops[..|ops| - 1], port), ops[|ops| - 1];
      if op.port == port then PortAfter(before, op) else before
  }

  /** In every run the table has of each port exactly that. */
  lemma {:induction false} RunReachable(t: Table, ops: seq<LinkOp>)
    requires Untouched(t)
    requires forall i :: 0 <= i < |ops| ==> ValidPort(ops[i].port)
    ensures Reachable(Run(t, ops))
    ensures forall port :: ValidPort(port) ==> PortOf(Run(t, ops), port) == StateOf(ops, port)
  {
    hide Reachable, Configured, TornDown, Print, InterfaceName, PortOf, PortAfter;
    if ops == [] {
      UntouchedReachable(t);
      UntouchedUnset(t);
    } else {
      var init, op := ops[..|ops| - 1], ops[|ops| - 1];
      RunReachable(t, init);
      match op {
        case Configure(port, ip, calls) => ConfigureStep(Run(t, init), port, ip, calls);
        case TearDown(port, calls) => TearDownStep(Run(t, init), port, calls);
      }
    }
  }

  // ---------------------------------------------------------------- what that means for a gateway

  /** Never set up or torn down since by at least one call, fully set up with an address, or set up in part. */
  datatype Status = Absent | Ready(ip: string) | Interrupted

  function StatusOf(ops: seq<LinkOp>, port: int): Status {
    if ops == [] then Absent
    else
      var op, before := ops[|ops| - 1], StatusOf(ops[..|ops| - 1], port);
      if op.port != port || op.calls == 0 then before
      else match op
        case Configure(_, ip, calls) => if calls >= 6 then Ready(ip) else Interrupted
        case TearDown(_, _) => Absent
  }

  /** The addresses the port was configured with since it was last torn down in full; a full configuration leaves just its own. */
  function Given(ops: seq<LinkOp>, port: int): set<string> {
    if ops == [] then {}
    else
      var op, before := ops[|ops| - 1], Given(ops[..|ops| - 1], port);
      if op.port != port then before
      else match op
        case Configure(_, ip, calls) => if calls >= 6 then {ip} else before + {ip}
        case TearDown(_, calls) => if calls >= 4 then {} else before
  }

  lemma {:induction false} ServedByStatus(ops: seq<LinkOp>, port: int)
    ensures StatusOf(ops, port).Ready? ==> Served(StateOf(ops, port), port) == Some(StatusOf(ops, port).ip)
    ensures StatusOf(ops, port).Absent? ==> StateOf(ops, port).mark != Half(Some([MarkRule(port)]), true)
  {
    hide Print, InterfaceName;
    if ops != [] {
      ServedByStatus(ops[..|ops| - 1], port);
      var op := ops[|ops| - 1];
      assert op.Configure? ==> [SnatRule(port, op.ip)][0].target == Snat(op.ip);
    }
  }

  lemma {:induction false} HeldIsGiven(ops: seq<LinkOp>, port: int, x: string)
    ensures StateOf(ops, port).snat.chain == Some([SnatRule(port, x)]) ==> x in Given(ops, port)
  {
    hide Print, InterfaceName;
    if ops != [] {
      HeldIsGiven(ops[..|ops| - 1], port, x);
      var op := ops[|ops| - 1];
      assert op.Configure? && [SnatRule(port, op.ip)] == [SnatRule(port, x)] ==> [SnatRule(port, op.ip)][0].target == [SnatRule(port, x)][0].target;
    }
  }

  /** A port's chain never holds an address from before its last full teardown. */
  lemma RunGiven(t: Table, ops: seq<LinkOp>, port: int, x: string)
    requires Untouched(t) && ValidPort(port) && forall i :: 0 <= i < |ops| ==> ValidPort(ops[i].port)
    ensures Holds(Run(t, ops), port, x) ==> x in Given(ops, port)
  {
    hide Run, StateOf, Reachable, Print, InterfaceName;
    RunReachable(t, ops);
    HeldIsGiven(ops, port, x);
    assert PortOf(Run(t, ops), port) == StateOf(ops, port);
  }

  /**
   * After any run, wherever its operations stopped, a connection from a gateway's link is NATed to exactly the address
   * the gateway's operations add up to, if any: its latest one when it is set up, none from the first call of a teardown
   * on, and never one from before its last full teardown. No connection from any other interface is NATed.
   */
  lemma RunNat(t: Table, ops: seq<LinkOp>, port: int, source: string, depth: nat)
    requires Untouched(t) && ValidPort(port) && depth > 0
    requires forall i :: 0 <= i < |ops| ==> ValidPort(ops[i].port)
    ensures Reachable(Run(t, ops))
    ensures SourceNat(Run(t, ops), InterfaceName(port), HOST_LINK, source, depth) == Served(StateOf(ops, port), port)
    ensures StatusOf(ops, port).Ready? ==> Served(StateOf(ops, port), port) == Some(StatusOf(ops, port).ip)
    ensures StatusOf(ops, port).Absent? ==> Served(StateOf(ops, port), port) == None
    ensures forall ip :: Served(StateOf(ops, port), port) == Some(ip) ==> ip in Given(ops, port)
    ensures forall inIf, outIf :: (outIf != HOST_LINK || forall q :: ValidPort(q) ==> inIf != InterfaceName(q)) ==>
              SourceNat(Run(t, ops), inIf, outIf, source, depth) == None
  {
    hide Run, Print, InterfaceName, SourceNat, JumpClosed, MarkShaped, SnatShaped, IsMarkJump, IsSnatJump, PortOk, StateOf, StatusOf, Given, Marking, Natting, PortOf;
    RunReachable(t, ops);
    var end := Run(t, ops);
    assert PortOf(end, port) == StateOf(ops, port);
    NatOf(end, port, source, depth);
    ServedByStatus(ops, port);
    forall ip | Served(StateOf(ops, port), port) == Some(ip)
      ensures ip in Given(ops, port)
    {
      HeldIsGiven(ops, port, ip);
    }
    forall inIf, outIf, ip | SourceNat(end, inIf, outIf, source, depth) == Some(ip)
      ensures outIf == HOST_LINK && exists q :: ValidPort(q) && inIf == InterfaceName(q)
    {
      NatExactly(end, inIf, outIf, source, depth, ip);
    }
  }

  lemma NatOf(t: Table, port: int, source: string, depth: nat)
    requires Reachable(t) && ValidPort(port) && depth > 0
    ensures SourceNat(t, InterfaceName(port), HOST_LINK, source, depth) == Served(PortOf(t, port), port)
  {
    hide Print, InterfaceName, SourceNat, Served, PortOf, Marking, Natting, JumpClosed, PortOk, MarkShaped, SnatShaped, IsMarkJump, IsSnatJump;
    forall q | ValidPort(q) && InterfaceName(q) == InterfaceName(port)
      ensures q == port
    {
      NamesApart(q, port);
    }
    forall ip
      ensures SourceNat(t, InterfaceName(port), HOST_LINK, source, depth) == Some(ip) <==> Served(PortOf(t, port), port) == Some(ip)
    {
      NatExactly(t, InterfaceName(port), HOST_LINK, source, depth, ip);
      ServedIs(t, port, ip);
    }
    var a, b := SourceNat(t, InterfaceName(port), HOST_LINK, source, depth), Served(PortOf(t, port), port);
    assert a.Some? ==> b == Some(a.value);
    assert b.Some? ==> a == Some(b.value);
  }
}
