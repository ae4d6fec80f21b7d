// The gateway namespace's NAT table and what it does to connections: traffic that
// enters on a gateway's WireGuard link and leaves on host0 is source-NATed to that
// gateway's secondary IP, and nothing else is NATed.

module GatewayNat {
  import opened Wrappers
  import opened LinkNames
  import opened IpTables

  const PREROUTING := "PREROUTING"
  const POSTROUTING := "POSTROUTING"
  const HOST_LINK := "host0"
  const MARK_CHAIN := "EGRESS-GATEWAY-MARK-"
  const SNAT_CHAIN := "EGRESS-GATEWAY-SNAT-"

  // ---------------------------------------------------------------- packet semantics

  /** A packet at a hook: the interfaces known there and the connection's mark. */
  datatype Packet = Packet(inIf: string, outIf: string, mark: int, source: string)

  datatype Verdict = Verdict(mark: int, snat: Option<string>, done: bool)

  predicate Matches(c: Cond, p: Packet) {
    (c.inIf.Some? ==> c.inIf.value == p.inIf) && (c.outIf.Some? ==> c.outIf.value == p.outIf) &&
    (c.mark.Some? ==> c.mark.value == p.mark) && (c.source.Some? ==> c.source.value == p.source)
  }

  /** Rules are tried in order; a mark continues, a jump returns here unless the chain decided, the rest decide. */
  function Eval(t: Table, rules: seq<Rule>, p: Packet, depth: nat): Verdict
    decreases depth, |rules|
  {
    if rules == [] then Verdict(p.mark, None, false)
    else
      var r, rest := rules[0], rules[1..];
      if !Matches(r.cond, p) then Eval(t, rest, p, depth)
      else match r.target {
        case SetMark(v) => Eval(t, rest, p.(mark := v), depth)
        case Snat(ip) => Verdict(p.mark, Some(ip), true)
        case Accept => Verdict(p.mark, None, true)
        case Builtin(_) => Verdict(p.mark, None, true)
        case Jump(chain) =>
          if depth == 0 || chain !in t then Eval(t, rest, p, depth)
          else
            var v := Eval(t, t[chain], p, depth - 1);
            if v.done then v else Eval(t, rest, p.(mark := v.mark), depth)
      }
  }

  /** The source address a new connection is given: PREROUTING may mark it, POSTROUTING may NAT it. */
  function SourceNat(t: Table, inIf: string, outIf: string, source: string, depth: nat): Option<string>
    requires PREROUTING in t && POSTROUTING in t
  {
    var marked := Eval(t, t[PREROUTING], Packet(inIf, "", 0, source), depth).mark;
    Eval(t, t[POSTROUTING], Packet("", outIf, marked, source), depth).snat
  }

  // ---------------------------------------------------------------- the daemon's chains per link

  function MarkRule(port: int): Rule {
    Rule("", Cond(Some(InterfaceName(port)), None, None, None), SetMark(port))
  }

  function SnatRule(port: int, ip: string): Rule {
    Rule("", Cond(None, Some(HOST_LINK), Some(port), None), Snat(ip))
  }

  function MarkChain(port: int): Managed {
    Managed(MARK_CHAIN + Print(port), PREROUTING,
            "kube-egress-gateway mark packets from gateway link " + InterfaceName(port), [MarkRule(port)])
  }

  function SnatChain(port: int, ip: string): Managed {
    Managed(SNAT_CHAIN + Print(port), POSTROUTING,
            "kube-egress-gateway sNAT packets from gateway link " + InterfaceName(port), [SnatRule(port, ip)])
  }

  /** One ensure or removal of a gateway's link; `calls` iptables calls succeed before one fails. */
  datatype LinkOp = Configure(port: int, ip: string, calls: nat) | TearDown(port: int, calls: nat)

  /** Marking is ensured in full before source NAT is. */
  function Configured(t: Table, port: int, ip: string, calls: nat): Table {
    var marking := Ensured(t, MarkChain(port), calls);
    if !EnsureDone(t, MarkChain(port), calls) then marking else Ensured(marking, SnatChain(port, ip), calls - 3)
  }

  function TornDown(t: Table, port: int, calls: nat): Table {
    Removed(t, [MarkChain(port), SnatChain(port, "")], t.Keys, calls).0
  }

  /** Names the chains from the mark parsed back out of the link's name. */
  method ConfigureNat(table: NatTable, port: int, ip: string, calls: nat) returns (r: Result<(), Error>)
    requires -0x8000_0000 <= port < 0x8000_0000
    modifies table
    ensures table.chains == Configured(old(table.chains), port, ip, calls)
    ensures r.Ok? <==> EnsureDone(old(table.chains), MarkChain(port), calls) &&
                       EnsureDone(Ensured(old(table.chains), MarkChain(port), calls), SnatChain(port, ip), calls - 3)
  {
    var link := InterfaceName(port);
    MarkIsPort(port);
    var mark := PacketMark(link).value;
    r := table.EnsureIPTablesChain(
      Managed(MARK_CHAIN + Print(mark), PREROUTING, "kube-egress-gateway mark packets from gateway link " + link,
              [Rule("", Cond(Some(link), None, None, None), SetMark(mark))]), calls);
    if r.Ok? {
      r := table.EnsureIPTablesChain(
        Managed(SNAT_CHAIN + Print(mark), POSTROUTING, "kube-egress-gateway sNAT packets from gateway link " + link,
                [Rule("", Cond(None, Some(HOST_LINK), Some(mark), None), Snat(ip))]), calls - 3);
    }
  }

  method TearDownNat(table: NatTable, link: string, calls: nat) returns (r: Option<Result<(), Error>>)
    modifies table
    ensures r.None? <==> PacketMark(link).None?
    ensures r.None? ==> table.chains == old(table.chains)
    ensures forall port :: -0x8000_0000 <= port < 0x8000_0000 && link == InterfaceName(port) ==>
              table.chains == TornDown(old(table.chains), port, calls) && r.Some? &&
              (r.value.Ok? <==> Removed(old(table.chains), [MarkChain(port), SnatChain(port, "")], old(table.chains).Keys, calls).1.Some?)
  {
    forall port | -0x8000_0000 <= port < 0x8000_0000 && link == InterfaceName(port)
      ensures PacketMark(link) == Some(port)
    {
      MarkIsPort(port);
    }
    match PacketMark(link) {
      case None => return None;
      case Some(mark) =>
        ghost var start := table.chains;
        var ms := [Managed(MARK_CHAIN + Print(mark), PREROUTING, "kube-egress-gateway mark packets from gateway link " + link, []),
                   Managed(SNAT_CHAIN + Print(mark), POSTROUTING, "kube-egress-gateway sNAT packets from gateway link " + link, [])];
        var removed := table.RemoveIPTablesChains(ms, calls);
        r := Some(removed);
        forall port | -0x8000_0000 <= port < 0x8000_0000 && link == InterfaceName(port)
          ensures table.chains == TornDown(start, port, calls)
          ensures removed.Ok? <==> Removed(start, [MarkChain(port), SnatChain(port, "")], start.Keys, calls).1.Some?
        {
          RulesIrrelevant(start, ms[0], MarkChain(port), ms[1], SnatChain(port, ""), calls);
        }
    }
  }

  /** Removal looks at a chain's name, source and comment, not at its rules. */
  lemma RulesIrrelevant(t: Table, a: Managed, a': Managed, b: Managed, b': Managed, calls: nat)
    requires a' == a.(rules := a'.rules) && b' == b.(rules := b'.rules)
    ensures Removed(t, [a, b], t.Keys, calls) == Removed(t, [a', b'], t.Keys, calls)
  {
    hide JumpClosed, WithoutRule;
    assert [a, b][..1] == [a] && [a', b'][..1] == [a'] && [a][..0] == [] && [a'][..0] == [];
    assert JumpTo(a) == JumpTo(a') && JumpTo(b) == JumpTo(b');
  }

  function Apply(t: Table, op: LinkOp): Table {
    match op
    case Configure(port, ip, calls) => Configured(t, port, ip, calls)
    case TearDown(port, calls) => TornDown(t, port, calls)
  }

  function Run(t: Table, ops: seq<LinkOp>): Table {
    if ops == [] then t else Apply(Run(t, ops[..|ops| - 1]), ops[|ops| - 1])
  }
}
