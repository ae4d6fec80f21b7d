// From load balancer ports to gateway links: the port a configuration is given names
// its WireGuard link, its packet mark and its NAT chains on every node of the pool.

module GatewayPorts {
  import opened Wrappers
  import opened LoadBalancer
  import R = LoadBalancerRuns
  import L = LinkNames

  /**
   * After any run, two configurations of one pool have different ports, links and packet marks,
   * and each mark is the port again.
   */
  lemma LinksApart(events: seq<R.Event>, i: nat, j: nat)
    requires forall k :: 0 <= k < |events| ==> R.Possible(events[k])
    requires var end := R.Run(NoLb, events);
             end.HasLb? && end.props.Some? && i < j < |end.props.value.rules|
    ensures var rules := R.Run(NoLb, events).props.value.rules;
            R.SelfConsistent(rules[i]) && R.SelfConsistent(rules[j]) &&
            (R.PoolOf(rules[i]) == R.PoolOf(rules[j]) ==>
               L.InterfaceName(R.PortOf(rules[i])) != L.InterfaceName(R.PortOf(rules[j])) &&
               L.PacketMark(L.InterfaceName(R.PortOf(rules[i]))) == Some(R.PortOf(rules[i])) &&
               L.PacketMark(L.InterfaceName(R.PortOf(rules[i]))) != L.PacketMark(L.InterfaceName(R.PortOf(rules[j]))))
  {
    hide R.Run, R.Linked, L.InterfaceName, L.PacketMark;
    R.RunSound(NoLb, events);
    var rules := R.Run(NoLb, events).props.value.rules;
    L.MarkIsPort(R.PortOf(rules[i]));
    L.MarkIsPort(R.PortOf(rules[j]));
  }
}
