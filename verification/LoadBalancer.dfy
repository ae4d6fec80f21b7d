// The gateway load balancer and the reconcile that edits it: one rule and one
// probe per gateway configuration, one frontend and one backend per node pool.
// Sub-resource IDs are a fixed prefix followed by the sub-resource's name, so a
// reference to a sub-resource is represented by that name.

module LoadBalancer {
  import opened Wrappers
  import opened Names
  import opened Sequences

  const PORT_START := 6000
  const PORT_END := 7000
  const PROBE_ENDPOINT := "/gw/"

  /** A `Crash` is a nil pointer the controller dereferences. */
  datatype Error =
    | AzureFailure
    | Crash
    | PoolNotFound
    | PoolHasNoUid
    | EmptyProperties
    | UnexpectedFrontend
    | SubnetNotFound
    | InvalidPort
    | NoAvailablePort
    | FrontendIpNotFound

  datatype FrontendProps = FrontendProps(ipv4: bool, address: Option<string>)
  datatype Frontend = Frontend(name: string, props: Option<FrontendProps>)

  datatype Protocol = Udp | OtherProtocol
  datatype RuleProps = RuleProps(
    frontend: Option<string>, backend: Option<string>, probe: Option<string>,
    protocol: Protocol, floatingIp: bool,
    frontendPort: Option<int>, backendPort: Option<int>)
  datatype Rule = Rule(name: string, props: Option<RuleProps>)

  datatype ProbeProps = ProbeProps(path: string, port: int, http: bool)
  datatype Probe = Probe(name: string, props: Option<ProbeProps>)

  datatype Lb = Lb(frontends: seq<Frontend>, backends: seq<string>, rules: seq<Rule>, probes: seq<Probe>)

  /** What Azure holds: no load balancer, or one whose properties may be missing. */
  datatype Cloud = NoLb | HasLb(props: Option<Lb>)

  /** A GatewayLBConfiguration: its UID, its owning gateway's UID, and the probe port in use. */
  datatype Config = Config(uid: string, gateway: string, probePort: int)

  /** How Azure answers a write: done, rejected, or applied with the answer lost. */
  datatype Commit = Done | Rejected | Lost

  /** The answers of Azure during one reconcile; `newIp` is the address given to a new frontend. */
  datatype Env = Env(readable: bool, subnetFound: bool, newIp: string, commit: Commit)

  datatype Answer = Answer(ip: string, port: int)
  datatype Outcome = Outcome(cloud: Cloud, wrote: bool, result: Result<Answer, Error>)

  function FrontendNames(s: seq<Frontend>): seq<string> { seq(|s|, i requires 0 <= i < |s| => s[i].name) }
  function RuleNames(s: seq<Rule>): seq<string> { seq(|s|, i requires 0 <= i < |s| => s[i].name) }
  function ProbeNames(s: seq<Probe>): seq<string> { seq(|s|, i requires 0 <= i < |s| => s[i].name) }

  function FrontendNamed(n: string): Frontend -> bool { (f: Frontend) => EqualFold(f.name, n) }
  function BackendNamed(n: string): string -> bool { (b: string) => EqualFold(b, n) }
  function RuleNamed(n: string): Rule -> bool { (r: Rule) => EqualFold(r.name, n) }
  function ProbeNamed(n: string): Probe -> bool { (p: Probe) => EqualFold(p.name, n) }

  // ---------------------------------------------------------------- ports

  predicate InPool(r: Rule, pool: string) {
    r.props.Some? && r.props.value.backend.Some? && EqualFold(r.props.value.backend.value, pool)
  }

  predicate ValidPort(p: RuleProps) {
    p.frontendPort.Some? && p.backendPort.Some? && p.frontendPort == p.backendPort &&
    PORT_START <= p.backendPort.value < PORT_END
  }

  /** The ports held by the valid rules of one backend pool. */
  function UsedPorts(pool: string, rules: seq<Rule>): set<int> {
    set i | 0 <= i < |rules| && InPool(rules[i], pool) && ValidPort(rules[i].props.value)
      :: rules[i].props.value.backendPort.value
  }

  predicate AllValid(pool: string, rules: seq<Rule>) {
    forall i :: 0 <= i < |rules| && InPool(rules[i], pool) ==> ValidPort(rules[i].props.value)
  }

  function LeastFree(used: set<int>, from: int): (r: Result<int, Error>)
    requires PORT_START <= from <= PORT_END
    ensures r.Ok? ==> from <= r.value < PORT_END && r.value !in used
    ensures r.Ok? ==> forall q :: from <= q < r.value ==> q in used
    ensures r.Err? ==> r.error == NoAvailablePort && forall q :: from <= q < PORT_END ==> q in used
    decreases PORT_END - from
  {
    if from == PORT_END then Err(NoAvailablePort)
    else if from !in used then Ok(from)
    else LeastFree(used, from + 1)
  }

  function PortFor(pool: string, rules: seq<Rule>): Result<int, Error> {
    if AllValid(pool, rules) then LeastFree(UsedPorts(pool, rules), PORT_START) else Err(InvalidPort)
  }

  method SelectPortForLBRule(pool: string, rules: seq<Rule>) returns (r: Result<int, Error>)
    ensures r == PortFor(pool, rules)
    ensures r.Ok? ==> PORT_START <= r.value < PORT_END && r.value !in UsedPorts(pool, rules)
    ensures r.Ok? ==> forall q :: PORT_START <= q < r.value ==> q in UsedPorts(pool, rules)
    ensures r == Err(NoAvailablePort) <==>
            AllValid(pool, rules) && forall q :: PORT_START <= q < PORT_END ==> q in UsedPorts(pool, rules)
  {
    var ports := new bool[PORT_END - PORT_START](_ => false);
    var i := 0;
    while i < |rules|
      invariant 0 <= i <= |rules|
      invariant AllValid(pool, rules[..i])
      invariant forall k :: 0 <= k < ports.Length ==> (ports[k] <==> PORT_START + k in UsedPorts(pool, rules[..i]))
    {
      var rule := rules[i];
      assert rules[..i + 1] == rules[..i] + [rule];
      ghost var before := UsedPorts(pool, rules[..i]);
      if InPool(rule, pool) {
        if !ValidPort(rule.props.value) {
          assert !AllValid(pool, rules);
          return Err(InvalidPort);
        }
        assert UsedPorts(pool, rules[..i + 1]) == before + {rule.props.value.backendPort.value} by {
          UsedPortsSnoc(pool, rules[..i], rule);
        }
        ports[rule.props.value.backendPort.value - PORT_START] := true;
      } else {
        assert UsedPorts(pool, rules[..i + 1]) == before by {
          UsedPortsSnoc(pool, rules[..i], rule);
        }
      }
      i := i + 1;
    }
    assert rules[..i] == rules;
    ghost var used := UsedPorts(pool, rules);
    var k := 0;
    while k < ports.Length
      invariant 0 <= k <= ports.Length
      invariant forall q :: PORT_START <= q < PORT_START + k ==> q in used
      invariant LeastFree(used, PORT_START) == LeastFree(used, PORT_START + k)
    {
      if !ports[k] {
        return Ok(k + PORT_START);
      }
      k := k + 1;
    }
    return Err(NoAvailablePort);
  }

  lemma UsedPortsSnoc(pool: string, rules: seq<Rule>, r: Rule)
    ensures UsedPorts(pool, rules + [r]) ==
            UsedPorts(pool, rules) +
            if InPool(r, pool) && ValidPort(r.props.value) then {r.props.value.backendPort.value} else {}
  {
    var all := rules + [r];
    forall q | q in UsedPorts(pool, rules)
      ensures q in UsedPorts(pool, all)
    {
      var i :| 0 <= i < |rules| && InPool(rules[i], pool) && ValidPort(rules[i].props.value) &&
               q == rules[i].props.value.backendPort.value;
      assert all[i] == rules[i];
    }
    assert all[|rules|] == r;
  }

  function CountInPool(pool: string, rules: seq<Rule>): nat {
    if rules == [] then 0
    else (if InPool(rules[|rules| - 1], pool) then 1 else 0) + CountInPool(pool, rules[..|rules| - 1])
  }

  lemma {:induction false} UsedPortsBound(pool: string, rules: seq<Rule>)
    ensures |UsedPorts(pool, rules)| <= CountInPool(pool, rules)
  {
    if rules == [] {
      assert UsedPorts(pool, rules) == {};
    } else {
      var init, last := rules[..|rules| - 1], rules[|rules| - 1];
      UsedPortsBound(pool, init);
      assert rules == init + [last];
      UsedPortsSnoc(pool, init, last);
    }
  }

  lemma {:induction false} RangeBound(s: set<int>, lo: int, hi: int)
    requires lo <= hi
    requires forall q :: lo <= q < hi ==> q in s
    ensures hi - lo <= |s|
    decreases hi - lo
  {
    if lo < hi {
      RangeBound(s - {lo}, lo + 1, hi);
    }
  }

  /** Pigeonhole: a pool with fewer rules than ports always has a port left. */
  lemma PortAvailable(pool: string, rules: seq<Rule>)
    requires AllValid(pool, rules)
    requires CountInPool(pool, rules) < PORT_END - PORT_START
    ensures PortFor(pool, rules).Ok?
  {
    UsedPortsBound(pool, rules);
    if PortFor(pool, rules).Err? {
      RangeBound(UsedPorts(pool, rules), PORT_START, PORT_END);
    }
  }

  // ---------------------------------------------------------------- one reconcile

  function FindFrontendIp(frontends: seq<Frontend>, pool: string): Result<string, Error> {
    var i := FirstIndex(frontends, FrontendNamed(pool));
    if i == |frontends| then Ok("")
    else
      var props := frontends[i].props;
      if props.None? || !props.value.ipv4 || props.value.address.None? then Err(UnexpectedFrontend)
      else Ok(props.value.address.value)
  }

  function ExpectedRule(config: Config, pool: string, port: Option<int>): Rule {
    Rule(config.uid, Some(RuleProps(Some(pool), Some(pool), Some(config.uid), Udp, true, port, port)))
  }

  function ExpectedProbe(config: Config): Probe {
    Probe(config.uid, Some(ProbeProps(PROBE_ENDPOINT + config.gateway, config.probePort, true)))
  }

  predicate SameRef(a: Option<string>, b: Option<string>) {
    (a.None? && b.None?) || (a.Some? && b.Some? && EqualFold(a.value, b.value))
  }

  predicate SameRuleConfig(a: Rule, b: Rule) {
    (a.props.None? && b.props.None?) ||
    (a.props.Some? && b.props.Some? &&
     SameRef(a.props.value.frontend, b.props.value.frontend) &&
     SameRef(a.props.value.backend, b.props.value.backend) &&
     SameRef(a.props.value.probe, b.props.value.probe) &&
     a.props.value.protocol == b.props.value.protocol &&
     a.props.value.floatingIp == b.props.value.floatingIp)
  }

  function Val(port: Option<int>): int {
    if port.Some? then port.value else 0
  }

  predicate HasRule(rules: seq<Rule>, config: Config, pool: string) {
    var i := FirstIndex(rules, RuleNamed(config.uid));
    i < |rules| && SameRuleConfig(rules[i], ExpectedRule(config, pool, None))
  }

  /** The rule list and port once the configuration's rule is in place. */
  function WithRule(rules: seq<Rule>, config: Config, pool: string): Result<(seq<Rule>, int), Error> {
    var i := FirstIndex(rules, RuleNamed(config.uid));
    if HasRule(rules, config, pool) then Ok((rules, Val(rules[i].props.value.frontendPort)))
    else
      var rest := RemoveAt(rules, i);
      match PortFor(pool, rest)
      case Err(e) => Err(e)
      case Ok(port) => Ok((rest + [ExpectedRule(config, pool, Some(port))], port))
  }

  predicate HasProbe(probes: seq<Probe>, config: Config) {
    var i := FirstIndex(probes, ProbeNamed(config.uid));
    i < |probes| && probes[i].props == ExpectedProbe(config).props
  }

  /** A probe without properties is dropped from the list and then dereferenced. */
  predicate ProbeReadable(probes: seq<Probe>, config: Config) {
    var i := FirstIndex(probes, ProbeNamed(config.uid));
    i < |probes| ==> probes[i].props.Some?
  }

  function WithProbe(probes: seq<Probe>, config: Config): seq<Probe> {
    if HasProbe(probes, config) then probes
    else RemoveAt(probes, FirstIndex(probes, ProbeNamed(config.uid))) + [ExpectedProbe(config)]
  }

  predicate HasBackend(backends: seq<string>, pool: string) {
    FirstIndex(backends, BackendNamed(pool)) < |backends|
  }

  function NewFrontend(pool: string): Frontend {
    Frontend(pool, Some(FrontendProps(true, None)))
  }

  /** Azure gives a dynamic IPv4 frontend its private address when it commits a write. */
  function Assigned(f: Frontend, ip: string): Frontend {
    if f.props == Some(FrontendProps(true, None)) then f.(props := Some(FrontendProps(true, Some(ip)))) else f
  }

  function Committed(lb: Lb, ip: string): Lb {
    lb.(frontends := seq(|lb.frontends|, i requires 0 <= i < |lb.frontends| => Assigned(lb.frontends[i], ip)))
  }

  /** The load balancer the reconcile wants for a wanted configuration; `ip` is the frontend address found. */
  function Installed(lb: Lb, config: Config, pool: string, ip: string, rules: seq<Rule>): Lb {
    Lb(if ip == "" then lb.frontends + [NewFrontend(pool)] else lb.frontends,
       if HasBackend(lb.backends, pool) then lb.backends else lb.backends + [pool],
       rules,
       WithProbe(lb.probes, config))
  }

  function Install(cloud: Cloud, lb: Lb, config: Config, pool: string, env: Env): Outcome {
    match FindFrontendIp(lb.frontends, pool)
    case Err(e) => Outcome(cloud, false, Err(e))
    case Ok(ip) =>
      if ip == "" && !env.subnetFound then Outcome(cloud, false, Err(SubnetNotFound))
      else
        match WithRule(lb.rules, config, pool)
        case Err(e) => Outcome(cloud, false, Err(e))
        case Ok((rules, port)) =>
          if !ProbeReadable(lb.probes, config) then Outcome(cloud, false, Err(Crash))
          else if cloud.HasLb? && ip != "" && HasBackend(lb.backends, pool) &&
             HasRule(lb.rules, config, pool) && HasProbe(lb.probes, config)
          then Outcome(cloud, false, Ok(Answer(ip, port)))
          else
            var next := Committed(Installed(lb, config, pool, ip, rules), env.newIp);
            match env.commit
            case Rejected => Outcome(cloud, true, Err(AzureFailure))
            case Lost => Outcome(HasLb(Some(next)), true, Err(AzureFailure))
            case Done =>
              Outcome(HasLb(Some(next)), true,
                      if ip != "" then Ok(Answer(ip, port))
                      else match FindFrontendIp(next.frontends, pool)
                        case Err(e) => Err(e)
                        case Ok(found) => if found == "" then Err(FrontendIpNotFound) else Ok(Answer(found, port)))
  }

  predicate UsesFrontend(r: Rule, pool: string) {
    r.props.Some? && r.props.value.frontend.Some? && EqualFold(r.props.value.frontend.value, pool)
  }

  predicate Referenced(rules: seq<Rule>, pool: string) {
    exists i :: 0 <= i < |rules| && UsesFrontend(rules[i], pool)
  }

  /** Counting the rules on a frontend dereferences it on every rule kept. */
  predicate RulesReadable(rules: seq<Rule>, uid: string) {
    forall i :: 0 <= i < |rules| ==> EqualFold(rules[i].name, uid) || (rules[i].props.Some? && rules[i].props.value.frontend.Some?)
  }

  /** The load balancer left when a configuration goes; the pool's frontend and backend go with its last rule. */
  function Uninstalled(lb: Lb, config: Config, pool: string): Lb {
    var rules := Without(lb.rules, RuleNamed(config.uid));
    var probes := RemoveAt(lb.probes, FirstIndex(lb.probes, ProbeNamed(config.uid)));
    if Referenced(rules, pool) then Lb(lb.frontends, lb.backends, rules, probes)
    else Lb(RemoveAt(lb.frontends, FirstIndex(lb.frontends, FrontendNamed(pool))),
            RemoveAt(lb.backends, FirstIndex(lb.backends, BackendNamed(pool))),
            rules, probes)
  }

  function Uninstall(cloud: Cloud, lb: Lb, config: Config, pool: string, env: Env): Outcome {
    match FindFrontendIp(lb.frontends, pool)
    case Err(e) => Outcome(cloud, false, Err(e))
    case Ok(ip) =>
      var next := Uninstalled(lb, config, pool);
      if !RulesReadable(lb.rules, config.uid) then Outcome(cloud, false, Err(Crash))
      else if !Referenced(next.rules, pool) && next.frontends == [] then
        match env.commit
        case Rejected => Outcome(cloud, true, Err(AzureFailure))
        case Lost => Outcome(NoLb, true, Err(AzureFailure))
        case Done => Outcome(NoLb, true, Ok(Answer("", 0)))
      else if next == lb then Outcome(cloud, false, Ok(Answer(ip, 0)))
      else
        match env.commit
        case Rejected => Outcome(cloud, true, Err(AzureFailure))
        case Lost => Outcome(HasLb(Some(Committed(next, env.newIp))), true, Err(AzureFailure))
        case Done => Outcome(HasLb(Some(Committed(next, env.newIp))), true, Ok(Answer(ip, 0)))
  }

  const EMPTY_LB := Lb([], [], [], [])

  function Reconcile(cloud: Cloud, config: Config, pool: Result<string, Error>, needLB: bool, env: Env): Outcome
  {
    if !env.readable then Outcome(cloud, false, Err(AzureFailure))
    else if cloud.NoLb? && !needLB then Outcome(cloud, false, Ok(Answer("", 0)))
    else if pool.Err? then Outcome(cloud, false, Err(pool.error))
    else if pool.value == "" then Outcome(cloud, false, Err(PoolHasNoUid))
    else if cloud.HasLb? && cloud.props.None? then Outcome(cloud, false, Err(EmptyProperties))
    else
      var lb := if cloud.NoLb? then EMPTY_LB else cloud.props.value;
      if needLB then Install(cloud, lb, config, pool.value, env)
      else Uninstall(cloud, lb, config, pool.value, env)
  }

  // ---------------------------------------------------------------- the controller's loops

  method FindFrontendIpLoop(frontends: seq<Frontend>, pool: string) returns (r: Result<string, Error>)
    ensures r == FindFrontendIp(frontends, pool)
  {
    var i := 0;
    while i < |frontends|
      invariant 0 <= i <= |frontends|
      invariant forall j :: 0 <= j < i ==> !EqualFold(frontends[j].name, pool)
    {
      if EqualFold(frontends[i].name, pool) {
        FirstIs(frontends, FrontendNamed(pool), i);
        var props := frontends[i].props;
        if props.None? || !props.value.ipv4 || props.value.address.None? {
          return Err(UnexpectedFrontend);
        }
        return Ok(props.value.address.value);
      }
      i := i + 1;
    }
    return Ok("");
  }

  /** Looks for the configuration's rule, dropping it in place when it is stale, and appends a fresh one. */
  method EnsureRule(rules: seq<Rule>, config: Config, pool: string)
    returns (r: Result<(seq<Rule>, int), Error>, found: bool)
    ensures r == WithRule(rules, config, pool)
    ensures found == HasRule(rules, config, pool)
  {
    var expected := ExpectedRule(config, pool, None);
    var current := rules;
    found := false;
    var port := 0;
    var i := 0;
    while i < |rules|
      invariant 0 <= i <= |rules|
      invariant current == rules && !found && port == 0
      invariant forall j :: 0 <= j < i ==> !EqualFold(rules[j].name, config.uid)
    {
      if EqualFold(rules[i].name, expected.name) {
        FirstIs(rules, RuleNamed(config.uid), i);
        if rules[i].props.None? || !SameRuleConfig(rules[i], expected) {
          current := current[..i] + current[i + 1..];
        } else {
          found := true;
          port := Val(rules[i].props.value.frontendPort);
        }
        break;
      }
      i := i + 1;
    }
    if found {
      return Ok((current, port)), true;
    }
    assert current == RemoveAt(rules, FirstIndex(rules, RuleNamed(config.uid)));
    var chosen := SelectPortForLBRule(pool, current);
    if chosen.Err? {
      return Err(chosen.error), false;
    }
    return Ok((current + [ExpectedRule(config, pool, Some(chosen.value))], chosen.value)), false;
  }

  method EnsureProbe(probes: seq<Probe>, config: Config) returns (r: seq<Probe>, found: bool, crashed: bool)
    ensures crashed <==> !ProbeReadable(probes, config)
    ensures !crashed ==> r == WithProbe(probes, config) && found == HasProbe(probes, config)
  {
    var expected := ExpectedProbe(config);
    r, found, crashed := probes, false, false;
    var i := 0;
    while i < |probes|
      invariant 0 <= i <= |probes|
      invariant r == probes && !found && !crashed
      invariant forall j :: 0 <= j < i ==> !EqualFold(probes[j].name, config.uid)
    {
      if EqualFold(probes[i].name, expected.name) {
        FirstIs(probes, ProbeNamed(config.uid), i);
        if probes[i].props.None? {
          return r, false, true;
        }
        var had, want := probes[i].props.value, expected.props.value;
        if had.path != want.path || had.port != want.port || had.http != want.http {
          r := r[..i] + r[i + 1..];
        } else {
          found := true;
        }
        break;
      }
      i := i + 1;
    }
    if !found {
      assert r == RemoveAt(probes, FirstIndex(probes, ProbeNamed(config.uid)));
      r := r + [expected];
    }
  }

  method FindBackend(backends: seq<string>, pool: string) returns (found: bool)
    ensures found == HasBackend(backends, pool)
  {
    found := false;
    var i := 0;
    while i < |backends|
      invariant 0 <= i <= |backends|
      invariant !found
      invariant forall j :: 0 <= j < i ==> !EqualFold(backends[j], pool)
    {
      if EqualFold(backends[i], pool) {
        FirstIs(backends, BackendNamed(pool), i);
        return true;
      }
      i := i + 1;
    }
  }

  /** The backward loop that drops the configuration's rules and counts the others on its frontend. */
  method DropRules(rules: seq<Rule>, uid: string, pool: string) returns (kept: seq<Rule>, refs: nat, dropped: bool, crashed: bool)
    ensures crashed <==> !RulesReadable(rules, uid)
    ensures !crashed ==> kept == Without(rules, RuleNamed(uid))
    ensures !crashed ==> (refs == 0 <==> !Referenced(kept, pool))
    ensures !crashed ==> (dropped <==> kept != rules)
    ensures !crashed ==> (dropped <==> |kept| < |rules|)
  {
    hide Fold, Without;
    kept, refs, dropped, crashed := rules, 0, false, false;
    var i := |rules|;
    WithoutNone<Rule>([], RuleNamed(uid));
    assert rules[i..] == [];
    ghost var tail: seq<Rule> := [];
    while 0 < i
      invariant 0 <= i <= |rules|
      invariant tail == Without(rules[i..], RuleNamed(uid))
      invariant kept == rules[..i] + tail
      invariant refs == 0 <==> !Referenced(tail, pool)
      invariant |tail| <= |rules| - i
      invariant dropped <==> |tail| < |rules| - i
      invariant !dropped ==> kept == rules
      invariant !crashed && forall j :: i <= j < |rules| ==> EqualFold(rules[j].name, uid) || (rules[j].props.Some? && rules[j].props.value.frontend.Some?)
    {
      i := i - 1;
      ghost var before := tail;
      WithoutStep(rules, i, RuleNamed(uid));
      tail := Without(rules[i..], RuleNamed(uid));
      if EqualFold(rules[i].name, uid) {
        kept := kept[..i] + kept[i + 1..];
        dropped := true;
      } else if rules[i].props.None? || rules[i].props.value.frontend.None? {
        return rules, 0, false, true;
      } else {
        ReferencedCons(rules[i], before, pool);
        if EqualFold(rules[i].props.value.frontend.value, pool) {
          refs := refs + 1;
        }
      }
    }
    assert rules[0..] == rules;
  }

  lemma ReferencedCons(r: Rule, rest: seq<Rule>, pool: string)
    ensures Referenced([r] + rest, pool) <==> UsesFrontend(r, pool) || Referenced(rest, pool)
  {
    var all := [r] + rest;
    if UsesFrontend(r, pool) {
      assert UsesFrontend(all[0], pool);
    }
    if i :| 0 <= i < |rest| && UsesFrontend(rest[i], pool) {
      assert UsesFrontend(all[i + 1], pool);
    }
  }

  /** Drops the first element matching `p`, the shape shared by the probe, frontend and backend loops. */
  method DropFirst<T>(s: seq<T>, p: T -> bool) returns (r: seq<T>, dropped: bool)
    ensures r == RemoveAt(s, FirstIndex(s, p))
    ensures dropped <==> |r| < |s|
    ensures !dropped ==> r == s
  {
    r, dropped := s, false;
    var i := 0;
    while i < |s|
      invariant 0 <= i <= |s|
      invariant r == s && !dropped
      invariant forall j :: 0 <= j < i ==> !p(s[j])
    {
      if p(s[i]) {
        FirstIs(s, p, i);
        return s[..i] + s[i + 1..], true;
      }
      i := i + 1;
    }
  }

  class GatewayLb {
    var cloud: Cloud

    constructor ()
      ensures cloud == NoLb
    {
      cloud := NoLb;
    }

    method CreateOrUpdateLB(lb: Lb, env: Env) returns (r: Result<Lb, Error>)
      modifies this
      ensures env.commit == Rejected ==> cloud == old(cloud) && r == Err(AzureFailure)
      ensures env.commit == Lost ==> cloud == HasLb(Some(Committed(lb, env.newIp))) && r == Err(AzureFailure)
      ensures env.commit == Done ==>
                cloud == HasLb(Some(Committed(lb, env.newIp))) && r == Ok(Committed(lb, env.newIp))
    {
      if env.commit != Rejected {
        cloud := HasLb(Some(Committed(lb, env.newIp)));
      }
      if env.commit == Done {
        return Ok(Committed(lb, env.newIp));
      }
      return Err(AzureFailure);
    }

    /** The whole reconcile, step by step; its effect and answer are `Reconcile`'s. */
    method ReconcileLBRule(config: Config, pool: Result<string, Error>, needLB: bool, env: Env)
      returns (r: Result<Answer, Error>, wrote: bool)
      modifies this
      ensures Outcome(cloud, wrote, r) == Reconcile(old(cloud), config, pool, needLB, env)
    {
      wrote := false;
      if !env.readable {
        return Err(AzureFailure), false;
      }
      var updateLB := false;
      var lb := EMPTY_LB;
      if cloud.NoLb? {
        if !needLB {
          return Ok(Answer("", 0)), false;
        }
        updateLB := true;
      }
      if pool.Err? {
        return Err(pool.error), false;
      }
      if pool.value == "" {
        return Err(PoolHasNoUid), false;
      }
      if cloud.HasLb? {
        if cloud.props.None? {
          return Err(EmptyProperties), false;
        }
        lb := cloud.props.value;
      }
      if needLB {
        r, wrote := InstallRule(lb, updateLB, config, pool.value, env);
      } else {
        r, wrote := UninstallRule(lb, config, pool.value, env);
      }
    }

    method InstallRule(start: Lb, isNew: bool, config: Config, pool: string, env: Env)
      returns (r: Result<Answer, Error>, wrote: bool)
      requires isNew == cloud.NoLb?
      modifies this
      ensures Outcome(cloud, wrote, r) == Install(old(cloud), start, config, pool, env)
    {
      hide FindFrontendIp, PortFor, HasRule, HasProbe, HasBackend, ProbeReadable;
      var lb, updateLB := start, isNew;
      var found := FindFrontendIpLoop(lb.frontends, pool);
      if found.Err? {
        return Err(found.error), false;
      }
      var ip := found.value;
      if ip == "" {
        if !env.subnetFound {
          return Err(SubnetNotFound), false;
        }
        lb := lb.(frontends := lb.frontends + [NewFrontend(pool)]);
        updateLB := true;
      }
      var foundBackend := FindBackend(lb.backends, pool);
      if !foundBackend {
        lb := lb.(backends := lb.backends + [pool]);
        updateLB := true;
      }
      var rules, foundRule := EnsureRule(lb.rules, config, pool);
      if rules.Err? {
        return Err(rules.error), false;
      }
      var port := rules.value.1;
      if !foundRule {
        lb := lb.(rules := rules.value.0);
        updateLB := true;
      }
      var probes, foundProbe, noProps := EnsureProbe(lb.probes, config);
      if noProps {
        return Err(Crash), false;
      }
      if !foundProbe {
        lb := lb.(probes := probes);
        updateLB := true;
      }
      if !updateLB {
        return Ok(Answer(ip, port)), false;
      }
      var updated := CreateOrUpdateLB(lb, env);
      if updated.Err? {
        return Err(updated.error), true;
      }
      if ip == "" {
        var again := FindFrontendIpLoop(updated.value.frontends, pool);
        if again.Err? {
          return Err(again.error), true;
        }
        if again.value == "" {
          return Err(FrontendIpNotFound), true;
        }
        ip := again.value;
      }
      return Ok(Answer(ip, port)), true;
    }

    method UninstallRule(start: Lb, config: Config, pool: string, env: Env)
      returns (r: Result<Answer, Error>, wrote: bool)
      modifies this
      ensures Outcome(cloud, wrote, r) == Uninstall(old(cloud), start, config, pool, env)
    {
      var lb := start;
      var found := FindFrontendIpLoop(lb.frontends, pool);
      if found.Err? {
        return Err(found.error), false;
      }
      var rules, refs, updateLB, noFrontend := DropRules(lb.rules, config.uid, pool);
      if noFrontend {
        return Err(Crash), false;
      }
      lb := lb.(rules := rules);
      var probes, droppedProbe := DropFirst(lb.probes, ProbeNamed(config.uid));
      lb := lb.(probes := probes);
      updateLB := updateLB || droppedProbe;
      if refs == 0 {
        var frontends, droppedFrontend := DropFirst(lb.frontends, FrontendNamed(pool));
        var backends, droppedBackend := DropFirst(lb.backends, BackendNamed(pool));
        lb := lb.(frontends := frontends, backends := backends);
        updateLB := updateLB || droppedFrontend || droppedBackend;
        if lb.frontends == [] {
          if env.commit != Rejected {
            cloud := NoLb;
          }
          return if env.commit == Done then Ok(Answer("", 0)) else Err(AzureFailure), true;
        }
      }
      if updateLB {
        var updated := CreateOrUpdateLB(lb, env);
        if updated.Err? {
          return Err(updated.error), true;
        }
      }
      return Ok(Answer(found.value, 0)), updateLB;
    }
  }
}
