// What every reconcile keeps true of the shared load balancer, over whole runs.

module LoadBalancerRuns {
  import opened Wrappers
  import opened Names
  import opened Sequences
  import opened LoadBalancer

  // ---------------------------------------------------------------- soundness of a load balancer

  /** A rule as the controller writes it: frontend and backend of one pool, its own probe, one valid port. */
  ghost predicate SelfConsistent(r: Rule) {
    r.props.Some? &&
    var p := r.props.value;
    p.frontend.Some? && p.backend.Some? && p.probe.Some? &&
    EqualFold(p.frontend.value, p.backend.value) && EqualFold(p.probe.value, r.name) &&
    p.protocol == Udp && p.floatingIp && ValidPort(p)
  }

  ghost function PoolOf(r: Rule): string
    requires SelfConsistent(r)
  {
    Fold(r.props.value.backend.value)
  }

  ghost function PortOf(r: Rule): int
    requires SelfConsistent(r)
  {
    r.props.value.backendPort.value
  }

  /** Rule names are unique and rules of one pool hold pairwise distinct ports. */
  ghost predicate SoundRules(rules: seq<Rule>) {
    Distinct(RuleNames(rules)) &&
    (forall i :: 0 <= i < |rules| ==> SelfConsistent(rules[i])) &&
    (forall i, j :: 0 <= i < j < |rules| && PoolOf(rules[i]) == PoolOf(rules[j]) ==> PortOf(rules[i]) != PortOf(rules[j]))
  }

  /** Every sub-resource a rule refers to exists on the load balancer. */
  ghost predicate Linked(lb: Lb, r: Rule)
    requires SelfConsistent(r)
  {
    PoolOf(r) in Keys(FrontendNames(lb.frontends)) && PoolOf(r) in Keys(lb.backends) &&
    Fold(r.name) in Keys(ProbeNames(lb.probes))
  }

  ghost predicate Addressed(frontends: seq<Frontend>) {
    forall i :: 0 <= i < |frontends| && frontends[i].props.Some? ==> frontends[i].props.value.address != Some("")
  }

  ghost predicate Propertied(probes: seq<Probe>) {
    forall i :: 0 <= i < |probes| ==> probes[i].props.Some?
  }

  ghost predicate Sound(lb: Lb) {
    SoundRules(lb.rules) &&
    Distinct(FrontendNames(lb.frontends)) && Distinct(lb.backends) && Distinct(ProbeNames(lb.probes)) &&
    Addressed(lb.frontends) && Propertied(lb.probes) &&
    forall i :: 0 <= i < |lb.rules| ==> Linked(lb, lb.rules[i])
  }

  ghost predicate SoundCloud(cloud: Cloud) {
    cloud.HasLb? && cloud.props.Some? ==> Sound(cloud.props.value)
  }

  // ---------------------------------------------------------------- name lists under the edits

  lemma KeysAppend(names: seq<string>, n: string)
    ensures Keys(names + [n]) == Keys(names) + {Fold(n)}
    ensures Distinct(names) && Fold(n) !in Keys(names) ==> Distinct(names + [n])
  {
    var all := names + [n];
    forall k | k in Keys(names)
      ensures k in Keys(all)
    {
      var i :| 0 <= i < |names| && Fold(names[i]) == k;
      assert all[i] == names[i];
    }
    assert all[|names|] == n;
    assert forall i :: 0 <= i < |names| ==> all[i] == names[i] && Fold(names[i]) in Keys(names);
  }

  lemma KeysRemove(names: seq<string>, i: nat)
    requires Distinct(names) && i <= |names|
    ensures Distinct(RemoveAt(names, i))
    ensures Keys(RemoveAt(names, i)) == if i < |names| then Keys(names) - {Fold(names[i])} else Keys(names)
  {
    var r := RemoveAt(names, i);
    if i < |names| {
      forall k | k in Keys(names) && k != Fold(names[i])
        ensures k in Keys(r)
      {
        var j :| 0 <= j < |names| && Fold(names[j]) == k;
        assert r[if j < i then j else j - 1] == names[j];
      }
    }
  }

  lemma RuleNamesEdits(rules: seq<Rule>, i: nat, r: Rule)
    requires i <= |rules|
    ensures RuleNames(RemoveAt(rules, i)) == RemoveAt(RuleNames(rules), i)
    ensures RuleNames(rules + [r]) == RuleNames(rules) + [r.name]
  {
  }

  lemma ProbeNamesEdits(probes: seq<Probe>, i: nat, p: Probe)
    requires i <= |probes|
    ensures ProbeNames(RemoveAt(probes, i)) == RemoveAt(ProbeNames(probes), i)
    ensures ProbeNames(probes + [p]) == ProbeNames(probes) + [p.name]
  {
  }

  lemma FrontendNamesEdits(frontends: seq<Frontend>, i: nat, f: Frontend)
    requires i <= |frontends|
    ensures FrontendNames(RemoveAt(frontends, i)) == RemoveAt(FrontendNames(frontends), i)
    ensures FrontendNames(frontends + [f]) == FrontendNames(frontends) + [f.name]
  {
  }

  lemma RuleAbsent(rules: seq<Rule>, uid: string)
    ensures FirstIndex(rules, RuleNamed(uid)) == |rules| <==> Fold(uid) !in Keys(RuleNames(rules))
  {
    var i := FirstIndex(rules, RuleNamed(uid));
    if i < |rules| {
      assert Fold(RuleNames(rules)[i]) == Fold(uid);
    }
  }

  lemma ProbeAbsent(probes: seq<Probe>, uid: string)
    ensures FirstIndex(probes, ProbeNamed(uid)) == |probes| <==> Fold(uid) !in Keys(ProbeNames(probes))
  {
    var i := FirstIndex(probes, ProbeNamed(uid));
    if i < |probes| {
      assert Fold(ProbeNames(probes)[i]) == Fold(uid);
    }
  }

  lemma FrontendAbsent(frontends: seq<Frontend>, pool: string)
    ensures FirstIndex(frontends, FrontendNamed(pool)) == |frontends| <==> Fold(pool) !in Keys(FrontendNames(frontends))
  {
    var i := FirstIndex(frontends, FrontendNamed(pool));
    if i < |frontends| {
      assert Fold(FrontendNames(frontends)[i]) == Fold(pool);
    }
  }

  lemma BackendAbsent(backends: seq<string>, pool: string)
    ensures FirstIndex(backends, BackendNamed(pool)) == |backends| <==> Fold(pool) !in Keys(backends)
  {
  }

  // ---------------------------------------------------------------- each list after an edit

  /** Dropping rule `i` frees its name; every other rule stays. */
  lemma DroppedRule(rules: seq<Rule>, uid: string)
    requires SoundRules(rules)
    ensures var rest := RemoveAt(rules, FirstIndex(rules, RuleNamed(uid)));
            SoundRules(rest) && Keys(RuleNames(rest)) == Keys(RuleNames(rules)) - {Fold(uid)}
  {
    var i := FirstIndex(rules, RuleNamed(uid));
    RuleAbsent(rules, uid);
    KeysRemove(RuleNames(rules), i);
    if i < |rules| {
      RuleNamesEdits(rules, i, rules[i]);
    }
  }

  lemma PortFresh(pool: string, rules: seq<Rule>, port: int, i: nat)
    requires PortFor(pool, rules) == Ok(port)
    requires i < |rules| && SelfConsistent(rules[i]) && PoolOf(rules[i]) == Fold(pool)
    ensures PortOf(rules[i]) != port
  {
  }

  lemma InstalledRules(rules: seq<Rule>, config: Config, pool: string)
    requires SoundRules(rules) && WithRule(rules, config, pool).Ok?
    ensures var (next, port) := WithRule(rules, config, pool).value;
            SoundRules(next) && Keys(RuleNames(next)) == Keys(RuleNames(rules)) + {Fold(config.uid)}
  {
    hide Fold, Keys;
    var i := FirstIndex(rules, RuleNamed(config.uid));
    RuleAbsent(rules, config.uid);
    if !HasRule(rules, config, pool) {
      var rest := RemoveAt(rules, i);
      var port := PortFor(pool, rest).value;
      var added := ExpectedRule(config, pool, Some(port));
      DroppedRule(rules, config.uid);
      RuleNamesEdits(rest, |rest|, added);
      KeysAppend(RuleNames(rest), config.uid);
      forall j | 0 <= j < |rest| && PoolOf(rest[j]) == PoolOf(added)
        ensures PortOf(rest[j]) != PortOf(added)
      {
        PortFresh(pool, rest, port, j);
      }
    }
  }

  lemma InstalledProbes(probes: seq<Probe>, config: Config)
    requires Distinct(ProbeNames(probes))
    ensures Distinct(ProbeNames(WithProbe(probes, config)))
    ensures Keys(ProbeNames(WithProbe(probes, config))) == Keys(ProbeNames(probes)) + {Fold(config.uid)}
    ensures Propertied(probes) ==> Propertied(WithProbe(probes, config))
  {
    var i := FirstIndex(probes, ProbeNamed(config.uid));
    ProbeAbsent(probes, config.uid);
    if !HasProbe(probes, config) {
      var rest := RemoveAt(probes, i);
      var added := ExpectedProbe(config);
      KeysRemove(ProbeNames(probes), i);
      ProbeNamesEdits(probes, i, added);
      ProbeNamesEdits(rest, |rest|, added);
      KeysAppend(ProbeNames(rest), config.uid);
    }
  }

  lemma CommittedNames(lb: Lb, ip: string)
    ensures FrontendNames(Committed(lb, ip).frontends) == FrontendNames(lb.frontends)
    ensures Addressed(lb.frontends) && ip != "" ==> Addressed(Committed(lb, ip).frontends)
  {
  }

  lemma InstalledFrontends(lb: Lb, pool: string, ip: string)
    requires Distinct(FrontendNames(lb.frontends)) && Addressed(lb.frontends)
    requires FindFrontendIp(lb.frontends, pool) == Ok(ip)
    ensures var next := if ip == "" then lb.frontends + [NewFrontend(pool)] else lb.frontends;
            Distinct(FrontendNames(next)) && Addressed(next) &&
            Keys(FrontendNames(next)) == Keys(FrontendNames(lb.frontends)) + {Fold(pool)}
  {
    hide Fold, Keys, Distinct;
    FrontendAbsent(lb.frontends, pool);
    FrontendNamesEdits(lb.frontends, |lb.frontends|, NewFrontend(pool));
    KeysAppend(FrontendNames(lb.frontends), pool);
  }

  lemma InstalledBackends(backends: seq<string>, pool: string)
    requires Distinct(backends)
    ensures var next := if HasBackend(backends, pool) then backends else backends + [pool];
            Distinct(next) && Keys(next) == Keys(backends) + {Fold(pool)}
  {
    BackendAbsent(backends, pool);
    KeysAppend(backends, pool);
  }

  /** Keys of the load balancer's four lists. */
  ghost predicate SameKeysPlus(before: Lb, after: Lb, pool: string, uid: string) {
    Keys(FrontendNames(after.frontends)) == Keys(FrontendNames(before.frontends)) + {Fold(pool)} &&
    Keys(after.backends) == Keys(before.backends) + {Fold(pool)} &&
    Keys(RuleNames(after.rules)) == Keys(RuleNames(before.rules)) + {Fold(uid)} &&
    Keys(ProbeNames(after.probes)) == Keys(ProbeNames(before.probes)) + {Fold(uid)}
  }

  lemma InstalledSound(lb: Lb, config: Config, pool: string, ip: string, newIp: string)
    requires Sound(lb) && newIp != ""
    requires FindFrontendIp(lb.frontends, pool) == Ok(ip)
    requires WithRule(lb.rules, config, pool).Ok?
    ensures var next := Committed(Installed(lb, config, pool, ip, WithRule(lb.rules, config, pool).value.0), newIp);
            Sound(next) && SameKeysPlus(lb, next, pool, config.uid)
  {
    hide Fold, Keys, FrontendNames, RuleNames, ProbeNames, PortFor, WithProbe, HasRule, FindFrontendIp;
    var rules := WithRule(lb.rules, config, pool).value.0;
    var mid := Installed(lb, config, pool, ip, rules);
    var next := Committed(mid, newIp);
    InstalledFrontends(lb, pool, ip);
    InstalledBackends(lb.backends, pool);
    InstalledRules(lb.rules, config, pool);
    InstalledProbes(lb.probes, config);
    CommittedNames(mid, newIp);
    forall i | 0 <= i < |rules|
      ensures Linked(next, rules[i])
    {
      if HasRule(lb.rules, config, pool) {
        assert Linked(lb, lb.rules[i]);
      } else {
        var k := FirstIndex(lb.rules, RuleNamed(config.uid));
        if i < |rules| - 1 {
          var j := if i < k then i else i + 1;
          assert rules[i] == lb.rules[j] && Linked(lb, lb.rules[j]);
        }
      }
    }
  }

  /** The names left when a configuration goes: its own, and its pool's when no other rule uses it. */
  ghost predicate KeysWithout(before: Lb, after: Lb, pool: string, uid: string) {
    var gone := if Referenced(after.rules, pool) then {} else {Fold(pool)};
    Keys(FrontendNames(after.frontends)) == Keys(FrontendNames(before.frontends)) - gone &&
    Keys(after.backends) == Keys(before.backends) - gone &&
    Keys(RuleNames(after.rules)) == Keys(RuleNames(before.rules)) - {Fold(uid)} &&
    Keys(ProbeNames(after.probes)) == Keys(ProbeNames(before.probes)) - {Fold(uid)}
  }

  lemma UninstalledParts(lb: Lb, config: Config, pool: string)
    requires Sound(lb)
    ensures var next := Uninstalled(lb, config, pool);
            next.rules == RemoveAt(lb.rules, FirstIndex(lb.rules, RuleNamed(config.uid))) &&
            SoundRules(next.rules) && Addressed(next.frontends) && Propertied(next.probes) &&
            Distinct(FrontendNames(next.frontends)) && Distinct(next.backends) && Distinct(ProbeNames(next.probes)) &&
            KeysWithout(lb, next, pool, config.uid)
  {
    SingleRule(lb.rules, config.uid);
    WithoutSingle(lb.rules, RuleNamed(config.uid));
    DroppedRule(lb.rules, config.uid);
    ProbeDropped(lb.probes, config.uid);
    FrontendDropped(lb.frontends, pool);
    BackendAbsent(lb.backends, pool);
    KeysRemove(lb.backends, FirstIndex(lb.backends, BackendNamed(pool)));
  }

  /** The reference count looks at frontends only, yet the backend it removes is unused too: a rule's two ends agree. */
  lemma UninstalledSound(lb: Lb, config: Config, pool: string)
    requires Sound(lb)
    ensures Sound(Uninstalled(lb, config, pool))
    ensures KeysWithout(lb, Uninstalled(lb, config, pool), pool, config.uid)
  {
    hide Fold, Distinct, Uninstalled, SoundRules;
    var next := Uninstalled(lb, config, pool);
    UninstalledParts(lb, config, pool);
    var k := FirstIndex(lb.rules, RuleNamed(config.uid));
    forall i | 0 <= i < |next.rules|
      ensures Linked(next, next.rules[i])
    {
      var j := if i < k then i else i + 1;
      assert next.rules[i] == lb.rules[j] && Linked(lb, lb.rules[j]);
      assert RuleNames(next.rules)[i] == lb.rules[j].name;
      assert Fold(lb.rules[j].name) in Keys(RuleNames(next.rules));
      assert UsesFrontend(next.rules[i], pool) <==> PoolOf(next.rules[i]) == Fold(pool);
    }
  }

  lemma SingleRule(rules: seq<Rule>, uid: string)
    requires Distinct(RuleNames(rules))
    ensures forall i, j :: 0 <= i < j < |rules| ==> !(RuleNamed(uid)(rules[i]) && RuleNamed(uid)(rules[j]))
  {
    forall i, j | 0 <= i < j < |rules|
      ensures !(RuleNamed(uid)(rules[i]) && RuleNamed(uid)(rules[j]))
    {
      assert Fold(RuleNames(rules)[i]) != Fold(RuleNames(rules)[j]);
    }
  }

  lemma ProbeDropped(probes: seq<Probe>, uid: string)
    requires Distinct(ProbeNames(probes))
    ensures var rest := RemoveAt(probes, FirstIndex(probes, ProbeNamed(uid)));
            Distinct(ProbeNames(rest)) && Keys(ProbeNames(rest)) == Keys(ProbeNames(probes)) - {Fold(uid)}
  {
    var i := FirstIndex(probes, ProbeNamed(uid));
    ProbeAbsent(probes, uid);
    KeysRemove(ProbeNames(probes), i);
    if i < |probes| {
      ProbeNamesEdits(probes, i, probes[i]);
    }
  }

  lemma FrontendDropped(frontends: seq<Frontend>, pool: string)
    requires Distinct(FrontendNames(frontends)) && Addressed(frontends)
    ensures var rest := RemoveAt(frontends, FirstIndex(frontends, FrontendNamed(pool)));
            Distinct(FrontendNames(rest)) && Addressed(rest) &&
            Keys(FrontendNames(rest)) == Keys(FrontendNames(frontends)) - {Fold(pool)}
  {
    var i := FirstIndex(frontends, FrontendNamed(pool));
    FrontendAbsent(frontends, pool);
    KeysRemove(FrontendNames(frontends), i);
    if i < |frontends| {
      FrontendNamesEdits(frontends, i, frontends[i]);
    }
  }

  // ---------------------------------------------------------------- one event

  /** One reconcile of one configuration, with the pool it resolved to and Azure's answers. */
  datatype Event = Event(config: Config, pool: Result<string, Error>, needLB: bool, env: Env)

  function Apply(cloud: Cloud, e: Event): Cloud {
    Reconcile(cloud, e.config, e.pool, e.needLB, e.env).cloud
  }

  /** Azure never gives a new frontend an empty address. */
  ghost predicate Possible(e: Event) {
    e.env.newIp != ""
  }

  lemma SoundReadable(lb: Lb, config: Config)
    requires Sound(lb)
    ensures ProbeReadable(lb.probes, config) && RulesReadable(lb.rules, config.uid)
  {
    hide Fold, Distinct, Keys;
  }

  /** On a sound load balancer no reconcile, of any configuration and whatever Azure answers, crashes the controller. */
  lemma SoundNeverCrashes(cloud: Cloud, e: Event)
    requires SoundCloud(cloud) && e.pool != Err(Crash)
    ensures Reconcile(cloud, e.config, e.pool, e.needLB, e.env).result != Err(Crash)
  {
    hide Sound, ProbeReadable, RulesReadable, Installed, Uninstalled, Committed, HasRule, HasProbe, HasBackend;
    EmptySound();
    SoundReadable(if cloud.HasLb? && cloud.props.Some? then cloud.props.value else EMPTY_LB, e.config);
    PortNeverCrashes(e);
  }

  lemma PortNeverCrashes(e: Event)
    ensures forall rules, pool :: WithRule(rules, e.config, pool) != Err(Crash)
  {
    hide UsedPorts, AllValid;
  }

  lemma EmptySound()
    ensures Sound(EMPTY_LB)
  {
  }

  lemma StepSound(cloud: Cloud, e: Event)
    requires SoundCloud(cloud) && Possible(e)
    ensures SoundCloud(Apply(cloud, e))
  {
    hide Sound, SameKeysPlus, KeysWithout, WithRule, FindFrontendIp, Committed, Installed, Uninstalled;
    var after := Apply(cloud, e);
    if after != cloud && after.HasLb? {
      var lb := if cloud.NoLb? then EMPTY_LB else cloud.props.value;
      EmptySound();
      if e.needLB {
        InstalledSound(lb, e.config, e.pool.value, FindFrontendIp(lb.frontends, e.pool.value).value, e.env.newIp);
      } else {
        UninstalledSound(lb, e.config, e.pool.value);
        CommittedSound(Uninstalled(lb, e.config, e.pool.value), e.env.newIp);
      }
    }
  }

  lemma CommittedSound(lb: Lb, ip: string)
    requires Sound(lb) && ip != ""
    ensures Sound(Committed(lb, ip))
  {
    CommittedNames(lb, ip);
    forall i | 0 <= i < |lb.rules|
      ensures Linked(Committed(lb, ip), lb.rules[i])
    {
      assert Linked(lb, lb.rules[i]);
    }
  }

  /** The event deletes the rule's configuration, or moves it to another pool. */
  ghost predicate Replaces(e: Event, r: Rule)
    requires SelfConsistent(r)
  {
    EqualFold(r.name, e.config.uid) && (!e.needLB || (e.pool.Ok? && Fold(e.pool.value) != PoolOf(r)))
  }

  ghost predicate Serves(cloud: Cloud, r: Rule) {
    SelfConsistent(r) && cloud.HasLb? && cloud.props.Some? &&
    r in cloud.props.value.rules && Linked(cloud.props.value, r)
  }

  lemma ServesOnInstall(lb: Lb, config: Config, pool: string, ip: string, newIp: string, i: nat)
    requires Sound(lb) && newIp != "" && i < |lb.rules|
    requires FindFrontendIp(lb.frontends, pool) == Ok(ip) && WithRule(lb.rules, config, pool).Ok?
    requires EqualFold(lb.rules[i].name, config.uid) ==> Fold(pool) == PoolOf(lb.rules[i])
    ensures Serves(HasLb(Some(Committed(Installed(lb, config, pool, ip, WithRule(lb.rules, config, pool).value.0), newIp))),
                   lb.rules[i])
  {
    hide Fold, Keys, FindFrontendIp, WithRule, WithProbe;
    InstalledSound(lb, config, pool, ip, newIp);
    KeptOnInstall(lb, config, pool, i);
  }

  lemma ServesOnUninstall(lb: Lb, config: Config, pool: string, i: nat, newIp: string)
    requires Sound(lb) && newIp != "" && i < |lb.rules| && !EqualFold(lb.rules[i].name, config.uid)
    ensures Uninstalled(lb, config, pool).frontends != []
    ensures Serves(HasLb(Some(Committed(Uninstalled(lb, config, pool), newIp))), lb.rules[i])
  {
    hide Fold, Uninstalled, Keys, Distinct, KeysWithout, FrontendNames;
    var next := Uninstalled(lb, config, pool);
    UninstalledSound(lb, config, pool);
    UninstalledParts(lb, config, pool);
    var k := FirstIndex(lb.rules, RuleNamed(config.uid));
    var j := if i < k then i else i - 1;
    assert next.rules[j] == lb.rules[i] && Linked(next, next.rules[j]);
    FrontendKeysNonEmpty(next.frontends);
    CommittedSound(next, newIp);
  }

  /**
   * No reconcile touches a rule it does not replace: the rule keeps its port, and the load
   * balancer, frontend, backend and probe it uses all survive.
   */
  lemma StepServes(cloud: Cloud, e: Event, r: Rule)
    requires SoundCloud(cloud) && Possible(e)
    requires Serves(cloud, r) && !Replaces(e, r)
    ensures Serves(Apply(cloud, e), r)
  {
    hide Sound, Linked, Fold, WithRule, FindFrontendIp, Committed, Installed, Uninstalled;
    var lb := cloud.props.value;
    var i :| 0 <= i < |lb.rules| && lb.rules[i] == r;
    if Apply(cloud, e) != cloud {
      if e.needLB {
        ServesOnInstall(lb, e.config, e.pool.value, FindFrontendIp(lb.frontends, e.pool.value).value, e.env.newIp, i);
      } else {
        ServesOnUninstall(lb, e.config, e.pool.value, i, e.env.newIp);
      }
    }
  }

  lemma KeptOnInstall(lb: Lb, config: Config, pool: string, i: nat)
    requires Sound(lb) && i < |lb.rules| && WithRule(lb.rules, config, pool).Ok?
    requires EqualFold(lb.rules[i].name, config.uid) ==> Fold(pool) == PoolOf(lb.rules[i])
    ensures lb.rules[i] in WithRule(lb.rules, config, pool).value.0
  {
    var r := lb.rules[i];
    var k := FirstIndex(lb.rules, RuleNamed(config.uid));
    if EqualFold(r.name, config.uid) {
      SingleRule(lb.rules, config.uid);
      assert RuleNamed(config.uid)(lb.rules[i]) && k == i;
      assert HasRule(lb.rules, config, pool);
    } else if !HasRule(lb.rules, config, pool) {
      assert RemoveAt(lb.rules, k)[if i < k then i else i - 1] == r;
      assert r in RemoveAt(lb.rules, k);
    }
  }

  // ---------------------------------------------------------------- whole runs

  function Run(cloud: Cloud, events: seq<Event>): Cloud {
    if events == [] then cloud else Apply(Run(cloud, events[..|events| - 1]), events[|events| - 1])
  }

  /** Over any run, pools changing freely, the load balancer stays sound. */
  lemma {:induction false} RunSound(cloud: Cloud, events: seq<Event>)
    requires SoundCloud(cloud)
    requires forall i :: 0 <= i < |events| ==> Possible(events[i])
    ensures SoundCloud(Run(cloud, events))
  {
    if events != [] {
      RunSound(cloud, events[..|events| - 1]);
      StepSound(Run(cloud, events[..|events| - 1]), events[|events| - 1]);
    }
  }

  /** A configuration keeps its rule, hence its port, through every run that neither deletes nor moves it. */
  lemma {:induction false} RunServes(cloud: Cloud, events: seq<Event>, r: Rule)
    requires SoundCloud(cloud) && Serves(cloud, r)
    requires forall i :: 0 <= i < |events| ==> Possible(events[i]) && !Replaces(events[i], r)
    ensures Serves(Run(cloud, events), r)
  {
    if events != [] {
      var init, last := events[..|events| - 1], events[|events| - 1];
      RunServes(cloud, init, r);
      RunSound(cloud, init);
      StepServes(Run(cloud, init), last, r);
    }
  }

  // ---------------------------------------------------------------- repeating a reconcile

  lemma RuleFound(rules: seq<Rule>, config: Config, pool: string)
    requires SoundRules(rules) && WithRule(rules, config, pool).Ok?
    ensures var (next, port) := WithRule(rules, config, pool).value;
            HasRule(next, config, pool) && WithRule(next, config, pool) == Ok((next, port))
  {
    if !HasRule(rules, config, pool) {
      var next := WithRule(rules, config, pool).value.0;
      var rest := RemoveAt(rules, FirstIndex(rules, RuleNamed(config.uid)));
      DroppedRule(rules, config.uid);
      RuleAbsent(rest, config.uid);
      FirstIs(next, RuleNamed(config.uid), |rest|);
    }
  }

  lemma ProbeFound(probes: seq<Probe>, config: Config)
    requires Distinct(ProbeNames(probes))
    ensures HasProbe(WithProbe(probes, config), config) && ProbeReadable(WithProbe(probes, config), config)
  {
    if !HasProbe(probes, config) {
      var rest := RemoveAt(probes, FirstIndex(probes, ProbeNamed(config.uid)));
      ProbeDropped(probes, config.uid);
      ProbeAbsent(rest, config.uid);
      FirstIs(WithProbe(probes, config), ProbeNamed(config.uid), |rest|);
    }
  }

  lemma FrontendFound(lb: Lb, pool: string, newIp: string)
    requires FindFrontendIp(lb.frontends, pool).Ok? && FindFrontendIp(lb.frontends, pool).value != ""
    ensures FindFrontendIp(Committed(lb, newIp).frontends, pool) == FindFrontendIp(lb.frontends, pool)
  {
    FirstIs(Committed(lb, newIp).frontends, FrontendNamed(pool), FirstIndex(lb.frontends, FrontendNamed(pool)));
  }

  lemma InstalledFound(lb: Lb, config: Config, pool: string, ip: string, newIp: string)
    requires Sound(lb) && newIp != ""
    requires FindFrontendIp(lb.frontends, pool) == Ok(ip)
    requires WithRule(lb.rules, config, pool).Ok?
    ensures var (rules, port) := WithRule(lb.rules, config, pool).value;
            var next := Committed(Installed(lb, config, pool, ip, rules), newIp);
            HasBackend(next.backends, pool) && HasProbe(next.probes, config) && HasRule(next.rules, config, pool) &&
            ProbeReadable(next.probes, config) &&
            WithRule(next.rules, config, pool) == Ok((rules, port)) &&
            (ip != "" ==> FindFrontendIp(next.frontends, pool) == Ok(ip))
  {
    hide Fold, Keys, Linked, FindFrontendIp, WithRule, WithProbe, HasRule, HasProbe, ProbeReadable;
    var mid := Installed(lb, config, pool, ip, WithRule(lb.rules, config, pool).value.0);
    BackendAbsent(mid.backends, pool);
    InstalledBackends(lb.backends, pool);
    RuleFound(lb.rules, config, pool);
    ProbeFound(lb.probes, config);
    if ip != "" {
      FrontendFound(mid, pool, newIp);
    }
  }

  /** After a successful reconcile, repeating it writes nothing and gives the same address and port. */
  lemma InstallAgain(cloud: Cloud, e: Event, env: Env)
    requires SoundCloud(cloud) && Possible(e) && e.needLB && env.readable
    requires Reconcile(cloud, e.config, e.pool, true, e.env).result.Ok?
    ensures var o := Reconcile(cloud, e.config, e.pool, true, e.env);
            Reconcile(o.cloud, e.config, e.pool, true, env) == Outcome(o.cloud, false, o.result)
  {
    hide Sound, WithRule, HasRule, HasProbe, ProbeReadable, HasBackend, FindFrontendIp, Committed, Installed, Uninstalled;
    var o := Reconcile(cloud, e.config, e.pool, true, e.env);
    var lb := if cloud.NoLb? then EMPTY_LB else cloud.props.value;
    EmptySound();
    if o.wrote {
      InstalledFound(lb, e.config, e.pool.value, FindFrontendIp(lb.frontends, e.pool.value).value, e.env.newIp);
    }
  }

  /** After a successful removal, repeating it finds nothing to write. */
  lemma UninstallAgain(cloud: Cloud, e: Event, env: Env)
    requires SoundCloud(cloud) && Possible(e) && !e.needLB && env.readable
    requires Reconcile(cloud, e.config, e.pool, false, e.env).result.Ok?
    ensures var o := Reconcile(cloud, e.config, e.pool, false, e.env);
            var again := Reconcile(o.cloud, e.config, e.pool, false, env);
            !again.wrote && again.cloud == o.cloud
  {
    hide Sound, Uninstalled, Keys, Fold, FrontendNames, RuleNames, ProbeNames;
    var o := Reconcile(cloud, e.config, e.pool, false, e.env);
    if o.wrote && o.cloud.HasLb? {
      var lb := cloud.props.value;
      var next := Uninstalled(lb, e.config, e.pool.value);
      UninstalledSound(lb, e.config, e.pool.value);
      CommittedSound(next, e.env.newIp);
      CommittedNames(next, e.env.newIp);
      NothingLeft(Committed(next, e.env.newIp), e.config, e.pool.value);
    }
  }

  lemma NothingLeft(lb: Lb, config: Config, pool: string)
    requires Sound(lb)
    requires Fold(config.uid) !in Keys(RuleNames(lb.rules)) && Fold(config.uid) !in Keys(ProbeNames(lb.probes))
    requires Referenced(lb.rules, pool) ||
             (Fold(pool) !in Keys(FrontendNames(lb.frontends)) && Fold(pool) !in Keys(lb.backends))
    ensures Uninstalled(lb, config, pool) == lb
  {
    UninstalledParts(lb, config, pool);
    RuleAbsent(lb.rules, config.uid);
    ProbeAbsent(lb.probes, config.uid);
    FrontendAbsent(lb.frontends, pool);
    BackendAbsent(lb.backends, pool);
  }

  // ---------------------------------------------------------------- when a reconcile succeeds, and what it answers

  ghost function LbOf(cloud: Cloud): Lb {
    if cloud.HasLb? && cloud.props.Some? then cloud.props.value else EMPTY_LB
  }

  /** The load balancer forwards UDP of this configuration: rule, frontend with that address, backend and probe. */
  ghost predicate Forwards(lb: Lb, config: Config, pool: string, ip: string, port: int) {
    (exists r :: r in lb.rules && ForwardsBy(r, config, pool, port)) &&
    (exists f :: f in lb.frontends && EqualFold(f.name, pool) && f.props == Some(FrontendProps(true, Some(ip)))) &&
    (exists b :: b in lb.backends && EqualFold(b, pool)) &&
    (exists p :: p in lb.probes && EqualFold(p.name, config.uid) &&
                 p.props == Some(ProbeProps("/gw/" + config.gateway, config.probePort, true)))
  }

  ghost predicate Refers(ref: Option<string>, name: string) {
    ref.Some? && EqualFold(ref.value, name)
  }

  ghost predicate ForwardsBy(r: Rule, config: Config, pool: string, port: int) {
    EqualFold(r.name, config.uid) && r.props.Some? &&
    Refers(r.props.value.frontend, pool) && Refers(r.props.value.backend, pool) && Refers(r.props.value.probe, config.uid) &&
    r.props.value.protocol == Udp && r.props.value.floatingIp && Val(r.props.value.frontendPort) == port
  }

  lemma RuleForwards(rules: seq<Rule>, config: Config, pool: string)
    requires WithRule(rules, config, pool).Ok?
    ensures var (next, port) := WithRule(rules, config, pool).value;
            (exists r :: r in next && ForwardsBy(r, config, pool, port)) && (HasRule(rules, config, pool) ==> next == rules)
  {
    hide Fold, PortFor;
    var (next, port) := WithRule(rules, config, pool).value;
    var r := if HasRule(rules, config, pool) then rules[FirstIndex(rules, RuleNamed(config.uid))] else next[|next| - 1];
    assert r in next && ForwardsBy(r, config, pool, port);
  }

  lemma ProbeForwards(probes: seq<Probe>, config: Config)
    ensures HasProbe(probes, config) ==> WithProbe(probes, config) == probes
    ensures exists p :: p in WithProbe(probes, config) && EqualFold(p.name, config.uid) &&
              p.props == Some(ProbeProps("/gw/" + config.gateway, config.probePort, true))
  {
    hide Fold;
    var next := WithProbe(probes, config);
    var p := if HasProbe(probes, config) then probes[FirstIndex(probes, ProbeNamed(config.uid))] else next[|next| - 1];
    assert p in next && EqualFold(p.name, config.uid);
  }

  lemma BackendForwards(backends: seq<string>, pool: string)
    ensures exists b :: b in (if HasBackend(backends, pool) then backends else backends + [pool]) && EqualFold(b, pool)
  {
    hide Fold;
    var next := if HasBackend(backends, pool) then backends else backends + [pool];
    var b := if HasBackend(backends, pool) then backends[FirstIndex(backends, BackendNamed(pool))] else next[|next| - 1];
    assert b in next && EqualFold(b, pool);
  }

  lemma FrontendForwards(frontends: seq<Frontend>, pool: string)
    requires FindFrontendIp(frontends, pool).Ok? && FindFrontendIp(frontends, pool).value != ""
    ensures exists f :: f in frontends && EqualFold(f.name, pool) &&
              f.props == Some(FrontendProps(true, Some(FindFrontendIp(frontends, pool).value)))
  {
    var f := frontends[FirstIndex(frontends, FrontendNamed(pool))];
    assert f in frontends && EqualFold(f.name, pool);
  }

  /** Whatever the load balancer held, a successful install answers an address and port it forwards to the pool. */
  lemma InstallAnswers(cloud: Cloud, e: Event)
    requires e.needLB
    ensures var o := Reconcile(cloud, e.config, e.pool, true, e.env);
            o.result.Ok? ==>
              e.pool.Ok? && o.result.value.ip != "" &&
              Forwards(LbOf(o.cloud), e.config, e.pool.value, o.result.value.ip, o.result.value.port)
  {
    hide Fold, WithRule, WithProbe, FindFrontendIp, HasRule, HasProbe, HasBackend, ForwardsBy, ProbeReadable;
    var o := Reconcile(cloud, e.config, e.pool, true, e.env);
    if o.result.Ok? {
      var lb, pool := LbOf(cloud), e.pool.value;
      var ip := FindFrontendIp(lb.frontends, pool).value;
      RuleForwards(lb.rules, e.config, pool);
      ProbeForwards(lb.probes, e.config);
      BackendForwards(lb.backends, pool);
      if o.wrote && ip != "" {
        FrontendFound(Installed(lb, e.config, pool, ip, WithRule(lb.rules, e.config, pool).value.0), pool, e.env.newIp);
      }
      FrontendForwards(LbOf(o.cloud).frontends, pool);
    }
  }

  ghost predicate HoldsPort(lb: Lb, uid: string, pool: string, port: int) {
    exists r :: r in lb.rules && SelfConsistent(r) && EqualFold(r.name, uid) && PoolOf(r) == Fold(pool) && PortOf(r) == port
  }

  /** With rules as the controllers write them, that rule's own port is the answered one. */
  lemma SoundAnswers(cloud: Cloud, e: Event)
    requires SoundCloud(cloud) && Possible(e) && e.needLB && e.pool.Ok?
    ensures var o := Reconcile(cloud, e.config, e.pool, true, e.env);
            o.result.Ok? ==> HoldsPort(LbOf(o.cloud), e.config.uid, e.pool.value, o.result.value.port)
  {
    hide Fold, Reconcile, Linked, Distinct, Addressed, Propertied;
    var o := Reconcile(cloud, e.config, e.pool, true, e.env);
    InstallAnswers(cloud, e);
    StepSound(cloud, e);
    EmptySound();
    if o.result.Ok? {
      var lb := LbOf(o.cloud);
      var r :| r in lb.rules && ForwardsBy(r, e.config, e.pool.value, o.result.value.port);
      assert Sound(lb) && SoundRules(lb.rules);
      assert SelfConsistent(r);
    }
  }

  ghost predicate FrontendOk(lb: Lb, pool: string) {
    forall f :: f in lb.frontends && EqualFold(f.name, pool) ==> f.props.Some? && f.props.value.ipv4 && f.props.value.address.Some?
  }

  ghost predicate HasFrontend(lb: Lb, pool: string) {
    exists f :: f in lb.frontends && EqualFold(f.name, pool)
  }

  ghost predicate OwnRule(rules: seq<Rule>, uid: string, pool: string) {
    exists r :: r in rules && EqualFold(r.name, uid) && InPool(r, pool)
  }

  /** Everything a reconcile reads is there; what is left is whether Azure takes the write. */
  ghost predicate Ready(cloud: Cloud, e: Event) {
    var lb := LbOf(cloud);
    e.env.readable &&
    ((cloud.NoLb? && !e.needLB) ||
     (e.pool.Ok? && e.pool.value != "" && (cloud.HasLb? ==> cloud.props.Some?) && FrontendOk(lb, e.pool.value) &&
      (e.needLB ==>
        (HasFrontend(lb, e.pool.value) || e.env.subnetFound) &&
        (OwnRule(lb.rules, e.config.uid, e.pool.value) || CountInPool(e.pool.value, lb.rules) < 1000))))
  }

  /** Nothing is left to write: the configuration is forwarded, or nothing of it is left. */
  ghost predicate InPlace(cloud: Cloud, e: Event) {
    var lb := LbOf(cloud);
    if e.needLB then cloud.HasLb? && e.pool.Ok? && exists ip, port :: Forwards(lb, e.config, e.pool.value, ip, port)
    else cloud.NoLb? || (e.pool.Ok? && lb.frontends != [] && Cleared(lb, e.config.uid, e.pool.value))
  }

  ghost predicate Cleared(lb: Lb, uid: string, pool: string) {
    (forall r :: r in lb.rules ==> !EqualFold(r.name, uid)) && (forall p :: p in lb.probes ==> !EqualFold(p.name, uid)) &&
    ((exists r :: r in lb.rules && UsesFrontend(r, pool)) ||
     (!HasFrontend(lb, pool) && forall b :: b in lb.backends ==> !EqualFold(b, pool)))
  }

  lemma NamedOnce(names: seq<string>, i: nat, j: nat)
    requires Distinct(names) && i < |names| && j < |names| && Fold(names[i]) == Fold(names[j])
    ensures i == j
  {
  }

  lemma FrontendFinds(lb: Lb, pool: string)
    requires Distinct(FrontendNames(lb.frontends)) && Addressed(lb.frontends)
    ensures FindFrontendIp(lb.frontends, pool).Ok? <==> FrontendOk(lb, pool)
    ensures FrontendOk(lb, pool) ==> (FindFrontendIp(lb.frontends, pool).value != "" <==> HasFrontend(lb, pool))
  {
    hide Fold;
    var i := FirstIndex(lb.frontends, FrontendNamed(pool));
    forall j | 0 <= j < |lb.frontends| && EqualFold(lb.frontends[j].name, pool)
      ensures j == i
    {
      assert FrontendNamed(pool)(lb.frontends[j]);
      NamedOnce(FrontendNames(lb.frontends), i, j);
    }
    if i < |lb.frontends| {
      assert lb.frontends[i] in lb.frontends;
    }
  }

  lemma {:induction false} PortsCounted(pool: string, rules: seq<Rule>)
    requires SoundRules(rules)
    ensures |UsedPorts(pool, rules)| == CountInPool(pool, rules)
  {
    if rules == [] {
      assert UsedPorts(pool, rules) == {};
    } else {
      var init, last := rules[..|rules| - 1], rules[|rules| - 1];
      SoundInit(rules);
      PortsCounted(pool, init);
      assert rules == init + [last];
      UsedPortsSnoc(pool, init, last);
      forall i | InPool(last, pool) && 0 <= i < |init| && InPool(init[i], pool)
        ensures init[i].props.value.backendPort.value != PortOf(last)
      {
        assert rules[i] == init[i] && PoolOf(rules[i]) == PoolOf(last);
      }
    }
  }

  lemma SoundInit(rules: seq<Rule>)
    requires SoundRules(rules) && rules != []
    ensures SoundRules(rules[..|rules| - 1])
  {
    var init := rules[..|rules| - 1];
    forall i, j | 0 <= i < j < |init|
      ensures Fold(RuleNames(init)[i]) != Fold(RuleNames(init)[j])
    {
      assert RuleNames(init)[i] == RuleNames(rules)[i] && RuleNames(init)[j] == RuleNames(rules)[j];
    }
  }

  lemma {:induction false} WithinRange(s: set<int>, lo: int, hi: int)
    requires lo <= hi && forall q :: q in s ==> lo <= q < hi
    ensures |s| <= hi - lo
    decreases hi - lo
  {
    if lo == hi {
      assert s == {};
    } else {
      WithinRange(s - {lo}, lo + 1, hi);
    }
  }

  /** A pool of sound rules has a port left exactly when it has fewer than a thousand rules. */
  lemma RoomExactly(pool: string, rules: seq<Rule>)
    requires SoundRules(rules)
    ensures PortFor(pool, rules).Ok? <==> CountInPool(pool, rules) < 1000
  {
    if CountInPool(pool, rules) < 1000 {
      PortAvailable(pool, rules);
    } else {
      PortsCounted(pool, rules);
      var used := UsedPorts(pool, rules);
      if PortFor(pool, rules).Ok? {
        WithinRange(used + {PortFor(pool, rules).value}, PORT_START, PORT_END);
      }
    }
  }

  lemma {:induction false} CountAppend(pool: string, a: seq<Rule>, b: seq<Rule>)
    ensures CountInPool(pool, a + b) == CountInPool(pool, a) + CountInPool(pool, b)
  {
    if b == [] {
      assert a + b == a;
    } else {
      assert (a + b)[..|a + b| - 1] == a + b[..|b| - 1];
      CountAppend(pool, a, b[..|b| - 1]);
    }
  }

  lemma CountWithout(pool: string, rules: seq<Rule>, i: nat)
    requires i < |rules| && !InPool(rules[i], pool)
    ensures CountInPool(pool, RemoveAt(rules, i)) == CountInPool(pool, rules)
  {
    CountAppend(pool, rules[..i], rules[i + 1..]);
    CountAppend(pool, rules[..i] + [rules[i]], rules[i + 1..]);
    assert rules[..i] + [rules[i]] + rules[i + 1..] == rules;
    assert (rules[..i] + [rules[i]])[..i] == rules[..i];
  }

  lemma OwnRuleFinds(rules: seq<Rule>, config: Config, pool: string)
    requires SoundRules(rules)
    ensures HasRule(rules, config, pool) <==> OwnRule(rules, config.uid, pool)
    ensures HasRule(rules, config, pool) <==> exists r, port :: r in rules && ForwardsBy(r, config, pool, port)
  {
    hide Fold, Distinct;
    var i := FirstIndex(rules, RuleNamed(config.uid));
    SingleRule(rules, config.uid);
    if HasRule(rules, config, pool) {
      assert rules[i] in rules && InPool(rules[i], pool);
      assert ForwardsBy(rules[i], config, pool, Val(rules[i].props.value.frontendPort));
    }
    forall j | 0 <= j < |rules| && EqualFold(rules[j].name, config.uid)
      ensures j == i
    {
      assert RuleNamed(config.uid)(rules[j]);
    }
  }

  lemma RuleFinds(rules: seq<Rule>, config: Config, pool: string)
    requires SoundRules(rules)
    ensures WithRule(rules, config, pool).Ok? <==> OwnRule(rules, config.uid, pool) || CountInPool(pool, rules) < 1000
  {
    hide Fold, PortFor, CountInPool, SoundRules, HasRule;
    OwnRuleFinds(rules, config, pool);
    if !HasRule(rules, config, pool) {
      var i := FirstIndex(rules, RuleNamed(config.uid));
      var rest := RemoveAt(rules, i);
      DroppedRule(rules, config.uid);
      RoomExactly(pool, rest);
      if i < |rules| {
        assert rules[i] in rules;
        CountWithout(pool, rules, i);
      }
    }
  }

  lemma ProbeFinds(probes: seq<Probe>, config: Config)
    requires Distinct(ProbeNames(probes))
    ensures HasProbe(probes, config) <==>
            exists p :: p in probes && EqualFold(p.name, config.uid) &&
              p.props == Some(ProbeProps("/gw/" + config.gateway, config.probePort, true))
  {
    hide Fold;
    var i := FirstIndex(probes, ProbeNamed(config.uid));
    forall j | 0 <= j < |probes| && EqualFold(probes[j].name, config.uid)
      ensures j == i
    {
      assert ProbeNamed(config.uid)(probes[j]);
      NamedOnce(ProbeNames(probes), i, j);
    }
    if HasProbe(probes, config) {
      assert probes[i] in probes && EqualFold(probes[i].name, config.uid);
    }
  }

  lemma BackendFinds(backends: seq<string>, pool: string)
    ensures HasBackend(backends, pool) <==> exists b :: b in backends && EqualFold(b, pool)
  {
    hide Fold;
    if b :| b in backends && EqualFold(b, pool) {
      assert BackendNamed(pool)(b);
    }
    if HasBackend(backends, pool) {
      assert backends[FirstIndex(backends, BackendNamed(pool))] in backends;
    }
  }

  /** Finding the configuration in place is finding its four parts. */
  lemma InPlaceFinds(lb: Lb, config: Config, pool: string)
    requires Sound(lb) && FrontendOk(lb, pool)
    ensures (exists ip, port :: Forwards(lb, config, pool, ip, port)) <==>
            HasFrontend(lb, pool) && HasBackend(lb.backends, pool) && HasRule(lb.rules, config, pool) && HasProbe(lb.probes, config)
  {
    hide Fold, HasRule, HasProbe, HasBackend, ForwardsBy, SoundRules, Linked;
    OwnRuleFinds(lb.rules, config, pool);
    ProbeFinds(lb.probes, config);
    BackendFinds(lb.backends, pool);
    if HasFrontend(lb, pool) && HasBackend(lb.backends, pool) && HasRule(lb.rules, config, pool) && HasProbe(lb.probes, config) {
      var f :| f in lb.frontends && EqualFold(f.name, pool);
      var r, port :| r in lb.rules && ForwardsBy(r, config, pool, port);
      assert Forwards(lb, config, pool, f.props.value.address.value, port);
    }
  }

  /** A write that installs something changes the load balancer. */
  lemma InstallWrites(lb: Lb, config: Config, pool: string, ip: string, newIp: string)
    requires Sound(lb) && newIp != "" && FindFrontendIp(lb.frontends, pool) == Ok(ip) && WithRule(lb.rules, config, pool).Ok?
    requires !(ip != "" && HasBackend(lb.backends, pool) && HasRule(lb.rules, config, pool) && HasProbe(lb.probes, config))
    ensures Committed(Installed(lb, config, pool, ip, WithRule(lb.rules, config, pool).value.0), newIp) != lb
  {
    hide Fold, Sound, WithRule, WithProbe, HasRule, HasProbe, HasBackend, ProbeReadable, FindFrontendIp;
    InstalledFound(lb, config, pool, ip, newIp);
  }

  lemma NewFrontendFound(frontends: seq<Frontend>, lb: Lb, pool: string, newIp: string)
    requires FindFrontendIp(frontends, pool) == Ok("") && Addressed(frontends) && newIp != ""
    requires lb.frontends == frontends + [NewFrontend(pool)]
    ensures FindFrontendIp(Committed(lb, newIp).frontends, pool) == Ok(newIp)
  {
    FirstIs(Committed(lb, newIp).frontends, FrontendNamed(pool), |frontends|);
  }

  /** An install succeeds, and reaches Azure, exactly under these conditions. */
  lemma InstallExactly(cloud: Cloud, e: Event)
    requires SoundCloud(cloud) && Possible(e) && e.needLB
    ensures var o := Reconcile(cloud, e.config, e.pool, true, e.env);
            (o.result.Ok? <==> Ready(cloud, e) && (InPlace(cloud, e) || e.env.commit == Done)) &&
            (o.cloud != cloud || o.result.Ok? <==> Ready(cloud, e) && (InPlace(cloud, e) || e.env.commit != Rejected))
  {
    hide Fold, Sound, Installed, Committed, WithRule, FindFrontendIp, HasRule, HasProbe, HasBackend, ProbeReadable, Forwards,
      FrontendOk, HasFrontend, OwnRule, CountInPool;
    if e.pool.Ok? && (cloud.HasLb? ==> cloud.props.Some?) {
      EmptySound();
      var lb, pool := LbOf(cloud), e.pool.value;
      SoundParts(lb);
      SoundReadable(lb, e.config);
      FrontendFinds(lb, pool);
      RuleFinds(lb.rules, e.config, pool);
      if FindFrontendIp(lb.frontends, pool).Ok? && WithRule(lb.rules, e.config, pool).Ok? {
        var ip := FindFrontendIp(lb.frontends, pool).value;
        InPlaceFinds(lb, e.config, pool);
        if ip == "" {
          NewFrontendFound(lb.frontends, Installed(lb, e.config, pool, ip, WithRule(lb.rules, e.config, pool).value.0), pool, e.env.newIp) by {
            InstalledNew(lb, e.config, pool, WithRule(lb.rules, e.config, pool).value.0);
          }
        }
        if !(ip != "" && HasBackend(lb.backends, pool) && HasRule(lb.rules, e.config, pool) && HasProbe(lb.probes, e.config)) {
          InstallWrites(lb, e.config, pool, ip, e.env.newIp);
        }
      }
    }
  }

  lemma SoundParts(lb: Lb)
    requires Sound(lb)
    ensures SoundRules(lb.rules) && Distinct(FrontendNames(lb.frontends)) && Addressed(lb.frontends)
  {
  }

  lemma InstalledNew(lb: Lb, config: Config, pool: string, rules: seq<Rule>)
    ensures Installed(lb, config, pool, "", rules).frontends == lb.frontends + [NewFrontend(pool)]
  {
  }

  lemma FrontendListed(lb: Lb, pool: string)
    ensures HasFrontend(lb, pool) <==> FirstIndex(lb.frontends, FrontendNamed(pool)) < |lb.frontends|
  {
    hide Fold;
    var i := FirstIndex(lb.frontends, FrontendNamed(pool));
    if i < |lb.frontends| {
      assert lb.frontends[i] in lb.frontends;
    }
    if f :| f in lb.frontends && EqualFold(f.name, pool) {
      assert FrontendNamed(pool)(f);
    }
  }

  /** A removal leaves the load balancer as it was exactly when nothing of the configuration was there. */
  lemma ClearedExactly(lb: Lb, config: Config, pool: string)
    requires Sound(lb)
    ensures Uninstalled(lb, config, pool) == lb <==> Cleared(lb, config.uid, pool)
    ensures Uninstalled(lb, config, pool) != lb ==>
              forall ip :: Committed(Uninstalled(lb, config, pool), ip) != lb
  {
    hide Fold, Sound, SoundRules, Addressed, Propertied, Distinct, KeysWithout, Without;
    var next := Uninstalled(lb, config, pool);
    UninstalledParts(lb, config, pool);
    FrontendListed(lb, pool);
    BackendFinds(lb.backends, pool);
    NoRuleNamed(lb.rules, config.uid);
    NoProbeNamed(lb.probes, config.uid);
  }

  lemma NoRuleNamed(rules: seq<Rule>, uid: string)
    ensures FirstIndex(rules, RuleNamed(uid)) == |rules| <==> forall r :: r in rules ==> !EqualFold(r.name, uid)
  {
    hide Fold;
    var i := FirstIndex(rules, RuleNamed(uid));
    if i < |rules| {
      assert rules[i] in rules;
    }
    assert forall j :: 0 <= j < |rules| ==> RuleNamed(uid)(rules[j]) == EqualFold(rules[j].name, uid);
  }

  lemma NoProbeNamed(probes: seq<Probe>, uid: string)
    ensures FirstIndex(probes, ProbeNamed(uid)) == |probes| <==> forall p :: p in probes ==> !EqualFold(p.name, uid)
  {
    hide Fold;
    var i := FirstIndex(probes, ProbeNamed(uid));
    if i < |probes| {
      assert probes[i] in probes;
    }
    assert forall j :: 0 <= j < |probes| ==> ProbeNamed(uid)(probes[j]) == EqualFold(probes[j].name, uid);
  }

  lemma ReferencedHasFrontend(lb: Lb, pool: string)
    requires Sound(lb) && Referenced(lb.rules, pool)
    ensures lb.frontends != []
  {
    var i :| 0 <= i < |lb.rules| && UsesFrontend(lb.rules[i], pool);
    assert Linked(lb, lb.rules[i]);
  }

  /** A removal succeeds, and reaches Azure, exactly under these conditions. */
  lemma UninstallExactly(cloud: Cloud, e: Event)
    requires SoundCloud(cloud) && Possible(e) && !e.needLB
    ensures var o := Reconcile(cloud, e.config, e.pool, false, e.env);
            (o.result.Ok? <==> Ready(cloud, e) && (InPlace(cloud, e) || e.env.commit == Done)) &&
            (o.cloud != cloud || o.result.Ok? <==> Ready(cloud, e) && (InPlace(cloud, e) || e.env.commit != Rejected))
  {
    hide Fold, Sound, Uninstalled, Committed, FindFrontendIp, Cleared, RulesReadable, FrontendOk, Referenced;
    if e.pool.Ok? && cloud.HasLb? && cloud.props.Some? {
      var lb, pool := LbOf(cloud), e.pool.value;
      SoundParts(lb);
      SoundReadable(lb, e.config);
      FrontendFinds(lb, pool);
      ClearedExactly(lb, e.config, pool);
      if Referenced(lb.rules, pool) {
        ReferencedHasFrontend(lb, pool);
      }
    }
  }

  /** In every state of the load balancer a run can reach, a reconcile succeeds exactly when these hold. */
  lemma SucceedsExactly(cloud: Cloud, e: Event)
    requires SoundCloud(cloud) && Possible(e)
    ensures var o := Reconcile(cloud, e.config, e.pool, e.needLB, e.env);
            (o.result.Ok? <==> Ready(cloud, e) && (InPlace(cloud, e) || e.env.commit == Done)) &&
            (o.cloud != cloud || o.result.Ok? <==> Effective(cloud, e))
  {
    hide Reconcile, Ready, InPlace;
    if e.needLB {
      InstallExactly(cloud, e);
    } else {
      UninstallExactly(cloud, e);
    }
  }

  /** The event reaches Azure, or has nothing left to do. */
  ghost predicate Effective(cloud: Cloud, e: Event) {
    Ready(cloud, e) && (InPlace(cloud, e) || e.env.commit != Rejected)
  }

  // ---------------------------------------------------------------- fixed pools: the exact image

  /** What a configuration keeps for life when pools are fixed: its pool, its gateway, the probe port. */
  datatype Assigned = Assigned(pool: string, gateway: string, probePort: int)

  ghost function RuleKeys(cloud: Cloud): set<string> {
    if cloud.HasLb? && cloud.props.Some? then Keys(RuleNames(cloud.props.value.rules)) else {}
  }

  ghost function PoolsOf(uids: set<string>, assign: map<string, Assigned>): set<string>
    requires uids <= assign.Keys
  {
    set u | u in uids :: assign[u].pool
  }

  ghost predicate RulesAssigned(rules: seq<Rule>, assign: map<string, Assigned>) {
    forall i :: 0 <= i < |rules| ==>
      SelfConsistent(rules[i]) && Fold(rules[i].name) in assign && PoolOf(rules[i]) == assign[Fold(rules[i].name)].pool
  }

  ghost predicate ProbesAssigned(probes: seq<Probe>, assign: map<string, Assigned>) {
    forall i :: 0 <= i < |probes| ==>
      var p := probes[i];
      Fold(p.name) in assign &&
      p.props == Some(ProbeProps(PROBE_ENDPOINT + assign[Fold(p.name)].gateway, assign[Fold(p.name)].probePort, true))
  }

  /** Every frontend is an IPv4 one with its address. */
  ghost predicate Serving(frontends: seq<Frontend>) {
    forall i :: 0 <= i < |frontends| ==>
      frontends[i].props.Some? && frontends[i].props.value.ipv4 && frontends[i].props.value.address.Some?
  }

  lemma CommittedServing(lb: Lb, pool: string, ip: string)
    requires Serving(lb.frontends) || (lb.frontends != [] && Serving(lb.frontends[..|lb.frontends| - 1]) && lb.frontends[|lb.frontends| - 1] == NewFrontend(pool))
    ensures Serving(Committed(lb, ip).frontends)
  {
  }

  lemma UninstalledServing(lb: Lb, config: Config, pool: string)
    requires Serving(lb.frontends)
    ensures Serving(Uninstalled(lb, config, pool).frontends)
  {
  }

  /** One rule and probe per installed configuration, one frontend and backend per pool that has a rule. */
  ghost predicate ImageOf(lb: Lb, assign: map<string, Assigned>) {
    Sound(lb) && lb.rules != [] && Serving(lb.frontends) &&
    RulesAssigned(lb.rules, assign) && ProbesAssigned(lb.probes, assign) &&
    var uids := Keys(RuleNames(lb.rules));
    uids <= assign.Keys && Keys(ProbeNames(lb.probes)) == uids &&
    Keys(FrontendNames(lb.frontends)) == PoolsOf(uids, assign) && Keys(lb.backends) == PoolsOf(uids, assign)
  }

  ghost predicate Image(cloud: Cloud, assign: map<string, Assigned>) {
    cloud.HasLb? ==> cloud.props.Some? && ImageOf(cloud.props.value, assign)
  }

  ghost predicate Conforms(e: Event, assign: map<string, Assigned>) {
    var u := Fold(e.config.uid);
    Possible(e) && u in assign && e.config.gateway == assign[u].gateway && e.config.probePort == assign[u].probePort &&
    (e.pool.Ok? && e.pool.value != "" ==> Fold(e.pool.value) == assign[u].pool)
  }

  lemma KeysNonEmpty(rules: seq<Rule>)
    ensures rules == [] <==> Keys(RuleNames(rules)) == {}
  {
    if rules != [] {
      assert Fold(RuleNames(rules)[0]) in Keys(RuleNames(rules));
    }
  }

  lemma InstalledAssigned(lb: Lb, config: Config, pool: string, assign: map<string, Assigned>)
    requires SoundRules(lb.rules) && RulesAssigned(lb.rules, assign) && ProbesAssigned(lb.probes, assign)
    requires WithRule(lb.rules, config, pool).Ok?
    requires Fold(config.uid) in assign && assign[Fold(config.uid)] == Assigned(Fold(pool), config.gateway, config.probePort)
    ensures RulesAssigned(WithRule(lb.rules, config, pool).value.0, assign)
    ensures ProbesAssigned(WithProbe(lb.probes, config), assign)
  {
    hide Fold, Distinct, HasProbe, ProbesAssigned, WithProbe;
    InstalledRules(lb.rules, config, pool);
    ProbeAssigned(lb.probes, config, assign);
  }

  lemma ProbeAssigned(probes: seq<Probe>, config: Config, assign: map<string, Assigned>)
    requires ProbesAssigned(probes, assign)
    requires Fold(config.uid) in assign
    requires assign[Fold(config.uid)].gateway == config.gateway && assign[Fold(config.uid)].probePort == config.probePort
    ensures ProbesAssigned(WithProbe(probes, config), assign)
  {
  }

  lemma InstalledImage(lb: Lb, config: Config, pool: string, ip: string, newIp: string, assign: map<string, Assigned>)
    requires lb == EMPTY_LB || ImageOf(lb, assign)
    requires newIp != "" && FindFrontendIp(lb.frontends, pool) == Ok(ip) && WithRule(lb.rules, config, pool).Ok?
    requires Fold(config.uid) in assign && assign[Fold(config.uid)] == Assigned(Fold(pool), config.gateway, config.probePort)
    ensures var next := Committed(Installed(lb, config, pool, ip, WithRule(lb.rules, config, pool).value.0), newIp);
            ImageOf(next, assign) && Keys(RuleNames(next.rules)) == Keys(RuleNames(lb.rules)) + {Fold(config.uid)}
  {
    hide Fold, Linked, SoundRules, Distinct, FindFrontendIp, WithRule, WithProbe, FrontendNames, ProbeNames, RuleNames, RulesAssigned, ProbesAssigned, Serving;
    EmptyImage(assign);
    var next := Committed(Installed(lb, config, pool, ip, WithRule(lb.rules, config, pool).value.0), newIp);
    var u, uids := Fold(config.uid), Keys(RuleNames(lb.rules));
    InstalledSound(lb, config, pool, ip, newIp);
    InstalledServing(lb, config, pool, ip, newIp);
    InstalledAssigned(lb, config, pool, assign);
    KeysNonEmpty(next.rules);
    PoolsGrow(uids, u, assign);
  }

  lemma InstalledServing(lb: Lb, config: Config, pool: string, ip: string, newIp: string)
    requires Serving(lb.frontends) && WithRule(lb.rules, config, pool).Ok?
    ensures Serving(Committed(Installed(lb, config, pool, ip, WithRule(lb.rules, config, pool).value.0), newIp).frontends)
  {
    hide WithRule, WithProbe;
    CommittedServing(Installed(lb, config, pool, ip, WithRule(lb.rules, config, pool).value.0), pool, newIp);
  }

  lemma EmptyImage(assign: map<string, Assigned>)
    ensures Serving([]) && Sound(EMPTY_LB) && RulesAssigned([], assign) && ProbesAssigned([], assign)
    ensures Keys(FrontendNames([])) == Keys(RuleNames([])) == Keys(ProbeNames([])) == Keys([]) == {}
    ensures PoolsOf({}, assign) == {}
  {
  }

  lemma PoolsGrow(uids: set<string>, u: string, assign: map<string, Assigned>)
    requires uids <= assign.Keys && u in assign
    ensures PoolsOf(uids + {u}, assign) == PoolsOf(uids, assign) + {assign[u].pool}
  {
  }

  lemma ImageInstall(cloud: Cloud, lb: Lb, e: Event, assign: map<string, Assigned>)
    requires Conforms(e, assign) && e.needLB && e.pool.Ok? && e.pool.value != ""
    requires if cloud.HasLb? then cloud.props == Some(lb) && ImageOf(lb, assign) else lb == EMPTY_LB
    ensures var o := Install(cloud, lb, e.config, e.pool.value, e.env);
            Image(o.cloud, assign) &&
            (o.cloud != cloud || o.result.Ok? ==> RuleKeys(o.cloud) == RuleKeys(cloud) + {Fold(e.config.uid)})
  {
    hide Fold, ImageOf, Keys, FindFrontendIp, WithRule, HasRule, HasProbe, HasBackend, Installed, Committed;
    var pool := e.pool.value;
    EmptyImage(assign);
    if FindFrontendIp(lb.frontends, pool).Ok? && WithRule(lb.rules, e.config, pool).Ok? {
      InstalledImage(lb, e.config, pool, FindFrontendIp(lb.frontends, pool).value, e.env.newIp, assign);
      if HasRule(lb.rules, e.config, pool) {
        RuleKeyPresent(lb.rules, e.config, pool);
      }
    }
  }

  lemma RuleKeyPresent(rules: seq<Rule>, config: Config, pool: string)
    requires HasRule(rules, config, pool)
    ensures Fold(config.uid) in Keys(RuleNames(rules))
  {
    RuleAbsent(rules, config.uid);
  }

  lemma UninstalledAssigned(lb: Lb, config: Config, pool: string, assign: map<string, Assigned>)
    requires Sound(lb) && RulesAssigned(lb.rules, assign) && ProbesAssigned(lb.probes, assign)
    ensures RulesAssigned(Uninstalled(lb, config, pool).rules, assign)
    ensures ProbesAssigned(Uninstalled(lb, config, pool).probes, assign)
  {
    hide Fold, Distinct, Sound, Referenced, Without, KeysWithout;
    UninstalledParts(lb, config, pool);
  }

  /** A rule list of the image refers to a pool exactly when one of its configurations is assigned there. */
  lemma ReferencedByKey(rules: seq<Rule>, pool: string, assign: map<string, Assigned>)
    requires RulesAssigned(rules, assign)
    ensures Keys(RuleNames(rules)) <= assign.Keys
    ensures Referenced(rules, pool) <==> Fold(pool) in PoolsOf(Keys(RuleNames(rules)), assign)
  {
    var left := Keys(RuleNames(rules));
    if i :| 0 <= i < |rules| && UsesFrontend(rules[i], pool) {
      assert RuleNames(rules)[i] == rules[i].name;
      assert Fold(rules[i].name) in left && assign[Fold(rules[i].name)].pool == Fold(pool);
    }
    if Fold(pool) in PoolsOf(left, assign) {
      var v :| v in left && assign[v].pool == Fold(pool);
      var i :| 0 <= i < |RuleNames(rules)| && Fold(RuleNames(rules)[i]) == v;
      assert UsesFrontend(rules[i], pool);
    }
  }

  /** With fixed pools the pool's frontend and backend leave exactly with its last rule. */
  lemma PoolsLeft(lb: Lb, config: Config, pool: string, assign: map<string, Assigned>)
    requires ImageOf(lb, assign) && Fold(config.uid) in assign && assign[Fold(config.uid)].pool == Fold(pool)
    ensures var next := Uninstalled(lb, config, pool);
            Keys(RuleNames(next.rules)) <= assign.Keys &&
            Keys(FrontendNames(next.frontends)) == PoolsOf(Keys(RuleNames(next.rules)), assign) &&
            Keys(next.backends) == PoolsOf(Keys(RuleNames(next.rules)), assign)
  {
    hide Fold, Sound, Uninstalled, Keys, RuleNames, FrontendNames, ProbeNames, RulesAssigned, Referenced;
    var next := Uninstalled(lb, config, pool);
    UninstalledSound(lb, config, pool);
    UninstalledAssigned(lb, config, pool, assign);
    ReferencedByKey(next.rules, pool, assign);
    var u, all, left := Fold(config.uid), Keys(RuleNames(lb.rules)), Keys(RuleNames(next.rules));
    assert PoolsOf(all, assign) <= PoolsOf(left, assign) + {Fold(pool)};
  }

  lemma ImageUninstall(lb: Lb, e: Event, assign: map<string, Assigned>)
    requires Conforms(e, assign) && e.pool.Ok? && e.pool.value != "" && ImageOf(lb, assign)
    ensures var cloud := HasLb(Some(lb)); var o := Uninstall(cloud, lb, e.config, e.pool.value, e.env);
            Image(o.cloud, assign) &&
            (o.cloud != cloud || o.result.Ok? ==> RuleKeys(o.cloud) == RuleKeys(cloud) - {Fold(e.config.uid)})
  {
    hide Fold, Uninstalled, Committed, FindFrontendIp, ImageOf, Keys;
    var next := Uninstalled(lb, e.config, e.pool.value);
    UninstalledImage(lb, e.config, e.pool.value, e.env.newIp, assign);
  }

  lemma UninstalledImage(lb: Lb, config: Config, pool: string, newIp: string, assign: map<string, Assigned>)
    requires ImageOf(lb, assign) && newIp != ""
    requires Fold(config.uid) in assign && assign[Fold(config.uid)].pool == Fold(pool)
    ensures var next := Uninstalled(lb, config, pool);
            (next.frontends == [] <==> next.rules == []) &&
            (next.rules == [] ==> Keys(RuleNames(lb.rules)) - {Fold(config.uid)} == {} && !Referenced(next.rules, pool)) &&
            (next.rules != [] ==> ImageOf(Committed(next, newIp), assign)) &&
            Committed(next, newIp).rules == next.rules &&
            Keys(RuleNames(next.rules)) == Keys(RuleNames(lb.rules)) - {Fold(config.uid)}
  {
    hide Fold, Uninstalled, Keys, RuleNames, ProbeNames, RulesAssigned, ProbesAssigned, Linked, SoundRules, Distinct, Serving;
    var next := Uninstalled(lb, config, pool);
    UninstalledSound(lb, config, pool);
    UninstalledAssigned(lb, config, pool, assign);
    PoolsLeft(lb, config, pool, assign);
    UninstalledServing(lb, config, pool);
    CommittedServing(next, pool, newIp);
    CommittedSound(next, newIp);
    CommittedNames(next, newIp);
    KeysNonEmpty(next.rules);
    FrontendKeysNonEmpty(next.frontends);
    if next.rules != [] {
      var v :| v in Keys(RuleNames(next.rules));
      assert assign[v].pool in PoolsOf(Keys(RuleNames(next.rules)), assign);
    }
  }

  lemma FrontendKeysNonEmpty(frontends: seq<Frontend>)
    ensures frontends == [] <==> Keys(FrontendNames(frontends)) == {}
  {
    if frontends != [] {
      assert Fold(FrontendNames(frontends)[0]) in Keys(FrontendNames(frontends));
    }
  }

  /** One step of the exact image: the installed set gains or loses just the event's configuration. */
  lemma StepImage(cloud: Cloud, e: Event, assign: map<string, Assigned>)
    requires Image(cloud, assign) && Conforms(e, assign)
    ensures Image(Apply(cloud, e), assign)
    ensures var o := Reconcile(cloud, e.config, e.pool, e.needLB, e.env);
            o.cloud != cloud || o.result.Ok? ==>
              RuleKeys(o.cloud) ==
                if e.needLB then RuleKeys(cloud) + {Fold(e.config.uid)} else RuleKeys(cloud) - {Fold(e.config.uid)}
  {
    hide ImageOf, Install, Uninstall, Fold, Keys;
    if e.pool.Ok? && e.pool.value != "" {
      if e.needLB {
        ImageInstall(cloud, if cloud.HasLb? then cloud.props.value else EMPTY_LB, e, assign);
      } else if cloud.HasLb? {
        ImageUninstall(cloud.props.value, e, assign);
      }
    }
  }

  /** The last effective event of the run on this configuration is an install. */
  ghost predicate LastInstalled(events: seq<Event>, uid: string) {
    events != [] &&
    var init, e := events[..|events| - 1], events[|events| - 1];
    if Fold(e.config.uid) == uid && Effective(Run(NoLb, init), e) then e.needLB else LastInstalled(init, uid)
  }

  /**
   * Every load balancer reachable from none is the exact image of the configurations the run leaves installed,
   * and exists iff there is one.
   */
  lemma {:induction false} RunImage(events: seq<Event>, assign: map<string, Assigned>)
    requires forall i :: 0 <= i < |events| ==> Conforms(events[i], assign)
    ensures Image(Run(NoLb, events), assign)
    ensures Run(NoLb, events).HasLb? <==> RuleKeys(Run(NoLb, events)) != {}
    ensures forall uid :: uid in RuleKeys(Run(NoLb, events)) <==> LastInstalled(events, uid)
  {
    hide Image, Conforms, Reconcile, RuleKeys, Effective;
    if events == [] {
      EmptyRun(assign);
    } else {
      var before, e := Run(NoLb, events[..|events| - 1]), events[|events| - 1];
      RunImage(events[..|events| - 1], assign);
      StepImage(before, e, assign);
      ImageSound(before, e, assign);
      SucceedsExactly(before, e);
    }
    ExistsWithRules(Run(NoLb, events), assign);
  }

  lemma ImageSound(cloud: Cloud, e: Event, assign: map<string, Assigned>)
    requires Image(cloud, assign) && Conforms(e, assign)
    ensures SoundCloud(cloud) && Possible(e)
  {
  }

  lemma EmptyRun(assign: map<string, Assigned>)
    ensures Image(NoLb, assign) && RuleKeys(NoLb) == {}
  {
  }

  lemma ExistsWithRules(cloud: Cloud, assign: map<string, Assigned>)
    requires Image(cloud, assign)
    ensures cloud.HasLb? <==> RuleKeys(cloud) != {}
  {
    if cloud.HasLb? {
      KeysNonEmpty(cloud.props.value.rules);
    }
  }
}
