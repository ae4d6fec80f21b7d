// The gateway VM profiles: one per instance of the scale set, with the addresses its
// network interface has once the instance is up to date.

module VmProfiles {
  import opened Wrappers
  import opened Names
  import opened Sequences
  import N = VmssNic
  import NR = VmssNicRuns

  datatype Profile = Profile(node: string, primary: string, secondary: string)

  /** An IP configuration of a live interface. */
  datatype Live = Live(name: string, hasProps: bool, primary: bool, address: string)

  /** What reading an instance's interface gives; one that is not primary is not read. */
  datatype Reading = NotRead | Unreadable | Configs(configs: seq<Live>)

  datatype Pair = Pair(primary: string, secondary: string)

  const NOTHING := Pair("", "")

  predicate Incomplete(p: Pair) {
    p.primary == "" || p.secondary == ""
  }

  /** An instance, what its interfaces read before and after an update, and whether an update would succeed. */
  datatype Instance = Instance(
    node: string, hasNetwork: bool, hasOs: bool, failed: bool, nics: seq<N.Nic>,
    before: seq<Reading>, after: seq<Reading>, updates: bool)

  datatype Args = Args(name: string, prefix: string, pool: string, want: bool)

  datatype Error = NoProfile | NicError(error: N.Error) | UpdateFailed | AddressMissing | StatusNotSaved

  // ---------------------------------------------------------------- reading addresses

  function Noted(c: Live, name: string, acc: Pair): Pair {
    if c.hasProps && EqualFold(c.name, name) then acc.(secondary := c.address)
    else if c.hasProps && c.primary then acc.(primary := c.address)
    else acc
  }

  function Scan(configs: seq<Live>, name: string, acc: Pair): Pair {
    if configs == [] then acc else Noted(configs[|configs| - 1], name, Scan(configs[..|configs| - 1], name, acc))
  }

  /** Before an update: the first interface that cannot be read ends the look. */
  function FirstLook(rs: seq<Reading>, name: string, acc: Pair): Pair {
    if rs == [] then acc
    else match rs[0]
      case NotRead => FirstLook(rs[1..], name, acc)
      case Unreadable => acc
      case Configs(configs) => FirstLook(rs[1..], name, Scan(configs, name, acc))
  }

  /** After an update an unreadable interface is an error. */
  function SecondLook(rs: seq<Reading>, name: string, acc: Pair): Option<Pair> {
    if rs == [] then Some(acc)
    else match rs[0]
      case NotRead => SecondLook(rs[1..], name, acc)
      case Unreadable => None
      case Configs(configs) => SecondLook(rs[1..], name, Scan(configs, name, acc))
  }

  // ---------------------------------------------------------------- one instance

  function Looked(i: Instance, a: Args): Pair {
    if !i.failed && a.want then FirstLook(i.before, a.name, NOTHING) else NOTHING
  }

  /** Updated when its interface changes, when it failed, or when a wanted address is missing. */
  predicate Updates(i: Instance, a: Args, changed: bool) {
    changed || i.failed || (a.want && Incomplete(Looked(i, a)))
  }

  function Outcome(i: Instance, a: Args): Result<Pair, Error> {
    if !i.hasNetwork || !i.hasOs then Err(NoProfile)
    else match N.Reconciled(a.name, a.prefix, a.pool, a.want, i.nics)
      case Err(e) => Err(NicError(e))
      case Ok((changed, _)) =>
        var updated := Updates(i, a, changed);
        if updated && !i.updates then Err(UpdateFailed)
        else if !a.want then Ok(NOTHING)
        else
          var final := if updated then SecondLook(i.after, a.name, NOTHING) else Some(Looked(i, a));
          if final.None? || Incomplete(final.value) then Err(AddressMissing) else Ok(final.value)
  }

  function ForNode(node: string): Profile -> bool { (p: Profile) => p.node == node }

  function Upserted(ps: seq<Profile>, p: Profile): seq<Profile> {
    var k := FirstIndex(ps, ForNode(p.node));
    if k < |ps| then ps[k := p] else ps + [p]
  }

  // ---------------------------------------------------------------- the scale set

  function ProfileOf(i: Instance, a: Args): Profile
    requires Outcome(i, a).Ok?
  {
    Profile(i.node, Outcome(i, a).value.primary, Outcome(i, a).value.secondary)
  }

  predicate AllOk(vms: seq<Instance>, a: Args) {
    forall k :: 0 <= k < |vms| ==> Outcome(vms[k], a).Ok?
  }

  function UpsertedAll(ps: seq<Profile>, vms: seq<Instance>, a: Args): seq<Profile>
    requires AllOk(vms, a)
  {
    if vms == [] || !a.want then ps
    else Upserted(UpsertedAll(ps, vms[..|vms| - 1], a), ProfileOf(vms[|vms| - 1], a))
  }

  predicate Vanished(vms: seq<Instance>, p: Profile) {
    forall k :: 0 <= k < |vms| ==> vms[k].node != p.node
  }

  function Gone(vms: seq<Instance>): Profile -> bool { (p: Profile) => Vanished(vms, p) }

  /** Status without profiles stays absent unless a wanted instance brings one. */
  function ReconciledProfiles(status: Option<seq<Profile>>, vms: seq<Instance>, a: Args): Option<seq<Profile>>
    requires AllOk(vms, a)
  {
    if status.None? && (vms == [] || !a.want) then None
    else Some(Without(UpsertedAll(if status.None? then [] else status.value, vms, a), Gone(vms)))
  }

  function PrivateIps(vms: seq<Instance>, a: Args): seq<string>
    requires AllOk(vms, a)
  {
    if a.want && a.prefix == "" then seq(|vms|, k requires 0 <= k < |vms| => Outcome(vms[k], a).value.secondary) else []
  }

  // ---------------------------------------------------------------- the controller's loops

  method ScanConfigs(configs: seq<Live>, name: string, acc: Pair) returns (r: Pair)
    ensures r == Scan(configs, name, acc)
  {
    r := acc;
    var n := 0;
    while n < |configs|
      invariant 0 <= n <= |configs| && r == Scan(configs[..n], name, acc)
    {
      assert configs[..n + 1][..n] == configs[..n];
      var c := configs[n];
      if c.hasProps && EqualFold(c.name, name) {
        r := r.(secondary := c.address);
      } else if c.hasProps && c.primary {
        r := r.(primary := c.address);
      }
      n := n + 1;
    }
    assert configs[..n] == configs;
  }

  method Look(rs: seq<Reading>, name: string) returns (r: Pair, readable: bool)
    ensures r == FirstLook(rs, name, NOTHING)
    ensures SecondLook(rs, name, NOTHING) == if readable then Some(r) else None
  {
    r, readable := NOTHING, true;
    var n := 0;
    while n < |rs|
      invariant 0 <= n <= |rs| && FirstLook(rs, name, NOTHING) == FirstLook(rs[n..], name, r)
      invariant SecondLook(rs, name, NOTHING) == SecondLook(rs[n..], name, r)
    {
      assert rs[n..][0] == rs[n] && rs[n..][1..] == rs[n + 1..];
      match rs[n] {
        case NotRead =>
        case Unreadable => return r, false;
        case Configs(configs) => r := ScanConfigs(configs, name, r);
      }
      n := n + 1;
    }
  }

  class GatewayVmConfig {
    var status: Option<seq<Profile>>

    method Upsert(p: Profile)
      modifies this
      ensures status == Some(Upserted(if old(status).None? then [] else old(status).value, p))
    {
      if status.None? {
        status := Some([]);
      }
      var ps := status.value;
      var n := 0;
      while n < |ps|
        invariant 0 <= n <= |ps| && status == Some(ps)
        invariant forall j :: 0 <= j < n ==> ps[j].node != p.node
      {
        if ps[n].node == p.node {
          FirstIs(ps, ForNode(p.node), n);
          if ps[n].primary != p.primary || ps[n].secondary != p.secondary {
            status := Some(ps[n := p]);
          } else {
            assert ps[n := p] == ps;
          }
          return;
        }
        n := n + 1;
      }
      status := Some(ps + [p]);
    }

    method ReconcileVm(i: Instance, a: Args) returns (r: Result<string, Error>, wrote: bool)
      modifies this
      ensures wrote <==> i.hasNetwork && i.hasOs && NeedsWrite(i, a) && i.updates
      ensures r.Ok? <==> Outcome(i, a).Ok?
      ensures r.Ok? && a.want ==> r.value == Outcome(i, a).value.secondary
      ensures r.Ok? && a.want ==> status == Some(Upserted(if old(status).None? then [] else old(status).value, ProfileOf(i, a)))
      ensures r.Err? || !a.want ==> status == old(status)
    {
      hide N.Reconciled, FirstLook, SecondLook, Upserted, Scan, Readable, AllConfigs;
      LooksScan(i.before, a.name, NOTHING);
      wrote := false;
      if !i.hasNetwork || !i.hasOs {
        return Err(NoProfile), false;
      }
      var found, force, readable := NOTHING, i.failed, true;
      if !force && a.want {
        found, readable := Look(i.before, a.name);
        force := Incomplete(found);
      }
      var interfaces := new N.Nic[|i.nics|](k requires 0 <= k < |i.nics| => i.nics[k]);
      assert interfaces[..] == i.nics;
      var needUpdate := N.ReconcileNetworkInterface(a.name, a.prefix, a.pool, a.want, interfaces);
      if needUpdate.Err? {
        return Err(NicError(needUpdate.error)), false;
      }
      NR.ReportsChange(a.name, a.prefix, a.pool, a.want, i.nics);
      if needUpdate.value || force {
        if !i.updates {
          return Err(UpdateFailed), false;
        }
        wrote := true;
      }
      if !a.want {
        return Ok(""), wrote;
      }
      if wrote || Incomplete(found) {
        found, readable := Look(i.after, a.name);
        if !readable {
          return Err(AddressMissing), wrote;
        }
      }
      if Incomplete(found) {
        return Err(AddressMissing), wrote;
      }
      Upsert(Profile(i.node, found.primary, found.secondary));
      return Ok(found.secondary), wrote;
    }

    /** Keeps the profiles whose node is still an instance. */
    method Prune(ps: seq<Profile>, vms: seq<Instance>) returns (kept: seq<Profile>)
      ensures kept == Without(ps, Gone(vms))
    {
      kept := [];
      assert ps[..0] == [];
      var n := 0;
      while n < |ps|
        invariant 0 <= n <= |ps| && kept == Without(ps[..n], Gone(vms))
      {
        var k := 0;
        while k < |vms| && vms[k].node != ps[n].node
          invariant 0 <= k <= |vms| && forall j :: 0 <= j < k ==> vms[j].node != ps[n].node
        {
          k := k + 1;
        }
        WithoutAppend(ps[..n], [ps[n]], Gone(vms));
        assert ps[..n + 1] == ps[..n] + [ps[n]];
        assert Vanished(vms, ps[n]) <==> k == |vms|;
        WithoutOne(ps[n], Gone(vms));
        if k < |vms| {
          kept := kept + [ps[n]];
        }
        n := n + 1;
      }
      assert ps[..n] == ps;
    }

    /** Every instance in turn, then the pruning; `saved` says the status update succeeds. */
    method ReconcileVmss(vms: seq<Instance>, a: Args, saved: bool) returns (r: Result<seq<string>, Error>)
      modifies this
      ensures r.Ok? <==> AllOk(vms, a) && saved
      ensures r.Ok? ==> status == ReconciledProfiles(old(status), vms, a) && r.value == PrivateIps(vms, a)
    {
      hide Outcome, Without, Upserted;
      var ips: seq<string> := [];
      ghost var start := if status.None? then [] else status.value;
      var n := 0;
      while n < |vms|
        invariant 0 <= n <= |vms| && AllOk(vms[..n], a)
        invariant ips == PrivateIps(vms[..n], a)
        invariant status == if old(status).None? && (n == 0 || !a.want) then None else Some(UpsertedAll(start, vms[..n], a))
      {
        var ip, _ := ReconcileVm(vms[n], a);
        if ip.Err? {
          return Err(ip.error);
        }
        assert vms[..n + 1][..n] == vms[..n];
        if a.want && a.prefix == "" {
          ips := ips + [ip.value];
        }
        n := n + 1;
      }
      assert vms[..n] == vms;
      if status.Some? {
        var kept := Prune(status.value, vms);
        status := Some(kept);
      }
      if !saved {
        return Err(StatusNotSaved);
      }
      return Ok(ips);
    }
  }

  lemma WithoutOne<T>(x: T, p: T -> bool)
    ensures Without([x], p) == if p(x) then [] else [x]
  {
  }

  // ---------------------------------------------------------------- the addresses are the live interface's

  ghost predicate Matches(c: Live, name: string) {
    c.hasProps && EqualFold(c.name, name)
  }

  ghost predicate Leads(c: Live, name: string) {
    c.hasProps && c.primary && !EqualFold(c.name, name)
  }

  /** The secondary address is that of the last configuration with the gateway's name, whatever its case. */
  lemma {:induction false} ScanSecondary(configs: seq<Live>, name: string, acc: Pair, k: nat)
    requires k < |configs| && Matches(configs[k], name) && forall j :: k < j < |configs| ==> !Matches(configs[j], name)
    ensures Scan(configs, name, acc).secondary == configs[k].address
  {
    if k < |configs| - 1 {
      ScanSecondary(configs[..|configs| - 1], name, acc, k);
    }
  }

  lemma {:induction false} ScanPrimary(configs: seq<Live>, name: string, acc: Pair, k: nat)
    requires k < |configs| && Leads(configs[k], name) && forall j :: k < j < |configs| ==> !Leads(configs[j], name)
    ensures Scan(configs, name, acc).primary == configs[k].address
  {
    if k < |configs| - 1 {
      ScanPrimary(configs[..|configs| - 1], name, acc, k);
    }
  }

  /** The readings up to the first interface that cannot be read. */
  function Readable(rs: seq<Reading>): seq<Reading> {
    if rs == [] || rs[0].Unreadable? then [] else [rs[0]] + Readable(rs[1..])
  }

  /** The IP configurations of the interfaces read, one after another. */
  function AllConfigs(rs: seq<Reading>): seq<Live> {
    if rs == [] then []
    else (if rs[0].Configs? then rs[0].configs else []) + AllConfigs(rs[1..])
  }

  lemma {:induction false} ScanAppend(a: seq<Live>, b: seq<Live>, name: string, acc: Pair)
    ensures Scan(a + b, name, acc) == Scan(b, name, Scan(a, name, acc))
  {
    if b == [] {
      assert a + b == a;
    } else {
      var init := b[..|b| - 1];
      ScanAppend(a, init, name, acc);
      assert (a + b)[..|a + b| - 1] == a + init;
    }
  }

  /** Both looks scan all IP configurations of the interfaces they read; the second fails iff one cannot be read. */
  lemma {:induction false} LooksScan(rs: seq<Reading>, name: string, acc: Pair)
    ensures FirstLook(rs, name, acc) == Scan(AllConfigs(Readable(rs)), name, acc)
    ensures SecondLook(rs, name, acc) == if Unreadable in rs then None else Some(Scan(AllConfigs(Readable(rs)), name, acc))
  {
    if rs != [] {
      var rest := rs[1..];
      assert rs == [rs[0]] + rest;
      assert Readable(rs) != [] ==> Readable(rs)[1..] == Readable(rest);
      match rs[0] {
        case NotRead =>
          LooksScan(rest, name, acc);
          assert AllConfigs(Readable(rs)) == AllConfigs(Readable(rest));
        case Unreadable =>
        case Configs(configs) =>
          LooksScan(rest, name, Scan(configs, name, acc));
          ScanAppend(configs, AllConfigs(Readable(rest)), name, acc);
      }
    }
  }

  /** With no such configuration there is no such address. */
  lemma {:induction false} ScanMissing(configs: seq<Live>, name: string, acc: Pair)
    ensures (forall k :: 0 <= k < |configs| ==> !Matches(configs[k], name)) ==> Scan(configs, name, acc).secondary == acc.secondary
    ensures (forall k :: 0 <= k < |configs| ==> !Leads(configs[k], name)) ==> Scan(configs, name, acc).primary == acc.primary
  {
    if configs != [] {
      ScanMissing(configs[..|configs| - 1], name, acc);
    }
  }

  /** The two addresses the interfaces show, up to the first that cannot be read. */
  function Shown(rs: seq<Reading>, name: string): Pair {
    Scan(AllConfigs(Readable(rs)), name, NOTHING)
  }

  /** The interfaces must change, the instance failed, or a wanted address does not show. */
  ghost predicate NeedsWrite(i: Instance, a: Args) {
    var nics := N.Reconciled(a.name, a.prefix, a.pool, a.want, i.nics);
    nics.Ok? && (nics.value.1 != i.nics || i.failed || (a.want && Incomplete(Shown(i.before, a.name))))
  }

  /** What its interfaces read once the instance is up to date. */
  ghost function Current(i: Instance, a: Args): seq<Reading> {
    if NeedsWrite(i, a) then i.after else i.before
  }

  /**
   * An instance's reconcile succeeds exactly when its profiles are there, its interfaces reconcile, a needed write is
   * accepted and, if wanted, both addresses then show; after a write every interface must be readable. The profile
   * has those addresses.
   */
  lemma ReadsCurrent(i: Instance, a: Args)
    ensures Outcome(i, a).Ok? <==>
            i.hasNetwork && i.hasOs && N.Reconciled(a.name, a.prefix, a.pool, a.want, i.nics).Ok? && (NeedsWrite(i, a) ==> i.updates) &&
            (a.want ==> !Incomplete(Shown(Current(i, a), a.name)) && (NeedsWrite(i, a) ==> Unreadable !in i.after))
    ensures Outcome(i, a).Ok? && a.want ==> Outcome(i, a).value == Shown(Current(i, a), a.name)
  {
    hide N.Reconciled, FirstLook, SecondLook, Scan, Readable, AllConfigs;
    LooksScan(i.before, a.name, NOTHING);
    LooksScan(i.after, a.name, NOTHING);
    if N.Reconciled(a.name, a.prefix, a.pool, a.want, i.nics).Ok? {
      NR.ReportsChange(a.name, a.prefix, a.pool, a.want, i.nics);
    }
  }

  // ---------------------------------------------------------------- exactly one profile per instance

  ghost predicate NodesDistinct(ps: seq<Profile>) {
    forall i, j :: 0 <= i < j < |ps| ==> ps[i].node != ps[j].node
  }

  ghost predicate VmsDistinct(vms: seq<Instance>) {
    forall i, j :: 0 <= i < j < |vms| ==> vms[i].node != vms[j].node
  }

  ghost predicate BelongsTo(p: Profile, vms: seq<Instance>, a: Args)
    requires AllOk(vms, a)
  {
    exists k :: 0 <= k < |vms| && p == ProfileOf(vms[k], a)
  }

  lemma UpsertedMembers(ps: seq<Profile>, p: Profile)
    requires NodesDistinct(ps)
    ensures NodesDistinct(Upserted(ps, p))
    ensures forall q :: q in Upserted(ps, p) <==> q == p || (q in ps && q.node != p.node)
  {
    hide FirstIndex;
    var k := FirstIndex(ps, ForNode(p.node));
    var next := Upserted(ps, p);
    forall q
      ensures q in next <==> q == p || (q in ps && q.node != p.node)
    {
      if q in ps && q.node != p.node {
        var i :| 0 <= i < |ps| && ps[i] == q;
        assert next[i] == q;
      }
      assert next[if k < |ps| then k else |ps|] == p;
    }
  }

  /** After the instances: each has its profile, and every other profile is an old one of no instance. */
  lemma {:induction false} UpsertedAllMembers(ps: seq<Profile>, vms: seq<Instance>, a: Args)
    requires AllOk(vms, a) && a.want && NodesDistinct(ps) && VmsDistinct(vms)
    ensures NodesDistinct(UpsertedAll(ps, vms, a))
    ensures forall q :: q in UpsertedAll(ps, vms, a) <==>
              (q in ps && Vanished(vms, q)) || BelongsTo(q, vms, a)
  {
    hide Outcome, Upserted;
    if vms != [] {
      var init, last := vms[..|vms| - 1], vms[|vms| - 1];
      UpsertedAllMembers(ps, init, a);
      UpsertedMembers(UpsertedAll(ps, init, a), ProfileOf(last, a));
      forall q
        ensures (q in ps && Vanished(vms, q)) || BelongsTo(q, vms, a) <==>
                q == ProfileOf(last, a) || (q.node != last.node && ((q in ps && Vanished(init, q)) || BelongsTo(q, init, a)))
      {
        assert vms[|vms| - 1] == last;
        if k :| 0 <= k < |init| && q == ProfileOf(init[k], a) {
          assert vms[k] == init[k];
        }
        if k :| 0 <= k < |vms| && q == ProfileOf(vms[k], a) {
          assert k < |init| ==> init[k] == vms[k];
        }
      }
    }
  }

  lemma {:induction false} PrunedMembers(ps: seq<Profile>, gone: Profile -> bool)
    requires NodesDistinct(ps)
    ensures NodesDistinct(Without(ps, gone))
    ensures forall q :: q in Without(ps, gone) <==> q in ps && !gone(q)
  {
    if ps != [] {
      PrunedMembers(ps[1..], gone);
      assert ps == [ps[0]] + ps[1..];
      var rest := Without(ps[1..], gone);
      assert forall i :: 0 <= i < |rest| ==> rest[i] in rest;
    }
  }

  lemma {:induction false} UpsertedAllDistinct(ps: seq<Profile>, vms: seq<Instance>, a: Args)
    requires AllOk(vms, a) && NodesDistinct(ps)
    ensures NodesDistinct(UpsertedAll(ps, vms, a))
  {
    hide Outcome, Upserted;
    if vms != [] && a.want {
      var init := vms[..|vms| - 1];
      UpsertedAllDistinct(ps, init, a);
      UpsertedMembers(UpsertedAll(ps, init, a), ProfileOf(vms[|vms| - 1], a));
    }
  }

  /** A successful wanted reconcile leaves exactly the instances' profiles, each once, and the private IPs in instance order. */
  lemma ProfilesExact(status: Option<seq<Profile>>, vms: seq<Instance>, a: Args)
    requires AllOk(vms, a) && a.want && VmsDistinct(vms) && (status.Some? ==> NodesDistinct(status.value))
    ensures var after := ReconciledProfiles(status, vms, a);
            (after.None? ==> vms == []) &&
            (after.Some? ==> NodesDistinct(after.value)) &&
            (after.Some? ==> forall q :: q in after.value <==> BelongsTo(q, vms, a))
    ensures |PrivateIps(vms, a)| == if a.prefix == "" then |vms| else 0
    ensures forall k :: 0 <= k < |PrivateIps(vms, a)| ==> PrivateIps(vms, a)[k] == ProfileOf(vms[k], a).secondary
  {
    hide Outcome, Upserted, Without, UpsertedAll;
    var ps := if status.None? then [] else status.value;
    UpsertedAllMembers(ps, vms, a);
    PrunedMembers(UpsertedAll(ps, vms, a), Gone(vms));
  }

  // ---------------------------------------------------------------- over runs

  datatype Op = Op(vms: seq<Instance>, args: Args, saved: bool)

  predicate Succeeds(op: Op) {
    AllOk(op.vms, op.args) && op.saved
  }

  /** The saved status; a reconcile that fails saves nothing. */
  function Run(ops: seq<Op>): Option<seq<Profile>> {
    if ops == [] then None
    else
      var before, op := Run(ops[..|ops| - 1]), ops[|ops| - 1];
      if Succeeds(op) then ReconciledProfiles(before, op.vms, op.args) else before
  }

  /** However instances come and go and reconciles fail, no node ever has two profiles. */
  lemma {:induction false} RunDistinct(ops: seq<Op>)
    ensures Run(ops).Some? ==> NodesDistinct(Run(ops).value)
  {
    hide Outcome, Upserted, Without;
    if ops != [] {
      var before, op := Run(ops[..|ops| - 1]), ops[|ops| - 1];
      RunDistinct(ops[..|ops| - 1]);
      if Succeeds(op) {
        var ps := if before.None? then [] else before.value;
        UpsertedAllDistinct(ps, op.vms, op.args);
        PrunedMembers(UpsertedAll(ps, op.vms, op.args), Gone(op.vms));
      }
    }
  }

  /** So after any run that ends in a successful wanted reconcile, the status is exactly the current instances' profiles. */
  lemma RunExact(ops: seq<Op>)
    requires ops != [] && Succeeds(ops[|ops| - 1]) && ops[|ops| - 1].args.want && VmsDistinct(ops[|ops| - 1].vms)
    ensures var last := ops[|ops| - 1];
            forall q :: BelongsTo(q, last.vms, last.args) <==> Run(ops).Some? && q in Run(ops).value
    ensures Run(ops).Some? ==> NodesDistinct(Run(ops).value)
  {
    hide Outcome, ReconciledProfiles;
    RunDistinct(ops[..|ops| - 1]);
    ProfilesExact(Run(ops[..|ops| - 1]), ops[|ops| - 1].vms, ops[|ops| - 1].args);
  }
}
