// The network interfaces of a VM scale set: one managed IP configuration per
// gateway configuration, and the load balancer's backend pool on the primary IP
// configuration for as long as a managed one is left.

module VmssNic {
  import opened Wrappers
  import opened Names
  import opened Sequences

  const MANAGED_PREFIX := "egressgateway-"

  /** A `Crash` is a nil pointer the controller dereferences. */
  datatype Error = PrimaryNicNotFound | PrimaryConfigNotFound | Crash

  datatype IpVersion = IPv4 | IPv6 | Unset
  datatype PublicIpProps = PublicIpProps(prefix: Option<string>)
  datatype PublicIp = PublicIp(name: string, props: Option<PublicIpProps>)
  datatype IpProps = IpProps(
    primary: bool, version: IpVersion, subnet: Option<string>, publicIp: Option<PublicIp>, pools: seq<string>)
  datatype IpConfig = IpConfig(name: string, props: Option<IpProps>)

  /** An interface without properties is one that is not primary. */
  datatype Nic = Nic(primary: bool, ipConfigs: seq<IpConfig>)

  predicate IsPrimary(c: IpConfig) {
    c.props.Some? && c.props.value.primary
  }

  predicate IsManaged(c: IpConfig) {
    MANAGED_PREFIX <= c.name
  }

  function ConfigNamed(name: string): IpConfig -> bool { (c: IpConfig) => c.name == name }
  function PrimaryConfig(): IpConfig -> bool { (c: IpConfig) => IsPrimary(c) }
  function PoolNamed(pool: string): string -> bool { (p: string) => EqualFold(pool, p) }

  // ---------------------------------------------------------------- the expected IP configuration

  /** Subnet of the last primary IP configuration; reading it dereferences the subnet. */
  function LastSubnet(configs: seq<IpConfig>): Option<string> {
    if configs == [] then None
    else
      var c := configs[|configs| - 1];
      if IsPrimary(c) then Some(if c.props.value.subnet.Some? then c.props.value.subnet.value else "")
      else LastSubnet(configs[..|configs| - 1])
  }

  function SubnetOf(nics: seq<Nic>): string {
    if nics == [] then ""
    else
      var nic := nics[|nics| - 1];
      if nic.primary && LastSubnet(nic.ipConfigs).Some? then LastSubnet(nic.ipConfigs).value
      else SubnetOf(nics[..|nics| - 1])
  }

  predicate Readable(nic: Nic) {
    nic.primary ==> forall j :: 0 <= j < |nic.ipConfigs| && IsPrimary(nic.ipConfigs[j]) ==> nic.ipConfigs[j].props.value.subnet.Some?
  }

  /** The subnet of every primary IP configuration on a primary interface is dereferenced. */
  predicate SubnetsReadable(nics: seq<Nic>) {
    forall i :: 0 <= i < |nics| ==> Readable(nics[i])
  }

  function ExpectedIn(name: string, prefix: string, subnet: string): IpConfig {
    var publicIp := if prefix == "" then None else Some(PublicIp(name, Some(PublicIpProps(Some(prefix)))));
    IpConfig(name, Some(IpProps(false, IPv4, Some(subnet), publicIp, [])))
  }

  function Expected(name: string, prefix: string, nics: seq<Nic>): IpConfig {
    ExpectedIn(name, prefix, SubnetOf(nics))
  }

  predicate DifferentRef(a: Option<string>, b: Option<string>) {
    a.Some? != b.Some? || (a.Some? && b.Some? && !EqualFold(a.value, b.value))
  }

  predicate DifferentPublicIp(a: Option<PublicIp>, b: Option<PublicIp>) {
    a.Some? != b.Some? ||
    (a.Some? && b.Some? &&
     (a.value.name != b.value.name ||
      a.value.props.Some? != b.value.props.Some? ||
      (a.value.props.Some? && b.value.props.Some? &&
       DifferentRef(a.value.props.value.prefix, b.value.props.value.prefix))))
  }

  predicate Different(a: IpConfig, b: IpConfig) {
    a.props.Some? != b.props.Some? ||
    (a.props.Some? && b.props.Some? &&
     (a.props.value.primary != b.props.value.primary ||
      a.props.value.version != b.props.value.version ||
      DifferentRef(a.props.value.subnet, b.props.value.subnet) ||
      DifferentPublicIp(a.props.value.publicIp, b.props.value.publicIp)))
  }

  // ---------------------------------------------------------------- one reconcile, as a function

  predicate Keeps(nic: Nic, name: string, want: bool, expected: IpConfig) {
    var i := FirstIndex(nic.ipConfigs, ConfigNamed(name));
    nic.primary && want && i < |nic.ipConfigs| && !Different(nic.ipConfigs[i], expected)
  }

  predicate Drops(nic: Nic, name: string, want: bool, expected: IpConfig) {
    nic.primary && FirstIndex(nic.ipConfigs, ConfigNamed(name)) < |nic.ipConfigs| && !Keeps(nic, name, want, expected)
  }

  function Edited(nic: Nic, name: string, want: bool, expected: IpConfig): Nic {
    if Drops(nic, name, want, expected)
    then nic.(ipConfigs := RemoveAt(nic.ipConfigs, FirstIndex(nic.ipConfigs, ConfigNamed(name))))
    else nic
  }

  function EditedAll(nics: seq<Nic>, name: string, want: bool, expected: IpConfig): seq<Nic> {
    seq(|nics|, i requires 0 <= i < |nics| => Edited(nics[i], name, want, expected))
  }

  predicate Found(nics: seq<Nic>, name: string, want: bool, expected: IpConfig) {
    exists i :: 0 <= i < |nics| && Keeps(nics[i], name, want, expected)
  }

  predicate Dropped(nics: seq<Nic>, name: string, want: bool, expected: IpConfig) {
    exists i :: 0 <= i < |nics| && Drops(nics[i], name, want, expected)
  }

  /** Index of the last primary interface, or |nics| when there is none. */
  function LastPrimary(nics: seq<Nic>): (k: nat)
    ensures k <= |nics|
    ensures k < |nics| ==> nics[k].primary && forall i :: k < i < |nics| ==> !nics[i].primary
    ensures k == |nics| ==> forall i :: 0 <= i < |nics| ==> !nics[i].primary
  {
    if nics == [] then 0
    else if nics[|nics| - 1].primary then |nics| - 1
    else
      var k := LastPrimary(nics[..|nics| - 1]);
      if k == |nics| - 1 then |nics| else k
  }

  predicate NeedsPool(nic: Nic) {
    exists i :: 0 <= i < |nic.ipConfigs| && IsManaged(nic.ipConfigs[i])
  }

  function WithPools(nic: Nic, j: nat, pools: seq<string>): Nic
    requires j < |nic.ipConfigs| && nic.ipConfigs[j].props.Some?
  {
    var c := nic.ipConfigs[j];
    nic.(ipConfigs := nic.ipConfigs[j := c.(props := Some(c.props.value.(pools := pools)))])
  }

  /** Puts the pool on the first primary IP configuration, or takes it off, as `NeedsPool` says. */
  function PoolReconciled(pool: string, nic: Nic): Result<(bool, Nic), Error> {
    var j := FirstIndex(nic.ipConfigs, PrimaryConfig());
    if j == |nic.ipConfigs| then Err(PrimaryConfigNotFound)
    else
      var pools := nic.ipConfigs[j].props.value.pools;
      var p := FirstIndex(pools, PoolNamed(pool));
      if p < |pools| then
        if NeedsPool(nic) then Ok((false, nic)) else Ok((true, WithPools(nic, j, RemoveAt(pools, p))))
      else if NeedsPool(nic) then Ok((true, WithPools(nic, j, pools + [pool])))
      else Ok((false, nic))
  }

  function Reconciled(name: string, prefix: string, pool: string, want: bool, nics: seq<Nic>): Result<(bool, seq<Nic>), Error> {
    var expected := Expected(name, prefix, nics);
    var k := LastPrimary(nics);
    if !SubnetsReadable(nics) then Err(Crash)
    else if k == |nics| then Err(PrimaryNicNotFound)
    else
      var edited := EditedAll(nics, name, want, expected);
      var add := want && !Found(nics, name, want, expected);
      var nic := if add then edited[k].(ipConfigs := edited[k].ipConfigs + [expected]) else edited[k];
      match PoolReconciled(pool, nic)
      case Err(e) => Err(e)
      case Ok((changed, next)) =>
        Ok((Dropped(nics, name, want, expected) || add || changed, edited[k := next]))
  }

  // ---------------------------------------------------------------- the controller's loops

  method ExpectedIpConfig(name: string, prefix: string, interfaces: array<Nic>) returns (r: Result<IpConfig, Error>)
    ensures r == if SubnetsReadable(interfaces[..]) then Ok(Expected(name, prefix, interfaces[..])) else Err(Crash)
  {
    var subnet := "";
    var n := 0;
    while n < interfaces.Length
      invariant 0 <= n <= interfaces.Length
      invariant subnet == SubnetOf(interfaces[..n]) && SubnetsReadable(interfaces[..n])
    {
      var nic := interfaces[n];
      ghost var before := subnet;
      if nic.primary {
        var i := 0;
        while i < |nic.ipConfigs|
          invariant 0 <= i <= |nic.ipConfigs|
          invariant subnet == match LastSubnet(nic.ipConfigs[..i]) { case Some(s) => s case None => before }
          invariant forall j :: 0 <= j < i && IsPrimary(nic.ipConfigs[j]) ==> nic.ipConfigs[j].props.value.subnet.Some?
        {
          var c := nic.ipConfigs[i];
          assert nic.ipConfigs[..i + 1][..i] == nic.ipConfigs[..i];
          if IsPrimary(c) {
            if c.props.value.subnet.None? {
              assert !Readable(interfaces[..][n]);
              return Err(Crash);
            }
            subnet := c.props.value.subnet.value;
          }
          i := i + 1;
        }
        assert nic.ipConfigs[..i] == nic.ipConfigs;
      }
      assert interfaces[..n + 1][..n] == interfaces[..n];
      n := n + 1;
    }
    assert interfaces[..n] == interfaces[..];
    return Ok(ExpectedIn(name, prefix, subnet));
  }

  method ReconcileLbBackendPool(pool: string, nic: Nic) returns (r: Result<(bool, Nic), Error>)
    ensures r == PoolReconciled(pool, nic)
  {
    var needPool := false;
    var i := 0;
    while i < |nic.ipConfigs| && !needPool
      invariant 0 <= i <= |nic.ipConfigs|
      invariant needPool ==> NeedsPool(nic)
      invariant !needPool ==> forall j :: 0 <= j < i ==> !IsManaged(nic.ipConfigs[j])
    {
      if IsManaged(nic.ipConfigs[i]) {
        needPool := true;
      }
      i := i + 1;
    }
    i := 0;
    while i < |nic.ipConfigs|
      invariant 0 <= i <= |nic.ipConfigs|
      invariant forall j :: 0 <= j < i ==> !IsPrimary(nic.ipConfigs[j])
    {
      var c := nic.ipConfigs[i];
      if IsPrimary(c) {
        FirstIs(nic.ipConfigs, PrimaryConfig(), i);
        var pools := c.props.value.pools;
        var p := 0;
        while p < |pools|
          invariant 0 <= p <= |pools|
          invariant forall q :: 0 <= q < p ==> !EqualFold(pool, pools[q])
        {
          if EqualFold(pool, pools[p]) {
            FirstIs(pools, PoolNamed(pool), p);
            if !needPool {
              return Ok((true, WithPools(nic, i, pools[..p] + pools[p + 1..])));
            } else {
              return Ok((false, nic));
            }
          }
          p := p + 1;
        }
        if !needPool {
          return Ok((false, nic));
        }
        return Ok((true, WithPools(nic, i, pools + [pool])));
      }
      i := i + 1;
    }
    return Err(PrimaryConfigNotFound);
  }

  /** The scan of one interface: the first IP configuration of that name is kept or dropped in place. */
  method EditNic(nic: Nic, name: string, want: bool, expected: IpConfig) returns (r: Nic, found: bool, dropped: bool)
    requires nic.primary
    ensures r == Edited(nic, name, want, expected)
    ensures found == Keeps(nic, name, want, expected)
    ensures dropped == Drops(nic, name, want, expected)
  {
    var i := 0;
    while i < |nic.ipConfigs|
      invariant 0 <= i <= |nic.ipConfigs|
      invariant forall j :: 0 <= j < i ==> nic.ipConfigs[j].name != name
    {
      if nic.ipConfigs[i].name == name {
        FirstIs(nic.ipConfigs, ConfigNamed(name), i);
        if want && !Different(nic.ipConfigs[i], expected) {
          return nic, true, false;
        }
        return nic.(ipConfigs := nic.ipConfigs[..i] + nic.ipConfigs[i + 1..]), false, true;
      }
      i := i + 1;
    }
    return nic, false, false;
  }

  /** The first loop: edits every primary interface in place and remembers the last one. */
  method ScanInterfaces(name: string, want: bool, expected: IpConfig, interfaces: array<Nic>)
    returns (primary: nat, found: bool, dropped: bool)
    modifies interfaces
    ensures primary == LastPrimary(old(interfaces[..]))
    ensures found == Found(old(interfaces[..]), name, want, expected)
    ensures dropped == Dropped(old(interfaces[..]), name, want, expected)
    ensures interfaces[..] == EditedAll(old(interfaces[..]), name, want, expected)
  {
    hide Keeps, Drops, Edited, LastPrimary, Found, Dropped;
    ghost var before := interfaces[..];
    primary, found, dropped := interfaces.Length, false, false;
    ScanNone(before, name, want, expected);
    var n := 0;
    while n < interfaces.Length
      invariant 0 <= n <= interfaces.Length == |before|
      invariant forall i :: 0 <= i < n ==> interfaces[i] == Edited(before[i], name, want, expected)
      invariant forall i :: n <= i < interfaces.Length ==> interfaces[i] == before[i]
      invariant found <==> Found(before[..n], name, want, expected)
      invariant dropped <==> Dropped(before[..n], name, want, expected)
      invariant primary <= interfaces.Length
      invariant primary < interfaces.Length ==> primary < n && before[primary].primary
      invariant forall i :: 0 <= i < n && (primary == interfaces.Length || primary < i) ==> !before[i].primary
    {
      ScanStep(before, n, name, want, expected);
      if interfaces[n].primary {
        primary := n;
        var edited, keep, drop := EditNic(interfaces[n], name, want, expected);
        interfaces[n] := edited;
        found := found || keep;
        dropped := dropped || drop;
      } else {
        ScanSkip(interfaces[n], name, want, expected);
      }
      n := n + 1;
    }
    assert before[..n] == before;
    PrimaryIs(before, primary);
  }

  lemma ScanNone(nics: seq<Nic>, name: string, want: bool, expected: IpConfig)
    ensures !Found(nics[..0], name, want, expected) && !Dropped(nics[..0], name, want, expected)
  {
  }

  lemma ScanSkip(nic: Nic, name: string, want: bool, expected: IpConfig)
    requires !nic.primary
    ensures Edited(nic, name, want, expected) == nic
    ensures !Keeps(nic, name, want, expected) && !Drops(nic, name, want, expected)
  {
  }

  /** Edits the interfaces in place; on an error nothing is sent to Azure, so the array's content is not used. */
  method ReconcileNetworkInterface(name: string, prefix: string, pool: string, want: bool, interfaces: array<Nic>)
    returns (r: Result<bool, Error>)
    modifies interfaces
    ensures match Reconciled(name, prefix, pool, want, old(interfaces[..])) {
              case Err(e) => r == Err(e)
              case Ok((changed, nics)) => r == Ok(changed) && interfaces[..] == nics
            }
  {
    hide Expected, PoolReconciled, Found, Dropped, Edited, SubnetsReadable;
    ghost var before := interfaces[..];
    var computed := ExpectedIpConfig(name, prefix, interfaces);
    if computed.Err? {
      return Err(computed.error);
    }
    var expected := computed.value;
    var primary, foundConfig, needUpdate := ScanInterfaces(name, want, expected, interfaces);
    if primary == interfaces.Length {
      return Err(PrimaryNicNotFound);
    }
    ghost var edited := interfaces[..];
    var nic := interfaces[primary];
    if want && !foundConfig {
      nic := nic.(ipConfigs := nic.ipConfigs + [expected]);
      interfaces[primary] := nic;
      needUpdate := true;
    }
    var result := ReconcileLbBackendPool(pool, nic);
    if result.Err? {
      return Err(result.error);
    }
    interfaces[primary] := result.value.1;
    assert interfaces[..] == edited[primary := result.value.1];
    return Ok(needUpdate || result.value.0);
  }

  lemma ScanStep(nics: seq<Nic>, n: nat, name: string, want: bool, expected: IpConfig)
    requires n < |nics|
    ensures Found(nics[..n + 1], name, want, expected) <==>
            Found(nics[..n], name, want, expected) || Keeps(nics[n], name, want, expected)
    ensures Dropped(nics[..n + 1], name, want, expected) <==>
            Dropped(nics[..n], name, want, expected) || Drops(nics[n], name, want, expected)
  {
  }

  lemma PrimaryIs(nics: seq<Nic>, k: nat)
    requires k <= |nics|
    requires k < |nics| ==> nics[k].primary
    requires forall i :: 0 <= i < |nics| && (k == |nics| || k < i) ==> !nics[i].primary
    ensures LastPrimary(nics) == k
  {
  }
}
