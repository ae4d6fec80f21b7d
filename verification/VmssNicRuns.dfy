// What any sequence of attaches and detaches leaves of a set of interfaces.

module VmssNicRuns {
  import opened Wrappers
  import opened Names
  import opened Sequences
  import opened VmssNic

  // ---------------------------------------------------------------- the answer tells the truth

  /** An IP configuration apart from its load balancer pools, which `Different` ignores. */
  ghost function Stripped(c: IpConfig): IpConfig {
    if c.props.Some? then c.(props := Some(c.props.value.(pools := []))) else c
  }

  /** A configuration dropped because it differs cannot come back by appending the expected one. */
  lemma {:induction false} NotRestored(configs: seq<IpConfig>, i: nat, expected: IpConfig, j: nat)
    requires i <= j < |configs|
    requires forall n :: i <= n < |configs| - 1 ==> Stripped(configs[n]) == Stripped(configs[n + 1])
    requires Stripped(configs[|configs| - 1]) == Stripped(expected)
    ensures !Different(configs[j], expected)
    ensures Stripped(configs[j]) == Stripped(expected)
    decreases |configs| - j
  {
    if j < |configs| - 1 {
      NotRestored(configs, i, expected, j + 1);
    }
  }

  lemma PoolReportsChange(pool: string, nic: Nic)
    requires PoolReconciled(pool, nic).Ok?
    ensures var (changed, next) := PoolReconciled(pool, nic).value;
            (changed <==> next != nic) && next.primary == nic.primary && |next.ipConfigs| == |nic.ipConfigs| &&
            forall i :: 0 <= i < |nic.ipConfigs| ==> Stripped(next.ipConfigs[i]) == Stripped(nic.ipConfigs[i])
  {
  }

  /** `true` is returned exactly when the interfaces changed, whatever they held before. */
  lemma ReportsChange(name: string, prefix: string, pool: string, want: bool, nics: seq<Nic>)
    requires Reconciled(name, prefix, pool, want, nics).Ok?
    ensures var (changed, next) := Reconciled(name, prefix, pool, want, nics).value;
            changed <==> next != nics
  {
    hide PoolReconciled, Different, Expected, SubnetOf;
    var expected := Expected(name, prefix, nics);
    var k := LastPrimary(nics);
    var edited := EditedAll(nics, name, want, expected);
    var add := want && !Found(nics, name, want, expected);
    var nic := if add then edited[k].(ipConfigs := edited[k].ipConfigs + [expected]) else edited[k];
    PoolReportsChange(pool, nic);
    var next := Reconciled(name, prefix, pool, want, nics).value.1;
    if i :| 0 <= i < |nics| && Drops(nics[i], name, want, expected) && i != k {
      assert next[i] == edited[i] && |edited[i].ipConfigs| < |nics[i].ipConfigs|;
    } else if Drops(nics[k], name, want, expected) {
      if add && next[k] == nics[k] {
        SwapVisible(nics[k], next[k], name, expected);
      }
    } else if !add {
      assert edited[k] == nics[k];
      assert forall i :: 0 <= i < |nics| ==> edited[i] == nics[i];
      assert edited == nics;
    }
  }

  lemma SwapVisible(nic: Nic, next: Nic, name: string, expected: IpConfig)
    requires Drops(nic, name, true, expected)
    requires var i := FirstIndex(nic.ipConfigs, ConfigNamed(name));
             var swapped := RemoveAt(nic.ipConfigs, i) + [expected];
             |next.ipConfigs| == |swapped| &&
             forall n :: 0 <= n < |swapped| ==> Stripped(next.ipConfigs[n]) == Stripped(swapped[n])
    ensures next != nic
  {
    hide Different;
    var i := FirstIndex(nic.ipConfigs, ConfigNamed(name));
    var swapped := RemoveAt(nic.ipConfigs, i) + [expected];
    if next == nic {
      forall n | i <= n < |nic.ipConfigs| - 1
        ensures Stripped(nic.ipConfigs[n]) == Stripped(nic.ipConfigs[n + 1])
      {
        assert swapped[n] == nic.ipConfigs[n + 1];
      }
      assert swapped[|swapped| - 1] == expected;
      NotRestored(nic.ipConfigs, i, expected, i);
    }
  }

  // ---------------------------------------------------------------- the shape every run keeps

  /** Interfaces no gateway configuration has touched: a primary IP configuration, its subnet, and nothing managed. */
  ghost predicate Base(nics: seq<Nic>, pool: string) {
    var k := LastPrimary(nics);
    k < |nics| && SubnetsReadable(nics) &&
    (forall i, j :: 0 <= i < |nics| && nics[i].primary && 0 <= j < |nics[i].ipConfigs| ==> !IsManaged(nics[i].ipConfigs[j])) &&
    var p := FirstIndex(nics[k].ipConfigs, PrimaryConfig());
    p < |nics[k].ipConfigs| &&
    FirstIndex(nics[k].ipConfigs[p].props.value.pools, PoolNamed(pool)) == |nics[k].ipConfigs[p].props.value.pools|
  }

  ghost predicate ManagedList(ms: seq<IpConfig>) {
    (forall i :: 0 <= i < |ms| ==> IsManaged(ms[i]) && ms[i].props.Some? && !IsPrimary(ms[i])) &&
    (forall i, j :: 0 <= i < j < |ms| ==> ms[i].name != ms[j].name)
  }

  /** The base with the pool added to its primary IP configuration, followed by the managed ones. */
  function Extended(nic: Nic, ms: seq<IpConfig>, pool: string): Nic {
    var p := FirstIndex(nic.ipConfigs, PrimaryConfig());
    if ms == [] || p == |nic.ipConfigs| then nic
    else
      var listed := WithPools(nic, p, nic.ipConfigs[p].props.value.pools + [pool]);
      listed.(ipConfigs := listed.ipConfigs + ms)
  }

  function Shape(base: seq<Nic>, ms: seq<IpConfig>, pool: string): seq<Nic> {
    var k := LastPrimary(base);
    if k == |base| then base else base[k := Extended(base[k], ms, pool)]
  }

  /** The managed list after attaching or detaching one configuration. */
  function Updated(ms: seq<IpConfig>, name: string, want: bool, expected: IpConfig): seq<IpConfig> {
    var i := FirstIndex(ms, ConfigNamed(name));
    if want && i < |ms| && !Different(ms[i], expected) then ms
    else RemoveAt(ms, i) + (if want then [expected] else [])
  }

  lemma {:induction false} LastSubnetSame(a: seq<IpConfig>, b: seq<IpConfig>)
    requires |a| == |b| && forall i :: 0 <= i < |a| ==> Stripped(a[i]) == Stripped(b[i])
    ensures LastSubnet(a) == LastSubnet(b)
  {
    if a != [] {
      assert Stripped(a[|a| - 1]) == Stripped(b[|b| - 1]);
      LastSubnetSame(a[..|a| - 1], b[..|b| - 1]);
    }
  }

  lemma {:induction false} LastSubnetAppend(a: seq<IpConfig>, ms: seq<IpConfig>)
    requires forall i :: 0 <= i < |ms| ==> !IsPrimary(ms[i])
    ensures LastSubnet(a + ms) == LastSubnet(a)
  {
    if ms == [] {
      assert a + ms == a;
    } else {
      LastSubnetAppend(a, ms[..|ms| - 1]);
      assert (a + ms)[..|a + ms| - 1] == a + ms[..|ms| - 1];
    }
  }

  lemma ExtendedSubnet(nic: Nic, ms: seq<IpConfig>, pool: string)
    requires ManagedList(ms)
    ensures LastSubnet(Extended(nic, ms, pool).ipConfigs) == LastSubnet(nic.ipConfigs)
  {
    var p := FirstIndex(nic.ipConfigs, PrimaryConfig());
    if ms != [] && p < |nic.ipConfigs| {
      var listed := WithPools(nic, p, nic.ipConfigs[p].props.value.pools + [pool]);
      LastSubnetSame(nic.ipConfigs, listed.ipConfigs);
      LastSubnetAppend(listed.ipConfigs, ms);
    }
  }

  lemma {:induction false} SubnetSame(a: seq<Nic>, b: seq<Nic>)
    requires |a| == |b|
    requires forall i :: 0 <= i < |a| ==> a[i].primary == b[i].primary && LastSubnet(a[i].ipConfigs) == LastSubnet(b[i].ipConfigs)
    ensures SubnetOf(a) == SubnetOf(b)
  {
    if a != [] {
      SubnetSame(a[..|a| - 1], b[..|b| - 1]);
    }
  }

  lemma ShapeExpected(base: seq<Nic>, ms: seq<IpConfig>, pool: string)
    requires ManagedList(ms)
    ensures SubnetOf(Shape(base, ms, pool)) == SubnetOf(base)
    ensures LastPrimary(Shape(base, ms, pool)) == LastPrimary(base)
  {
    hide LastSubnet, Extended;
    var k := LastPrimary(base);
    if k < |base| {
      ExtendedSubnet(base[k], ms, pool);
      ExtendedPrimary(base[k], ms, pool);
      SubnetSame(Shape(base, ms, pool), base);
      PrimaryIs(Shape(base, ms, pool), k);
    }
  }

  lemma ExtendedPrimary(nic: Nic, ms: seq<IpConfig>, pool: string)
    ensures Extended(nic, ms, pool).primary == nic.primary
  {
  }

  lemma UpdatedManaged(ms: seq<IpConfig>, name: string, want: bool, prefix: string, subnet: string)
    requires ManagedList(ms) && MANAGED_PREFIX <= name
    ensures ManagedList(Updated(ms, name, want, ExpectedIn(name, prefix, subnet)))
  {
    hide Different;
    NamedOnce(ms, name);
  }

  lemma NamedOnce(ms: seq<IpConfig>, name: string)
    requires ManagedList(ms)
    ensures var rest := RemoveAt(ms, FirstIndex(ms, ConfigNamed(name)));
            FirstIndex(rest, ConfigNamed(name)) == |rest| && forall j :: 0 <= j < |rest| ==> rest[j].name != name
  {
  }

  /** Names of the managed list are found behind the base's own configurations. */
  lemma ExtendedFirst(nic: Nic, ms: seq<IpConfig>, pool: string, name: string)
    requires MANAGED_PREFIX <= name
    requires forall j :: 0 <= j < |nic.ipConfigs| ==> !IsManaged(nic.ipConfigs[j])
    requires FirstIndex(nic.ipConfigs, PrimaryConfig()) < |nic.ipConfigs|
    ensures FirstIndex(Extended(nic, ms, pool).ipConfigs, ConfigNamed(name)) ==
            |nic.ipConfigs| + FirstIndex(ms, ConfigNamed(name))
  {
    var i := FirstIndex(ms, ConfigNamed(name));
    var ext := Extended(nic, ms, pool);
    var n := |nic.ipConfigs|;
    if ms == [] {
      NoneNamed(nic.ipConfigs, name);
    } else {
      assert forall j :: 0 <= j < n ==> ext.ipConfigs[j].name == nic.ipConfigs[j].name;
      assert forall j :: 0 <= j < |ms| ==> ext.ipConfigs[n + j] == ms[j];
      if i < |ms| {
        FirstIs(ext.ipConfigs, ConfigNamed(name), n + i);
      } else {
        NoneNamed(ext.ipConfigs, name);
      }
    }
  }

  /** The scan of the extended interface sees the managed list and nothing else. */
  lemma ExtendedEdit(nic: Nic, ms: seq<IpConfig>, pool: string, name: string, want: bool, expected: IpConfig)
    requires nic.primary && MANAGED_PREFIX <= name && ManagedList(ms)
    requires forall j :: 0 <= j < |nic.ipConfigs| ==> !IsManaged(nic.ipConfigs[j])
    requires FirstIndex(nic.ipConfigs, PrimaryConfig()) < |nic.ipConfigs|
    ensures var i := FirstIndex(ms, ConfigNamed(name));
            var ext := Extended(nic, ms, pool);
            |nic.ipConfigs| <= |ext.ipConfigs| &&
            Keeps(ext, name, want, expected) == (want && i < |ms| && !Different(ms[i], expected)) &&
            Drops(ext, name, want, expected) == (i < |ms| && !(want && !Different(ms[i], expected))) &&
            Edited(ext, name, want, expected) ==
              (if Drops(ext, name, want, expected)
               then Nic(true, ext.ipConfigs[..|nic.ipConfigs|] + RemoveAt(ms, i)) else ext)
  {
    hide Different, Extended;
    var i := FirstIndex(ms, ConfigNamed(name));
    var ext := Extended(nic, ms, pool);
    ExtendedFirst(nic, ms, pool, name);
    ExtendedWhole(nic, ms, pool);
    var head := ext.ipConfigs[..|nic.ipConfigs|];
    assert ext.ipConfigs == head + ms;
    if i < |ms| {
      assert RemoveAt(head + ms, |head| + i) == head + RemoveAt(ms, i);
    }
  }

  lemma NoneNamed(configs: seq<IpConfig>, name: string)
    requires forall j :: 0 <= j < |configs| ==> configs[j].name != name
    ensures FirstIndex(configs, ConfigNamed(name)) == |configs|
  {
  }

  /** From the base or its extension, the pool step lands on the extension the new managed list calls for. */
  lemma ExtendedPool(nic: Nic, was: seq<IpConfig>, ms: seq<IpConfig>, pool: string)
    requires nic.primary && ManagedList(ms)
    requires forall j :: 0 <= j < |nic.ipConfigs| ==> !IsManaged(nic.ipConfigs[j])
    requires var p := FirstIndex(nic.ipConfigs, PrimaryConfig());
             p < |nic.ipConfigs| &&
             FirstIndex(nic.ipConfigs[p].props.value.pools, PoolNamed(pool)) == |nic.ipConfigs[p].props.value.pools|
    ensures var mid := Nic(true, Extended(nic, was, pool).ipConfigs[..|nic.ipConfigs|] + ms);
            PoolReconciled(pool, mid) == Ok(((was == []) != (ms == []), Extended(nic, ms, pool)))
  {
    hide EqualFold, NeedsPool, IsManaged, FirstIndex, ManagedList;
    var p := FirstIndex(nic.ipConfigs, PrimaryConfig());
    var mid := Nic(true, Extended(nic, was, pool).ipConfigs[..|nic.ipConfigs|] + ms);
    assert forall j :: 0 <= j < p ==> mid.ipConfigs[j] == nic.ipConfigs[j];
    FirstIs(mid.ipConfigs, PrimaryConfig(), p);
    NeedsManaged(nic, mid, ms);
    var pools := nic.ipConfigs[p].props.value.pools;
    if was != [] {
      assert PoolNamed(pool)(pool) by { PoolSelf(pool); }
      FirstIs(pools + [pool], PoolNamed(pool), |pools|);
      assert RemoveAt(pools + [pool], |pools|) == pools;
    }
    assert PoolReconciled(pool, mid).value.1.ipConfigs == Extended(nic, ms, pool).ipConfigs;
  }

  lemma PoolSelf(pool: string)
    ensures PoolNamed(pool)(pool)
  {
  }

  lemma NeedsManaged(nic: Nic, mid: Nic, ms: seq<IpConfig>)
    requires ManagedList(ms)
    requires forall j :: 0 <= j < |nic.ipConfigs| ==> !IsManaged(nic.ipConfigs[j])
    requires |mid.ipConfigs| == |nic.ipConfigs| + |ms|
    requires forall j :: 0 <= j < |nic.ipConfigs| ==> mid.ipConfigs[j].name == nic.ipConfigs[j].name
    requires mid.ipConfigs[|nic.ipConfigs|..] == ms
    ensures NeedsPool(mid) <==> ms != []
  {
    if ms != [] {
      assert mid.ipConfigs[|nic.ipConfigs|] == ms[0];
      assert IsManaged(mid.ipConfigs[|nic.ipConfigs|]);
    }
  }

  /** One attach or detach of one configuration, on interfaces that carry any set of others. */
  lemma ReconcileShape(base: seq<Nic>, ms: seq<IpConfig>, name: string, prefix: string, pool: string, want: bool)
    requires Base(base, pool) && ManagedList(ms) && MANAGED_PREFIX <= name
    ensures var next := Updated(ms, name, want, Expected(name, prefix, base));
            ManagedList(next) &&
            Reconciled(name, prefix, pool, want, Shape(base, ms, pool)) == Ok((next != ms, Shape(base, next, pool)))
  {
    hide SubnetsReadable, Different, Extended, Edited, Keeps, Drops, PoolReconciled, SubnetOf, IsManaged, IsPrimary, FirstIndex, LastPrimary, ManagedList, Found, Dropped;
    var nics := Shape(base, ms, pool);
    var k := LastPrimary(base);
    var expected := Expected(name, prefix, base);
    var next := Updated(ms, name, want, expected);
    ShapeReadable(base, ms, pool);
    ShapeExpected(base, ms, pool);
    UpdatedManaged(ms, name, want, prefix, SubnetOf(base));
    ExtendedEdit(base[k], ms, pool, name, want, expected);
    ShapeScan(base, ms, pool, name, want, expected);
    ExtendedPool(base[k], ms, next, pool);
    ExtendedWhole(base[k], ms, pool);
    var edited := EditedAll(nics, name, want, expected);
    var ext := Extended(base[k], ms, pool);
    var head := ext.ipConfigs[..|base[k].ipConfigs|];
    var add := want && !Found(nics, name, want, expected);
    var nic := if add then edited[k].(ipConfigs := edited[k].ipConfigs + [expected]) else edited[k];
    assert nic.ipConfigs == head + next;
    assert nic == Nic(true, head + next);
    UpdatedChanges(ms, name, want, expected);
    assert edited[k := Extended(base[k], next, pool)] == Shape(base, next, pool);
  }

  lemma ExtendedWhole(nic: Nic, ms: seq<IpConfig>, pool: string)
    requires nic.primary && FirstIndex(nic.ipConfigs, PrimaryConfig()) < |nic.ipConfigs|
    ensures |nic.ipConfigs| <= |Extended(nic, ms, pool).ipConfigs|
    ensures Extended(nic, ms, pool) == Nic(true, Extended(nic, ms, pool).ipConfigs[..|nic.ipConfigs|] + ms)
  {
  }

  lemma UpdatedChanges(ms: seq<IpConfig>, name: string, want: bool, expected: IpConfig)
    ensures var i := FirstIndex(ms, ConfigNamed(name));
            var kept := want && i < |ms| && !Different(ms[i], expected);
            Updated(ms, name, want, expected) != ms <==> !kept && (i < |ms| || want)
  {
    hide Different;
    var i := FirstIndex(ms, ConfigNamed(name));
    var next := Updated(ms, name, want, expected);
    if want && i < |ms| && Different(ms[i], expected) && next == ms {
      forall n | i <= n < |ms| - 1
        ensures Stripped(ms[n]) == Stripped(ms[n + 1])
      {
        assert next[n] == ms[n + 1];
      }
      assert next[|next| - 1] == expected;
      NotRestored(ms, i, expected, i);
    }
  }

  /** Only the last primary interface holds managed configurations, so only it can keep or drop one. */
  lemma ShapeScan(base: seq<Nic>, ms: seq<IpConfig>, pool: string, name: string, want: bool, expected: IpConfig)
    requires Base(base, pool) && MANAGED_PREFIX <= name
    ensures var k := LastPrimary(base); var nics := Shape(base, ms, pool); var ext := Extended(base[k], ms, pool);
            Found(nics, name, want, expected) == Keeps(ext, name, want, expected) &&
            Dropped(nics, name, want, expected) == Drops(ext, name, want, expected) &&
            EditedAll(nics, name, want, expected) == base[k := Edited(ext, name, want, expected)]
  {
    var k := LastPrimary(base);
    var nics := Shape(base, ms, pool);
    forall i | 0 <= i < |base| && i != k
      ensures !Keeps(nics[i], name, want, expected) && !Drops(nics[i], name, want, expected)
      ensures Edited(nics[i], name, want, expected) == base[i]
    {
      if base[i].primary {
        assert forall j :: 0 <= j < |base[i].ipConfigs| ==> !IsManaged(base[i].ipConfigs[j]);
        NoneNamed(base[i].ipConfigs, name);
      }
    }
    assert nics[k] == Extended(base[k], ms, pool);
  }

  // ---------------------------------------------------------------- whole runs

  /** One reconcile of one gateway configuration on these interfaces. */
  datatype Attach = Attach(name: string, prefix: string, want: bool)

  /** The interfaces after a run; a failing reconcile sends nothing. */
  function Run(nics: seq<Nic>, pool: string, ops: seq<Attach>): seq<Nic> {
    if ops == [] then nics
    else
      var before := Run(nics, pool, ops[..|ops| - 1]);
      var op := ops[|ops| - 1];
      match Reconciled(op.name, op.prefix, pool, op.want, before)
      case Err(_) => before
      case Ok((_, after)) => after
  }

  function ManagedAfter(base: seq<Nic>, ops: seq<Attach>): seq<IpConfig> {
    if ops == [] then []
    else
      var op := ops[|ops| - 1];
      Updated(ManagedAfter(base, ops[..|ops| - 1]), op.name, op.want, Expected(op.name, op.prefix, base))
  }

  /** Every reachable set of interfaces is the base plus the managed list its run calls for. */
  lemma {:induction false} RunShape(base: seq<Nic>, pool: string, ops: seq<Attach>)
    requires Base(base, pool)
    requires forall i :: 0 <= i < |ops| ==> MANAGED_PREFIX <= ops[i].name
    ensures ManagedList(ManagedAfter(base, ops))
    ensures Run(base, pool, ops) == Shape(base, ManagedAfter(base, ops), pool)
  {
    hide Reconciled, Updated, Expected;
    if ops == [] {
      ShapeEmpty(base, pool);
    } else {
      var init, op := ops[..|ops| - 1], ops[|ops| - 1];
      RunShape(base, pool, init);
      ReconcileShape(base, ManagedAfter(base, init), op.name, op.prefix, pool, op.want);
    }
  }

  lemma ShapeEmpty(base: seq<Nic>, pool: string)
    ensures Shape(base, [], pool) == base
  {
  }

  /** The last word on `name` in the run is a detach, or there is none. */
  ghost predicate Detached(ops: seq<Attach>, name: string) {
    ops != [] ==>
      if ops[|ops| - 1].name == name then !ops[|ops| - 1].want else Detached(ops[..|ops| - 1], name)
  }

  lemma {:induction false} ManagedNames(base: seq<Nic>, ops: seq<Attach>, name: string)
    requires forall i :: 0 <= i < |ops| ==> MANAGED_PREFIX <= ops[i].name
    ensures ManagedList(ManagedAfter(base, ops))
    ensures Detached(ops, name) <==> FirstIndex(ManagedAfter(base, ops), ConfigNamed(name)) == |ManagedAfter(base, ops)|
  {
    if ops != [] {
      var init, op := ops[..|ops| - 1], ops[|ops| - 1];
      ManagedNames(base, init, name);
      UpdatedManaged(ManagedAfter(base, init), op.name, op.want, op.prefix, SubnetOf(base));
      UpdatedHas(ManagedAfter(base, init), op.name, op.want, Expected(op.name, op.prefix, base), name);
    }
  }

  lemma UpdatedHas(ms: seq<IpConfig>, name: string, want: bool, expected: IpConfig, other: string)
    requires ManagedList(ms) && expected.name == name
    ensures var next := Updated(ms, name, want, expected);
            FirstIndex(next, ConfigNamed(other)) < |next| <==>
            if other == name then want else FirstIndex(ms, ConfigNamed(other)) < |ms|
  {
    hide Different, ManagedList;
    var i := FirstIndex(ms, ConfigNamed(name));
    var next := Updated(ms, name, want, expected);
    NamedOnce(ms, name);
    if other == name {
      if want {
        assert ConfigNamed(name)(next[if next == ms then i else |next| - 1]);
      } else {
        assert next == RemoveAt(ms, i);
      }
    } else {
      OtherKept(ms, i, expected, want, other);
    }
  }

  lemma OtherKept(ms: seq<IpConfig>, i: nat, added: IpConfig, want: bool, other: string)
    requires i <= |ms| && added.name != other && (i < |ms| ==> ms[i].name != other)
    ensures var next := RemoveAt(ms, i) + (if want then [added] else []);
            FirstIndex(next, ConfigNamed(other)) < |next| <==> FirstIndex(ms, ConfigNamed(other)) < |ms|
  {
    hide IsManaged;
    var rest := RemoveAt(ms, i);
    var next := rest + (if want then [added] else []);
    var k := FirstIndex(ms, ConfigNamed(other));
    if k < |ms| {
      var n := if k < i then k else k - 1;
      assert next[n] == rest[n] == ms[k];
    } else {
      assert forall j :: 0 <= j < |rest| ==> rest[j] == ms[if j < i then j else j + 1];
      assert forall j :: 0 <= j < |next| ==> next[j].name != other;
      NoneNamed(next, other);
    }
  }

  /** Once every configuration is detached the interfaces are what they were, foreign configurations and pools included. */
  lemma RunRestores(base: seq<Nic>, pool: string, ops: seq<Attach>)
    requires Base(base, pool)
    requires forall i :: 0 <= i < |ops| ==> MANAGED_PREFIX <= ops[i].name
    requires forall i :: 0 <= i < |ops| ==> Detached(ops, ops[i].name)
    ensures Run(base, pool, ops) == base
  {
    RunShape(base, pool, ops);
    var ms := ManagedAfter(base, ops);
    if ms != [] {
      NameFromRun(base, ops, 0);
      var i :| 0 <= i < |ops| && ops[i].name == ms[0].name;
      assert ConfigNamed(ops[i].name)(ms[0]);
      ManagedNames(base, ops, ops[i].name);
    }
  }

  lemma {:induction false} NameFromRun(base: seq<Nic>, ops: seq<Attach>, j: nat)
    requires j < |ManagedAfter(base, ops)|
    ensures exists i :: 0 <= i < |ops| && ops[i].name == ManagedAfter(base, ops)[j].name
  {
    var init, op := ops[..|ops| - 1], ops[|ops| - 1];
    var ms, next := ManagedAfter(base, init), ManagedAfter(base, ops);
    if next[j].name == op.name {
      assert ops[|ops| - 1].name == next[j].name;
    } else {
      var k := FirstIndex(ms, ConfigNamed(op.name));
      var n := if next == ms || j < k then j else j + 1;
      assert next[j] == ms[n];
      NameFromRun(base, init, n);
      var i :| 0 <= i < |init| && init[i].name == ms[n].name;
      assert ops[i] == init[i];
    }
  }

  /** The pool is listed on the primary IP configuration. */
  ghost predicate ListsPool(nics: seq<Nic>, pool: string) {
    var k := LastPrimary(nics);
    k < |nics| &&
    var p := FirstIndex(nics[k].ipConfigs, PrimaryConfig());
    p < |nics[k].ipConfigs| &&
    FirstIndex(nics[k].ipConfigs[p].props.value.pools, PoolNamed(pool)) < |nics[k].ipConfigs[p].props.value.pools|
  }

  /** The pool is on the primary IP configuration exactly while a managed configuration is left. */
  lemma ShapeListsPool(base: seq<Nic>, ms: seq<IpConfig>, pool: string)
    requires Base(base, pool) && ManagedList(ms)
    ensures ListsPool(Shape(base, ms, pool), pool) <==> ms != []
  {
    ShapeExpected(base, ms, pool);
    var k := LastPrimary(base);
    var p := FirstIndex(base[k].ipConfigs, PrimaryConfig());
    var nic := Shape(base, ms, pool)[k];
    if ms != [] {
      assert forall j :: 0 <= j < p ==> nic.ipConfigs[j] == base[k].ipConfigs[j];
      FirstIs(nic.ipConfigs, PrimaryConfig(), p);
      var pools := base[k].ipConfigs[p].props.value.pools;
      FirstIs(pools + [pool], PoolNamed(pool), |pools|);
    }
  }

  /** An interface of a shape: the base's IP configurations up to pools, then on the last primary one the managed list. */
  lemma ShapeParts(base: seq<Nic>, ms: seq<IpConfig>, pool: string, i: nat)
    requires i < |base|
    ensures |Shape(base, ms, pool)| == |base| && Shape(base, ms, pool)[i].primary == base[i].primary
    ensures var now, n := Shape(base, ms, pool)[i].ipConfigs, |base[i].ipConfigs|;
            n <= |now| && (now[n..] == [] || now[n..] == ms) &&
            forall j :: 0 <= j < n ==> Stripped(now[j]) == Stripped(base[i].ipConfigs[j])
  {
    hide LastPrimary, FirstIndex;
  }

  lemma ShapeTail(base: seq<Nic>, ms: seq<IpConfig>, pool: string, i: nat, j: nat)
    requires i < |base| && j < |Shape(base, ms, pool)[i].ipConfigs|
    ensures j < |base[i].ipConfigs| || Shape(base, ms, pool)[i].ipConfigs[j] in ms
  {
    hide LastPrimary, FirstIndex;
  }

  /** The IP configurations that are not managed stay, in order; only the primary one's pools may differ. */
  lemma ShapeForeign(base: seq<Nic>, ms: seq<IpConfig>, pool: string, i: nat)
    requires Base(base, pool) && ManagedList(ms) && i < |base| && base[i].primary
    ensures var now := Without(Shape(base, ms, pool)[i].ipConfigs, (c: IpConfig) => IsManaged(c));
            |now| == |base[i].ipConfigs| &&
            forall j :: 0 <= j < |now| ==> Stripped(now[j]) == Stripped(base[i].ipConfigs[j])
  {
    hide Shape;
    var managed := (c: IpConfig) => IsManaged(c);
    ShapeParts(base, ms, pool, i);
    var configs, n := Shape(base, ms, pool)[i].ipConfigs, |base[i].ipConfigs|;
    assert configs == configs[..n] + configs[n..];
    WithoutAppend(configs[..n], configs[n..], managed);
    assert forall j :: 0 <= j < n ==> Stripped(configs[j]).name == configs[j].name;
    WithoutNone(configs[..n], managed);
    WithoutAll(configs[n..], managed);
  }

  /** No reconcile takes away a subnet the next one dereferences. */
  lemma ShapeReadable(base: seq<Nic>, ms: seq<IpConfig>, pool: string)
    requires ManagedList(ms) && SubnetsReadable(base)
    ensures SubnetsReadable(Shape(base, ms, pool))
  {
    hide Shape;
    var nics := Shape(base, ms, pool);
    if base != [] {
      ShapeParts(base, ms, pool, 0);
    } else {
      assert nics == base by {
        ShapeOfNone(ms, pool);
      }
    }
    forall i | 0 <= i < |nics|
      ensures Readable(nics[i])
    {
      ShapeParts(base, ms, pool, i);
      assert Readable(base[i]);
      forall j | nics[i].primary && 0 <= j < |nics[i].ipConfigs| && IsPrimary(nics[i].ipConfigs[j])
        ensures nics[i].ipConfigs[j].props.value.subnet.Some?
      {
        ShapeTail(base, ms, pool, i, j);
        assert nics[i].ipConfigs[j] !in ms;
        assert Stripped(nics[i].ipConfigs[j]) == Stripped(base[i].ipConfigs[j]);
      }
    }
  }

  lemma ShapeOfNone(ms: seq<IpConfig>, pool: string)
    ensures Shape([], ms, pool) == []
  {
  }

  /** A managed name on a primary interface can only come from the managed list. */
  lemma ShapeManaged(base: seq<Nic>, ms: seq<IpConfig>, pool: string, i: nat, c: IpConfig)
    requires Base(base, pool) && i < |base| && Shape(base, ms, pool)[i].primary
    requires IsManaged(c) && c in Shape(base, ms, pool)[i].ipConfigs
    ensures c in ms
  {
  }

  lemma {:induction false} WithoutAll(ms: seq<IpConfig>, p: IpConfig -> bool)
    requires forall j :: 0 <= j < |ms| ==> p(ms[j])
    ensures Without(ms, p) == []
  {
    if ms != [] {
      WithoutAll(ms[1..], p);
    }
  }

  /** Repeating a reconcile on any reachable interfaces changes nothing and says so. */
  lemma ReconcileAgain(base: seq<Nic>, pool: string, ops: seq<Attach>, op: Attach)
    requires Base(base, pool) && MANAGED_PREFIX <= op.name
    requires forall i :: 0 <= i < |ops| ==> MANAGED_PREFIX <= ops[i].name
    ensures var nics := Run(base, pool, ops + [op]);
            Reconciled(op.name, op.prefix, pool, op.want, nics) == Ok((false, nics))
  {
    hide Reconciled, Shape;
    RunShape(base, pool, ops + [op]);
    var ms := ManagedAfter(base, ops + [op]);
    ReconcileShape(base, ms, op.name, op.prefix, pool, op.want);
    assert (ops + [op])[..|ops|] == ops;
    RunShape(base, pool, ops);
    UpdatedTwice(ManagedAfter(base, ops), op.name, op.want, Expected(op.name, op.prefix, base));
  }

  lemma UpdatedTwice(ms: seq<IpConfig>, name: string, want: bool, expected: IpConfig)
    requires ManagedList(ms) && expected.name == name
    ensures var next := Updated(ms, name, want, expected); Updated(next, name, want, expected) == next
  {
    hide Different;
    var i := FirstIndex(ms, ConfigNamed(name));
    var next := Updated(ms, name, want, expected);
    UpdatedHas(ms, name, want, expected, name);
    SameNotDifferent(expected);
    if want && next != ms {
      var rest := RemoveAt(ms, i);
      NamedOnce(ms, name);
      FirstIs(next, ConfigNamed(name), |rest|);
    }
  }

  lemma SameNotDifferent(c: IpConfig)
    ensures !Different(c, c)
  {
  }

  // ---------------------------------------------------------------- what an attached IP configuration is

  /** The last primary IP configuration on the last primary interface that has one. */
  ghost predicate IsLastPrimary(nics: seq<Nic>, n: nat, j: nat) {
    n < |nics| && nics[n].primary && j < |nics[n].ipConfigs| && IsPrimary(nics[n].ipConfigs[j]) &&
    (forall k :: j < k < |nics[n].ipConfigs| ==> !IsPrimary(nics[n].ipConfigs[k])) &&
    forall m, k :: n < m < |nics| && nics[m].primary && 0 <= k < |nics[m].ipConfigs| ==> !IsPrimary(nics[m].ipConfigs[k])
  }

  /** A secondary IPv4 configuration in the subnet, with a public address from the prefix; "" is no public address. */
  ghost predicate Wanted(c: IpConfig, name: string, prefix: string, subnet: string) {
    c.name == name && c.props.Some? && !c.props.value.primary && c.props.value.version == IPv4 &&
    c.props.value.subnet.Some? && EqualFold(c.props.value.subnet.value, subnet) &&
    if prefix == "" then c.props.value.publicIp.None?
    else c.props.value.publicIp.Some? && c.props.value.publicIp.value.name == name &&
         c.props.value.publicIp.value.props.Some? && c.props.value.publicIp.value.props.value.prefix.Some? &&
         EqualFold(c.props.value.publicIp.value.props.value.prefix.value, prefix)
  }

  lemma {:induction false} LastSubnetIs(configs: seq<IpConfig>, j: nat)
    requires j < |configs| && IsPrimary(configs[j]) && forall k :: j < k < |configs| ==> !IsPrimary(configs[k])
    requires configs[j].props.value.subnet.Some?
    ensures LastSubnet(configs) == configs[j].props.value.subnet
    decreases |configs|
  {
    if j < |configs| - 1 {
      LastSubnetIs(configs[..|configs| - 1], j);
    }
  }

  lemma {:induction false} NoLastSubnet(configs: seq<IpConfig>)
    requires forall k :: 0 <= k < |configs| ==> !IsPrimary(configs[k])
    ensures LastSubnet(configs).None?
  {
    if configs != [] {
      NoLastSubnet(configs[..|configs| - 1]);
    }
  }

  lemma {:induction false} SubnetIs(nics: seq<Nic>, n: nat, j: nat)
    requires IsLastPrimary(nics, n, j) && nics[n].ipConfigs[j].props.value.subnet.Some?
    ensures Some(SubnetOf(nics)) == nics[n].ipConfigs[j].props.value.subnet
    decreases |nics|
  {
    hide LastSubnet;
    var last := nics[|nics| - 1];
    if n == |nics| - 1 {
      LastSubnetIs(last.ipConfigs, j);
    } else {
      if last.primary {
        NoLastSubnet(last.ipConfigs);
      }
      SubnetIs(nics[..|nics| - 1], n, j);
    }
  }

  /** The configuration to attach: secondary, IPv4, in the subnet of the last primary one, and public iff a prefix is given. */
  lemma ExpectedIs(name: string, prefix: string, nics: seq<Nic>, n: nat, j: nat)
    requires SubnetsReadable(nics) && IsLastPrimary(nics, n, j)
    ensures var c := Expected(name, prefix, nics);
            Wanted(c, name, prefix, SubnetOf(nics)) && c.props.value.subnet == nics[n].ipConfigs[j].props.value.subnet &&
            c.props.value.pools == []
  {
    hide SubnetOf;
    assert Readable(nics[n]);
    SubnetIs(nics, n, j);
  }

  lemma SameWanted(c: IpConfig, name: string, prefix: string, subnet: string)
    requires c.name == name && !Different(c, ExpectedIn(name, prefix, subnet))
    ensures Wanted(c, name, prefix, subnet)
  {
  }

  lemma WantedStripped(c: IpConfig, d: IpConfig, name: string, prefix: string, subnet: string)
    requires Wanted(c, name, prefix, subnet) && Stripped(c) == Stripped(d)
    ensures Wanted(d, name, prefix, subnet)
  {
  }

  ghost predicate Carries(nics: seq<Nic>, name: string, prefix: string, subnet: string) {
    exists i, j :: 0 <= i < |nics| && nics[i].primary && 0 <= j < |nics[i].ipConfigs| && Wanted(nics[i].ipConfigs[j], name, prefix, subnet)
  }

  /** A successful attach, to any interfaces, leaves a primary interface with the configuration as it is wanted. */
  lemma Attaches(name: string, prefix: string, pool: string, nics: seq<Nic>)
    requires Reconciled(name, prefix, pool, true, nics).Ok?
    ensures Carries(Reconciled(name, prefix, pool, true, nics).value.1, name, prefix, SubnetOf(nics))
  {
    hide PoolReconciled, Different, SubnetOf, SubnetsReadable, Wanted, Stripped;
    var expected, subnet := Expected(name, prefix, nics), SubnetOf(nics);
    var k := LastPrimary(nics);
    var edited := EditedAll(nics, name, true, expected);
    var add := !Found(nics, name, true, expected);
    var nic := if add then edited[k].(ipConfigs := edited[k].ipConfigs + [expected]) else edited[k];
    PoolReportsChange(pool, nic);
    var next := Reconciled(name, prefix, pool, true, nics).value.1;
    var i, j := k, |nic.ipConfigs| - 1;
    if add {
      SameNotDifferent(expected);
      SameWanted(expected, name, prefix, subnet);
      WantedStripped(expected, next[i].ipConfigs[j], name, prefix, subnet);
    } else {
      i :| 0 <= i < |nics| && Keeps(nics[i], name, true, expected);
      j := FirstIndex(nics[i].ipConfigs, ConfigNamed(name));
      var c := nics[i].ipConfigs[j];
      SameWanted(c, name, prefix, subnet);
      assert edited[i] == nics[i];
      WantedStripped(c, next[i].ipConfigs[j], name, prefix, subnet);
    }
    assert Wanted(next[i].ipConfigs[j], name, prefix, subnet);
  }

  /** The prefix of the last word on `name` in the run. */
  ghost function LastPrefix(ops: seq<Attach>, name: string): string {
    if ops == [] then "" else if ops[|ops| - 1].name == name then ops[|ops| - 1].prefix else LastPrefix(ops[..|ops| - 1], name)
  }

  ghost predicate EntryWanted(base: seq<Nic>, ops: seq<Attach>, c: IpConfig) {
    !Detached(ops, c.name) && Wanted(c, c.name, LastPrefix(ops, c.name), SubnetOf(base)) && c.props.value.subnet == Some(SubnetOf(base))
  }

  /** An entry of the updated list is the wanted one, or an old one that is of another name or good enough. */
  lemma UpdatedFrom(ms: seq<IpConfig>, name: string, want: bool, expected: IpConfig, i: nat) returns (j: nat)
    requires ManagedList(ms) && i < |Updated(ms, name, want, expected)|
    ensures var c := Updated(ms, name, want, expected)[i];
            (want && c == expected) || (j < |ms| && c == ms[j] && (c.name == name ==> want && !Different(c, expected)))
  {
    hide Different, IsManaged;
    var k, next := FirstIndex(ms, ConfigNamed(name)), Updated(ms, name, want, expected);
    NamedOnce(ms, name);
    j := if next == ms || i < k then i else i + 1;
  }

  /** After an attach the managed list has the configuration as it is wanted. */
  lemma UpdatedCarries(ms: seq<IpConfig>, name: string, prefix: string, subnet: string) returns (i: nat)
    requires ManagedList(ms) && MANAGED_PREFIX <= name
    ensures var next := Updated(ms, name, true, ExpectedIn(name, prefix, subnet));
            i < |next| && Wanted(next[i], name, prefix, subnet)
  {
    hide Different, Updated, Wanted, ManagedList;
    var expected := ExpectedIn(name, prefix, subnet);
    UpdatedHas(ms, name, true, expected, name);
    i := FirstIndex(Updated(ms, name, true, expected), ConfigNamed(name));
    var j := UpdatedFrom(ms, name, true, expected, i);
    SameNotDifferent(expected);
    SameWanted(Updated(ms, name, true, expected)[i], name, prefix, subnet);
  }

  lemma {:induction false} ManagedWanted(base: seq<Nic>, ops: seq<Attach>, i: nat)
    requires forall k :: 0 <= k < |ops| ==> MANAGED_PREFIX <= ops[k].name
    requires i < |ManagedAfter(base, ops)|
    ensures EntryWanted(base, ops, ManagedAfter(base, ops)[i])
  {
    hide Different, SubnetOf, Wanted, ManagedList, Updated;
    var init, op := ops[..|ops| - 1], ops[|ops| - 1];
    var ms, expected := ManagedAfter(base, init), Expected(op.name, op.prefix, base);
    var c := ManagedAfter(base, ops)[i];
    ManagedNames(base, init, op.name);
    var j := UpdatedFrom(ms, op.name, op.want, expected, i);
    if op.want && c == expected {
      SameNotDifferent(expected);
      SameWanted(expected, op.name, op.prefix, SubnetOf(base));
    } else {
      ManagedWanted(base, init, j);
      if c.name == op.name {
        SameWanted(c, op.name, op.prefix, SubnetOf(base));
      }
    }
  }

  /**
   * In every run, every managed IP configuration on a primary interface is as its last attach asked, in the subnet
   * of the base's primary one; and every name whose last word is an attach has one.
   */
  lemma RunEntries(base: seq<Nic>, pool: string, ops: seq<Attach>, n: nat, j: nat)
    requires Base(base, pool) && IsLastPrimary(base, n, j)
    requires forall i :: 0 <= i < |ops| ==> MANAGED_PREFIX <= ops[i].name
    ensures var nics, subnet := Run(base, pool, ops), base[n].ipConfigs[j].props.value.subnet;
            subnet.Some? &&
            (forall i, c :: 0 <= i < |nics| && nics[i].primary && IsManaged(c) && c in nics[i].ipConfigs ==>
               !Detached(ops, c.name) && Wanted(c, c.name, LastPrefix(ops, c.name), subnet.value) && c.props.value.subnet == subnet) &&
            (forall name :: MANAGED_PREFIX <= name && !Detached(ops, name) ==> Carries(nics, name, LastPrefix(ops, name), subnet.value))
  {
    hide Run, SubnetOf, Wanted, IsManaged, ManagedList, Shape, Base, Detached, SubnetsReadable, LastPrefix, ManagedAfter, IsLastPrimary;
    BaseReads(base, pool, n, j);
    SubnetIs(base, n, j);
    RunShape(base, pool, ops);
    var nics, ms := Run(base, pool, ops), ManagedAfter(base, ops);
    ShapeSize(base, ms, pool);
    forall i, c | 0 <= i < |nics| && nics[i].primary && IsManaged(c) && c in nics[i].ipConfigs
      ensures EntryWanted(base, ops, c)
    {
      ShapeManaged(base, ms, pool, i, c);
      var k :| 0 <= k < |ms| && ms[k] == c;
      ManagedWanted(base, ops, k);
    }
    forall name | MANAGED_PREFIX <= name && !Detached(ops, name)
      ensures Carries(nics, name, LastPrefix(ops, name), SubnetOf(base))
    {
      ManagedNames(base, ops, name);
      var k := FirstIndex(ms, ConfigNamed(name));
      ManagedWanted(base, ops, k);
      ShapeCarries(base, ms, pool, k);
    }
  }

  lemma BaseReads(base: seq<Nic>, pool: string, n: nat, j: nat)
    requires Base(base, pool) && IsLastPrimary(base, n, j)
    ensures base[n].ipConfigs[j].props.value.subnet.Some?
  {
    assert Readable(base[n]);
  }

  lemma ShapeSize(base: seq<Nic>, ms: seq<IpConfig>, pool: string)
    ensures |Shape(base, ms, pool)| == |base|
  {
  }

  lemma ShapeCarries(base: seq<Nic>, ms: seq<IpConfig>, pool: string, k: nat)
    requires Base(base, pool) && k < |ms|
    ensures var nics := Shape(base, ms, pool); var n := LastPrimary(base);
            n < |nics| && nics[n].primary && ms[k] in nics[n].ipConfigs
  {
    var nics := Shape(base, ms, pool);
    var n := LastPrimary(base);
    assert nics[n].ipConfigs[|base[n].ipConfigs| + k] == ms[k];
  }

  /** Untouched interfaces have such a primary IP configuration. */
  lemma BasePrimary(base: seq<Nic>, pool: string) returns (n: nat, j: nat)
    requires Base(base, pool)
    ensures IsLastPrimary(base, n, j)
  {
    n := LastPrimary(base);
    var configs := base[n].ipConfigs;
    j := |configs| - 1;
    while !IsPrimary(configs[j])
      invariant FirstIndex(configs, PrimaryConfig()) <= j < |configs|
      invariant forall k :: j < k < |configs| ==> !IsPrimary(configs[k])
      decreases j
    {
      j := j - 1;
    }
  }
}
