// What the daemon's chain operations keep, on any table and over any run.

module IpTablesRuns {
  import opened Wrappers
  import opened Sequences
  import opened IpTables

  // ---------------------------------------------------------------- jump-closed after every call

  lemma UnlinkClosed(t: Table, chain: string, rule: Rule)
    requires JumpClosed(t)
    ensures JumpClosed(WithoutRule(t, chain, rule))
  {
  }

  /** Ensuring a chain keeps the table jump-closed wherever it stops. */
  lemma EnsureClosed(t: Table, m: Managed, calls: nat)
    requires JumpClosed(t)
    ensures JumpClosed(Ensured(t, m, calls))
  {
  }

  /** Removing chains keeps it jump-closed wherever it stops: a chain still jumped to is not deleted. */
  lemma {:induction false} RemoveClosed(t: Table, ms: seq<Managed>, existing: set<string>, calls: nat)
    requires JumpClosed(t)
    ensures JumpClosed(Removed(t, ms, existing, calls).0)
  {
    if ms != [] {
      var init, m := ms[..|ms| - 1], ms[|ms| - 1];
      RemoveClosed(t, init, existing, calls);
      UnlinkClosed(Removed(t, init, existing, calls).0, m.source, JumpTo(m));
    }
  }

  // ---------------------------------------------------------------- repeat and undo

  ghost predicate NoJumps(rules: seq<Rule>) {
    forall i :: 0 <= i < |rules| ==> !rules[i].target.Jump?
  }

  lemma EnsureTwice(t: Table, m: Managed)
    requires JumpClosed(t) && m.source != m.target && NoJumps(m.rules)
    ensures Ensured(Ensured(t, m, 3), m, 3) == Ensured(t, m, 3)
  {
  }

  /** Ensuring a chain that was not there and removing it again restores the table. */
  lemma EnsureThenRemove(t: Table, m: Managed)
    requires JumpClosed(t) && m.target !in t && m.source in t && NoJumps(m.rules)
    ensures var ensured := Ensured(t, m, 3);
            Removed(ensured, [m], ensured.Keys, 2) == (t, Some(0))
  {
    var jump := JumpTo(m);
    var ensured := Ensured(t, m, 3);
    assert jump !in t[m.source];
    EnsureClosed(t, m, 2);
    assert ensured == t[m.target := m.rules][m.source := [jump] + t[m.source]];
    FirstIs(ensured[m.source], Is(jump), 0);
    var unlinked := WithoutRule(ensured, m.source, jump);
    assert unlinked[m.source] == t[m.source];
    assert unlinked - {m.target} == t;
    assert [m][..0] == [];
    assert Removed(ensured, [], ensured.Keys, 2) == (ensured, Some(2));
  }

  // ---------------------------------------------------------------- one jump per managed chain

  /** The chains the daemon may manage: one source, comment and jump per target, rules that do not jump. */
  ghost predicate Consistent(all: set<Managed>) {
    (forall m :: m in all ==> NoJumps(m.rules)) &&
    (forall m, n :: m in all && n in all && m.target == n.target ==> m.source == n.source && m.comment == n.comment)
  }

  /** The only jump to a managed chain is its own, at its source, at most once. */
  ghost predicate SingleJump(t: Table, m: Managed) {
    (forall c, i :: c in t && 0 <= i < |t[c]| && t[c][i].target == Jump(m.target) ==> c == m.source && t[c][i] == JumpTo(m)) &&
    (m.source in t ==> forall i, j :: 0 <= i < j < |t[m.source]| ==> !(t[m.source][i] == JumpTo(m) && t[m.source][j] == JumpTo(m)))
  }

  ghost predicate SingleJumps(t: Table, all: set<Managed>) {
    forall m :: m in all ==> SingleJump(t, m)
  }

  lemma EnsureSingle(t: Table, m: Managed, calls: nat, n: Managed)
    requires SingleJump(t, n) && NoJumps(m.rules)
    requires m.target == n.target ==> m.source == n.source && m.comment == n.comment
    ensures SingleJump(Ensured(t, m, calls), n)
  {
    var chained := WithChain(t, m.target);
    assert SingleJump(chained, n);
    RuleSingle(chained, m, n);
  }

  lemma RuleSingle(t: Table, m: Managed, n: Managed)
    requires SingleJump(t, n)
    requires m.target == n.target ==> m.source == n.source && m.comment == n.comment
    ensures SingleJump(WithRule(t, m.source, JumpTo(m)), n)
  {
  }

  lemma UnlinkSingle(t: Table, chain: string, rule: Rule, n: Managed)
    requires SingleJump(t, n)
    ensures SingleJump(WithoutRule(t, chain, rule), n)
  {
  }

  lemma {:induction false} RemoveSingle(t: Table, ms: seq<Managed>, existing: set<string>, calls: nat, n: Managed)
    requires SingleJump(t, n)
    ensures SingleJump(Removed(t, ms, existing, calls).0, n)
  {
    if ms != [] {
      var init, m := ms[..|ms| - 1], ms[|ms| - 1];
      RemoveSingle(t, init, existing, calls, n);
      UnlinkSingle(Removed(t, init, existing, calls).0, m.source, JumpTo(m), n);
    }
  }

  /** One call of the daemon on the table, stopping after any number of iptables calls. */
  datatype Op = Ensure(m: Managed, calls: nat) | Remove(ms: seq<Managed>, calls: nat)

  function Apply(t: Table, op: Op): Table {
    match op
    case Ensure(m, calls) => Ensured(t, m, calls)
    case Remove(ms, calls) => Removed(t, ms, t.Keys, calls).0
  }

  function Run(t: Table, ops: seq<Op>): Table {
    if ops == [] then t else Apply(Run(t, ops[..|ops| - 1]), ops[|ops| - 1])
  }

  /** Over any run, foreign chains included, the table stays jump-closed with at most one jump to each managed chain. */
  lemma {:induction false} RunClosed(t: Table, all: set<Managed>, ops: seq<Op>)
    requires JumpClosed(t) && Consistent(all) && SingleJumps(t, all)
    requires forall i :: 0 <= i < |ops| && ops[i].Ensure? ==> ops[i].m in all
    ensures JumpClosed(Run(t, ops)) && SingleJumps(Run(t, ops), all)
  {
    if ops != [] {
      var before, op := Run(t, ops[..|ops| - 1]), ops[|ops| - 1];
      RunClosed(t, all, ops[..|ops| - 1]);
      match op {
        case Ensure(m, calls) =>
          EnsureClosed(before, m, calls);
          forall n | n in all
            ensures SingleJump(Apply(before, op), n)
          {
            EnsureSingle(before, m, calls, n);
          }
        case Remove(ms, calls) =>
          RemoveClosed(before, ms, before.Keys, calls);
          forall n | n in all
            ensures SingleJump(Apply(before, op), n)
          {
            RemoveSingle(before, ms, before.Keys, calls, n);
          }
      }
    }
  }
}
