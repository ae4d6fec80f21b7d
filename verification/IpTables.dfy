// A NAT table with the calls the daemon makes on it: ensuring a chain, prepending a
// jump, and restoring a dump, which is all-or-nothing.

module IpTables {
  import opened Wrappers
  import opened Sequences

  datatype Cond = Cond(inIf: Option<string>, outIf: Option<string>, mark: Option<int>, source: Option<string>)
  datatype Target = Jump(chain: string) | SetMark(value: int) | Snat(ip: string) | Accept | Builtin(name: string)
  datatype Rule = Rule(comment: string, cond: Cond, target: Target)

  type Table = map<string, seq<Rule>>

  datatype Error = Unavailable | NoSuchChain | DeletedChainReferenced | MissingChain

  const ALWAYS := Cond(None, None, None, None)

  function JumpRule(comment: string, chain: string): Rule {
    Rule(comment, ALWAYS, Jump(chain))
  }

  predicate JumpOk(t: Table, r: Rule) {
    r.target.Jump? ==> r.target.chain in t
  }

  /** Every jump of the table leads to a chain of the table. */
  predicate JumpClosed(t: Table) {
    forall c, i :: c in t && 0 <= i < |t[c]| ==> JumpOk(t, t[c][i])
  }

  function WithChain(t: Table, chain: string): Table {
    if chain in t then t else t[chain := []]
  }

  function WithRule(t: Table, chain: string, rule: Rule): Table {
    if chain !in t || rule in t[chain] then t else t[chain := [rule] + t[chain]]
  }

  function Is(rule: Rule): Rule -> bool { (r: Rule) => r == rule }

  function WithoutRule(t: Table, chain: string, rule: Rule): Table {
    if chain !in t then t else t[chain := RemoveAt(t[chain], FirstIndex(t[chain], Is(rule)))]
  }

  // ---------------------------------------------------------------- restore

  /** A chain of a dump: its new rules, or its deletion. */
  datatype NewChain = NewChain(name: string, rules: seq<Rule>, deleted: bool)

  function Staged(t: Table, dump: seq<NewChain>): Table {
    if dump == [] then t
    else
      var before, c := Staged(t, dump[..|dump| - 1]), dump[|dump| - 1];
      if c.deleted then before - {c.name} else before[c.name := c.rules]
  }

  function Restored(t: Table, dump: seq<NewChain>, flush: bool): Option<Table> {
    var staged := Staged(if flush then map[] else t, dump);
    if JumpClosed(staged) then Some(staged) else None
  }

  class NatTable {
    var chains: Table

    constructor (initial: Table)
      ensures chains == initial
    {
      chains := initial;
    }

    /** Applies a dump chain by chain, then checks every jump; a dangling jump puts the old chains back. */
    method RestoreTable(dump: seq<NewChain>, flush: bool) returns (r: Result<(), Error>)
      modifies this
      ensures r.Ok? <==> Restored(old(chains), dump, flush).Some?
      ensures r.Ok? ==> Some(chains) == Restored(old(chains), dump, flush) && JumpClosed(chains)
      ensures r.Err? ==> chains == old(chains)
    {
      var backup := chains;
      ghost var start := if flush then map[] else chains;
      if flush {
        chains := map[];
      }
      var n := 0;
      while n < |dump|
        invariant 0 <= n <= |dump|
        invariant chains == Staged(start, dump[..n])
      {
        var c := dump[n];
        assert dump[..n + 1][..n] == dump[..n];
        if c.name !in chains {
          if !c.deleted {
            chains := chains[c.name := c.rules];
          }
        } else if c.deleted {
          chains := chains - {c.name};
        } else {
          chains := chains[c.name := c.rules];
        }
        n := n + 1;
      }
      assert dump[..n] == dump;
      var todo := chains.Keys;
      while todo != {}
        invariant todo <= chains.Keys
        invariant chains == Staged(start, dump)
        invariant forall c, i :: c in chains && c !in todo && 0 <= i < |chains[c]| ==> JumpOk(chains, chains[c][i])
        decreases |todo|
      {
        var c :| c in todo;
        var i := 0;
        while i < |chains[c]|
          invariant 0 <= i <= |chains[c]|
          invariant c in chains && chains == Staged(start, dump)
          invariant forall j :: 0 <= j < i ==> JumpOk(chains, chains[c][j])
        {
          if !JumpOk(chains, chains[c][i]) {
            var missing := chains[c][i].target.chain;
            chains := backup;
            return Err(if exists k :: 0 <= k < |dump| && dump[k].name == missing then DeletedChainReferenced else MissingChain);
          }
          i := i + 1;
        }
        todo := todo - {c};
      }
      return Ok(());
    }

    method EnsureChain(chain: string, up: bool) returns (r: Result<(), Error>)
      modifies this
      ensures r.Ok? <==> up
      ensures chains == if up then WithChain(old(chains), chain) else old(chains)
    {
      if !up {
        return Err(Unavailable);
      }
      if chain !in chains {
        chains := chains[chain := []];
      }
      return Ok(());
    }

    method EnsureRule(chain: string, rule: Rule, up: bool) returns (r: Result<(), Error>)
      modifies this
      ensures r.Ok? <==> up && chain in old(chains)
      ensures chains == if up then WithRule(old(chains), chain, rule) else old(chains)
    {
      if !up {
        return Err(Unavailable);
      }
      if chain !in chains {
        return Err(NoSuchChain);
      }
      if rule !in chains[chain] {
        chains := chains[chain := [rule] + chains[chain]];
      }
      return Ok(());
    }

    method DeleteRule(chain: string, rule: Rule, up: bool) returns (r: Result<(), Error>)
      modifies this
      ensures r.Ok? <==> up && chain in old(chains)
      ensures chains == if up then WithoutRule(old(chains), chain, rule) else old(chains)
    {
      if !up {
        return Err(Unavailable);
      }
      if chain !in chains {
        return Err(NoSuchChain);
      }
      var rules := chains[chain];
      var i := 0;
      while i < |rules|
        invariant 0 <= i <= |rules| && chains == old(chains) && rules == chains[chain]
        invariant forall j :: 0 <= j < i ==> rules[j] != rule
      {
        if rules[i] == rule {
          FirstIs(rules, Is(rule), i);
          chains := chains[chain := rules[..i] + rules[i + 1..]];
          return Ok(());
        }
        i := i + 1;
      }
      assert chains == WithoutRule(old(chains), chain, rule);
      return Ok(());
    }

    /** Ensures the chain, then the jump to it, then its rules; `calls` is how many calls succeed before one fails. */
    method EnsureIPTablesChain(m: Managed, calls: nat) returns (r: Result<(), Error>)
      modifies this
      ensures chains == Ensured(old(chains), m, calls)
      ensures r.Ok? <==> EnsureDone(old(chains), m, calls)
    {
      r := EnsureChain(m.target, calls > 0);
      if r.Err? {
        return;
      }
      r := EnsureRule(m.source, JumpRule(m.comment, m.target), calls > 1);
      if r.Err? || m.rules == [] {
        return;
      }
      if calls <= 2 {
        return Err(Unavailable);
      }
      var dump := [NewChain(m.target, m.rules, false)];
      assert Staged(chains, dump) == chains[m.target := m.rules] by {
        StagedOne(chains, dump[0]);
      }
      r := RestoreTable(dump, false);
    }

    /** Deletes the jump first, then the chain; says how many calls are left. */
    method RemoveChain(m: Managed, calls: nat) returns (r: Result<nat, Error>)
      modifies this
      ensures chains == RemovedOne(old(chains), m, calls).0
      ensures RemovedOne(old(chains), m, calls).1 == if r.Ok? then Some(r.value) else None
    {
      hide JumpClosed, RemoveAt;
      var deleted := DeleteRule(m.source, JumpRule(m.comment, m.target), calls > 0);
      if deleted.Err? {
        return Err(deleted.error);
      }
      if calls < 2 {
        return Err(Unavailable);
      }
      var dump := [NewChain(m.target, [], true)];
      StagedOne(chains, dump[0]);
      var restored := RestoreTable(dump, false);
      return if restored.Err? then Err(restored.error) else Ok(calls - 2);
    }

    /** Removes each target chain that existed at the start. */
    method RemoveIPTablesChains(ms: seq<Managed>, calls: nat) returns (r: Result<(), Error>)
      modifies this
      ensures chains == Removed(old(chains), ms, old(chains).Keys, calls).0
      ensures r.Ok? <==> Removed(old(chains), ms, old(chains).Keys, calls).1.Some?
    {
      hide RemovedOne;
      var existing := chains.Keys;
      ghost var start := chains;
      var left := calls;
      var n := 0;
      while n < |ms|
        invariant 0 <= n <= |ms| && existing == start.Keys
        invariant Removed(start, ms[..n], existing, calls) == (chains, Some(left))
      {
        assert ms[..n + 1][..n] == ms[..n];
        if ms[n].target in existing {
          var removed := RemoveChain(ms[n], left);
          if removed.Err? {
            RemovedStops(start, ms, existing, calls, n + 1);
            return Err(removed.error);
          }
          left := removed.value;
        }
        n := n + 1;
      }
      assert ms[..n] == ms;
      return Ok(());
    }
  }

  lemma StagedOne(t: Table, c: NewChain)
    ensures Staged(t, [c]) == if c.deleted then t - {c.name} else t[c.name := c.rules]
  {
  }

  // ---------------------------------------------------------------- the daemon's two operations

  /** A chain the daemon manages: the jump that leads to it and the rules it holds. */
  datatype Managed = Managed(target: string, source: string, comment: string, rules: seq<Rule>)

  function JumpTo(m: Managed): Rule {
    JumpRule(m.comment, m.target)
  }

  function Ensured(t: Table, m: Managed, calls: nat): Table {
    if calls == 0 then t
    else
      var chained := WithChain(t, m.target);
      if calls == 1 || m.source !in chained then chained
      else
        var jumping := WithRule(chained, m.source, JumpTo(m));
        if calls == 2 || m.rules == [] || !JumpClosed(jumping[m.target := m.rules]) then jumping
        else jumping[m.target := m.rules]
  }

  predicate EnsureDone(t: Table, m: Managed, calls: nat) {
    calls > 1 && m.source in WithChain(t, m.target) &&
    (m.rules == [] || (calls > 2 && JumpClosed(WithRule(WithChain(t, m.target), m.source, JumpTo(m))[m.target := m.rules])))
  }

  /** One chain removed: the table, and the calls left unless something failed. */
  function RemovedOne(t: Table, m: Managed, calls: nat): (Table, Option<nat>) {
    if calls == 0 || m.source !in t then (t, None)
    else
      var unlinked := WithoutRule(t, m.source, JumpTo(m));
      if calls == 1 || !JumpClosed(unlinked - {m.target}) then (unlinked, None)
      else (unlinked - {m.target}, Some(calls - 2))
  }

  function Removed(t: Table, ms: seq<Managed>, existing: set<string>, calls: nat): (Table, Option<nat>) {
    if ms == [] then (t, Some(calls))
    else
      var (before, left) := Removed(t, ms[..|ms| - 1], existing, calls);
      var m := ms[|ms| - 1];
      if left.None? || m.target !in existing then (before, left) else RemovedOne(before, m, left.value)
  }

  lemma {:induction false} RemovedStops(t: Table, ms: seq<Managed>, existing: set<string>, calls: nat, n: nat)
    requires n <= |ms| && Removed(t, ms[..n], existing, calls).1.None?
    ensures Removed(t, ms, existing, calls) == Removed(t, ms[..n], existing, calls)
    decreases |ms|
  {
    if n < |ms| {
      var init := ms[..|ms| - 1];
      assert init[..n] == ms[..n];
      RemovedStops(t, init, existing, calls, n);
    } else {
      assert ms[..n] == ms;
    }
  }
}
