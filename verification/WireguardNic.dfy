// Giving a pod its WireGuard interface: the link is created in the host namespace,
// moved into the pod and renamed, then an address is allocated and configured. Every
// call may fail, and what was done before a failure is undone.

module WireguardNic {
  import opened Wrappers

  datatype Nic = Nic(id: nat, up: bool, alias: string)
  datatype Ip = V4(addr: string) | V6(addr: string)

  /** Links by name in the two namespaces, and whether the pod holds an address. */
  datatype State = State(host: map<string, Nic>, pod: map<string, Nic>, leased: bool)

  /** The calls that may fail, in the order they are made; the last eight belong to the rollback. */
  datatype Call =
    | GetNs | FindExisting
    | AddLink | FindAdded | MoveLink | FindMoved | SetDown | SetAlias | Rename | SetUp
    | ExecAdd | ParseResult | FindForConfig | ConfigureIface | Callback
    | ReleaseIp | HostFind | HostDel | EnterPod | PodFindTemp | PodDelTemp | PodFindIf | PodDelIf

  datatype Args = Args(containerId: string, ifName: string, id: nat, ips: seq<Ip>)

  function Temp(a: Args): string
    requires |a.containerId| >= 8
  {
    "wg" + a.containerId[..8]
  }

  // ---------------------------------------------------------------- what each part does

  /** Creates, moves and renames the link; says whether all of it worked. */
  function Create(s: State, temp: string, ifName: string, id: nat, faults: set<Call>): (State, bool) {
    if AddLink in faults || temp in s.host then (s, false)
    else
      var nic := Nic(id, false, "");
      var added := s.(host := s.host[temp := nic]);
      if FindAdded in faults || MoveLink in faults || temp in s.pod then (added, false)
      else
        var moved := s.(host := added.host - {temp}, pod := s.pod[temp := nic]);
        if FindMoved in faults || SetDown in faults || SetAlias in faults then (moved, false)
        else
          var named := nic.(alias := temp);
          var aliased := moved.(pod := moved.pod[temp := named]);
          if Rename in faults || (ifName in aliased.pod && ifName != temp) then (aliased, false)
          else
            var renamed := aliased.(pod := (aliased.pod - {temp})[ifName := named]);
            if SetUp in faults then (renamed, false) else (renamed.(pod := renamed.pod[ifName := named.(up := true)]), true)
  }

  function WithoutLink(links: map<string, Nic>, name: string, broken: bool): map<string, Nic> {
    if broken then links else links - {name}
  }

  /** The deferred cleanup tries each link it may have left, whatever became of the others. */
  function RolledBack(s: State, temp: string, ifName: string, faults: set<Call>): State {
    var host := WithoutLink(s.host, temp, HostFind in faults || HostDel in faults);
    if EnterPod in faults then s.(host := host)
    else
      var pod := WithoutLink(s.pod, temp, PodFindTemp in faults || PodDelTemp in faults);
      s.(host := host, pod := WithoutLink(pod, ifName, PodFindIf in faults || PodDelIf in faults))
  }

  /** The pod's IPv4 address is the last one listed. */
  function LastV4(ips: seq<Ip>): Option<string> {
    if ips == [] then None
    else if ips[|ips| - 1].V4? then Some(ips[|ips| - 1].addr)
    else LastV4(ips[..|ips| - 1])
  }

  function SixOf(ips: seq<Ip>): seq<string> {
    if ips == [] then []
    else SixOf(ips[..|ips| - 1]) + if ips[|ips| - 1].V6? then [ips[|ips| - 1].addr] else []
  }

  predicate Configures(s: State, ifName: string, ips: seq<Ip>, faults: set<Call>) {
    ParseResult !in faults && FindForConfig !in faults && ifName in s.pod && ConfigureIface !in faults &&
    LastV4(ips).Some? && Callback !in faults
  }

  /** An address is allocated, and released again if configuring it fails. */
  function Addressed(s: State, ifName: string, ips: seq<Ip>, faults: set<Call>): (State, bool) {
    if ExecAdd in faults then (s, false)
    else if Configures(s, ifName, ips, faults) then (s.(leased := true), true)
    else (s.(leased := ReleaseIp in faults), false)
  }

  /** The attempt found no interface and could cut a temporary name from the container ID, so it began to create one. */
  predicate Begun(s: State, a: Args, faults: set<Call>) {
    GetNs !in faults && FindExisting !in faults && a.ifName !in s.pod && |a.containerId| >= 8
  }

  /** A whole attempt: the state it leaves and whether it succeeded; a container ID too short to cut crashes it. */
  function Attempt(s: State, a: Args, faults: set<Call>): (State, bool) {
    if GetNs in faults || FindExisting in faults then (s, false)
    else if a.ifName in s.pod then Addressed(s, a.ifName, a.ips, faults)
    else if |a.containerId| < 8 then (s, false)
    else
      var (created, ready) := Create(s, Temp(a), a.ifName, a.id, faults);
      var (end, ok) := if ready then Addressed(created, a.ifName, a.ips, faults) else (created, false);
      (if ok then end else RolledBack(end, Temp(a), a.ifName, faults), ok)
  }

  class Node {
    var host: map<string, Nic>
    var pod: map<string, Nic>
    var leased: bool

    ghost function Now(): State
      reads this
    {
      State(host, pod, leased)
    }

    method CreateLink(temp: string, ifName: string, id: nat, faults: set<Call>) returns (ok: bool)
      modifies this
      ensures (Now(), ok) == Create(old(Now()), temp, ifName, id, faults)
    {
      if AddLink in faults || temp in host {
        return false;
      }
      var nic := Nic(id, false, "");
      host := host[temp := nic];
      if FindAdded in faults || MoveLink in faults || temp in pod {
        return false;
      }
      host, pod := host - {temp}, pod[temp := nic];
      if FindMoved in faults || SetDown in faults || SetAlias in faults {
        return false;
      }
      nic := nic.(alias := temp);
      pod := pod[temp := nic];
      if Rename in faults || (ifName in pod && ifName != temp) {
        return false;
      }
      pod := (pod - {temp})[ifName := nic];
      if SetUp in faults {
        return false;
      }
      pod := pod[ifName := nic.(up := true)];
      return true;
    }

    method RollBack(temp: string, ifName: string, faults: set<Call>)
      modifies this
      ensures Now() == RolledBack(old(Now()), temp, ifName, faults)
    {
      if HostFind !in faults && temp in host && HostDel !in faults {
        host := host - {temp};
      }
      if EnterPod !in faults {
        if PodFindTemp !in faults && temp in pod && PodDelTemp !in faults {
          pod := pod - {temp};
        }
        if PodFindIf !in faults && ifName in pod && PodDelIf !in faults {
          pod := pod - {ifName};
        }
      }
    }

    /** Sorts the allocated addresses: IPv6 ones are reported, the last IPv4 one becomes the allowed address. */
    method ScanIps(ips: seq<Ip>) returns (allowed: Option<string>, reported: seq<string>)
      ensures allowed == LastV4(ips) && reported == SixOf(ips)
    {
      allowed, reported := None, [];
      var n := 0;
      while n < |ips|
        invariant 0 <= n <= |ips| && allowed == LastV4(ips[..n]) && reported == SixOf(ips[..n])
      {
        assert ips[..n + 1][..n] == ips[..n];
        match ips[n] {
          case V6(addr) => reported := reported + [addr];
          case V4(addr) => allowed := Some(addr);
        }
        n := n + 1;
      }
      assert ips[..n] == ips;
    }

    method Configure(ifName: string, ips: seq<Ip>, faults: set<Call>) returns (ok: bool, allowed: Option<string>, reported: seq<string>)
      ensures ok <==> Configures(Now(), ifName, ips, faults)
      ensures ok ==> allowed == LastV4(ips) && reported == SixOf(ips)
    {
      if ParseResult in faults || ips == [] || FindForConfig in faults || ifName !in pod {
        return false, None, [];
      }
      allowed, reported := ScanIps(ips);
      ok := ConfigureIface !in faults && allowed.Some? && Callback !in faults;
    }

    method WithIP(ifName: string, ips: seq<Ip>, faults: set<Call>) returns (ok: bool, allowed: Option<string>, reported: seq<string>)
      modifies this
      ensures (Now(), ok) == Addressed(old(Now()), ifName, ips, faults)
      ensures ok ==> allowed == LastV4(ips) && reported == SixOf(ips)
    {
      if ExecAdd in faults {
        return false, None, [];
      }
      leased := true;
      ok, allowed, reported := Configure(ifName, ips, faults);
      if !ok && ReleaseIp !in faults {
        leased := false;
      }
    }

    method WithWireGuardNic(a: Args, faults: set<Call>) returns (ok: bool, allowed: Option<string>, reported: seq<string>)
      modifies this
      ensures (Now(), ok) == Attempt(old(Now()), a, faults)
      ensures ok ==> allowed == LastV4(a.ips) && reported == SixOf(a.ips)
    {
      if GetNs in faults || FindExisting in faults {
        return false, None, [];
      }
      if a.ifName in pod {
        ok, allowed, reported := WithIP(a.ifName, a.ips, faults);
      } else if |a.containerId| < 8 {
        return false, None, [];
      } else {
        allowed, reported := None, [];
        ok := CreateLink(Temp(a), a.ifName, a.id, faults);
        if ok {
          ok, allowed, reported := WithIP(a.ifName, a.ips, faults);
        }
        if !ok {
          RollBack(Temp(a), a.ifName, faults);
        }
      }
    }
  }

  // ---------------------------------------------------------------- what a failure leaves

  const LINK_CLEANUP := {HostFind, HostDel, EnterPod, PodFindTemp, PodDelTemp, PodFindIf, PodDelIf}

  lemma CreateTouches(s: State, temp: string, ifName: string, id: nat, faults: set<Call>)
    ensures var created := Create(s, temp, ifName, id, faults).0;
            created.host - {temp} == s.host - {temp} && created.pod - {temp, ifName} == s.pod - {temp, ifName} && created.leased == s.leased
  {
  }

  lemma RollBackTouches(s: State, temp: string, ifName: string, faults: set<Call>)
    ensures var end := RolledBack(s, temp, ifName, faults);
            end.host - {temp} == s.host - {temp} && end.pod - {temp, ifName} == s.pod - {temp, ifName} && end.leased == s.leased
  {
  }

  /** Every failed attempt that began and could clean up leaves neither name anywhere, and every other link alone. */
  lemma FailureLeavesNothing(s: State, a: Args, faults: set<Call>)
    requires Begun(s, a, faults) && !Attempt(s, a, faults).1 && faults !! LINK_CLEANUP
    ensures Attempt(s, a, faults).0.host == s.host - {Temp(a)}
    ensures Attempt(s, a, faults).0.pod == s.pod - {Temp(a), a.ifName}
  {
    hide Temp, LastV4, Create;
    CreateTouches(s, Temp(a), a.ifName, a.id, faults);
    var created := Create(s, Temp(a), a.ifName, a.id, faults).0;
    assert created.pod - {Temp(a)} - {a.ifName} == created.pod - {Temp(a), a.ifName};
  }

  /** Each part of the cleanup is tried whatever became of the others: a name is left only where its own calls failed. */
  lemma LeftOnlyByFaults(s: State, a: Args, faults: set<Call>)
    requires Begun(s, a, faults) && !Attempt(s, a, faults).1
    ensures var end := Attempt(s, a, faults).0;
            (Temp(a) in end.host ==> HostFind in faults || HostDel in faults) &&
            (Temp(a) in end.pod ==> EnterPod in faults || PodFindTemp in faults || PodDelTemp in faults ||
                                    (Temp(a) == a.ifName && (PodFindIf in faults || PodDelIf in faults))) &&
            (a.ifName in end.pod ==> EnterPod in faults || PodFindIf in faults || PodDelIf in faults)
  {
    hide Temp, LastV4, Create;
  }

  /** The attempt got as far as having an address allocated. */
  predicate Allocates(s: State, a: Args, faults: set<Call>) {
    GetNs !in faults && FindExisting !in faults && ExecAdd !in faults &&
    (a.ifName in s.pod || (|a.containerId| >= 8 && Create(s, Temp(a), a.ifName, a.id, faults).1))
  }

  /** A failed attempt releases the address it allocated; one that allocated none leaves the pod's as it was. */
  lemma FailureReleases(s: State, a: Args, faults: set<Call>)
    requires !Attempt(s, a, faults).1 && ReleaseIp !in faults
    ensures Attempt(s, a, faults).0.leased == (s.leased && !Allocates(s, a, faults))
  {
  }

  /** Whatever fails, an interface that was there stays as it was, and only the two names are ever touched. */
  lemma OthersUntouched(s: State, a: Args, faults: set<Call>)
    ensures var end := Attempt(s, a, faults).0;
            if !Begun(s, a, faults) then end.host == s.host && end.pod == s.pod
            else end.host - {Temp(a)} == s.host - {Temp(a)} && end.pod - {Temp(a), a.ifName} == s.pod - {Temp(a), a.ifName}
  {
    hide Temp, LastV4, Create, RolledBack;
    if Begun(s, a, faults) {
      AttemptTouches(s, a, faults);
    }
  }

  lemma AttemptTouches(s: State, a: Args, faults: set<Call>)
    requires Begun(s, a, faults)
    ensures var end := Attempt(s, a, faults).0;
            end.host - {Temp(a)} == s.host - {Temp(a)} && end.pod - {Temp(a), a.ifName} == s.pod - {Temp(a), a.ifName}
  {
    hide Temp, LastV4, Create, RolledBack;
    var created := Create(s, Temp(a), a.ifName, a.id, faults).0;
    CreateTouches(s, Temp(a), a.ifName, a.id, faults);
    RollBackTouches(created, Temp(a), a.ifName, faults);
    RollBackTouches(created.(leased := true), Temp(a), a.ifName, faults);
    RollBackTouches(created.(leased := false), Temp(a), a.ifName, faults);
  }

  // ---------------------------------------------------------------- what success leaves

  const CREATION := {AddLink, FindAdded, MoveLink, FindMoved, SetDown, SetAlias, Rename, SetUp}
  const ADDRESSING := {ExecAdd, ParseResult, FindForConfig, ConfigureIface, Callback}

  /** An attempt succeeds exactly when no call it makes fails, no link holds the temporary name, and an IPv4 address came. */
  lemma SucceedsExactly(s: State, a: Args, faults: set<Call>)
    ensures Attempt(s, a, faults).1 <==>
            faults !! {GetNs, FindExisting} && faults !! ADDRESSING && LastV4(a.ips).Some? &&
            (a.ifName in s.pod || (|a.containerId| >= 8 && faults !! CREATION && Temp(a) !in s.host && Temp(a) !in s.pod))
    ensures Attempt(s, a, faults).1 ==>
            Attempt(s, a, faults).0 ==
              if a.ifName in s.pod then s.(leased := true)
              else State(s.host, s.pod[a.ifName := Nic(a.id, true, Temp(a))], true)
  {
  }

  // ---------------------------------------------------------------- links that were there before

  ghost predicate Keeps(before: map<string, Nic>, after: map<string, Nic>) {
    forall name :: name in before ==> name in after && after[name] == before[name]
  }

  /**
   * An attempt that began and could clean up keeps every link there was exactly when none held the
   * temporary name: such a link makes the attempt fail, and the rollback then takes it for its own.
   */
  lemma KeepsExactly(s: State, a: Args, faults: set<Call>)
    requires Begun(s, a, faults) && faults !! LINK_CLEANUP
    ensures Keeps(s.host, Attempt(s, a, faults).0.host) && Keeps(s.pod, Attempt(s, a, faults).0.pod) <==>
            Temp(a) !in s.host && Temp(a) !in s.pod
  {
    hide Temp, LastV4, Attempt;
    SucceedsExactly(s, a, faults);
    if !Attempt(s, a, faults).1 {
      FailureLeavesNothing(s, a, faults);
    }
  }

  /** A stale link under the temporary name costs one attempt: the next one, if nothing fails, succeeds. */
  lemma RetrySucceeds(s: State, a: Args, faults: set<Call>)
    requires Begun(s, a, faults) && faults !! LINK_CLEANUP && !Attempt(s, a, faults).1
    requires LastV4(a.ips).Some?
    ensures var again := Attempt(Attempt(s, a, faults).0, a, {});
            again.1 && again.0.pod == (s.pod - {Temp(a), a.ifName})[a.ifName := Nic(a.id, true, Temp(a))] && again.0.host == s.host - {Temp(a)}
  {
    hide Temp, LastV4, Attempt;
    FailureLeavesNothing(s, a, faults);
    SucceedsExactly(Attempt(s, a, faults).0, a, {});
  }

  const STALE := State(map["wg12345678" := Nic(7, true, "")], map[], false)
  const POD := Args("12345678", "wg0", 8, [V4("10.0.0.4")])

  /** A link left under the temporary name by someone else is gone after an attempt in which no call fails. */
  lemma StaleLinkTaken()
    ensures "wg12345678" in STALE.host && "wg12345678" !in Attempt(STALE, POD, {}).0.host
    ensures !Keeps(STALE.host, Attempt(STALE, POD, {}).0.host)
  {
    assert POD.containerId[..8] == "12345678" && Temp(POD) == "wg12345678";
    KeepsExactly(STALE, POD, {});
    SucceedsExactly(STALE, POD, {});
    FailureLeavesNothing(STALE, POD, {});
  }

  // ---------------------------------------------------------------- which addresses

  /** The allowed address is the last IPv4 one listed, if there is any. */
  lemma {:induction false} AllowedIs(ips: seq<Ip>, i: nat)
    requires i < |ips| && ips[i].V4? && forall j :: i < j < |ips| ==> !ips[j].V4?
    ensures LastV4(ips) == Some(ips[i].addr)
    decreases |ips|
  {
    if i < |ips| - 1 {
      AllowedIs(ips[..|ips| - 1], i);
    }
  }

  lemma {:induction false} NoneAllowed(ips: seq<Ip>)
    ensures LastV4(ips).None? <==> forall i :: 0 <= i < |ips| ==> !ips[i].V4?
  {
    if ips != [] {
      NoneAllowed(ips[..|ips| - 1]);
    }
  }

  /** The reported addresses are the IPv6 ones, each once and in the order listed: `at` says where. */
  lemma {:induction false} ReportedAre(ips: seq<Ip>) returns (at: seq<nat>)
    ensures |at| == |SixOf(ips)| && forall k, n :: 0 <= k < n < |at| ==> at[k] < at[n]
    ensures forall k :: 0 <= k < |at| ==> at[k] < |ips| && ips[at[k]] == V6(SixOf(ips)[k])
    ensures forall i :: 0 <= i < |ips| && ips[i].V6? ==> i in at
  {
    if ips == [] {
      at := [];
    } else {
      var last := |ips| - 1;
      var init := ReportedAre(ips[..last]);
      at := if ips[last].V6? then init + [last] else init;
      forall i | 0 <= i < |ips| && ips[i].V6?
        ensures i in at
      {
        assert i < last ==> ips[..last][i] == ips[i] && i in init;
        assert i == last ==> at[|at| - 1] == i;
      }
    }
  }
}
