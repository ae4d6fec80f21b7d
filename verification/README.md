# kube-egress-gateway: a verified model

Models, in Dafny, of the stateful core of kube-egress-gateway, with proofs about whole runs of it.
`dafny verify dfyconfig.toml` checks everything.

The controllers of this system share mutable state that none of them owns alone: one Azure load
balancer, the IP configurations of a scale set's network interfaces, the NAT table, WireGuard peers
and routes of a gateway namespace, a status object, and the routes of a pod. Each file pair models
one of these. The first file holds the state, the source's operations as methods with the source's
loops, and the functions those methods are proved against. The `Runs` (or `Lookup`) file beside it
proves what every sequence of operations keeps.

| files | what they model |
|---|---|
| `LoadBalancer`, `LoadBalancerRuns`, `GatewayPorts` | installing and removing a configuration's rule, probe, frontend and backend on the shared load balancer; the port allocator; from ports to links and marks |
| `VmssNic`, `VmssNicRuns` | attaching and detaching managed IP configurations, and the backend pool on the primary one |
| `VmProfiles` | the VM profile list and the private IPs a scale-set reconcile returns |
| `Lifecycle`, `LifecycleRuns`, `LifecycleProgress` | the three manager controllers as one interleaved state machine over the API server, the load balancer, the interfaces and the managed prefixes: what every interleaving keeps, and what can always still be done |
| `LinkNames`, `IpTables`, `IpTablesRuns`, `GatewayNat`, `GatewayNatRuns` | the gateway namespace's NAT chains and what they do to a connection |
| `WireguardPeers`, `WireguardPeersRuns` | peers, allowed networks and routes of the gateway namespace, and their cleanup |
| `GatewayStatus`, `GatewayStatusRuns` | the status object two daemon controllers edit |
| `PodRoutes`, `PodRoutesLookup` | the pod's route table and longest-prefix match on it (section 5.1 of RFC 4632, section 5.2.4.3 of RFC 1812) |
| `WireguardNic` | creating a pod's interface, with compensation at every failure point |
| `Common` | options and results, case-insensitive names, list edits |

## Main results

1. No interface ever lists a backend pool the load balancer does not have, in any interleaving of
   the controllers, users and scaling (`MembershipHasBackend`).
2. Once a gateway configuration is gone, everything created for it is gone, in the API server and in
   Azure (`GoneLeavesNothing`).
3. A managed prefix outlives every IP configuration that draws on it (`PrefixOutlivesUse`).
4. From every reachable state of that system a gateway can be served, with its secret, objects, rule,
   prefix and an IP configuration on every instance (`CanServe`), and can be removed (`CanRemove`),
   whatever each controller was doing. A VM reconcile at its end has equipped every instance as the
   egress asks (`DoneServes`).
5. The load balancer is exactly the image of the configurations a run leaves installed, and exists iff
   there is one (`RunImage`); with pools changing, every rule keeps its port and everything it uses
   until it is itself replaced (`RunServes`). A reconcile succeeds exactly under stated conditions
   (`SucceedsExactly`), and the address and port it answers are the ones forwarded (`InstallAnswers`).
6. Every managed IP configuration is as its last attach asked, in the primary subnet (`RunEntries`).
   Detaching everything returns the interfaces to what they were (`RunRestores`), and the answer of a
   reconcile is true iff something changed (`ReportsChange`, no precondition on the interfaces).
7. A connection is source-NATed to an address iff it enters on the link of a gateway with that
   current address and leaves on `host0` (`NatExactly`). After any run the address is known exactly,
   wherever each operation stopped (`RunNat`): the latest one after a complete configuration, none
   from the first call of a teardown on.
8. Every IPv4 destination of a pod leaves on the link the policy says, for any overlapping CIDRs
   (`GatewayPolicy`, `AzurePolicy`), by exactly one next hop (`GatewayNextHop`, `AzureNextHop`), and the
   links are known exactly wherever the writes stop (`GatewayDeleting`, `GatewayHostOnly`,
   `GatewayWriting`).
9. With enough calls a cleanup leaves on each gateway's link exactly the peers that listed endpoints of
   that gateway's namespace and name claim (`CleanUpExact`). A pod's peer and route survive every run
   that leaves the pod alone (`PodStays`).
10. The status object always says exactly what the committed edits amount to (`RunReflects`).
11. A failed interface creation leaves nothing behind (`FailureLeavesNothing`, `FailureReleases`).

Four natural claims are false of the code. Each has concrete instances and an exact condition:

- "Every allowed network of every peer is routed on its link." It fails when an address is reused on a
  second link while a stale peer holds it (`AddressReused`), when a reconcile stops between peer and
  route (`RouteMissing`), when a cleanup stops between routes and peers (`CleanupStops`), and when a
  removed peer's wider network shares its base address with a kept one (`LengthIgnored`; pods
  themselves are given /32 networks, pkg/cni/wireguard/nic.go line 173). Every run
  of a list of operations keeps every peer routed iff each operation is safe in every state the earlier
  ones can leave (`RunCoveredExactly`); safety is judged before the operation, from the peers, routes
  and calls it will get (`ReconcileCovers`, `CleanCovers`).
- "A cleanup never deletes a claimed peer's route." It fails for wider networks (`LengthIgnored`). Of
  each claimed peer on a finished link it holds iff none of its networks shares its base address with
  a removed peer's (`KeptCovers`); distinct single hosts never do (`HostsApart`).
- "Wherever gateway programming of a pod stops, nothing else leaks on eth0." It fails while the old
  routes are being deleted (`DeletionLeaks`) and holds iff no old route left reaches another address
  (`GatewayFailsClosed`), so always once they are gone.
- "A failed interface creation never removes a link that was there." It fails for a link that already
  has the temporary name (`StaleLinkTaken`); it holds iff there is none (`KeepsExactly`).

## Assumptions

- When a run starts, rule and probe names are unique, rules have a frontend and probes have properties;
  all of it then stays so. Likewise every primary IP configuration has a subnet. The code dereferences
  these; without them a reconcile ends in a `Crash`, and `SoundNeverCrashes` and `ShapeReadable` show
  that no run gets there. IDs of load balancer sub-resources are represented by their names, as the
  code builds one from the other.
- Azure gives a new frontend a non-empty address. A write may be refused, succeed, or succeed with the
  answer lost.
- Names compare case-insensitively on ASCII. In the lifecycle model UIDs and pool IDs are lower case.
- `RunImage` and the lifecycle results are for configurations that keep their pool; `RunSound` and
  `RunServes` are not. Node pools are scale sets, and a pool has one spelling.
- A prefix a user brings is not a managed one. Objects the controllers create are created by nothing
  else, carry no other finalizer, and `CreateOrPatch` is one step.
- Each controller has one worker and reads current objects; steps of different controllers interleave,
  and any of them may stop after any step.
- A new instance starts with the interfaces of its scale set's template.
- Kubernetes namespaces and names hold no slash.
- In the gateway namespace the two built-in NAT chains hold only what the daemon puts there, and the
  filter of a connection mark is the connection's mark. A pod's main route table holds only routes
  through eth0 when its interface is configured, and its default route has an IPv4 next hop.
- A peer cleanup is one step for the device and routes, as it shares its worker with peer reconciles;
  links may come and go between steps.
- The callback that configures a pod's interface leaves links alone, and the IPAM plugin holds no
  address after a failed allocation.

## Model

| member | source | states |
|---|---|---|
| LoadBalancer.LeastFree | controllers/manager/gatewaylbconfiguration_controller.go:721-726 | the port is in range, unused, and every lower one is used; failure means the whole range is used |
| LoadBalancer.SelectPortForLBRule | controllers/manager/gatewaylbconfiguration_controller.go:709-727 | the boolean-array loop returns the least port unused in the target's backend pool, ignoring other pools, or the invalid-port or exhaustion error |
| LoadBalancer.PortAvailable | controllers/manager/gatewaylbconfiguration_controller.go:709-727 | by pigeonhole a pool with fewer than 1000 rules always gets a port |
| LoadBalancer.FindFrontendIpLoop | controllers/manager/gatewaylbconfiguration_controller.go:579-596 | the address of the first frontend of that name, none, or an error for a malformed one |
| LoadBalancer.FindBackend | controllers/manager/gatewaylbconfiguration_controller.go:413-422 | true iff the pool's backend is listed |
| LoadBalancer.EnsureRule | controllers/manager/gatewaylbconfiguration_controller.go:435-467 | keeps a matching rule with its port, otherwise drops a stale one and appends a rule on the least free port |
| LoadBalancer.EnsureProbe | controllers/manager/gatewaylbconfiguration_controller.go:486-513 | the configuration's probe is kept, replaced or appended; the loop crashes iff that probe has no properties |
| LoadBalancer.DropRules | controllers/manager/gatewaylbconfiguration_controller.go:469-484 | the backward in-place loop drops exactly the configuration's rules and counts zero iff no other rule uses the frontend; it crashes iff a kept rule has none |
| LoadBalancer.DropFirst | controllers/manager/gatewaylbconfiguration_controller.go:514-546 | the removal loops of probes, frontends and backends drop the first match and report whether there was one |
| LoadBalancer.GatewayLb.CreateOrUpdateLB | controllers/manager/gatewaylbconfiguration_controller.go:558-564 | a write is refused, done, or done with its answer lost |
| LoadBalancer.GatewayLb.InstallRule | controllers/manager/gatewaylbconfiguration_controller.go:393-513 | the wanted half of a reconcile: resulting load balancer, whether it was written, address and port or error; `InstallAnswers` says what these are |
| LoadBalancer.GatewayLb.UninstallRule | controllers/manager/gatewaylbconfiguration_controller.go:468-564 | the removal half, including deletion of the frontend and backend with the last rule and of the load balancer with the last frontend |
| LoadBalancer.GatewayLb.ReconcileLBRule | controllers/manager/gatewaylbconfiguration_controller.go:339-577 | the whole reconcile computes `Reconcile`, about which `InstallAnswers`, `SucceedsExactly` and the run results below are proved |
| LoadBalancerRuns.SoundNeverCrashes | controllers/manager/gatewaylbconfiguration_controller.go:469-513 | on every sound load balancer no install or removal, of any configuration and whatever Azure answers, dereferences a missing property |
| LoadBalancerRuns.InstallAnswers | controllers/manager/gatewaylbconfiguration_controller.go:393-577 | whatever the load balancer held, a successful install answers a non-empty address and a port that it forwards: a UDP floating-IP rule of that port, the pool's frontend with that address, its backend, and the gateway's probe |
| LoadBalancerRuns.SoundAnswers | controllers/manager/gatewaylbconfiguration_controller.go:441-466 | on a sound load balancer the answered port is the one the configuration's rule holds in its pool |
| LoadBalancerRuns.RoomExactly | controllers/manager/gatewaylbconfiguration_controller.go:709-727 | a pool has a port left iff it has fewer than a thousand rules |
| LoadBalancerRuns.ClearedExactly | controllers/manager/gatewaylbconfiguration_controller.go:468-556 | a removal changes nothing iff no rule or probe has the configuration's name and the pool is in use elsewhere or absent |
| LoadBalancerRuns.SucceedsExactly | controllers/manager/gatewaylbconfiguration_controller.go:339-577 | a reconcile succeeds iff Azure is readable, the pool known, its frontend readable or its subnet there, a port is left or held, and nothing is left to write or the write is done; it reaches Azure iff the write is not rejected |
| LoadBalancerRuns.InstalledSound | controllers/manager/gatewaylbconfiguration_controller.go:393-513 | installing keeps names unique, ports distinct per pool, and every rule's frontend, backend and probe present; it adds exactly the configuration's names |
| LoadBalancerRuns.UninstalledSound | controllers/manager/gatewaylbconfiguration_controller.go:469-546 | although only frontends are counted, the backend that goes is unused too |
| LoadBalancerRuns.StepSound | controllers/manager/gatewaylbconfiguration_controller.go:339-577 | every reconcile, of any outcome, keeps the load balancer sound, pools changing freely |
| LoadBalancerRuns.RunSound | controllers/manager/gatewaylbconfiguration_controller.go:339-577 | so does every run: ports of a pool are distinct, in range and equal on both sides, and nothing a rule refers to is missing |
| LoadBalancerRuns.StepServes | controllers/manager/gatewaylbconfiguration_controller.go:527-556 | a reconcile of another configuration leaves a rule, its port, and the load balancer, frontend, backend and probe it uses |
| LoadBalancerRuns.RunServes | controllers/manager/gatewaylbconfiguration_controller.go:435-484 | a rule and its port stay through every run that neither deletes the configuration nor moves it to another pool |
| LoadBalancerRuns.StepImage | controllers/manager/gatewaylbconfiguration_controller.go:339-577 | with fixed pools each reconcile adds or removes exactly its configuration in the image |
| LoadBalancerRuns.RunImage | controllers/manager/gatewaylbconfiguration_controller.go:339-577 | every reachable load balancer is the exact image of its configurations, which are those whose last effective event in the run was an install; it exists iff there is one |
| LoadBalancerRuns.InstallAgain | controllers/manager/gatewaylbconfiguration_controller.go:389-513 | repeating a successful install writes nothing and returns the same address and port |
| LoadBalancerRuns.UninstallAgain | controllers/manager/gatewaylbconfiguration_controller.go:468-564 | repeating a successful removal writes nothing |
| GatewayPorts.LinksApart | controllers/daemon/staticgatewayconfiguration_controller.go:1133-1143 | after any load balancer run, two configurations of a pool have different links and marks, and the mark is the port |
| VmssNic.ExpectedIpConfig | controllers/manager/gatewayvmconfiguration_controller.go:821-859 | the wanted IP configuration, with the subnet of the last primary one; the loop crashes iff a primary one has no subnet; `ExpectedIs` says what it holds |
| VmssNic.ReconcileLbBackendPool | controllers/manager/gatewayvmconfiguration_controller.go:780-819 | the pool is added to, kept on or removed from the first primary IP configuration, or an error |
| VmssNic.EditNic | controllers/manager/gatewayvmconfiguration_controller.go:741-759 | the inner loop keeps or drops the first IP configuration of the name |
| VmssNic.ScanInterfaces | controllers/manager/gatewayvmconfiguration_controller.go:738-761 | the outer loop edits every primary interface in place and finds the last one |
| VmssNic.ReconcileNetworkInterface | controllers/manager/gatewayvmconfiguration_controller.go:724-778 | the whole in-place reconcile of an interface array, result and error included |
| VmssNicRuns.ExpectedIs | controllers/manager/gatewayvmconfiguration_controller.go:821-859 | the wanted configuration is a secondary IPv4 one in the subnet of the last primary IP configuration on a primary interface, with a public address from the prefix iff one is given |
| VmssNicRuns.Attaches | controllers/manager/gatewayvmconfiguration_controller.go:724-778 | a successful attach, to any interfaces, leaves a primary interface with such a configuration |
| VmssNicRuns.BasePrimary | controllers/manager/gatewayvmconfiguration_controller.go:826-835 | interfaces no gateway has touched have a last primary IP configuration, so the results on its subnet apply |
| VmssNicRuns.RunEntries | controllers/manager/gatewayvmconfiguration_controller.go:724-859 | in every run, every managed configuration has the prefix of its last attach and the primary subnet, and every name last attached has one |
| VmssNicRuns.ReportsChange | controllers/manager/gatewayvmconfiguration_controller.go:733-777 | for all interfaces, true is returned iff the interfaces changed |
| VmssNicRuns.ReconcileShape | controllers/manager/gatewayvmconfiguration_controller.go:724-819 | on the base interfaces plus any managed list, one attach or detach updates exactly that list and reports whether it did |
| VmssNicRuns.RunShape | controllers/manager/gatewayvmconfiguration_controller.go:724-819 | every reachable set of interfaces is the base plus the managed list its run calls for |
| VmssNicRuns.ManagedNames | controllers/manager/gatewayvmconfiguration_controller.go:738-769 | a name is absent from that list iff the run's last word on it is a detach |
| VmssNicRuns.RunRestores | controllers/manager/gatewayvmconfiguration_controller.go:724-819 | once all are detached the interfaces equal the original ones |
| VmssNicRuns.ShapeListsPool | controllers/manager/gatewayvmconfiguration_controller.go:788-815 | the backend pool is on the primary IP configuration iff a managed one remains |
| VmssNicRuns.ShapeForeign | controllers/manager/gatewayvmconfiguration_controller.go:738-761 | foreign IP configurations stay, in order, up to the primary one's pools |
| VmssNicRuns.ShapeReadable | controllers/manager/gatewayvmconfiguration_controller.go:826-835 | no run of reconciles takes away a subnet the next one dereferences |
| VmssNicRuns.ShapeManaged | controllers/manager/gatewayvmconfiguration_controller.go:788-794 | a managed name on a primary interface comes from the managed list |
| VmssNicRuns.ReconcileAgain | controllers/manager/gatewayvmconfiguration_controller.go:733-777 | after any run, repeating the last reconcile changes nothing and says so |
| VmProfiles.ScanConfigs | controllers/manager/gatewayvmconfiguration_controller.go:628-634 | the address loop over an interface's IP configurations |
| VmProfiles.Look | controllers/manager/gatewayvmconfiguration_controller.go:615-637 | the loop over interfaces, as a first look that stops at an unreadable one and as a second look that fails on it |
| VmProfiles.GatewayVmConfig.Upsert | controllers/manager/gatewayvmconfiguration_controller.go:697-721 | the node's profile is updated in place or appended |
| VmProfiles.GatewayVmConfig.ReconcileVm | controllers/manager/gatewayvmconfiguration_controller.go:583-722 | writes the instance iff its interfaces must change, it failed or a wanted address does not show; succeeds iff the instance's outcome does, and then upserts exactly its profile |
| VmProfiles.GatewayVmConfig.Prune | controllers/manager/gatewayvmconfiguration_controller.go:560-573 | the nested loops keep exactly the profiles of current instances, in order |
| VmProfiles.GatewayVmConfig.ReconcileVmss | controllers/manager/gatewayvmconfiguration_controller.go:545-580 | succeeds iff every instance does and the status is saved; then profiles and private IPs are as specified |
| VmProfiles.ScanSecondary | controllers/manager/gatewayvmconfiguration_controller.go:629-632 | the secondary address is that of the last configuration with the gateway's name |
| VmProfiles.ScanPrimary | controllers/manager/gatewayvmconfiguration_controller.go:632-635 | the primary address is that of the last other primary configuration |
| VmProfiles.ScanMissing | controllers/manager/gatewayvmconfiguration_controller.go:635-641 | without such a configuration there is no such address |
| VmProfiles.LooksScan | controllers/manager/gatewayvmconfiguration_controller.go:615-637 | both looks scan the IP configurations of all interfaces up to an unreadable one; the second fails iff there is one |
| VmProfiles.ReadsCurrent | controllers/manager/gatewayvmconfiguration_controller.go:644-695 | exactly when an instance's reconcile succeeds, from its interfaces, its failed flag and what they read; its profile then holds the addresses read after the last write, neither empty |
| VmProfiles.UpsertedAllMembers | controllers/manager/gatewayvmconfiguration_controller.go:552-560 | after the instances each has its profile and any other profile is an old one of no instance |
| VmProfiles.ProfilesExact | controllers/manager/gatewayvmconfiguration_controller.go:545-580 | a successful wanted reconcile leaves exactly one profile per instance and none else; private IPs are the secondary ones in instance order iff no prefix is used |
| VmProfiles.RunDistinct | controllers/manager/gatewayvmconfiguration_controller.go:560-580 | however instances come and go and reconciles fail, no node has two profiles |
| VmProfiles.RunExact | controllers/manager/gatewayvmconfiguration_controller.go:545-580 | any run ending in a successful wanted reconcile leaves exactly the current instances' profiles |
| LifecycleRuns.InitialInv | controllers/manager/staticgatewayconfiguration_controller.go:125-253 | the empty cluster satisfies the joint invariant |
| LifecycleRuns.SgcAddInv | controllers/manager/staticgatewayconfiguration_controller.go:147-155 | adding the gateway's finalizer keeps the invariant |
| LifecycleRuns.SgcSecretInv | controllers/manager/staticgatewayconfiguration_controller.go:157-164 | so does creating its secret |
| LifecycleRuns.SgcCreateInv | controllers/manager/staticgatewayconfiguration_controller.go:368-398 | so does creating or patching its load balancer configuration |
| LifecycleRuns.SgcDropInv | controllers/manager/staticgatewayconfiguration_controller.go:207-239 | so do deleting the secret and the load balancer configuration, noting which was not found |
| LifecycleRuns.SgcRemoveInv | controllers/manager/staticgatewayconfiguration_controller.go:241-248 | so does dropping the finalizer once both were not found |
| LifecycleRuns.LbAddInv | controllers/manager/gatewaylbconfiguration_controller.go:128-136 | adding the load balancer configuration's finalizer keeps the invariant |
| LifecycleRuns.LbRuleInv | controllers/manager/gatewaylbconfiguration_controller.go:141-146 | so does reconciling its rule, whatever Azure answers |
| LifecycleRuns.LbCreateInv | controllers/manager/gatewaylbconfiguration_controller.go:148-152 | so does creating or patching the VM configuration |
| LifecycleRuns.LbDropVmcInv | controllers/manager/gatewaylbconfiguration_controller.go:194-209 | so does deleting the VM configuration, continuing only when it was not found |
| LifecycleRuns.LbRemoveInv | controllers/manager/gatewaylbconfiguration_controller.go:218-223 | so does dropping the finalizer after the rule is gone |
| LifecycleRuns.VmFetchInv | controllers/manager/gatewayvmconfiguration_controller.go:67-144 | picking up a VM configuration, live or being deleted, keeps the invariant |
| LifecycleRuns.ListedAre | controllers/manager/gatewayvmconfiguration_controller.go:82-101 | a listing holds exactly the VM configurations that are not being deleted, as they are |
| LifecycleRuns.VmAddInv | controllers/manager/gatewayvmconfiguration_controller.go:217-225 | so does adding its finalizer |
| LifecycleRuns.VmPrefixInv | controllers/manager/gatewayvmconfiguration_controller.go:390-461 | so does ensuring the public prefix: none, the user's, or a managed one |
| LifecycleRuns.VmTemplateInv | controllers/manager/gatewayvmconfiguration_controller.go:523-543 | so does reconciling the scale set's template |
| LifecycleRuns.VmInstanceInv | controllers/manager/gatewayvmconfiguration_controller.go:551-555 | so does reconciling one instance |
| LifecycleRuns.VmDropPrefixInv | controllers/manager/gatewayvmconfiguration_controller.go:463-504 | so does deleting the managed prefix after the interfaces let go of it |
| LifecycleRuns.VmRemoveInv | controllers/manager/gatewayvmconfiguration_controller.go:314-319 | so does dropping the finalizer last |
| LifecycleRuns.StepInv | controllers/manager/gatewayvmconfiguration_controller.go:200-319 | every step of every controller, user edit, deletion and scaling keeps the invariant |
| LifecycleRuns.RunInv | controllers/manager/gatewaylbconfiguration_controller.go:111-228 | so does every run |
| LifecycleRuns.RootLive | controllers/manager/staticgatewayconfiguration_controller.go:207-248 | an object that exists has its gateway configuration still existing |
| LifecycleRuns.MembershipHasBackend | controllers/manager/gatewaylbconfiguration_controller.go:141-216 | in every run, an interface that lists a backend pool implies the load balancer has that backend |
| LifecycleRuns.GoneLeavesNothing | controllers/manager/staticgatewayconfiguration_controller.go:185-253 | in every run, once a gateway configuration is gone so are its secret, both child objects, rule, probe, IP configurations and managed prefix |
| LifecycleRuns.PrefixOutlivesUse | controllers/manager/gatewayvmconfiguration_controller.go:236-253 | in every run, a managed prefix an attached IP configuration refers to exists, also across switches of egress kind |
| LifecycleProgress.LbcFollows | controllers/manager/staticgatewayconfiguration_controller.go:368-398 | after a create step the load balancer configuration has its gateway's pool and egress, and no other object changed |
| LifecycleProgress.VmcFollows | controllers/manager/gatewaylbconfiguration_controller.go:729-762 | after a create step the VM configuration has its parent's pool and egress, and no other object changed |
| LifecycleProgress.DoneServes | controllers/manager/gatewayvmconfiguration_controller.go:236-262 | in every run, when a VM reconcile has been to all instances, the scale set's model and every instance have the IP configuration its egress asks for, in the primary subnet, and a managed prefix exists |
| LifecycleProgress.RuleGoes | controllers/manager/gatewaylbconfiguration_controller.go:141-146 | in every reachable state a rule reconcile under calm answers succeeds if there is room, and a removal always does |
| LifecycleProgress.CanServe | controllers/manager/gatewayvmconfiguration_controller.go:200-274 | from every reachable state there is a continuation after which a gateway of which nothing is being deleted, whose egress and scale set are there and for which a port is left, has its secret, objects, rule, managed prefix iff wanted, and an IP configuration on its model and every instance |
| LifecycleProgress.CanRemove | controllers/manager/staticgatewayconfiguration_controller.go:185-253 | from every reachable state there is a continuation after which the gateway is gone, if a finalized VM configuration's scale set exists |
| LinkNames.AtoiOfPrint | controllers/daemon/staticgatewayconfiguration_controller.go:1133-1143 | printing and parsing an int64 round-trips |
| LinkNames.MarkIsPort | controllers/daemon/staticgatewayconfiguration_controller.go:1133-1143 | the mark parsed from a gateway's link name is its port |
| LinkNames.PrintInjective | controllers/daemon/staticgatewayconfiguration_controller.go:1133-1135 | different ports print differently |
| IpTables.NatTable.RestoreTable | pkg/iptableswrapper/fake_iptables.go:96-157 | a restore yields the staged, jump-closed table, or fails and leaves the table unchanged; it fails iff a jump would dangle |
| IpTables.NatTable.EnsureChain | controllers/daemon/staticgatewayconfiguration_controller.go:981-985 | the chain exists afterwards, others unchanged |
| IpTables.NatTable.EnsureRule | controllers/daemon/staticgatewayconfiguration_controller.go:987-991 | the rule is there afterwards, prepended if it was not |
| IpTables.NatTable.DeleteRule | controllers/daemon/staticgatewayconfiguration_controller.go:1033-1037 | the first occurrence of the rule is gone |
| IpTables.NatTable.EnsureIPTablesChain | controllers/daemon/staticgatewayconfiguration_controller.go:971-1010 | chain, jump, then rules; exact table at every failure point |
| IpTables.NatTable.RemoveChain | controllers/daemon/staticgatewayconfiguration_controller.go:1031-1046 | jump first, then chain; exact table at every failure point |
| IpTables.NatTable.RemoveIPTablesChains | controllers/daemon/staticgatewayconfiguration_controller.go:1012-1049 | the loop over the chains that existed at the start, stopping at the first failure |
| IpTablesRuns.EnsureClosed | controllers/daemon/staticgatewayconfiguration_controller.go:971-1010 | ensuring keeps every jump's target present wherever it stops |
| IpTablesRuns.RemoveClosed | controllers/daemon/staticgatewayconfiguration_controller.go:1012-1049 | so does removing |
| IpTablesRuns.EnsureTwice | controllers/daemon/staticgatewayconfiguration_controller.go:971-1010 | ensuring is idempotent |
| IpTablesRuns.EnsureThenRemove | controllers/daemon/staticgatewayconfiguration_controller.go:971-1049 | ensuring a fresh chain and removing it restores the table |
| IpTablesRuns.EnsureSingle | controllers/daemon/staticgatewayconfiguration_controller.go:987-991 | ensuring never makes a second jump to a managed chain |
| IpTablesRuns.RemoveSingle | controllers/daemon/staticgatewayconfiguration_controller.go:1012-1049 | neither does removing |
| IpTablesRuns.RunClosed | controllers/daemon/staticgatewayconfiguration_controller.go:971-1049 | every run of both, stopping anywhere, keeps the table jump-closed with at most one jump per managed chain |
| GatewayNat.ConfigureNat | controllers/daemon/staticgatewayconfiguration_controller.go:630-669 | a gateway's two chains, named by the mark parsed from its link, in full or up to a failure |
| GatewayNat.TearDownNat | controllers/daemon/staticgatewayconfiguration_controller.go:326-357 | their removal, given only the link's name: the exact table, and success iff both removals completed |
| GatewayNatRuns.ConfigureStep | controllers/daemon/staticgatewayconfiguration_controller.go:630-669 | configuring a gateway, stopping after any number of calls, keeps the table's shape, leaves the other gateways' chains and jumps alone, and brings its own exactly as far as its calls reach |
| GatewayNatRuns.TearDownStep | controllers/daemon/staticgatewayconfiguration_controller.go:326-357 | tearing down likewise, each jump before its chain and marking before source NAT |
| GatewayNatRuns.EvalMark | controllers/daemon/staticgatewayconfiguration_controller.go:644-655 | evaluating PREROUTING marks a connection with the port of the one gateway link it entered on, or not at all |
| GatewayNatRuns.EvalSnat | controllers/daemon/staticgatewayconfiguration_controller.go:656-667 | evaluating POSTROUTING gives an address iff the marked port's chain holds it and the connection leaves on host0 |
| GatewayNatRuns.NatExactly | controllers/daemon/staticgatewayconfiguration_controller.go:630-669 | on every reachable table a connection is source-NATed to an address iff it enters on a marked gateway's link, leaves on host0 and that gateway NATs to it |
| GatewayNatRuns.RunReachable | controllers/daemon/staticgatewayconfiguration_controller.go:971-1049 | every run keeps the shape, and each gateway's two chains and jumps are exactly what its operations, each stopping where it did, add up to |
| GatewayNatRuns.RunGiven | controllers/daemon/staticgatewayconfiguration_controller.go:656-667 | in every run a gateway's chain holds only an address it was configured with since its last full teardown |
| GatewayNatRuns.RunNat | controllers/daemon/staticgatewayconfiguration_controller.go:630-669 | after any run, a connection gets exactly the address its gateway's operations add up to: the latest one if configured, none from the first call of a teardown on, otherwise at most one given since its last full teardown; no other interface's are NATed |
| Prefixes.ContainsRange | pkg/cni/routes/routes.go:130-133 | a parsed CIDR contains exactly the addresses of its block |
| PodRoutes.PodNamespace.FindDefault | pkg/cni/routes/routes.go:68-77 | the last IPv4 default route listed, written with or without a destination |
| PodRoutes.PodNamespace.DeleteAll | pkg/cni/routes/routes.go:100-104 | every listed route is deleted in order, up to a failure |
| PodRoutes.PodNamespace.Prepare | pkg/cni/routes/routes.go:95-127 | deletions, the next hop's host route, the tunnel default, in that order, up to a failure |
| PodRoutes.PodNamespace.AddExceptions | pkg/cni/routes/routes.go:129-150 | exceptions are routed in order until one fails or does not parse, and reported |
| PodRoutes.PodNamespace.SetPodRoutes | pkg/cni/routes/routes.go:46-150 | the table is the planned writes cut at the first failure; success iff all is read, parsed and written; the report is exact |
| PodRoutesLookup.BestUnique | pkg/cni/routes/routes.go:129-150 | longest prefix then lowest metric picks at most one route |
| PodRoutesLookup.GatewayPolicy | pkg/cni/routes/routes.go:95-150 | by default to the gateway, an address leaves on eth0 iff it is the old next hop or in an exception or excluded CIDR, and on the tunnel iff not |
| PodRoutesLookup.GatewayFailsClosed | pkg/cni/routes/routes.go:95-150 | stopping after any number of writes, only the next hop and the excepted addresses leave on eth0 iff no old route left reaches another address |
| PodRoutesLookup.GatewayDeleting | pkg/cni/routes/routes.go:100-104 | stopping among the deletions, an address leaves on eth0 iff an undeleted old route contains it, and none leaves on the tunnel |
| PodRoutesLookup.GatewayHostOnly | pkg/cni/routes/routes.go:105-117 | stopping after the next hop's route, only the next hop is reached |
| PodRoutesLookup.GatewayWriting | pkg/cni/routes/routes.go:118-150 | stopping among the exceptions, the policy holds of those written so far |
| PodRoutesLookup.GatewayRoutesClosed | pkg/cni/routes/routes.go:105-150 | wherever programming stops after the deletions, every eth0 route is the next hop's or an exception's |
| PodRoutesLookup.DeletionLeaks | pkg/cni/routes/routes.go:100-104 | when the first deletion fails the old default route takes every address out on eth0 |
| PodRoutesLookup.GatewayReported | pkg/cni/routes/routes.go:105-150 | the CNI result names exactly the destinations in the table, and the last report of each has its next hop |
| PodRoutesLookup.AzurePolicy | pkg/cni/routes/routes.go:129-150 | by default to Azure, the tunnel is used iff some exception containing the address is at least as long as every old route containing it; otherwise the old routes still decide |
| PodRoutesLookup.DefaultIs | pkg/cni/routes/routes.go:66-75 | the next hop kept is that of the last IPv4 default route listed |
| PodRoutesLookup.NoDefault | pkg/cni/routes/routes.go:66-78 | no default route is found iff none is listed |
| PodRoutesLookup.GatewayHops | pkg/cni/routes/routes.go:95-150 | the whole table by default to the gateway: listed networks through the old next hop, the next hop direct, the rest through the tunnel; no IPv6 route is left |
| PodRoutesLookup.GatewayNextHop | pkg/cni/routes/routes.go:95-150 | so every address has exactly one next hop: the old one for listed networks, direct for the old next hop unless its own /32 is listed, the tunnel for the rest |
| PodRoutesLookup.AzureHops | pkg/cni/routes/routes.go:129-150 | the whole table by default to Azure: exceptions through the tunnel, every other route as it was |
| PodRoutesLookup.AzureNextHop | pkg/cni/routes/routes.go:129-150 | an excepted address goes through the tunnel, every other one exactly where it went before |
| PodRoutesLookup.AzureReported | pkg/cni/routes/routes.go:129-150 | earlier reports stay, and the new ones name exactly the exceptions, with their next hop |
| WireguardPeers.GatewayLinks | controllers/daemon/podendpoint_controller.go:200-207 | the link per gateway identity, the last live gateway on this node counting; `ClaimedExactly` says which gateways share one |
| WireguardPeers.BuildClaims | controllers/daemon/podendpoint_controller.go:200-219 | the links of the serving gateways, and per link exactly the keys of the listed endpoints of its gateway's namespace and name |
| WireguardPeers.GatewayNamespace.ReconcilePeer | controllers/daemon/podendpoint_controller.go:132-166 | peer, then route; exact state at every failure point |
| WireguardPeers.GatewayNamespace.DeleteRoutes | controllers/daemon/podendpoint_controller.go:324-348 | with calls for all, exactly the link's routes to the given addresses go and the calls left are returned; otherwise it fails and as many of them are gone as there were calls |
| WireguardPeers.GatewayNamespace.FindDead | controllers/daemon/podendpoint_controller.go:264-277 | the unclaimed peers and the addresses of their networks |
| WireguardPeers.GatewayNamespace.CleanUpWgLink | controllers/daemon/podendpoint_controller.go:237-296 | succeeds iff the calls suffice, and then exactly the unclaimed peers and their routes go, and are returned; otherwise no peer goes and as many of their routes as calls allow |
| WireguardPeers.GatewayNamespace.CleanUp | controllers/daemon/podendpoint_controller.go:188-235 | from one listing, every link of a serving gateway is cleaned as far as its calls go, whatever happens on others; nothing else changes and the returned keys are exactly the removed ones |
| WireguardPeers.GatewayNamespace.CleanUpLinks | controllers/daemon/podendpoint_controller.go:220-228 | the loop over links, each cleaned exactly as far as its calls go |
| WireguardPeers.ClaimedExactly | controllers/daemon/podendpoint_controller.go:200-219 | a key is claimed on a link iff a listed endpoint has it whose namespace and gateway name are those of a serving gateway with that link, the last listed of that name; links are visited likewise |
| WireguardPeers.OwnNameVisited | controllers/daemon/podendpoint_controller.go:200-207 | the link of a serving gateway whose namespace and name no later one has is visited |
| WireguardPeers.CleanUpExact | controllers/daemon/podendpoint_controller.go:188-235 | on the link of a serving gateway, with enough calls, a peer remains iff it was there and a listed endpoint of that gateway's namespace and name has its key; removed peers are reported, no route to them is left, and no route to another base address went |
| WireguardPeersRuns.StepDisjoint | controllers/daemon/podendpoint_controller.go:145-155 | every step keeps the allowed networks of a device's peers disjoint |
| WireguardPeersRuns.RunDisjoint | controllers/daemon/podendpoint_controller.go:145-155 | so does every run, whatever the networks |
| WireguardPeersRuns.ReconcileCovers | controllers/daemon/podendpoint_controller.go:157-171 | a reconcile, stopping anywhere, keeps every peer routed iff it changed nothing, or stopped after the peer with the route already there, or took the route from no other peer |
| WireguardPeersRuns.FinishedCovers | controllers/daemon/podendpoint_controller.go:264-290 | a link with calls enough to finish keeps its kept peers routed iff no kept network has a removed one's base address |
| WireguardPeersRuns.CleanBreaks | controllers/daemon/podendpoint_controller.go:188-296 | a cleanup unsafe on some visited link has an outcome that leaves a peer without its route |
| WireguardPeersRuns.CleanCovers | controllers/daemon/podendpoint_controller.go:188-296 | every outcome of a cleanup keeps every peer routed iff beforehand, on each visited link, either the calls suffice and no kept network has a removed one's base address, or they do not and no route can be deleted |
| WireguardPeersRuns.KeptCovers | controllers/daemon/podendpoint_controller.go:264-290 | on a finished link a claimed peer that was routed stays so iff none of its networks has a removed peer's base address |
| WireguardPeersRuns.HostsApart | controllers/daemon/podendpoint_controller.go:338-345 | single hosts never share a base address |
| WireguardPeersRuns.CleanKeeps | controllers/daemon/podendpoint_controller.go:188-235 | a cleanup, finished or not, keeps every claimed peer with its networks, and its route to each network whose base address no other peer shares |
| WireguardPeersRuns.RunCovered | controllers/daemon/podendpoint_controller.go:113-348 | in every run of steps that reuse no held address across links and no base address within one, every settled peer is routed on its link |
| WireguardPeersRuns.RunCoveredExactly | controllers/daemon/podendpoint_controller.go:113-348 | every run of a list of operations keeps every peer routed at every moment iff each operation is safe in every state the earlier ones can leave |
| WireguardPeersRuns.SomeStep | controllers/daemon/podendpoint_controller.go:113-348 | every operation has an outcome in every state, so the above is never about no run |
| WireguardPeersRuns.RunCoveredHosts | controllers/daemon/podendpoint_controller.go:113-348 | with single hosts only reuse across links need be excluded for settled peers to be routed |
| WireguardPeersRuns.ListedUndisturbed | controllers/daemon/podendpoint_controller.go:209-219 | a cleanup leaves a pod alone if its endpoint is listed under the namespace and name of the link's gateway |
| WireguardPeersRuns.RunAlone | controllers/daemon/podendpoint_controller.go:264-277 | if no other peer of the link is ever given a network with a pod's base address, none ever holds one |
| WireguardPeersRuns.InstalledStep | controllers/daemon/podendpoint_controller.go:113-348 | no step that leaves a pod alone disturbs its peer or route |
| WireguardPeersRuns.PodStays | controllers/daemon/podendpoint_controller.go:113-348 | once a reconcile completes, the pod's peer and route stay through every run that leaves the pod alone and gives its base address to no other peer of the link |
| WireguardPeersRuns.HostPodStays | controllers/daemon/podendpoint_controller.go:113-348 | with single hosts the pod need only be left alone |
| WireguardPeersRuns.AddressReused | controllers/daemon/podendpoint_controller.go:312-319 | a run of four steps after which a peer's allowed network is routed on another link |
| WireguardPeersRuns.RouteMissing | controllers/daemon/podendpoint_controller.go:161-167 | a run in which a reconcile stops after the peer, which then has no route |
| WireguardPeersRuns.CleanupStops | controllers/daemon/podendpoint_controller.go:279-286 | a run in which a cleanup stops after the routes, and a peer is left without its own |
| WireguardPeersRuns.LengthIgnored | controllers/daemon/podendpoint_controller.go:264-277 | a run of four steps after which a claimed peer's route is gone |
| GatewayStatus.RemovePeersOn | controllers/daemon/staticgatewayconfiguration_controller.go:1115-1122 | the backward in-place loop equals a filter, and reports a change iff there is one |
| GatewayStatus.EditGateway | controllers/daemon/staticgatewayconfiguration_controller.go:1099-1122 | adding or removing a gateway, changed iff the object differs |
| GatewayStatus.EditPeers | controllers/daemon/podendpoint_controller.go:398-423 | adding or removing peers, rebuilt in some order with distinct keys; changed iff the peers by key differ |
| GatewayStatus.ListPeers | controllers/daemon/podendpoint_controller.go:417-422 | the rebuilt list holds exactly the map's peers, each once |
| GatewayStatusRuns.PeersWithout | controllers/daemon/staticgatewayconfiguration_controller.go:1115-1122 | removing a gateway leaves exactly the peers of other links |
| GatewayStatusRuns.EditReflects | controllers/daemon/staticgatewayconfiguration_controller.go:1098-1129 | whatever list a worker writes for an edit means what the edit means, links and keys distinct |
| GatewayStatusRuns.SkipsExactly | controllers/daemon/podendpoint_controller.go:403-417 | a worker skips its write iff the edit means nothing new |
| GatewayStatusRuns.StepInv | controllers/daemon/staticgatewayconfiguration_controller.go:1051-1131 | every read, write, refusal and deletion keeps object and edit history in agreement |
| GatewayStatusRuns.CommitOnCurrent | controllers/daemon/staticgatewayconfiguration_controller.go:1123-1128 | an accepted write was computed from the object as stored, so it overwrites no other |
| GatewayStatusRuns.SkippedInEffect | controllers/daemon/podendpoint_controller.go:362-371 | a worker that returns without writing saw its edit already in effect |
| GatewayStatusRuns.RunReflects | controllers/daemon/podendpoint_controller.go:350-430 | in every run the object lists exactly what the committed edits amount to, with distinct links and keys |
| WireguardNic.Node.CreateLink | pkg/cni/wireguard/nic.go:102-140 | create, move, rename; exact links at every failure point |
| WireguardNic.Node.RollBack | pkg/cni/wireguard/nic.go:67-100 | the deferred cleanup, each part tried whatever became of the others |
| WireguardNic.Node.ScanIps | pkg/cni/wireguard/nic.go:163-175 | IPv6 addresses are reported in order and the last IPv4 one is the allowed address |
| WireguardNic.Node.Configure | pkg/cni/wireguard/nic.go:142-194 | succeeds iff the result parses, the link is there, an IPv4 address came and nothing fails |
| WireguardNic.Node.WithIP | pkg/cni/ipam/delegate.go:30-51 | allocates, configures, and releases on failure |
| WireguardNic.Node.WithWireGuardNic | pkg/cni/wireguard/nic.go:35-194 | the whole attempt, with its rollback, or the crash on a container ID too short to cut a name from |
| WireguardNic.FailureLeavesNothing | pkg/cni/wireguard/nic.go:58-140 | every failed attempt that began and could clean up leaves no temporary link on the host, neither name in the pod, and every other link as it was |
| WireguardNic.LeftOnlyByFaults | pkg/cni/wireguard/nic.go:67-100 | after a failed attempt a name is left on the host or in the pod only where its own cleanup calls failed |
| WireguardNic.FailureReleases | pkg/cni/ipam/delegate.go:36-44 | a failed attempt releases exactly the address it allocated |
| WireguardNic.OthersUntouched | pkg/cni/wireguard/nic.go:58-95 | whatever fails, an existing interface stays and only the two names are ever touched |
| WireguardNic.SucceedsExactly | pkg/cni/wireguard/nic.go:97-194 | exactly when an attempt succeeds, and the state it then leaves |
| WireguardNic.KeepsExactly | pkg/cni/wireguard/nic.go:59-95 | an attempt keeps every link there was iff none had the temporary name |
| WireguardNic.StaleLinkTaken | pkg/cni/wireguard/nic.go:59-95 | an attempt in which no call fails that takes away a link it found under the temporary name |
| WireguardNic.RetrySucceeds | pkg/cni/wireguard/nic.go:59-140 | after a cleaned-up failure, an attempt in which nothing fails succeeds |
| WireguardNic.AllowedIs | pkg/cni/wireguard/nic.go:163-175 | the allowed address is the last IPv4 one listed |
| WireguardNic.NoneAllowed | pkg/cni/wireguard/nic.go:163-180 | there is no allowed address iff no IPv4 one is listed |
| WireguardNic.ReportedAre | pkg/cni/wireguard/nic.go:163-175 | the reported addresses are the IPv6 ones, each once and in the order listed |

## Left out

- WireguardPeersRuns.RunCovered: says nothing of peers whose last reconcile stopped before the route, or that a cleanup found unclaimed, because the code leaves them unrouted until the next pass; `RunCoveredExactly` has the exact condition for all peers.
- PodRoutes.PodNamespace.SetPodRoutes: does not model IPv6 exception CIDRs or a default route without a next hop, and ends before the ingress marks and rules (pkg/cni/routes/routes.go:152-196).
- VmProfiles.GatewayVmConfig.ReconcileVm: provisioning states other than failed are not told apart, as the code only logs them.
- Pools of standalone VMs (controllers/manager/agentpoolvms.go): a different interface loop, with the backend pool added even on delete and an index loop that skips elements.
- The cleanup of orphaned links and addresses on the host (`cleanUp`, `ensureDeleteIP`, `reconcileVethPair` of the daemon): per-item deletions that would add only easy members.
- Health probes by link alias: an existing link keeps its old alias when a port is reused, so agreement needs further assumptions.
- Validation of specs, readiness checks, configuration parsing, gRPC, CNI entry points, key generation, logging, metrics, events and timing.
- Stale informer caches, more than one worker per controller, and removal of a device while one peer cleanup runs.
