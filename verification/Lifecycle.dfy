// The creation and deletion protocol of the three manager controllers, as a state
// machine over the API server and Azure. Every reconcile is cut into the calls it
// makes; steps of different controllers, users and scaling interleave freely, and
// a controller may give up after any step.

module Lifecycle {
  import opened Wrappers
  import opened Names
  import LB = LoadBalancer
  import LR = LoadBalancerRuns
  import N = VmssNic
  import NR = VmssNicRuns

  // ---------------------------------------------------------------- state

  datatype Kind = Sgc | Lbc | Vmc

  datatype Key = Key(kind: Kind, name: string)

  /** Egress addresses wanted: a prefix the controller manages, one the user brings, or private only. */
  datatype Egress = ManagedPrefix | OwnPrefix(id: string) | PrivateOnly

  datatype Obj = Obj(uid: string, owner: string, deleting: bool, finalizer: bool, version: nat, pool: string, egress: Egress)

  /** The network profile of a scale set's model, or of one of its instances. */
  datatype Place = Template(pool: string) | Instance(pool: string, id: string)

  /** History: the object a UID was issued for, and the gateway configuration it serves. */
  datatype Origin = Origin(key: Key, root: string, pool: string)

  datatype SgcPc = SIdle | SAdding | SSecret | SCreating | SDropSecret | SDropLbc(secretGone: bool) | SRemoving
  datatype LbPc = LIdle | LAdding | LRule | LCreating | LDropVmc | LDropRule | LRemoving
  datatype VmPc =
    | VIdle
    | VAdding
    | VPrefix
    | VTemplate(want: bool, ref: string, own: bool)
    | VListing(want: bool, ref: string, own: bool)
    | VInstances(want: bool, ref: string, own: bool, todo: set<string>)
    | VDropping(want: bool)
    | VRemoving

  datatype Snapshot = Snapshot(name: string, obj: Obj)

  datatype State = State(
    api: map<Key, Obj>,
    secrets: set<string>,
    lb: LB.Cloud,
    nics: map<Place, seq<N.Nic>>,
    prefixes: set<string>,
    sgcPc: SgcPc, sgcSnap: Snapshot,
    lbPc: LbPc, lbSnap: Snapshot,
    vmPc: VmPc, vmSnap: Snapshot, vmQueue: seq<Snapshot>,
    issued: map<string, Origin>,
    assign: map<string, LR.Assigned>,
    base: map<Place, seq<N.Nic>>,
    managed: map<Place, seq<N.IpConfig>>)

  const PROBE_PORT := 8082

  function ManagedName(uid: string): string {
    N.MANAGED_PREFIX + uid
  }

  function UidOf(name: string): string
    requires N.MANAGED_PREFIX <= name
  {
    name[|N.MANAGED_PREFIX|..]
  }

  function PrefixId(name: string): string {
    "/publicIPPrefixes/" + name
  }

  function BackendPoolId(pool: string): string {
    "/backendAddressPools/" + pool
  }

  /** A prefix ID that is not that of any managed prefix. */
  ghost predicate Foreign(id: string) {
    forall x :: N.MANAGED_PREFIX <= x ==> !EqualFold(id, PrefixId(x))
  }

  ghost predicate Canonical(s: string) {
    s != "" && Fold(s) == s
  }

  // ---------------------------------------------------------------- API server calls

  function Deleted(api: map<Key, Obj>, key: Key): map<Key, Obj> {
    if key !in api || api[key].deleting then api
    else if api[key].finalizer then api[key := api[key].(deleting := true, version := api[key].version + 1)]
    else api - {key}
  }

  /** An update is accepted only from the version it was computed on. */
  predicate Current(api: map<Key, Obj>, kind: Kind, snap: Snapshot) {
    Key(kind, snap.name) in api && api[Key(kind, snap.name)].uid == snap.obj.uid &&
    api[Key(kind, snap.name)].version == snap.obj.version
  }

  function WithFinalizer(o: Obj): Obj {
    o.(finalizer := true, version := o.version + 1)
  }

  /** Dropping the finalizer of an object being deleted removes it. */
  function FinalizerDropped(api: map<Key, Obj>, key: Key): map<Key, Obj>
    requires key in api
  {
    if api[key].deleting then api - {key}
    else api[key := api[key].(finalizer := false, version := api[key].version + 1)]
  }

  function Child(parent: Obj, uid: string): Obj {
    Obj(uid, parent.uid, false, false, 0, parent.pool, parent.egress)
  }

  function Patched(o: Obj, parent: Obj): Obj {
    if o.pool == parent.pool && o.egress == parent.egress then o
    else o.(pool := parent.pool, egress := parent.egress, version := o.version + 1)
  }

  predicate Unused(s: State, uid: string) {
    uid !in s.issued && uid != "" && Fold(uid) == uid
  }

  // ---------------------------------------------------------------- actions

  datatype Action =
    | CreateGateway(name: string, uid: string, pool: string, egress: Egress)
    | EditEgress(name: string, egress: Egress)
    | Touch(key: Key)
    | ApiDelete(key: Key)
    | LoseSecret(uid: string)
    | ScaleOut(pool: string, id: string)
    | ScaleIn(pool: string, id: string)
    | SgcFetch(name: string)
    | SgcAddFinalizer
    | SgcSecret
    | SgcCreateLbc(uid: string)
    | SgcDropSecret
    | SgcDropLbc
    | SgcRemoveFinalizer
    | SgcStop
    | LbFetch(name: string)
    | LbAddFinalizer
    | LbRule(found: bool, env: LB.Env)
    | LbCreateVmc(uid: string)
    | LbDropVmc
    | LbDropRule(found: bool, env: LB.Env)
    | LbRemoveFinalizer
    | LbStop
    | VmFetch(name: string)
    | VmList(names: seq<string>)
    | VmNext
    | VmAddFinalizer
    | VmPrefix
    | VmTemplate
    | VmListInstances
    | VmInstance(id: string)
    | VmAfterInstances
    | VmDropPrefix
    | VmRemoveFinalizer
    | VmStop
    | VmRestart

  function UserStep(s: State, a: Action): (t: State)
    ensures t == s.(api := t.api, issued := t.issued, secrets := t.secrets)
  {
    match a
    case CreateGateway(name, uid, pool, egress) =>
      if Key(Sgc, name) in s.api || !Unused(s, uid) || pool == "" || Fold(pool) != pool then s
      else s.(api := s.api[Key(Sgc, name) := Obj(uid, "", false, false, 0, pool, egress)],
              issued := s.issued[uid := Origin(Key(Sgc, name), uid, pool)])
    case EditEgress(name, egress) =>
      var key := Key(Sgc, name);
      if key !in s.api then s
      else s.(api := s.api[key := s.api[key].(egress := egress, version := s.api[key].version + 1)])
    case Touch(key) =>
      if key !in s.api then s
      else s.(api := s.api[key := s.api[key].(version := s.api[key].version + 1)])
    case ApiDelete(key) => s.(api := Deleted(s.api, key))
    case LoseSecret(uid) => s.(secrets := s.secrets - {uid})
    case _ => s
  }

  function ScaleStep(s: State, a: Action): State {
    match a
    case ScaleOut(pool, id) =>
      var from, place := Template(pool), Instance(pool, id);
      if from !in s.nics || from !in s.base || from !in s.managed || place in s.nics then s
      else s.(nics := s.nics[place := s.nics[from]], base := s.base[place := s.base[from]],
              managed := s.managed[place := s.managed[from]])
    case ScaleIn(pool, id) =>
      var place := Instance(pool, id);
      s.(nics := s.nics - {place}, base := s.base - {place}, managed := s.managed - {place})
    case _ => s
  }

  // ---------------------------------------------------------------- the gateway controller

  /** A live configuration is provisioned; one being deleted under the finalizer is cleaned up. */
  function SgcFetched(s: State, name: string): (t: State)
    ensures t == s.(sgcPc := t.sgcPc, sgcSnap := t.sgcSnap)
  {
    if s.sgcPc != SIdle || Key(Sgc, name) !in s.api then s
    else
      var o := s.api[Key(Sgc, name)];
      if !o.deleting then s.(sgcPc := SAdding, sgcSnap := Snapshot(name, o))
      else if o.finalizer then s.(sgcPc := SDropSecret, sgcSnap := Snapshot(name, o))
      else s
  }

  function SgcFinalized(s: State): (t: State)
    ensures t == s.(api := t.api, sgcPc := t.sgcPc)
  {
    var key, snap := Key(Sgc, s.sgcSnap.name), s.sgcSnap;
    if s.sgcPc != SAdding then s
    else if snap.obj.finalizer then s.(sgcPc := SSecret)
    else if !Current(s.api, Sgc, snap) then s.(sgcPc := SIdle)
    else s.(api := s.api[key := WithFinalizer(s.api[key])], sgcPc := SSecret)
  }

  function SecretEnsured(s: State): (t: State)
    ensures t == s.(secrets := t.secrets, sgcPc := t.sgcPc)
  {
    if s.sgcPc != SSecret then s else s.(secrets := s.secrets + {s.sgcSnap.obj.uid}, sgcPc := SCreating)
  }

  /** The LB configuration of the worker's gateway is created, or brought in line with it; another owner's stays. */
  function LbcEnsured(s: State, uid: string): (t: State)
    ensures t == s.(api := t.api, issued := t.issued, assign := t.assign, sgcPc := t.sgcPc)
  {
    var snap := s.sgcSnap;
    var lbc := Key(Lbc, snap.name);
    if s.sgcPc != SCreating then s
    else if lbc in s.api then
      if s.api[lbc].owner != snap.obj.uid then s.(sgcPc := SIdle)
      else s.(api := s.api[lbc := Patched(s.api[lbc], snap.obj)], sgcPc := SIdle)
    else if !Unused(s, uid) then s
    else s.(api := s.api[lbc := Child(snap.obj, uid)],
            issued := s.issued[uid := Origin(lbc, snap.obj.uid, snap.obj.pool)],
            assign := s.assign[uid := LR.Assigned(snap.obj.pool, snap.obj.uid, PROBE_PORT)],
            sgcPc := SIdle)
  }

  function SecretDropped(s: State): (t: State)
    ensures t == s.(secrets := t.secrets, sgcPc := t.sgcPc)
  {
    if s.sgcPc != SDropSecret then s
    else s.(secrets := s.secrets - {s.sgcSnap.obj.uid}, sgcPc := SDropLbc(s.sgcSnap.obj.uid !in s.secrets))
  }

  /** The finalizer may go once neither the secret nor the LB configuration was found. */
  function LbcDropped(s: State): (t: State)
    ensures t == s.(api := t.api, sgcPc := t.sgcPc)
  {
    if !s.sgcPc.SDropLbc? then s
    else
      var gone := Key(Lbc, s.sgcSnap.name) !in s.api;
      s.(api := Deleted(s.api, Key(Lbc, s.sgcSnap.name)), sgcPc := if s.sgcPc.secretGone && gone then SRemoving else SIdle)
  }

  function SgcReleased(s: State): (t: State)
    ensures t == s.(api := t.api, sgcPc := t.sgcPc)
  {
    if s.sgcPc != SRemoving then s
    else if !Current(s.api, Sgc, s.sgcSnap) then s.(sgcPc := SIdle)
    else s.(api := FinalizerDropped(s.api, Key(Sgc, s.sgcSnap.name)), sgcPc := SIdle)
  }

  function SgcStep(s: State, a: Action): (t: State)
    ensures t == s.(api := t.api, issued := t.issued, assign := t.assign, secrets := t.secrets, sgcPc := t.sgcPc, sgcSnap := t.sgcSnap)
  {
    match a
    case SgcFetch(name) => SgcFetched(s, name)
    case SgcAddFinalizer => SgcFinalized(s)
    case SgcSecret => SecretEnsured(s)
    case SgcCreateLbc(uid) => LbcEnsured(s, uid)
    case SgcDropSecret => SecretDropped(s)
    case SgcDropLbc => LbcDropped(s)
    case SgcRemoveFinalizer => SgcReleased(s)
    case SgcStop => s.(sgcPc := SIdle)
    case _ => s
  }

  // ---------------------------------------------------------------- the load balancer controller

  function RuleOutcome(s: State, found: bool, needLB: bool, env: LB.Env): LB.Outcome {
    var o := s.lbSnap.obj;
    LB.Reconcile(s.lb, LB.Config(o.uid, o.owner, PROBE_PORT), if found then Ok(o.pool) else Err(LB.PoolNotFound), needLB, env)
  }

  function LbFetched(s: State, name: string): (t: State)
    ensures t == s.(lbPc := t.lbPc, lbSnap := t.lbSnap)
  {
    if s.lbPc != LIdle || Key(Lbc, name) !in s.api || Key(Sgc, name) !in s.api then s
    else
      var o := s.api[Key(Lbc, name)];
      if !o.deleting then s.(lbPc := LAdding, lbSnap := Snapshot(name, o))
      else if o.finalizer then s.(lbPc := LDropVmc, lbSnap := Snapshot(name, o))
      else s
  }

  function LbFinalized(s: State): (t: State)
    ensures t == s.(api := t.api, lbPc := t.lbPc)
  {
    var key, snap := Key(Lbc, s.lbSnap.name), s.lbSnap;
    if s.lbPc != LAdding then s
    else if snap.obj.finalizer then s.(lbPc := LRule)
    else if !Current(s.api, Lbc, snap) then s.(lbPc := LIdle)
    else s.(api := s.api[key := WithFinalizer(s.api[key])], lbPc := LRule)
  }

  /** One reconcile of the configuration's rule; the worker goes on only if it succeeds. */
  function RuleReconciled(s: State, found: bool, needLB: bool, env: LB.Env): (t: State)
    ensures t == s.(lb := t.lb, lbPc := t.lbPc)
  {
    if s.lbPc != (if needLB then LRule else LDropRule) || env.newIp == "" then s
    else
      var o := RuleOutcome(s, found, needLB, env);
      s.(lb := o.cloud, lbPc := if o.result.Err? then LIdle else if needLB then LCreating else LRemoving)
  }

  /** The VM configuration of the worker's LB configuration is created or brought in line with it. */
  function VmcEnsured(s: State, uid: string): (t: State)
    ensures t == s.(api := t.api, issued := t.issued, lbPc := t.lbPc)
  {
    var snap := s.lbSnap;
    var vmc := Key(Vmc, snap.name);
    if s.lbPc != LCreating then s
    else if vmc in s.api then
      if s.api[vmc].owner != snap.obj.uid then s.(lbPc := LIdle)
      else s.(api := s.api[vmc := Patched(s.api[vmc], snap.obj)], lbPc := LIdle)
    else if !Unused(s, uid) || snap.obj.uid !in s.issued then s
    else s.(api := s.api[vmc := Child(snap.obj, uid)],
            issued := s.issued[uid := Origin(vmc, s.issued[snap.obj.uid].root, snap.obj.pool)],
            lbPc := LIdle)
  }

  function VmcDropped(s: State): (t: State)
    ensures t == s.(api := t.api, lbPc := t.lbPc)
  {
    if s.lbPc != LDropVmc then s
    else
      var gone := Key(Vmc, s.lbSnap.name) !in s.api;
      s.(api := Deleted(s.api, Key(Vmc, s.lbSnap.name)), lbPc := if gone then LDropRule else LIdle)
  }

  function LbReleased(s: State): (t: State)
    ensures t == s.(api := t.api, lbPc := t.lbPc)
  {
    if s.lbPc != LRemoving then s
    else if !Current(s.api, Lbc, s.lbSnap) then s.(lbPc := LIdle)
    else s.(api := FinalizerDropped(s.api, Key(Lbc, s.lbSnap.name)), lbPc := LIdle)
  }

  function LbStep(s: State, a: Action): (t: State)
    ensures t == s.(api := t.api, issued := t.issued, lb := t.lb, lbPc := t.lbPc, lbSnap := t.lbSnap)
  {
    match a
    case LbFetch(name) => LbFetched(s, name)
    case LbAddFinalizer => LbFinalized(s)
    case LbRule(found, env) => RuleReconciled(s, found, true, env)
    case LbCreateVmc(uid) => VmcEnsured(s, uid)
    case LbDropVmc => VmcDropped(s)
    case LbDropRule(found, env) => RuleReconciled(s, found, false, env)
    case LbRemoveFinalizer => LbReleased(s)
    case LbStop => s.(lbPc := LIdle)
    case _ => s
  }

  // ---------------------------------------------------------------- the VM controller

  /** The interfaces at `place` after the worker's attach or detach; a place that is gone, or an error, stops it. */
  function NicStep(s: State, place: Place, want: bool, ref: string, next: VmPc): (t: State)
    ensures t == s.(nics := t.nics, managed := t.managed, vmPc := t.vmPc)
  {
    if place !in s.nics || place !in s.base || place !in s.managed then s.(vmPc := VIdle)
    else
      var m := ManagedName(s.vmSnap.obj.uid);
      match N.Reconciled(m, ref, BackendPoolId(place.pool), want, s.nics[place])
      case Err(_) => s.(vmPc := VIdle)
      case Ok((_, nics)) =>
        s.(nics := s.nics[place := nics],
           managed := s.managed[place := NR.Updated(s.managed[place], m, want, N.Expected(m, ref, s.base[place]))],
           vmPc := next)
  }

  /** The non-deleting objects of a list call, as they are at that moment. */
  function Listed(api: map<Key, Obj>, names: seq<string>): seq<Snapshot> {
    if names == [] then []
    else
      var rest := Listed(api, names[1..]);
      var key := Key(Vmc, names[0]);
      if key in api && !api[key].deleting then [Snapshot(names[0], api[key])] + rest else rest
  }

  /** Once the scale set is found, the public prefix to attach: none, the user's, or a managed one, created if need be. */
  ghost function PrefixEnsured(s: State): (t: State)
    ensures t == s.(prefixes := t.prefixes, vmPc := t.vmPc)
  {
    var m := ManagedName(s.vmSnap.obj.uid);
    if s.vmPc != VPrefix then s
    else if Template(s.vmSnap.obj.pool) !in s.nics then s.(vmPc := VIdle)
    else match s.vmSnap.obj.egress
      case PrivateOnly => s.(vmPc := VTemplate(true, "", false))
      case OwnPrefix(id) => if id == "" || !Foreign(id) then s.(vmPc := VIdle) else s.(vmPc := VTemplate(true, id, false))
      case ManagedPrefix => s.(prefixes := s.prefixes + {m}, vmPc := VTemplate(true, PrefixId(m), true))
  }

  /** The queue of a listed pass comes first. */
  function VmFetched(s: State, name: string): (t: State)
    ensures t == s.(vmPc := t.vmPc, vmSnap := t.vmSnap)
  {
    if s.vmPc != VIdle || s.vmQueue != [] || Key(Vmc, name) !in s.api || Key(Sgc, name) !in s.api then s
    else
      var o := s.api[Key(Vmc, name)];
      if !o.deleting then s.(vmPc := VAdding, vmSnap := Snapshot(name, o))
      else if o.finalizer then s.(vmPc := VTemplate(false, "", false), vmSnap := Snapshot(name, o))
      else s
  }

  function VmFinalized(s: State): (t: State)
    ensures t == s.(api := t.api, vmPc := t.vmPc)
  {
    var key, snap := Key(Vmc, s.vmSnap.name), s.vmSnap;
    if s.vmPc != VAdding then s
    else if snap.obj.finalizer then s.(vmPc := VPrefix)
    else if !Current(s.api, Vmc, snap) then s.(vmPc := VIdle)
    else s.(api := s.api[key := WithFinalizer(s.api[key])], vmPc := VPrefix)
  }

  function TemplateReconciled(s: State): (t: State)
    ensures t == s.(nics := t.nics, managed := t.managed, vmPc := t.vmPc)
  {
    if !s.vmPc.VTemplate? then s
    else NicStep(s, Template(s.vmSnap.obj.pool), s.vmPc.want, s.vmPc.ref, VListing(s.vmPc.want, s.vmPc.ref, s.vmPc.own))
  }

  function InstancesListed(s: State): (t: State)
    ensures t == s.(vmPc := t.vmPc)
  {
    if !s.vmPc.VListing? then s
    else
      var todo := set pl | pl in s.nics && pl.Instance? && pl.pool == s.vmSnap.obj.pool :: pl.id;
      s.(vmPc := VInstances(s.vmPc.want, s.vmPc.ref, s.vmPc.own, todo))
  }

  function InstanceReconciled(s: State, id: string): (t: State)
    ensures t == s.(nics := t.nics, managed := t.managed, vmPc := t.vmPc)
  {
    if !s.vmPc.VInstances? || id !in s.vmPc.todo then s
    else NicStep(s, Instance(s.vmSnap.obj.pool, id), s.vmPc.want, s.vmPc.ref,
                 VInstances(s.vmPc.want, s.vmPc.ref, s.vmPc.own, s.vmPc.todo - {id}))
  }

  function InstancesDone(s: State): (t: State)
    ensures t == s.(vmPc := t.vmPc)
  {
    if !s.vmPc.VInstances? || s.vmPc.todo != {} then s
    else s.(vmPc := if s.vmPc.own then VIdle else VDropping(s.vmPc.want))
  }

  function PrefixDeleted(s: State): (t: State)
    ensures t == s.(prefixes := t.prefixes, vmPc := t.vmPc)
  {
    if !s.vmPc.VDropping? then s
    else s.(prefixes := s.prefixes - {ManagedName(s.vmSnap.obj.uid)}, vmPc := if s.vmPc.want then VIdle else VRemoving)
  }

  function VmReleased(s: State): (t: State)
    ensures t == s.(api := t.api, vmPc := t.vmPc)
  {
    if s.vmPc != VRemoving then s
    else if !Current(s.api, Vmc, s.vmSnap) then s.(vmPc := VIdle)
    else s.(api := FinalizerDropped(s.api, Key(Vmc, s.vmSnap.name)), vmPc := VIdle)
  }

  ghost function VmStep(s: State, a: Action): (t: State)
    ensures t == s.(api := t.api, prefixes := t.prefixes, nics := t.nics, managed := t.managed,
                    vmPc := t.vmPc, vmSnap := t.vmSnap, vmQueue := t.vmQueue)
  {
    match a
    case VmFetch(name) => VmFetched(s, name)
    case VmList(names) => if s.vmPc != VIdle || s.vmQueue != [] then s else s.(vmQueue := Listed(s.api, names))
    case VmNext =>
      if s.vmPc != VIdle || s.vmQueue == [] then s
      else s.(vmPc := VAdding, vmSnap := s.vmQueue[0], vmQueue := s.vmQueue[1..])
    case VmAddFinalizer => VmFinalized(s)
    case VmPrefix => PrefixEnsured(s)
    case VmTemplate => TemplateReconciled(s)
    case VmListInstances => InstancesListed(s)
    case VmInstance(id) => InstanceReconciled(s, id)
    case VmAfterInstances => InstancesDone(s)
    case VmDropPrefix => PrefixDeleted(s)
    case VmRemoveFinalizer => VmReleased(s)
    case VmStop => s.(vmPc := VIdle)
    case VmRestart => s.(vmPc := VIdle, vmQueue := [])
    case _ => s
  }

  predicate Scales(a: Action) {
    a.ScaleOut? || a.ScaleIn?
  }

  predicate ByUser(a: Action) {
    a.CreateGateway? || a.EditEgress? || a.Touch? || a.ApiDelete? || a.LoseSecret?
  }

  predicate BySgc(a: Action) {
    a.SgcFetch? || a.SgcAddFinalizer? || a.SgcSecret? || a.SgcCreateLbc? || a.SgcDropSecret? || a.SgcDropLbc? ||
    a.SgcRemoveFinalizer? || a.SgcStop?
  }

  predicate ByLb(a: Action) {
    a.LbFetch? || a.LbAddFinalizer? || a.LbRule? || a.LbCreateVmc? || a.LbDropVmc? || a.LbDropRule? ||
    a.LbRemoveFinalizer? || a.LbStop?
  }

  /** One step of the whole system; an action that is not enabled leaves the state alone. */
  ghost function Step(s: State, a: Action): State {
    if Scales(a) then ScaleStep(s, a)
    else if ByUser(a) then UserStep(s, a)
    else if BySgc(a) then SgcStep(s, a)
    else if ByLb(a) then LbStep(s, a)
    else VmStep(s, a)
  }
}
