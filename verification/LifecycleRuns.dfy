// What every interleaving of the protocol's steps keeps, and what follows for
// cleanup, load balancer membership and the lifetime of managed prefixes.

module LifecycleRuns {
  import opened Wrappers
  import opened Names
  import opened Sequences
  import opened Lifecycle
  import LB = LoadBalancer
  import LR = LoadBalancerRuns
  import N = VmssNic
  import NR = VmssNicRuns

  // ---------------------------------------------------------------- the invariant

  /** The object a UID was issued for still exists under its finalizer. */
  ghost predicate Live(s: State, kind: Kind, uid: string) {
    uid in s.issued && s.issued[uid].key.kind == kind && s.issued[uid].key in s.api &&
    s.api[s.issued[uid].key].uid == uid && s.api[s.issued[uid].key].finalizer
  }

  ghost function ParentOf(kind: Kind): Kind {
    if kind == Vmc then Lbc else Sgc
  }

  /** A child exists only under its parent, which holds its finalizer and the same pool. */
  ghost predicate Parented(s: State, key: Key)
    requires key in s.api
  {
    var o, pk := s.api[key], Key(ParentOf(key.kind), key.name);
    pk in s.api && s.api[pk].finalizer && s.api[pk].uid == o.owner && s.api[pk].pool == o.pool &&
    o.owner in s.issued && o.uid in s.issued && s.issued[o.uid].root == s.issued[o.owner].root
  }

  ghost predicate ObjectOk(s: State, key: Key)
    requires key in s.api
  {
    var o := s.api[key];
    (o.deleting ==> o.finalizer) &&
    o.uid in s.issued && s.issued[o.uid].key == key && s.issued[o.uid].pool == o.pool &&
    (key.kind == Sgc || Parented(s, key))
  }

  ghost predicate OriginOk(s: State, uid: string)
    requires uid in s.issued
  {
    Canonical(uid) && Canonical(s.issued[uid].pool) && (s.issued[uid].key.kind == Sgc ==> s.issued[uid].root == uid)
  }

  ghost predicate ApiOk(s: State) {
    (forall key :: key in s.api ==> ObjectOk(s, key)) &&
    (forall uid :: uid in s.issued ==> OriginOk(s, uid))
  }

  ghost predicate Assigned(s: State, uid: string)
    requires uid in s.issued
  {
    uid in s.assign && s.assign[uid] == LR.Assigned(s.issued[uid].pool, s.issued[uid].root, PROBE_PORT)
  }

  /** Rules exist for live configurations only, and a VM configuration only beside its rule. */
  ghost predicate LbOk(s: State) {
    LR.Image(s.lb, s.assign) &&
    (forall uid :: uid in s.assign ==> uid in s.issued) &&
    (forall uid :: uid in s.issued && s.issued[uid].key.kind == Lbc ==> Assigned(s, uid)) &&
    (forall uid :: uid in LR.RuleKeys(s.lb) ==> Live(s, Lbc, uid)) &&
    (forall name :: Key(Vmc, name) in s.api ==> Key(Lbc, name) in s.api && s.api[Key(Lbc, name)].uid in LR.RuleKeys(s.lb))
  }

  /** The IP configuration's public prefix is the given one, up to case; "" is none. */
  ghost predicate SamePrefix(c: N.IpConfig, ref: string) {
    c.props.Some? &&
    if ref == "" then c.props.value.publicIp.None?
    else c.props.value.publicIp.Some? && c.props.value.publicIp.value.props.Some? &&
         c.props.value.publicIp.value.props.value.prefix.Some? &&
         EqualFold(c.props.value.publicIp.value.props.value.prefix.value, ref)
  }

  ghost predicate RefersTo(c: N.IpConfig, prefix: string) {
    SamePrefix(c, PrefixId(prefix))
  }

  /** The IP configuration draws on no managed prefix. */
  ghost predicate Clean(c: N.IpConfig) {
    forall x :: N.MANAGED_PREFIX <= x ==> !RefersTo(c, x)
  }

  ghost predicate EntryOk(s: State, place: Place, c: N.IpConfig) {
    N.IsManaged(c) && Live(s, Vmc, UidOf(c.name)) && s.issued[UidOf(c.name)].pool == place.pool &&
    (Clean(c) || (c.name in s.prefixes && RefersTo(c, c.name)))
  }

  ghost predicate PlaceOk(s: State, place: Place)
    requires place in s.nics
  {
    place in s.base && place in s.managed &&
    NR.Base(s.base[place], BackendPoolId(place.pool)) && NR.ManagedList(s.managed[place]) &&
    s.nics[place] == NR.Shape(s.base[place], s.managed[place], BackendPoolId(place.pool)) &&
    forall i :: 0 <= i < |s.managed[place]| ==> EntryOk(s, place, s.managed[place][i])
  }

  ghost predicate NicOk(s: State) {
    (forall place :: place in s.nics ==> PlaceOk(s, place)) &&
    (forall x :: x in s.prefixes ==> N.MANAGED_PREFIX <= x && Live(s, Vmc, UidOf(x)))
  }

  ghost predicate SecretsOk(s: State) {
    forall uid :: uid in s.secrets ==> Live(s, Sgc, uid)
  }

  /** A worker's copy agrees with what its UID was issued for. */
  ghost predicate SnapOk(s: State, kind: Kind, snap: Snapshot) {
    snap.obj.uid in s.issued && s.issued[snap.obj.uid].key == Key(kind, snap.name) &&
    s.issued[snap.obj.uid].pool == snap.obj.pool && (snap.obj.finalizer ==> Live(s, kind, snap.obj.uid)) &&
    (kind == Lbc ==> snap.obj.owner == s.issued[snap.obj.uid].root)
  }

  ghost predicate SgcWorkerOk(s: State) {
    s.sgcPc != SIdle ==>
      SnapOk(s, Sgc, s.sgcSnap) &&
      (s.sgcPc != SAdding ==> Live(s, Sgc, s.sgcSnap.obj.uid)) &&
      (s.sgcPc == SDropLbc(true) || s.sgcPc == SRemoving ==> s.sgcSnap.obj.uid !in s.secrets) &&
      (s.sgcPc == SRemoving ==> Key(Lbc, s.sgcSnap.name) !in s.api)
  }

  ghost predicate LbWorkerOk(s: State) {
    s.lbPc != LIdle ==>
      SnapOk(s, Lbc, s.lbSnap) &&
      (s.lbPc != LAdding ==> Live(s, Lbc, s.lbSnap.obj.uid)) &&
      (s.lbPc == LCreating ==> s.lbSnap.obj.uid in LR.RuleKeys(s.lb)) &&
      (s.lbPc == LDropRule || s.lbPc == LRemoving ==> Key(Vmc, s.lbSnap.name) !in s.api) &&
      (s.lbPc == LRemoving ==> s.lbSnap.obj.uid !in LR.RuleKeys(s.lb))
  }

  /** At `place` the worker's own IP configuration is as it wants it. */
  ghost predicate Settled(s: State, place: Place, name: string, want: bool, ref: string)
    requires place in s.managed
  {
    forall i :: 0 <= i < |s.managed[place]| && s.managed[place][i].name == name ==>
      want && SamePrefix(s.managed[place][i], ref)
  }

  ghost predicate RefOk(s: State, name: string, ref: string, own: bool) {
    if own then ref == PrefixId(name) && name in s.prefixes else ref == "" || Foreign(ref)
  }

  ghost predicate VmPcOk(s: State) {
    var uid, pool := s.vmSnap.obj.uid, s.vmSnap.obj.pool;
    var m := ManagedName(uid);
    match s.vmPc
    case VIdle => true
    case VAdding => true
    case VPrefix => true
    case VTemplate(want, ref, own) => RefOk(s, m, ref, own) && (own ==> want)
    case VListing(want, ref, own) =>
      RefOk(s, m, ref, own) && (own ==> want) && (Template(pool) in s.managed ==> Settled(s, Template(pool), m, want, ref))
    case VInstances(want, ref, own, todo) =>
      RefOk(s, m, ref, own) && (own ==> want) && (Template(pool) in s.managed ==> Settled(s, Template(pool), m, want, ref)) &&
      forall id :: Instance(pool, id) in s.managed && id !in todo ==> Settled(s, Instance(pool, id), m, want, ref)
    case VDropping(want) =>
      forall place, i :: place in s.managed && 0 <= i < |s.managed[place]| && s.managed[place][i].name == m ==>
        want && Clean(s.managed[place][i])
    case VRemoving =>
      m !in s.prefixes &&
      forall place, i :: place in s.managed && 0 <= i < |s.managed[place]| ==> s.managed[place][i].name != m
  }

  ghost predicate VmWorkerOk(s: State) {
    (s.vmPc != VIdle ==> SnapOk(s, Vmc, s.vmSnap) && (s.vmPc != VAdding ==> Live(s, Vmc, s.vmSnap.obj.uid)) && VmPcOk(s)) &&
    (forall i :: 0 <= i < |s.vmQueue| ==> SnapOk(s, Vmc, s.vmQueue[i])) &&
    (s.vmPc == VRemoving || s.vmPc == VDropping(false) ==> s.vmQueue == []) &&
    (s.vmPc.VTemplate? || s.vmPc.VListing? || s.vmPc.VInstances? ==> s.vmPc.want || s.vmQueue == []) &&
    s.managed.Keys == s.nics.Keys && s.base.Keys == s.nics.Keys
  }

  ghost predicate Inv(s: State) {
    ApiOk(s) && LbOk(s) && NicOk(s) && SecretsOk(s) && SgcWorkerOk(s) && LbWorkerOk(s) && VmWorkerOk(s)
  }

  // ---------------------------------------------------------------- frames

  /** No UID changes hands, and every live object but possibly one stays live. */
  ghost predicate LosesAtMost(s: State, t: State, kind: Kind, uid: string) {
    (forall u :: u in s.issued ==> u in t.issued && t.issued[u] == s.issued[u]) &&
    (forall k, u :: Live(s, k, u) && !(k == kind && u == uid) ==> Live(t, k, u))
  }

  ghost predicate Keeps(s: State, t: State) {
    (forall u :: u in s.issued ==> u in t.issued && t.issued[u] == s.issued[u]) &&
    (forall k, u :: Live(s, k, u) ==> Live(t, k, u))
  }

  lemma SnapKept(s: State, t: State, kind: Kind, uid: string, snapKind: Kind, snap: Snapshot)
    requires SnapOk(s, snapKind, snap) && LosesAtMost(s, t, kind, uid) && (snapKind != kind || snap.obj.uid != uid)
    ensures SnapOk(t, snapKind, snap)
  {
  }

  /** Interfaces and prefixes survive when their VM configuration does. */
  lemma NicKept(s: State, t: State, kind: Kind, uid: string)
    requires NicOk(s) && LosesAtMost(s, t, kind, uid)
    requires t.nics == s.nics && t.base == s.base && t.managed == s.managed && t.prefixes == s.prefixes
    requires kind == Vmc ==>
               ManagedName(uid) !in s.prefixes &&
               forall place, i :: place in s.managed && 0 <= i < |s.managed[place]| ==> s.managed[place][i].name != ManagedName(uid)
    ensures NicOk(t)
  {
    hide NR.Base, NR.ManagedList, NR.Shape, Clean, RefersTo;
    forall place | place in t.nics
      ensures PlaceOk(t, place)
    {
      assert PlaceOk(s, place);
      forall i | 0 <= i < |t.managed[place]|
        ensures EntryOk(t, place, t.managed[place][i])
      {
        var c := s.managed[place][i];
        assert EntryOk(s, place, c);
        NameOfUid(c.name);
      }
    }
    forall x | x in t.prefixes
      ensures N.MANAGED_PREFIX <= x && Live(t, Vmc, UidOf(x))
    {
      NameOfUid(x);
    }
  }

  lemma NameOfUid(name: string)
    requires N.MANAGED_PREFIX <= name
    ensures ManagedName(UidOf(name)) == name
  {
  }

  lemma UidOfName(uid: string)
    ensures N.MANAGED_PREFIX <= ManagedName(uid) && UidOf(ManagedName(uid)) == uid
  {
  }

  /** The load balancer's part survives any API change that keeps its live configurations. */
  lemma LbKept(s: State, t: State, kind: Kind, uid: string)
    requires LbOk(s) && LosesAtMost(s, t, kind, uid) && t.lb == s.lb && t.assign == s.assign
    requires forall u :: u in t.issued && u !in s.issued ==> t.issued[u].key.kind != Lbc
    requires kind == Lbc ==> uid !in LR.RuleKeys(s.lb)
    requires forall name :: Key(Vmc, name) in t.api ==>
               Key(Lbc, name) in t.api && t.api[Key(Lbc, name)].uid in LR.RuleKeys(s.lb)
    ensures LbOk(t)
  {
  }

  lemma SecretsKept(s: State, t: State, kind: Kind, uid: string)
    requires SecretsOk(s) && LosesAtMost(s, t, kind, uid) && t.secrets <= s.secrets
    requires kind == Sgc ==> uid !in t.secrets
    ensures SecretsOk(t)
  {
  }

  /** The workers that do not move in a step keep what they rely on. */
  lemma SgcWorkerKept(s: State, t: State, kind: Kind, uid: string)
    requires SgcWorkerOk(s) && LosesAtMost(s, t, kind, uid) && kind != Sgc
    requires t.sgcPc == s.sgcPc && t.sgcSnap == s.sgcSnap && t.secrets <= s.secrets
    requires forall name :: Key(Lbc, name) in t.api ==> Key(Lbc, name) in s.api
    ensures SgcWorkerOk(t)
  {
  }

  lemma LbWorkerKept(s: State, t: State, kind: Kind, uid: string)
    requires LbWorkerOk(s) && LosesAtMost(s, t, kind, uid) && kind != Lbc
    requires t.lbPc == s.lbPc && t.lbSnap == s.lbSnap && t.lb == s.lb
    requires forall name :: Key(Vmc, name) in t.api ==> Key(Vmc, name) in s.api
    ensures LbWorkerOk(t)
  {
  }

  lemma VmWorkerKept(s: State, t: State, kind: Kind, uid: string)
    requires VmWorkerOk(s) && LosesAtMost(s, t, kind, uid) && kind != Vmc
    requires t.vmPc == s.vmPc && t.vmSnap == s.vmSnap && t.vmQueue == s.vmQueue
    requires t.nics == s.nics && t.base == s.base && t.managed == s.managed && t.prefixes == s.prefixes
    ensures VmWorkerOk(t)
  {
    hide Clean, SamePrefix, Foreign;
    if s.vmPc != VIdle {
      SnapKept(s, t, kind, uid, Vmc, s.vmSnap);
    }
    forall i | 0 <= i < |t.vmQueue|
      ensures SnapOk(t, Vmc, t.vmQueue[i])
    {
      SnapKept(s, t, kind, uid, Vmc, s.vmQueue[i]);
    }
  }

  // ---------------------------------------------------------------- edits of one API object

  lemma ObjectFacts(s: State, key: Key)
    requires ApiOk(s) && key in s.api
    ensures var o := s.api[key];
            (o.deleting ==> o.finalizer) && o.uid in s.issued && s.issued[o.uid].key == key && s.issued[o.uid].pool == o.pool &&
            (o.finalizer ==> Live(s, key.kind, o.uid)) && (key.kind == Lbc ==> o.owner == s.issued[o.uid].root)
    ensures key.kind != Sgc ==> Parented(s, key)
  {
  }

  /** Replacing an object by one with the same identity, keeping or adding the finalizer. */
  ghost predicate SameIdentity(a: Obj, b: Obj) {
    b.uid == a.uid && b.owner == a.owner && b.pool == a.pool && (a.finalizer ==> b.finalizer) && (b.deleting ==> b.finalizer)
  }

  lemma EditOk(s: State, t: State, key: Key, o: Obj)
    requires ApiOk(s) && key in s.api && SameIdentity(s.api[key], o)
    requires t.api == s.api[key := o] && t.issued == s.issued
    ensures ApiOk(t) && Keeps(s, t)
  {
    hide Fold, Canonical;
    forall k | k in t.api
      ensures ObjectOk(t, k)
    {
      assert ObjectOk(s, k);
    }
    forall u | u in t.issued
      ensures OriginOk(t, u)
    {
      assert OriginOk(s, u);
    }
  }

  /** Removing an object that holds no finalizer: it has no children and nothing relies on it. */
  lemma RemoveOk(s: State, t: State, key: Key)
    requires ApiOk(s) && key in s.api && !s.api[key].finalizer
    requires t.api == s.api - {key} && t.issued == s.issued
    ensures ApiOk(t) && Keeps(s, t)
  {
    forall k | k in t.api
      ensures ObjectOk(t, k)
    {
      assert ObjectOk(s, k);
      assert k.kind != Sgc ==> Key(ParentOf(k.kind), k.name) != key;
    }
    forall u | u in t.issued
      ensures OriginOk(t, u)
    {
      assert OriginOk(s, u);
    }
    forall k, u | Live(s, k, u)
      ensures Live(t, k, u)
    {
    }
  }

  lemma DeletedOk(s: State, t: State, key: Key)
    requires ApiOk(s) && t.api == Deleted(s.api, key) && t.issued == s.issued
    ensures ApiOk(t) && Keeps(s, t) && forall k :: k in t.api ==> k in s.api && t.api[k].uid == s.api[k].uid
  {
    if key in s.api && !s.api[key].deleting {
      if s.api[key].finalizer {
        EditOk(s, t, key, t.api[key]);
      } else {
        RemoveOk(s, t, key);
      }
    } else {
      SameApi(s, t);
    }
  }

  lemma SameApi(s: State, t: State)
    requires ApiOk(s) && t.api == s.api && t.issued == s.issued
    ensures ApiOk(t) && Keeps(s, t)
  {
  }

  /** A new child under a live parent. */
  lemma CreateOk(s: State, t: State, key: Key, parent: Snapshot, uid: string)
    requires ApiOk(s) && key.kind != Sgc && key !in s.api && key.name == parent.name && Unused(s, uid)
    requires SnapOk(s, ParentOf(key.kind), parent) && Live(s, ParentOf(key.kind), parent.obj.uid)
    requires t.api == s.api[key := Child(parent.obj, uid)]
    requires t.issued == s.issued[uid := Origin(key, s.issued[parent.obj.uid].root, parent.obj.pool)]
    ensures ApiOk(t) && Keeps(s, t)
  {
    hide ObjectOk, OriginOk, Unused;
    UnusedFresh(s, uid);
    NewObjectOk(s, t, key, parent, uid);
    NewOriginOk(s, t, parent.obj.uid, uid);
    forall k | k in s.api
      ensures ObjectOk(t, k)
    {
      OldObjectOk(s, t, key, uid, k);
    }
    forall u | u in s.issued
      ensures OriginOk(t, u)
    {
      OldOriginOk(s, t, uid, u);
    }
  }

  lemma UnusedFresh(s: State, uid: string)
    requires Unused(s, uid)
    ensures uid !in s.issued
  {
  }

  lemma NewObjectOk(s: State, t: State, key: Key, parent: Snapshot, uid: string)
    requires ApiOk(s) && key.kind != Sgc && key !in s.api && key.name == parent.name && Unused(s, uid)
    requires SnapOk(s, ParentOf(key.kind), parent) && Live(s, ParentOf(key.kind), parent.obj.uid)
    requires t.api == s.api[key := Child(parent.obj, uid)]
    requires t.issued == s.issued[uid := Origin(key, s.issued[parent.obj.uid].root, parent.obj.pool)]
    ensures ObjectOk(t, key)
  {
    hide Fold, OriginOk;
    assert ObjectOk(s, Key(ParentOf(key.kind), key.name));
  }

  lemma NewOriginOk(s: State, t: State, parent: string, uid: string)
    requires parent in s.issued && OriginOk(s, parent) && Unused(s, uid) && uid in t.issued
    requires t.issued[uid].pool == s.issued[parent].pool && t.issued[uid].key.kind != Sgc
    ensures OriginOk(t, uid)
  {
  }

  lemma OldObjectOk(s: State, t: State, key: Key, uid: string, k: Key)
    requires k in s.api && ObjectOk(s, k) && key !in s.api && Unused(s, uid)
    requires t.api.Keys == s.api.Keys + {key} && forall x :: x in s.api ==> t.api[x] == s.api[x]
    requires t.issued.Keys == s.issued.Keys + {uid} && forall u :: u in s.issued ==> t.issued[u] == s.issued[u]
    ensures ObjectOk(t, k)
  {
  }

  lemma OldOriginOk(s: State, t: State, uid: string, u: string)
    requires u in s.issued && OriginOk(s, u) && u in t.issued && t.issued[u] == s.issued[u]
    ensures OriginOk(t, u)
  {
  }

  /** Dropping a finalizer loses that object only, once it has no child. */
  lemma DropOk(s: State, t: State, key: Key)
    requires ApiOk(s) && key in s.api && t.api == FinalizerDropped(s.api, key) && t.issued == s.issued
    requires key.kind == Sgc ==> Key(Lbc, key.name) !in s.api
    requires key.kind == Lbc ==> Key(Vmc, key.name) !in s.api
    ensures ApiOk(t) && LosesAtMost(s, t, key.kind, s.api[key].uid)
    ensures forall k :: k in t.api ==> k in s.api && t.api[k].uid == s.api[k].uid
  {
    hide Live, OriginOk, LosesAtMost, ObjectOk;
    forall k | k in t.api
      ensures ObjectOk(t, k)
    {
      assert ObjectOk(s, k);
      DropObject(s, t, key, k);
    }
    OriginsRead(s, t);
    DropLoses(s, t, key);
  }

  lemma DropObject(s: State, t: State, key: Key, k: Key)
    requires key in s.api && t.api == FinalizerDropped(s.api, key) && t.issued == s.issued
    requires key.kind == Sgc ==> Key(Lbc, key.name) !in s.api
    requires key.kind == Lbc ==> Key(Vmc, key.name) !in s.api
    requires k in s.api && k in t.api && ObjectOk(s, k)
    ensures ObjectOk(t, k)
  {
  }

  lemma OriginsRead(s: State, t: State)
    requires t.issued == s.issued && forall u :: u in s.issued ==> OriginOk(s, u)
    ensures forall u :: u in t.issued ==> OriginOk(t, u)
  {
  }

  lemma DropLoses(s: State, t: State, key: Key)
    requires ApiOk(s) && key in s.api && t.api == FinalizerDropped(s.api, key) && t.issued == s.issued
    ensures LosesAtMost(s, t, key.kind, s.api[key].uid)
  {
  }

  // ---------------------------------------------------------------- what a step by someone else leaves alone

  /** A step that touches the API only, adds no object and loses no live one. */
  lemma Quiet(s: State, t: State)
    requires Inv(s) && ApiOk(t) && Keeps(s, t)
    requires t == s.(api := t.api, secrets := t.secrets) && t.secrets <= s.secrets
    requires forall k :: k in t.api ==> k in s.api && t.api[k].uid == s.api[k].uid
    ensures Inv(t)
  {
    hide LR.Image, LR.RuleKeys, NicOk, VmWorkerOk, SgcWorkerOk, LbWorkerOk, SecretsOk;
    forall name | Key(Vmc, name) in t.api
      ensures Key(Lbc, name) in t.api && t.api[Key(Lbc, name)].uid in LR.RuleKeys(s.lb)
    {
      assert ObjectOk(t, Key(Vmc, name));
    }
    LbKept(s, t, Sgc, "");
    NicKept(s, t, Sgc, "");
    SecretsKept(s, t, Lbc, "");
    SgcWorkerKept(s, t, Lbc, "");
    LbWorkerKept(s, t, Sgc, "");
    VmWorkerKept(s, t, Sgc, "");
  }

  lemma UserStepInv(s: State, a: Action)
    requires Inv(s) && (a.EditEgress? || a.Touch? || a.ApiDelete? || a.LoseSecret?)
    ensures Inv(UserStep(s, a))
  {
    hide ApiOk, LbOk, NicOk, VmWorkerOk, SgcWorkerOk, LbWorkerOk, SecretsOk, Keeps, Deleted;
    var t := UserStep(s, a);
    if a.EditEgress? || a.Touch? {
      var key := if a.Touch? then a.key else Key(Sgc, a.name);
      if key in s.api {
        ObjectFacts(s, key);
        EditOk(s, t, key, t.api[key]);
        Quiet(s, t);
      }
    } else if a.ApiDelete? {
      DeletedOk(s, t, a.key);
      Quiet(s, t);
    } else {
      SameApi(s, t);
      Quiet(s, t);
    }
  }

  lemma NewGatewayOk(s: State, t: State, key: Key, o: Obj)
    requires ApiOk(s) && key.kind == Sgc && key !in s.api && Unused(s, o.uid) && Canonical(o.pool) && !o.deleting
    requires t.api == s.api[key := o] && t.issued == s.issued[o.uid := Origin(key, o.uid, o.pool)]
    ensures ApiOk(t) && Keeps(s, t)
  {
    forall k | k in t.api
      ensures ObjectOk(t, k)
    {
      if k != key {
        assert ObjectOk(s, k);
      }
    }
    forall u | u in t.issued
      ensures OriginOk(t, u)
    {
      if u != o.uid {
        assert OriginOk(s, u);
      }
    }
  }

  lemma CreateGatewayInv(s: State, a: Action)
    requires Inv(s) && a.CreateGateway?
    ensures Inv(UserStep(s, a))
  {
    hide LR.Image, LR.RuleKeys, NicOk, VmWorkerOk, SgcWorkerOk, LbWorkerOk, SecretsOk, ApiOk;
    var t := UserStep(s, a);
    if t != s {
      var key := Key(Sgc, a.name);
      NewGatewayOk(s, t, key, t.api[key]);
      LbKept(s, t, Sgc, "");
      NicKept(s, t, Sgc, "");
      SecretsKept(s, t, Lbc, "");
      SgcWorkerKept(s, t, Lbc, "");
      LbWorkerKept(s, t, Sgc, "");
      VmWorkerKept(s, t, Sgc, "");
    }
  }

  // ---------------------------------------------------------------- steps of the gateway controller

  /** Only the gateway controller's own program counter and copy move. */
  lemma SgcMoves(s: State, t: State)
    requires Inv(s) && SgcWorkerOk(t) && t == s.(sgcPc := t.sgcPc, sgcSnap := t.sgcSnap)
    ensures Inv(t)
  {
    hide LR.Image, LR.RuleKeys, NicOk, VmWorkerOk, SgcWorkerOk, LbWorkerOk, SecretsOk;
    SameApi(s, t);
    LbKept(s, t, Sgc, "");
    NicKept(s, t, Sgc, "");
    SecretsKept(s, t, Lbc, "");
    LbWorkerKept(s, t, Sgc, "");
    VmWorkerKept(s, t, Sgc, "");
  }

  lemma SgcFetchInv(s: State, a: Action)
    requires Inv(s) && (a.SgcFetch? || a.SgcStop?)
    ensures Inv(SgcStep(s, a))
  {
    hide ApiOk, LbOk, NicOk, VmWorkerOk, LbWorkerOk, SecretsOk;
    if a.SgcFetch? && Key(Sgc, a.name) in s.api {
      ObjectFacts(s, Key(Sgc, a.name));
    }
    SgcMoves(s, SgcStep(s, a));
  }

  lemma SgcAddInv(s: State, a: Action)
    requires Inv(s) && a.SgcAddFinalizer?
    ensures Inv(SgcStep(s, a))
  {
    hide ApiOk, LbOk, NicOk, SecretsOk, LbWorkerOk, VmWorkerOk;
    if s.sgcPc == SAdding {
      if s.sgcSnap.obj.finalizer || !Current(s.api, Sgc, s.sgcSnap) {
        SgcMoves(s, SgcStep(s, a));
      } else {
        SgcAdded(s);
      }
    }
  }

  lemma SgcAdded(s: State)
    requires Inv(s) && s.sgcPc == SAdding && Current(s.api, Sgc, s.sgcSnap)
    ensures var key := Key(Sgc, s.sgcSnap.name);
            Inv(s.(api := s.api[key := WithFinalizer(s.api[key])], sgcPc := SSecret))
  {
    hide ApiOk, LbOk, NicOk, SecretsOk, Keeps, LbWorkerOk, VmWorkerOk;
    var key := Key(Sgc, s.sgcSnap.name);
    var mid := s.(api := s.api[key := WithFinalizer(s.api[key])]);
    ObjectFacts(s, key);
    EditOk(s, mid, key, WithFinalizer(s.api[key]));
    Quiet(s, mid);
    SgcMoves(mid, mid.(sgcPc := SSecret));
  }

  lemma SgcSecretInv(s: State, a: Action)
    requires Inv(s) && a.SgcSecret?
    ensures Inv(SgcStep(s, a))
  {
    hide ApiOk, LR.Image, LR.RuleKeys, NicOk, VmWorkerOk, LbWorkerOk, Keeps;
    if s.sgcPc == SSecret {
      var t := s.(secrets := s.secrets + {s.sgcSnap.obj.uid}, sgcPc := SCreating);
      SameApi(s, t);
      LiveReads(s, t);
      LbReads(s, t);
      NicKept(s, t, Sgc, "");
      LbWorkerKept(s, t, Sgc, "");
      VmWorkerKept(s, t, Sgc, "");
    }
  }

  lemma LbReads(s: State, t: State)
    requires LbOk(s) && t.api == s.api && t.issued == s.issued && t.lb == s.lb && t.assign == s.assign
    ensures LbOk(t)
  {
  }

  lemma SgcDropInv(s: State, a: Action)
    requires Inv(s) && (a.SgcDropSecret? || a.SgcDropLbc?)
    ensures Inv(SgcStep(s, a))
  {
    hide LbOk, NicOk, VmWorkerOk, LbWorkerOk, SecretsOk;
    var t := SgcStep(s, a);
    if t != s {
      var mid := s.(api := t.api, secrets := t.secrets);
      if a.SgcDropLbc? {
        DeletedOk(s, mid, Key(Lbc, s.sgcSnap.name));
      } else {
        SameApi(s, mid);
      }
      Quiet(s, mid);
      SgcMoves(mid, t);
    }
  }

  /** A new or patched LB configuration comes from a gateway that holds its finalizer. */
  lemma SgcCreateInv(s: State, a: Action)
    requires Inv(s) && a.SgcCreateLbc?
    ensures Inv(SgcStep(s, a))
  {
    hide ApiOk, LbOk, NicOk, SecretsOk, LbWorkerOk, VmWorkerOk;
    var key := Key(Lbc, s.sgcSnap.name);
    if s.sgcPc == SCreating {
      if key !in s.api {
        if Unused(s, a.uid) {
          SgcCreateFresh(s, a);
        }
      } else if s.api[key].owner != s.sgcSnap.obj.uid {
        SgcMoves(s, SgcStep(s, a));
      } else {
        SgcPatches(s);
      }
    }
  }

  lemma SgcPatches(s: State)
    requires Inv(s) && s.sgcPc == SCreating
    requires Key(Lbc, s.sgcSnap.name) in s.api && s.api[Key(Lbc, s.sgcSnap.name)].owner == s.sgcSnap.obj.uid
    ensures var key := Key(Lbc, s.sgcSnap.name);
            Inv(s.(api := s.api[key := Patched(s.api[key], s.sgcSnap.obj)], sgcPc := SIdle))
  {
    hide ApiOk, LbOk, NicOk, SecretsOk, Keeps, LbWorkerOk, VmWorkerOk;
    var key := Key(Lbc, s.sgcSnap.name);
    var o := Patched(s.api[key], s.sgcSnap.obj);
    var mid := s.(api := s.api[key := o]);
    ObjectFacts(s, key);
    ObjectFacts(s, Key(Sgc, s.sgcSnap.name));
    EditOk(s, mid, key, o);
    Quiet(s, mid);
    SgcMoves(mid, mid.(sgcPc := SIdle));
  }

  lemma SgcCreateFresh(s: State, a: Action)
    requires Inv(s) && a.SgcCreateLbc? && s.sgcPc == SCreating && Key(Lbc, s.sgcSnap.name) !in s.api && Unused(s, a.uid)
    ensures Inv(SgcStep(s, a))
  {
    hide LR.Image, LR.RuleKeys, NicOk, VmWorkerOk, LbWorkerOk, SecretsOk, ApiOk, LbOk, Fold;
    var t := SgcStep(s, a);
    RootOfGateway(s, s.sgcSnap.obj.uid);
    CreateOk(s, t, Key(Lbc, s.sgcSnap.name), s.sgcSnap, a.uid);
    NoVmc(s, s.sgcSnap.name);
    NewlyAssigned(s, t, Key(Lbc, s.sgcSnap.name), a.uid);
    NicKept(s, t, Sgc, "");
    SecretsKept(s, t, Lbc, "");
    LbWorkerKept(s, t, Sgc, "");
    VmWorkerKept(s, t, Sgc, "");
  }

  lemma NewlyAssigned(s: State, t: State, key: Key, uid: string)
    requires LbOk(s) && key.kind == Lbc && key !in s.api && Key(Vmc, key.name) !in s.api && uid !in s.issued && Keeps(s, t)
    requires t.lb == s.lb && t.api.Keys == s.api.Keys + {key} && forall k :: k in s.api ==> t.api[k] == s.api[k]
    requires t.issued.Keys == s.issued.Keys + {uid} && forall u :: u in s.issued ==> t.issued[u] == s.issued[u]
    requires t.assign == s.assign[uid := LR.Assigned(t.issued[uid].pool, t.issued[uid].root, PROBE_PORT)]
    ensures LbOk(t)
  {
    hide LR.Image, LR.RuleKeys;
    RulesKnown(s);
    ImageGrows(s.lb, s.assign, t.assign);
  }

  lemma RootOfGateway(s: State, uid: string)
    requires ApiOk(s) && uid in s.issued && s.issued[uid].key.kind == Sgc
    ensures s.issued[uid].root == uid
  {
  }

  lemma NoVmc(s: State, name: string)
    requires ApiOk(s) && Key(Lbc, name) !in s.api
    ensures Key(Vmc, name) !in s.api
  {
  }

  lemma RulesKnown(s: State)
    requires LbOk(s)
    ensures LR.RuleKeys(s.lb) <= s.assign.Keys
  {
  }

  /** More assignments do not disturb an image that does not use them. */
  lemma ImageGrows(lb: LB.Cloud, a: map<string, LR.Assigned>, b: map<string, LR.Assigned>)
    requires LR.Image(lb, a) && forall u :: u in a ==> u in b && b[u] == a[u]
    ensures LR.Image(lb, b)
  {
  }

  lemma SgcRemoveInv(s: State, a: Action)
    requires Inv(s) && a.SgcRemoveFinalizer?
    ensures Inv(SgcStep(s, a))
  {
    hide ApiOk, LbOk, NicOk, SecretsOk, LbWorkerOk, VmWorkerOk, ManagedName;
    if s.sgcPc == SRemoving {
      if Current(s.api, Sgc, s.sgcSnap) {
        SgcRemoved(s);
      } else {
        SgcMoves(s, SgcStep(s, a));
      }
    }
  }

  lemma SgcRemoved(s: State)
    requires Inv(s) && s.sgcPc == SRemoving && Current(s.api, Sgc, s.sgcSnap)
    ensures Inv(s.(api := FinalizerDropped(s.api, Key(Sgc, s.sgcSnap.name)), sgcPc := SIdle))
  {
    hide ApiOk, LR.Image, LR.RuleKeys, NicOk, SecretsOk, LosesAtMost, LbWorkerOk, VmWorkerOk, ManagedName, FinalizerDropped;
    var key, uid := Key(Sgc, s.sgcSnap.name), s.sgcSnap.obj.uid;
    var t := s.(api := FinalizerDropped(s.api, key), sgcPc := SIdle);
    DropOk(s, t, key);
    VmcBeside(s, t, key);
    LbKept(s, t, Sgc, uid);
    NicKept(s, t, Sgc, uid);
    SecretsKept(s, t, Sgc, uid);
    LbWorkerKept(s, t, Sgc, uid);
    VmWorkerKept(s, t, Sgc, uid);
  }

  /** Dropping a finalizer leaves each VM configuration beside its rule. */
  lemma VmcBeside(s: State, t: State, key: Key)
    requires LbOk(s) && key in s.api && (key.kind == Lbc ==> Key(Vmc, key.name) !in s.api) && t.api == FinalizerDropped(s.api, key)
    ensures forall name :: Key(Vmc, name) in t.api ==>
              Key(Lbc, name) in t.api && t.api[Key(Lbc, name)].uid in LR.RuleKeys(s.lb)
  {
  }

  // ---------------------------------------------------------------- steps of the load balancer controller

  lemma LbMoves(s: State, t: State)
    requires Inv(s) && LbWorkerOk(t) && t == s.(lbPc := t.lbPc, lbSnap := t.lbSnap)
    ensures Inv(t)
  {
    hide LR.Image, LR.RuleKeys, NicOk, VmWorkerOk, SgcWorkerOk, LbWorkerOk, SecretsOk;
    SameApi(s, t);
    LbKept(s, t, Sgc, "");
    NicKept(s, t, Sgc, "");
    SecretsKept(s, t, Lbc, "");
    SgcWorkerKept(s, t, Lbc, "");
    VmWorkerKept(s, t, Sgc, "");
  }

  lemma LbFetchInv(s: State, a: Action)
    requires Inv(s) && (a.LbFetch? || a.LbStop?)
    ensures Inv(LbStep(s, a))
  {
    hide Inv;
    if a.LbStop? {
      LbStopped(s);
    } else if LbStep(s, a) != s {
      LbPicked(s, a.name, if s.api[Key(Lbc, a.name)].deleting then LDropVmc else LAdding);
    }
  }

  lemma LbStopped(s: State)
    requires Inv(s)
    ensures Inv(s.(lbPc := LIdle))
  {
    hide ApiOk, LbOk, NicOk, VmWorkerOk, SgcWorkerOk, SecretsOk;
    LbMoves(s, s.(lbPc := LIdle));
  }

  lemma LbPicked(s: State, name: string, pc: LbPc)
    requires Inv(s) && Key(Lbc, name) in s.api && (pc == LAdding || (pc == LDropVmc && s.api[Key(Lbc, name)].finalizer))
    ensures Inv(s.(lbPc := pc, lbSnap := Snapshot(name, s.api[Key(Lbc, name)])))
  {
    hide ApiOk, LbOk, NicOk, VmWorkerOk, SgcWorkerOk, SecretsOk, LR.RuleKeys;
    ObjectFacts(s, Key(Lbc, name));
    LbMoves(s, s.(lbPc := pc, lbSnap := Snapshot(name, s.api[Key(Lbc, name)])));
  }

  lemma LbAddInv(s: State, a: Action)
    requires Inv(s) && a.LbAddFinalizer?
    ensures Inv(LbStep(s, a))
  {
    hide ApiOk, LbOk, NicOk, SecretsOk, SgcWorkerOk, VmWorkerOk, LR.RuleKeys;
    if s.lbPc == LAdding {
      if s.lbSnap.obj.finalizer || !Current(s.api, Lbc, s.lbSnap) {
        LbMoves(s, LbStep(s, a));
      } else {
        LbAdded(s);
      }
    }
  }

  lemma LbAdded(s: State)
    requires Inv(s) && s.lbPc == LAdding && Current(s.api, Lbc, s.lbSnap)
    ensures var key := Key(Lbc, s.lbSnap.name);
            Inv(s.(api := s.api[key := WithFinalizer(s.api[key])], lbPc := LRule))
  {
    hide ApiOk, LbOk, NicOk, SecretsOk, Keeps, SgcWorkerOk, VmWorkerOk, LR.RuleKeys;
    var key := Key(Lbc, s.lbSnap.name);
    var mid := s.(api := s.api[key := WithFinalizer(s.api[key])]);
    ObjectFacts(s, key);
    EditOk(s, mid, key, WithFinalizer(s.api[key]));
    Quiet(s, mid);
    LbMoves(mid, mid.(lbPc := LRule));
  }

  lemma LbDropVmcInv(s: State, a: Action)
    requires Inv(s) && a.LbDropVmc?
    ensures Inv(LbStep(s, a))
  {
    hide ApiOk, LbOk, NicOk, VmWorkerOk, SgcWorkerOk, SecretsOk, LR.RuleKeys;
    var t := LbStep(s, a);
    if t != s {
      var mid := s.(api := t.api);
      DeletedOk(s, mid, Key(Vmc, s.lbSnap.name));
      Quiet(s, mid);
      LbMoves(mid, t);
    }
  }

  /** The load balancer moves from one image to the next; only the worker's own configuration enters or leaves. */
  lemma RuleOutcomeImage(s: State, found: bool, needLB: bool, env: LB.Env)
    requires Inv(s) && s.lbPc != LIdle && env.newIp != ""
    ensures var o := RuleOutcome(s, found, needLB, env); var uid := s.lbSnap.obj.uid;
            LR.Image(o.cloud, s.assign) &&
            (o.cloud == s.lb || o.result.Ok? ||
             LR.RuleKeys(o.cloud) == if needLB then LR.RuleKeys(s.lb) + {uid} else LR.RuleKeys(s.lb) - {uid}) &&
            (o.result.Ok? ==>
             LR.RuleKeys(o.cloud) == if needLB then LR.RuleKeys(s.lb) + {uid} else LR.RuleKeys(s.lb) - {uid})
  {
    hide LR.Image, LR.RuleKeys, NicOk, VmWorkerOk, SgcWorkerOk, SecretsOk, LB.Reconcile;
    var o := s.lbSnap.obj;
    var e := LR.Event(LB.Config(o.uid, o.owner, PROBE_PORT), if found then Ok(o.pool) else Err(LB.PoolNotFound), needLB, env);
    assert OriginOk(s, o.uid) && Assigned(s, o.uid);
    LR.StepImage(s.lb, e, s.assign);
  }

  lemma LbRuleInv(s: State, a: Action)
    requires Inv(s) && (a.LbRule? || a.LbDropRule?)
    ensures Inv(LbStep(s, a))
  {
    hide Inv, RuleReconciled;
    RuleInv(s, a.found, a.LbRule?, a.env);
  }

  lemma RuleInv(s: State, found: bool, needLB: bool, env: LB.Env)
    requires Inv(s)
    ensures Inv(RuleReconciled(s, found, needLB, env))
  {
    hide LR.Image, LR.RuleKeys, NicOk, VmWorkerOk, SgcWorkerOk, SecretsOk, RuleOutcome, ApiOk, LbOk;
    if s.lbPc == (if needLB then LRule else LDropRule) && env.newIp != "" {
      var t := RuleReconciled(s, found, needLB, env);
      RuleOutcomeImage(s, found, needLB, env);
      SameApi(s, t);
      LbSwapped(s, t, needLB);
      NicKept(s, t, Sgc, "");
      SecretsKept(s, t, Lbc, "");
      SgcWorkerKept(s, t, Lbc, "");
      VmWorkerKept(s, t, Sgc, "");
    }
  }

  lemma LbSwapped(s: State, t: State, needLB: bool)
    requires LbOk(s) && LbWorkerOk(s) && ApiOk(s)
    requires t == s.(lb := t.lb, lbPc := t.lbPc)
    requires s.lbPc == if needLB then LRule else LDropRule
    requires LR.Image(t.lb, s.assign)
    requires var uid := s.lbSnap.obj.uid;
             LR.RuleKeys(t.lb) == LR.RuleKeys(s.lb) ||
             LR.RuleKeys(t.lb) == if needLB then LR.RuleKeys(s.lb) + {uid} else LR.RuleKeys(s.lb) - {uid}
    ensures LbOk(t)
  {
    hide LR.Image, LR.RuleKeys, ApiOk;
    LiveReads(s, t);
    forall name | Key(Vmc, name) in t.api
      ensures t.api[Key(Lbc, name)].uid in LR.RuleKeys(t.lb)
    {
      ObjectFacts(s, Key(Lbc, name));
    }
  }

  /** A VM configuration appears only beside an installed rule. */
  lemma LbCreateInv(s: State, a: Action)
    requires Inv(s) && a.LbCreateVmc?
    ensures Inv(LbStep(s, a))
  {
    hide ApiOk, LbOk, NicOk, SecretsOk, SgcWorkerOk, VmWorkerOk, LR.RuleKeys;
    var key := Key(Vmc, s.lbSnap.name);
    if s.lbPc == LCreating {
      if key !in s.api {
        if Unused(s, a.uid) {
          LbCreateFresh(s, a);
        }
      } else if s.api[key].owner != s.lbSnap.obj.uid {
        LbMoves(s, LbStep(s, a));
      } else {
        LbPatches(s);
      }
    }
  }

  lemma LbPatches(s: State)
    requires Inv(s) && s.lbPc == LCreating
    requires Key(Vmc, s.lbSnap.name) in s.api && s.api[Key(Vmc, s.lbSnap.name)].owner == s.lbSnap.obj.uid
    ensures var key := Key(Vmc, s.lbSnap.name);
            Inv(s.(api := s.api[key := Patched(s.api[key], s.lbSnap.obj)], lbPc := LIdle))
  {
    hide ApiOk, LbOk, NicOk, SecretsOk, Keeps, SgcWorkerOk, VmWorkerOk, LR.RuleKeys;
    var key := Key(Vmc, s.lbSnap.name);
    var o := Patched(s.api[key], s.lbSnap.obj);
    var mid := s.(api := s.api[key := o]);
    ObjectFacts(s, key);
    ObjectFacts(s, Key(Lbc, s.lbSnap.name));
    EditOk(s, mid, key, o);
    Quiet(s, mid);
    LbMoves(mid, mid.(lbPc := LIdle));
  }

  lemma LbCreateFresh(s: State, a: Action)
    requires Inv(s) && a.LbCreateVmc? && s.lbPc == LCreating && Key(Vmc, s.lbSnap.name) !in s.api && Unused(s, a.uid)
    ensures Inv(LbStep(s, a))
  {
    hide LbOk, LR.RuleKeys, NicOk, VmWorkerOk, SgcWorkerOk, SecretsOk, ApiOk, Fold;
    var t := LbStep(s, a);
    CreateOk(s, t, Key(Vmc, s.lbSnap.name), s.lbSnap, a.uid);
    BesideRule(s, t, Key(Vmc, s.lbSnap.name));
    NicKept(s, t, Sgc, "");
    SecretsKept(s, t, Lbc, "");
    SgcWorkerKept(s, t, Lbc, "");
    VmWorkerKept(s, t, Sgc, "");
  }

  lemma BesideRule(s: State, t: State, key: Key)
    requires LbOk(s) && LbWorkerOk(s) && s.lbPc == LCreating && key == Key(Vmc, s.lbSnap.name) && Keeps(s, t)
    requires t.lb == s.lb && t.assign == s.assign && t.api.Keys == s.api.Keys + {key}
    requires forall k :: k in s.api && k != key ==> t.api[k] == s.api[k]
    requires forall u :: u in t.issued && u !in s.issued ==> t.issued[u].key.kind != Lbc
    ensures LbOk(t)
  {
    hide LR.Image, LR.RuleKeys;
    LbKept(s, t, Sgc, "");
  }

  lemma LbRemoveInv(s: State, a: Action)
    requires Inv(s) && a.LbRemoveFinalizer?
    ensures Inv(LbStep(s, a))
  {
    hide ApiOk, LbOk, NicOk, SecretsOk, SgcWorkerOk, VmWorkerOk, ManagedName;
    if s.lbPc == LRemoving {
      if Current(s.api, Lbc, s.lbSnap) {
        LbRemoved(s);
      } else {
        LbMoves(s, LbStep(s, a));
      }
    }
  }

  lemma LbRemoved(s: State)
    requires Inv(s) && s.lbPc == LRemoving && Current(s.api, Lbc, s.lbSnap)
    ensures Inv(s.(api := FinalizerDropped(s.api, Key(Lbc, s.lbSnap.name)), lbPc := LIdle))
  {
    hide ApiOk, LR.Image, LR.RuleKeys, NicOk, SecretsOk, LosesAtMost, SgcWorkerOk, VmWorkerOk, ManagedName, FinalizerDropped;
    var key, uid := Key(Lbc, s.lbSnap.name), s.lbSnap.obj.uid;
    var t := s.(api := FinalizerDropped(s.api, key), lbPc := LIdle);
    DropOk(s, t, key);
    VmcBeside(s, t, key);
    LbKept(s, t, Lbc, uid);
    NicKept(s, t, Lbc, uid);
    SecretsKept(s, t, Lbc, uid);
    SgcWorkerKept(s, t, Lbc, uid);
    VmWorkerKept(s, t, Lbc, uid);
  }


  // ---------------------------------------------------------------- steps of the VM controller

  /** A step of the VM controller or of scaling: interfaces, prefixes and the worker move, the rest stays. */
  lemma AzureMoves(s: State, t: State)
    requires Inv(s) && NicOk(t) && VmWorkerOk(t)
    requires t == s.(nics := t.nics, base := t.base, managed := t.managed, prefixes := t.prefixes,
                     vmPc := t.vmPc, vmSnap := t.vmSnap, vmQueue := t.vmQueue)
    ensures Inv(t)
  {
    hide LR.Image, LR.RuleKeys, NicOk, VmWorkerOk, SgcWorkerOk, LbWorkerOk, SecretsOk;
    SameApi(s, t);
    LbKept(s, t, Sgc, "");
    SecretsKept(s, t, Lbc, "");
    SgcWorkerKept(s, t, Lbc, "");
    LbWorkerKept(s, t, Sgc, "");
  }

  lemma VmMoves(s: State, t: State)
    requires Inv(s) && VmWorkerOk(t) && t == s.(vmPc := t.vmPc, vmSnap := t.vmSnap, vmQueue := t.vmQueue)
    ensures Inv(t)
  {
    hide LbOk, NicOk, VmWorkerOk, SgcWorkerOk, LbWorkerOk, SecretsOk;
    SameApi(s, t);
    NicKept(s, t, Sgc, "");
    AzureMoves(s, t);
  }

  /** A listing holds exactly the named configurations that exist and are not being deleted, as they are. */
  lemma {:induction false} ListedAre(api: map<Key, Obj>, names: seq<string>)
    ensures forall snap :: snap in Listed(api, names) <==>
              snap.name in names && Key(Vmc, snap.name) in api && !api[Key(Vmc, snap.name)].deleting && snap.obj == api[Key(Vmc, snap.name)]
  {
    if names != [] {
      ListedAre(api, names[1..]);
      assert names == [names[0]] + names[1..];
    }
  }

  lemma {:induction false} ListedOk(s: State, names: seq<string>, i: nat)
    requires ApiOk(s) && i < |Listed(s.api, names)|
    ensures SnapOk(s, Vmc, Listed(s.api, names)[i])
  {
    hide ApiOk;
    var key := Key(Vmc, names[0]);
    if key in s.api && !s.api[key].deleting {
      ObjectFacts(s, key);
      if i > 0 {
        ListedOk(s, names[1..], i - 1);
      }
    } else {
      ListedOk(s, names[1..], i);
    }
  }

  lemma VmFetchInv(s: State, a: Action)
    requires Inv(s) && (a.VmFetch? || a.VmStop? || a.VmRestart? || a.VmNext?)
    ensures Inv(VmStep(s, a))
  {
    hide ApiOk, LbOk, NicOk, LbWorkerOk, SgcWorkerOk, SecretsOk, VmPcOk, ManagedName, SnapOk, Live;
    match a {
      case VmFetch(name) =>
        if s.vmPc == VIdle && s.vmQueue == [] && Key(Vmc, name) in s.api && Key(Sgc, name) in s.api {
          VmFetchStarts(s, name);
        }
      case VmStop => VmStopped(s, s.vmQueue);
      case VmRestart => VmStopped(s, []);
      case VmNext =>
        if s.vmPc == VIdle && s.vmQueue != [] {
          VmStarted(s, s.vmQueue[0], s.vmQueue[1..]);
        }
    }
  }

  lemma VmStopped(s: State, queue: seq<Snapshot>)
    requires Inv(s) && (queue == s.vmQueue || queue == [])
    ensures Inv(s.(vmPc := VIdle, vmQueue := queue))
  {
    hide ApiOk, LbOk, NicOk, LbWorkerOk, SgcWorkerOk, SecretsOk, VmPcOk;
    VmMoves(s, s.(vmPc := VIdle, vmQueue := queue));
  }

  lemma VmStarted(s: State, snap: Snapshot, queue: seq<Snapshot>)
    requires Inv(s) && SnapOk(s, Vmc, snap) && (queue == [] || (s.vmQueue != [] && queue == s.vmQueue[1..]))
    ensures Inv(s.(vmPc := VAdding, vmSnap := snap, vmQueue := queue))
  {
    hide ApiOk, LbOk, NicOk, LbWorkerOk, SgcWorkerOk, SecretsOk, ManagedName;
    VmMoves(s, s.(vmPc := VAdding, vmSnap := snap, vmQueue := queue));
  }

  lemma VmFetchStarts(s: State, name: string)
    requires Inv(s) && s.vmPc == VIdle && s.vmQueue == [] && Key(Vmc, name) in s.api && Key(Sgc, name) in s.api
    ensures Inv(VmStep(s, VmFetch(name)))
  {
    hide ApiOk, LbOk, NicOk, LbWorkerOk, SgcWorkerOk, SecretsOk, Foreign, ManagedName;
    var o := s.api[Key(Vmc, name)];
    ObjectFacts(s, Key(Vmc, name));
    if !o.deleting {
      VmStarted(s, Snapshot(name, o), []);
    } else {
      VmMoves(s, s.(vmPc := VTemplate(false, "", false), vmSnap := Snapshot(name, o)));
    }
  }

  lemma VmListInv(s: State, a: Action)
    requires Inv(s) && a.VmList?
    ensures Inv(VmStep(s, a))
  {
    hide ApiOk, LbOk, NicOk, LbWorkerOk, SgcWorkerOk, SecretsOk, VmPcOk, Listed;
    var t := VmStep(s, a);
    if t != s {
      forall i | 0 <= i < |t.vmQueue|
        ensures SnapOk(t, Vmc, t.vmQueue[i])
      {
        ListedOk(s, a.names, i);
      }
      VmMoves(s, t);
    }
  }

  lemma VmAddInv(s: State, a: Action)
    requires Inv(s) && a.VmAddFinalizer?
    ensures Inv(VmStep(s, a))
  {
    hide ApiOk, LbOk, NicOk, SecretsOk, SgcWorkerOk, LbWorkerOk, ManagedName;
    if s.vmPc == VAdding {
      if s.vmSnap.obj.finalizer || !Current(s.api, Vmc, s.vmSnap) {
        VmMoves(s, VmStep(s, a));
      } else {
        VmAdded(s);
      }
    }
  }

  lemma VmAdded(s: State)
    requires Inv(s) && s.vmPc == VAdding && Current(s.api, Vmc, s.vmSnap)
    ensures var key := Key(Vmc, s.vmSnap.name);
            Inv(s.(api := s.api[key := WithFinalizer(s.api[key])], vmPc := VPrefix))
  {
    hide ApiOk, LbOk, NicOk, SecretsOk, Keeps, SgcWorkerOk, LbWorkerOk, ManagedName;
    var key := Key(Vmc, s.vmSnap.name);
    var mid := s.(api := s.api[key := WithFinalizer(s.api[key])]);
    ObjectFacts(s, key);
    EditOk(s, mid, key, WithFinalizer(s.api[key]));
    Quiet(s, mid);
    VmMoves(mid, mid.(vmPc := VPrefix));
  }

  /** A managed prefix is created under the finalizer, before any IP configuration can draw on it. */
  lemma VmPrefixInv(s: State, a: Action)
    requires Inv(s) && a.VmPrefix?
    ensures Inv(VmStep(s, a))
  {
    hide LbOk, NicOk, SgcWorkerOk, LbWorkerOk, SecretsOk, ApiOk, Foreign, ManagedName, VmWorkerOk;
    if s.vmPc == VPrefix && Template(s.vmSnap.obj.pool) !in s.nics {
      VmStopped(s, s.vmQueue);
    } else if s.vmPc == VPrefix {
      match s.vmSnap.obj.egress {
        case ManagedPrefix => VmPrefixed(s);
        case PrivateOnly => VmUnmanaged(s, "");
        case OwnPrefix(id) =>
          if id != "" && Foreign(id) {
            VmUnmanaged(s, id);
          } else {
            VmStopped(s, s.vmQueue);
          }
      }
    }
  }

  lemma VmUnmanaged(s: State, ref: string)
    requires Inv(s) && s.vmPc == VPrefix && (ref == "" || Foreign(ref))
    ensures Inv(s.(vmPc := VTemplate(true, ref, false)))
  {
    hide LbOk, NicOk, SgcWorkerOk, LbWorkerOk, SecretsOk, ApiOk, Foreign, ManagedName, SnapOk, Live;
    var t := s.(vmPc := VTemplate(true, ref, false));
    WorkerReads(s, t);
    VmMoves(s, t);
  }

  lemma VmPrefixed(s: State)
    requires Inv(s) && s.vmPc == VPrefix
    ensures var m := ManagedName(s.vmSnap.obj.uid);
            Inv(s.(prefixes := s.prefixes + {m}, vmPc := VTemplate(true, PrefixId(m), true)))
  {
    hide LbOk, SgcWorkerOk, LbWorkerOk, SecretsOk, ApiOk, NR.Base, NR.ManagedList, NR.Shape, Clean, RefersTo, Foreign, ManagedName;
    var m := ManagedName(s.vmSnap.obj.uid);
    var t := s.(prefixes := s.prefixes + {m}, vmPc := VTemplate(true, PrefixId(m), true));
    UidOfName(s.vmSnap.obj.uid);
    forall place | place in t.nics
      ensures PlaceOk(t, place)
    {
      assert PlaceOk(s, place);
    }
    AzureMoves(s, t);
  }

  /** An entry of the new managed list is the worker's own, as wanted, or an old one. */
  lemma UpdatedEntry(ms: seq<N.IpConfig>, name: string, want: bool, ref: string, subnet: string, i: nat)
    requires NR.ManagedList(ms) && i < |NR.Updated(ms, name, want, N.ExpectedIn(name, ref, subnet))|
    ensures var c := NR.Updated(ms, name, want, N.ExpectedIn(name, ref, subnet))[i];
            if c.name == name then want && SamePrefix(c, ref) else exists j :: 0 <= j < |ms| && ms[j] == c
  {
    var expected := N.ExpectedIn(name, ref, subnet);
    var next := NR.Updated(ms, name, want, expected);
    NR.NamedOnce(ms, name);
    var k := FirstIndex(ms, N.ConfigNamed(name));
    if next[i].name != name {
      assert ms[if next == ms || i < k then i else i + 1] == next[i];
    } else if next == ms {
      assert i == k;
    }
  }

  lemma ForeignClean(c: N.IpConfig, ref: string)
    requires SamePrefix(c, ref) && (ref == "" || Foreign(ref))
    ensures Clean(c)
  {
  }

  /** One place reconciled: its shape follows the new managed list, and the worker's own entry is settled there. */
  lemma NicStepPlace(s: State, place: Place, want: bool, ref: string, own: bool, next: VmPc)
    requires NicOk(s) && VmWorkerOk(s) && place in s.nics && place.pool == s.vmSnap.obj.pool
    requires SnapOk(s, Vmc, s.vmSnap) && Live(s, Vmc, s.vmSnap.obj.uid)
    requires RefOk(s, ManagedName(s.vmSnap.obj.uid), ref, own)
    ensures var t := NicStep(s, place, want, ref, next); var m := ManagedName(s.vmSnap.obj.uid);
            t == s.(nics := t.nics, managed := t.managed, vmPc := next) &&
            t.nics.Keys == s.nics.Keys && t.managed.Keys == s.managed.Keys &&
            (forall pl :: pl in s.nics && pl != place ==> t.nics[pl] == s.nics[pl] && t.managed[pl] == s.managed[pl]) &&
            PlaceOk(t, place) && Settled(t, place, m, want, ref)
  {
    hide N.Reconciled, NR.Updated, NR.Shape, NR.Base, NR.ManagedList, EntryOk, SamePrefix, Foreign, ManagedName;
    var m := ManagedName(s.vmSnap.obj.uid);
    var ms := s.managed[place];
    assert PlaceOk(s, place);
    UidOfName(s.vmSnap.obj.uid);
    NR.ReconcileShape(s.base[place], ms, m, ref, BackendPoolId(place.pool), want);
    var t := NicStep(s, place, want, ref, next);
    forall i | 0 <= i < |t.managed[place]|
      ensures EntryOk(t, place, t.managed[place][i])
      ensures t.managed[place][i].name == m ==> want && SamePrefix(t.managed[place][i], ref)
    {
      var c := t.managed[place][i];
      UpdatedEntry(ms, m, want, ref, N.SubnetOf(s.base[place]), i);
      if c.name == m {
        OwnEntry(s, t, place, c, ref, own);
      } else {
        var j :| 0 <= j < |ms| && ms[j] == c;
        EntryReads(s, t, place, place, ms[j]);
      }
    }
  }

  lemma OwnEntry(s: State, t: State, place: Place, c: N.IpConfig, ref: string, own: bool)
    requires SnapOk(s, Vmc, s.vmSnap) && Live(s, Vmc, s.vmSnap.obj.uid) && place.pool == s.vmSnap.obj.pool
    requires c.name == ManagedName(s.vmSnap.obj.uid) && SamePrefix(c, ref) && RefOk(s, c.name, ref, own)
    requires t.api == s.api && t.issued == s.issued && t.prefixes == s.prefixes
    ensures EntryOk(t, place, c)
  {
    hide SamePrefix, Clean, Foreign;
    UidOfName(s.vmSnap.obj.uid);
    if !own {
      ForeignClean(c, ref);
    }
  }

  lemma NicStepInv(s: State, t: State, place: Place)
    requires Inv(s) && place in s.nics && VmWorkerOk(t)
    requires t == s.(nics := t.nics, managed := t.managed, vmPc := t.vmPc)
    requires t.nics.Keys == s.nics.Keys && t.managed.Keys == s.managed.Keys
    requires forall pl :: pl in s.nics && pl != place ==> t.nics[pl] == s.nics[pl] && t.managed[pl] == s.managed[pl]
    requires PlaceOk(t, place)
    ensures Inv(t)
  {
    hide ApiOk, LbOk, SgcWorkerOk, LbWorkerOk, SecretsOk, VmWorkerOk, NR.Base, NR.ManagedList, NR.Shape, Clean, RefersTo;
    forall pl | pl in t.nics
      ensures PlaceOk(t, pl)
    {
      assert PlaceOk(s, pl);
    }
    AzureMoves(s, t);
  }

  /** The queue and the worker's copy read the API only. */
  lemma WorkerReads(s: State, t: State)
    requires VmWorkerOk(s) && t.api == s.api && t.issued == s.issued && t.vmSnap == s.vmSnap && t.vmQueue == s.vmQueue
    ensures s.vmPc != VIdle ==> SnapOk(t, Vmc, t.vmSnap)
    ensures s.vmPc != VIdle && s.vmPc != VAdding ==> Live(t, Vmc, t.vmSnap.obj.uid)
    ensures forall i :: 0 <= i < |t.vmQueue| ==> SnapOk(t, Vmc, t.vmQueue[i])
  {
  }

  lemma VmTemplateInv(s: State, a: Action)
    requires Inv(s) && a.VmTemplate?
    ensures Inv(VmStep(s, a))
  {
    hide ApiOk, LbOk, NicOk, SgcWorkerOk, LbWorkerOk, SecretsOk, NicStep, PlaceOk, Settled, Foreign, Clean, ManagedName, SnapOk, Live;
    if s.vmPc.VTemplate? {
      var place := Template(s.vmSnap.obj.pool);
      var next := VListing(s.vmPc.want, s.vmPc.ref, s.vmPc.own);
      var t := NicStep(s, place, s.vmPc.want, s.vmPc.ref, next);
      if place in s.nics {
        NicStepPlace(s, place, s.vmPc.want, s.vmPc.ref, s.vmPc.own, next);
        WorkerReads(s, t);
        NicStepInv(s, t, place);
      } else {
        NicStepStops(s, place, s.vmPc.want, s.vmPc.ref, next);
        WorkerReads(s, t);
        VmMoves(s, t);
      }
    }
  }

  lemma NicStepStops(s: State, place: Place, want: bool, ref: string, next: VmPc)
    requires place !in s.nics
    ensures NicStep(s, place, want, ref, next) == s.(vmPc := VIdle)
  {
  }

  lemma VmInstanceInv(s: State, a: Action)
    requires Inv(s) && a.VmInstance?
    ensures Inv(VmStep(s, a))
  {
    hide Inv, NicStep, ManagedName;
    if s.vmPc.VInstances? && a.id in s.vmPc.todo {
      if Instance(s.vmSnap.obj.pool, a.id) in s.nics {
        InstanceHere(s, a.id);
      } else {
        InstanceGone(s, a.id);
      }
    }
  }

  ghost function Next(pc: VmPc, id: string): VmPc
    requires pc.VInstances?
  {
    VInstances(pc.want, pc.ref, pc.own, pc.todo - {id})
  }

  lemma InstanceHere(s: State, id: string)
    requires Inv(s) && s.vmPc.VInstances? && id in s.vmPc.todo && Instance(s.vmSnap.obj.pool, id) in s.nics
    ensures Inv(NicStep(s, Instance(s.vmSnap.obj.pool, id), s.vmPc.want, s.vmPc.ref, Next(s.vmPc, id)))
  {
    hide ApiOk, LbOk, NicOk, SgcWorkerOk, LbWorkerOk, SecretsOk, NicStep, PlaceOk, Foreign, Clean, SamePrefix, ManagedName, SnapOk, Live;
    var place, next := Instance(s.vmSnap.obj.pool, id), Next(s.vmPc, id);
    var t := NicStep(s, place, s.vmPc.want, s.vmPc.ref, next);
    NicStepPlace(s, place, s.vmPc.want, s.vmPc.ref, s.vmPc.own, next);
    WorkerReads(s, t);
    NicStepInv(s, t, place);
  }

  lemma InstanceGone(s: State, id: string)
    requires Inv(s) && s.vmPc.VInstances? && Instance(s.vmSnap.obj.pool, id) !in s.nics
    ensures Inv(NicStep(s, Instance(s.vmSnap.obj.pool, id), s.vmPc.want, s.vmPc.ref, Next(s.vmPc, id)))
  {
    hide ApiOk, LbOk, NicOk, SgcWorkerOk, LbWorkerOk, SecretsOk, NicStep, PlaceOk, Foreign, Clean, SamePrefix, ManagedName, SnapOk, Live;
    var place, next := Instance(s.vmSnap.obj.pool, id), Next(s.vmPc, id);
    var t := NicStep(s, place, s.vmPc.want, s.vmPc.ref, next);
    NicStepStops(s, place, s.vmPc.want, s.vmPc.ref, next);
    WorkerReads(s, t);
    VmMoves(s, t);
  }

  lemma VmListInstancesInv(s: State, a: Action)
    requires Inv(s) && a.VmListInstances?
    ensures Inv(VmStep(s, a))
  {
    hide Inv, InstancesListed;
    InstancesListedInv(s);
  }

  lemma InstancesListedInv(s: State)
    requires Inv(s)
    ensures Inv(InstancesListed(s))
  {
    hide ApiOk, LbOk, NicOk, SgcWorkerOk, LbWorkerOk, SecretsOk, Foreign, Clean, SamePrefix, ManagedName, Settled, SnapOk, Live;
    if s.vmPc.VListing? {
      var t := InstancesListed(s);
      forall id | Instance(s.vmSnap.obj.pool, id) in s.managed
        ensures id in t.vmPc.todo
      {
        var pl := Instance(s.vmSnap.obj.pool, id);
        assert pl in s.nics && pl.Instance? && pl.pool == s.vmSnap.obj.pool && pl.id == id;
      }
      SettledReads(s, t, Template(s.vmSnap.obj.pool), ManagedName(s.vmSnap.obj.uid), s.vmPc.want, s.vmPc.ref);
      WorkerReads(s, t);
      VmMoves(s, t);
    }
  }

  lemma SettledReads(s: State, t: State, place: Place, name: string, want: bool, ref: string)
    requires t.managed == s.managed && (place in s.managed ==> Settled(s, place, name, want, ref))
    ensures place in t.managed ==> Settled(t, place, name, want, ref)
  {
  }

  /** Once the list is done every place is settled: the configuration's name appears in its own pool only. */
  lemma AllSettled(s: State, place: Place, i: nat)
    requires Inv(s) && s.vmPc.VInstances? && s.vmPc.todo == {} && !s.vmPc.own
    requires place in s.managed && i < |s.managed[place]| && s.managed[place][i].name == ManagedName(s.vmSnap.obj.uid)
    ensures s.vmPc.want && Clean(s.managed[place][i])
  {
    hide ApiOk, LbOk, SgcWorkerOk, LbWorkerOk, SecretsOk, Clean, SamePrefix, Foreign, NR.Base, NR.ManagedList, NR.Shape, ManagedName;
    assert PlaceOk(s, place);
    var c := s.managed[place][i];
    assert EntryOk(s, place, c);
    UidOfName(s.vmSnap.obj.uid);
    assert place.pool == s.vmSnap.obj.pool;
    if place.Template? {
      assert place == Template(s.vmSnap.obj.pool);
    } else {
      assert place == Instance(s.vmSnap.obj.pool, place.id);
    }
    ForeignClean(c, s.vmPc.ref);
  }

  lemma VmAfterInv(s: State, a: Action)
    requires Inv(s) && a.VmAfterInstances?
    ensures Inv(VmStep(s, a))
  {
    hide ApiOk, LbOk, NicOk, SgcWorkerOk, LbWorkerOk, SecretsOk, Clean, SamePrefix, Foreign, Settled, ManagedName, SnapOk, Live;
    var t := VmStep(s, a);
    if t != s {
      if t.vmPc.VDropping? {
        forall place, i | place in s.managed && 0 <= i < |s.managed[place]| && s.managed[place][i].name == ManagedName(s.vmSnap.obj.uid)
          ensures s.vmPc.want && Clean(s.managed[place][i])
        {
          AllSettled(s, place, i);
        }
        assert VmPcOk(t);
      }
      WorkerReads(s, t);
      VmMoves(s, t);
    }
  }

  /** The managed prefix goes only when no IP configuration draws on it. */
  lemma VmDropPrefixInv(s: State, a: Action)
    requires Inv(s) && a.VmDropPrefix?
    ensures Inv(VmStep(s, a))
  {
    hide ApiOk, LbOk, NicOk, SgcWorkerOk, LbWorkerOk, SecretsOk, Clean, ManagedName, SnapOk, Live;
    if s.vmPc.VDropping? {
      var t := VmStep(s, a);
      PrefixDropped(s, t);
      WorkerReads(s, t);
      AzureMoves(s, t);
    }
  }

  lemma PrefixDropped(s: State, t: State)
    requires NicOk(s) && s.vmPc.VDropping? && VmPcOk(s)
    requires t == s.(prefixes := s.prefixes - {ManagedName(s.vmSnap.obj.uid)}, vmPc := t.vmPc)
    requires s.managed.Keys == s.nics.Keys
    ensures NicOk(t)
  {
    hide Clean, RefersTo, NR.Base, NR.ManagedList, NR.Shape, ManagedName;
    forall place | place in t.nics
      ensures PlaceOk(t, place)
    {
      assert PlaceOk(s, place);
      forall i | 0 <= i < |t.managed[place]|
        ensures EntryOk(t, place, t.managed[place][i])
      {
        assert EntryOk(s, place, s.managed[place][i]);
      }
    }
  }

  lemma VmRemoveInv(s: State, a: Action)
    requires Inv(s) && a.VmRemoveFinalizer?
    ensures Inv(VmStep(s, a))
  {
    hide ApiOk, LbOk, NicOk, SecretsOk, SgcWorkerOk, LbWorkerOk, ManagedName;
    if s.vmPc == VRemoving {
      if Current(s.api, Vmc, s.vmSnap) {
        VmRemoved(s);
      } else {
        VmMoves(s, VmStep(s, a));
      }
    }
  }

  lemma VmRemoved(s: State)
    requires Inv(s) && s.vmPc == VRemoving && Current(s.api, Vmc, s.vmSnap)
    ensures Inv(s.(api := FinalizerDropped(s.api, Key(Vmc, s.vmSnap.name)), vmPc := VIdle))
  {
    hide ApiOk, LR.Image, LR.RuleKeys, NicOk, SecretsOk, LosesAtMost, SgcWorkerOk, LbWorkerOk, ManagedName, FinalizerDropped;
    var key, uid := Key(Vmc, s.vmSnap.name), s.vmSnap.obj.uid;
    var t := s.(api := FinalizerDropped(s.api, key), vmPc := VIdle);
    DropOk(s, t, key);
    VmcBeside(s, t, key);
    LbKept(s, t, Vmc, uid);
    NicKept(s, t, Vmc, uid);
    SecretsKept(s, t, Vmc, uid);
    SgcWorkerKept(s, t, Vmc, uid);
    LbWorkerKept(s, t, Vmc, uid);
  }

  // ---------------------------------------------------------------- scaling

  /** A new instance copies the model's network profile; a removed one takes its own away. */
  lemma ScaleInv(s: State, a: Action)
    requires Inv(s) && (a.ScaleOut? || a.ScaleIn?)
    ensures Inv(ScaleStep(s, a))
  {
    hide ApiOk, LbOk, NicOk, SgcWorkerOk, LbWorkerOk, SecretsOk, VmWorkerOk;
    var t := ScaleStep(s, a);
    ScaleNics(s, a);
    ScaleWorker(s, a);
    AzureMoves(s, t);
  }

  lemma ScaleNics(s: State, a: Action)
    requires NicOk(s) && (a.ScaleOut? || a.ScaleIn?)
    ensures NicOk(ScaleStep(s, a))
  {
    hide PlaceOk, Live, UidOf;
    var t := ScaleStep(s, a);
    forall place | place in t.nics
      ensures PlaceOk(t, place)
    {
      PlaceReads(s, t, if place in s.nics then place else Template(a.pool), place);
    }
    LiveReads(s, t);
  }

  lemma PlaceReads(s: State, t: State, from: Place, place: Place)
    requires from in s.nics && PlaceOk(s, from) && from.pool == place.pool
    requires t.api == s.api && t.issued == s.issued && t.prefixes == s.prefixes
    requires place in t.nics && t.nics[place] == s.nics[from]
    requires from in s.base ==> place in t.base && t.base[place] == s.base[from]
    requires from in s.managed ==> place in t.managed && t.managed[place] == s.managed[from]
    ensures PlaceOk(t, place)
  {
    hide NR.Base, NR.ManagedList, NR.Shape, EntryOk, BackendPoolId;
    forall i | 0 <= i < |t.managed[place]|
      ensures EntryOk(t, place, t.managed[place][i])
    {
      EntryReads(s, t, from, place, s.managed[from][i]);
    }
  }

  lemma EntryReads(s: State, t: State, from: Place, place: Place, c: N.IpConfig)
    requires EntryOk(s, from, c) && from.pool == place.pool
    requires t.api == s.api && t.issued == s.issued && t.prefixes == s.prefixes
    ensures EntryOk(t, place, c)
  {
  }

  lemma LiveReads(s: State, t: State)
    requires t.api == s.api && t.issued == s.issued
    ensures forall k, u :: Live(s, k, u) ==> Live(t, k, u)
  {
  }

  lemma ScaleWorker(s: State, a: Action)
    requires VmWorkerOk(s) && (a.ScaleOut? || a.ScaleIn?)
    ensures VmWorkerOk(ScaleStep(s, a))
  {
    hide Clean, SamePrefix, Foreign, ManagedName, SnapOk, Live;
    var t := ScaleStep(s, a);
    WorkerReads(s, t);
    if s.vmPc != VIdle {
      ScalePc(s, a);
    }
  }

  lemma ScalePc(s: State, a: Action)
    requires VmPcOk(s) && (a.ScaleOut? || a.ScaleIn?)
    ensures VmPcOk(ScaleStep(s, a))
  {
  }

  // ---------------------------------------------------------------- every run

  /** Nothing created yet, and scale sets no gateway has touched. */
  ghost predicate Initial(s: State) {
    s.api == map[] && s.secrets == {} && s.lb == LB.NoLb && s.prefixes == {} &&
    s.sgcPc == SIdle && s.lbPc == LIdle && s.vmPc == VIdle && s.vmQueue == [] &&
    s.issued == map[] && s.assign == map[] && s.base == s.nics && s.managed.Keys == s.nics.Keys &&
    forall place :: place in s.nics ==> NR.Base(s.nics[place], BackendPoolId(place.pool)) && s.managed[place] == []
  }

  lemma InitialInv(s: State)
    requires Initial(s)
    ensures Inv(s)
  {
    hide NR.Base, NR.Shape, BackendPoolId;
    forall place | place in s.nics
      ensures PlaceOk(s, place)
    {
      NR.ShapeEmpty(s.base[place], BackendPoolId(place.pool));
    }
  }

  /** No step of any controller, user or scaling breaks the invariant. */
  lemma UserInv(s: State, a: Action)
    requires Inv(s) && ByUser(a)
    ensures Inv(UserStep(s, a))
  {
    hide Inv, UserStep;
    match a {
      case CreateGateway(_, _, _, _) => CreateGatewayInv(s, a);
      case EditEgress(_, _) => UserStepInv(s, a);
      case Touch(_) => UserStepInv(s, a);
      case ApiDelete(_) => UserStepInv(s, a);
      case LoseSecret(_) => UserStepInv(s, a);
    }
  }

  lemma SgcInv(s: State, a: Action)
    requires Inv(s) && BySgc(a)
    ensures Inv(SgcStep(s, a))
  {
    hide Inv, SgcStep;
    match a {
      case SgcFetch(_) => SgcFetchInv(s, a);
      case SgcAddFinalizer => SgcAddInv(s, a);
      case SgcSecret => SgcSecretInv(s, a);
      case SgcCreateLbc(_) => SgcCreateInv(s, a);
      case SgcDropSecret => SgcDropInv(s, a);
      case SgcDropLbc => SgcDropInv(s, a);
      case SgcRemoveFinalizer => SgcRemoveInv(s, a);
      case SgcStop => SgcFetchInv(s, a);
    }
  }

  lemma LbInv(s: State, a: Action)
    requires Inv(s) && ByLb(a)
    ensures Inv(LbStep(s, a))
  {
    hide Inv, LbStep;
    match a {
      case LbFetch(_) => LbFetchInv(s, a);
      case LbAddFinalizer => LbAddInv(s, a);
      case LbRule(_, _) => LbRuleInv(s, a);
      case LbCreateVmc(_) => LbCreateInv(s, a);
      case LbDropVmc => LbDropVmcInv(s, a);
      case LbDropRule(_, _) => LbRuleInv(s, a);
      case LbRemoveFinalizer => LbRemoveInv(s, a);
      case LbStop => LbFetchInv(s, a);
    }
  }

  lemma VmInv(s: State, a: Action)
    requires Inv(s) && !Scales(a) && !ByUser(a) && !BySgc(a) && !ByLb(a)
    ensures Inv(VmStep(s, a))
  {
    hide Inv, VmStep;
    match a {
      case VmFetch(_) => VmFetchInv(s, a);
      case VmList(_) => VmListInv(s, a);
      case VmNext => VmFetchInv(s, a);
      case VmAddFinalizer => VmAddInv(s, a);
      case VmPrefix => VmPrefixInv(s, a);
      case VmTemplate => VmTemplateInv(s, a);
      case VmListInstances => VmListInstancesInv(s, a);
      case VmInstance(_) => VmInstanceInv(s, a);
      case VmAfterInstances => VmAfterInv(s, a);
      case VmDropPrefix => VmDropPrefixInv(s, a);
      case VmRemoveFinalizer => VmRemoveInv(s, a);
      case VmStop => VmFetchInv(s, a);
      case VmRestart => VmFetchInv(s, a);
    }
  }

  /** Every step of the system keeps the invariant. */
  lemma StepInv(s: State, a: Action)
    requires Inv(s)
    ensures Inv(Step(s, a))
  {
    hide *;
    if Scales(a) {
      ScaledInv(s, a);
    } else if ByUser(a) {
      UserInv(s, a);
    } else if BySgc(a) {
      SgcInv(s, a);
    } else if ByLb(a) {
      LbInv(s, a);
    } else {
      VmInv(s, a);
    }
    StepIs(s, a);
  }

  lemma ScaledInv(s: State, a: Action)
    requires Inv(s) && Scales(a)
    ensures Inv(ScaleStep(s, a))
  {
    hide Inv, ScaleStep;
    ScaleInv(s, a);
  }

  lemma StepIs(s: State, a: Action)
    ensures Step(s, a) == if Scales(a) then ScaleStep(s, a) else if ByUser(a) then UserStep(s, a)
                          else if BySgc(a) then SgcStep(s, a) else if ByLb(a) then LbStep(s, a) else VmStep(s, a)
  {
  }

  ghost function Run(s: State, actions: seq<Action>): State {
    if actions == [] then s else Step(Run(s, actions[..|actions| - 1]), actions[|actions| - 1])
  }

  lemma {:induction false} RunInv(s: State, actions: seq<Action>)
    requires Initial(s)
    ensures Inv(Run(s, actions))
  {
    hide Inv, Step;
    if actions == [] {
      InitialInv(s);
    } else {
      RunInv(s, actions[..|actions| - 1]);
      StepInv(Run(s, actions[..|actions| - 1]), actions[|actions| - 1]);
    }
  }

  // ---------------------------------------------------------------- what it means

  /** A live child's gateway configuration is live. */
  lemma RootLive(s: State, kind: Kind, uid: string)
    requires ApiOk(s) && Live(s, kind, uid)
    ensures Live(s, Sgc, s.issued[uid].root)
    decreases if kind == Vmc then 2 else if kind == Lbc then 1 else 0
  {
  }

  lemma BackendOfRule(lb: LB.Cloud, assign: map<string, LR.Assigned>, uid: string)
    requires LR.Image(lb, assign) && uid in LR.RuleKeys(lb) && uid in assign
    ensures lb.HasLb? && lb.props.Some? && assign[uid].pool in Keys(lb.props.value.backends)
  {
  }

  /** No scale set model or instance ever lists a backend pool the load balancer does not have. */
  lemma MembershipHasBackend(s0: State, actions: seq<Action>, place: Place)
    requires Initial(s0)
    requires var s := Run(s0, actions); place in s.nics && NR.ListsPool(s.nics[place], BackendPoolId(place.pool))
    ensures var s := Run(s0, actions);
            s.lb.HasLb? && s.lb.props.Some? && place.pool in Keys(s.lb.props.value.backends)
  {
    hide Run, LR.Image, LR.RuleKeys, NR.Base, NR.ManagedList, NR.Shape, NR.ListsPool, Clean, RefersTo, BackendPoolId;
    var s := Run(s0, actions);
    RunInv(s0, actions);
    assert PlaceOk(s, place);
    NR.ShapeListsPool(s.base[place], s.managed[place], BackendPoolId(place.pool));
    assert EntryOk(s, place, s.managed[place][0]);
    var w := UidOf(s.managed[place][0].name);
    var vmc := s.issued[w].key;
    assert ObjectOk(s, vmc);
    var u := s.api[Key(Lbc, vmc.name)].uid;
    assert ObjectOk(s, Key(Lbc, vmc.name));
    assert Assigned(s, u);
    BackendOfRule(s.lb, s.assign, u);
  }

  /** An IP configuration the controllers manage, somewhere on a primary interface. */
  ghost predicate Attached(s: State, place: Place, c: N.IpConfig) {
    place in s.nics && N.IsManaged(c) && exists i :: 0 <= i < |s.nics[place]| && s.nics[place][i].primary && c in s.nics[place][i].ipConfigs
  }

  lemma AttachedListed(s: State, place: Place, c: N.IpConfig)
    requires NicOk(s) && Attached(s, place, c)
    ensures c in s.managed[place]
    ensures EntryOk(s, place, c)
  {
    hide EntryOk, NR.ManagedList;
    var i :| 0 <= i < |s.nics[place]| && s.nics[place][i].primary && c in s.nics[place][i].ipConfigs;
    assert PlaceOk(s, place);
    NR.ShapeManaged(s.base[place], s.managed[place], BackendPoolId(place.pool), i, c);
  }

  /** The gateway configuration object of that UID no longer exists. */
  ghost predicate Gone(s: State, gateway: string) {
    gateway in s.issued && s.issued[gateway].key.kind == Sgc &&
    !(s.issued[gateway].key in s.api && s.api[s.issued[gateway].key].uid == gateway)
  }

  /** The resource named by this UID was created for that gateway configuration. */
  ghost predicate CreatedFor(s: State, uid: string, gateway: string) {
    uid in s.issued && s.issued[uid].root == gateway
  }

  /** Once a gateway configuration is gone, everything created for it is gone, in the API server and in Azure. */
  lemma GoneLeavesNothing(s0: State, actions: seq<Action>, gateway: string)
    requires Initial(s0) && Gone(Run(s0, actions), gateway)
    ensures var s := Run(s0, actions);
            gateway !in s.secrets &&
            (forall key :: key in s.api ==> !CreatedFor(s, s.api[key].uid, gateway)) &&
            (forall uid :: CreatedFor(s, uid, gateway) ==>
               uid !in LR.RuleKeys(s.lb) &&
               (s.lb.HasLb? && s.lb.props.Some? ==> uid !in Keys(LB.ProbeNames(s.lb.props.value.probes))) &&
               ManagedName(uid) !in s.prefixes &&
               forall place, c :: Attached(s, place, c) ==> c.name != ManagedName(uid))
  {
    hide Run, LR.Image, LR.RuleKeys, NicOk, SgcWorkerOk, LbWorkerOk, VmWorkerOk, ManagedName, Attached;
    var s := Run(s0, actions);
    RunInv(s0, actions);
    forall key | key in s.api
      ensures !CreatedFor(s, s.api[key].uid, gateway)
    {
      ObjectRoot(s, key);
    }
    forall uid | CreatedFor(s, uid, gateway)
      ensures uid !in LR.RuleKeys(s.lb)
      ensures s.lb.HasLb? && s.lb.props.Some? ==> uid !in Keys(LB.ProbeNames(s.lb.props.value.probes))
      ensures ManagedName(uid) !in s.prefixes
      ensures forall place, c :: Attached(s, place, c) ==> c.name != ManagedName(uid)
    {
      NotLive(s, gateway, uid);
      ProbesAreRules(s.lb, s.assign);
      NotNamed(s, uid);
    }
  }

  lemma ObjectRoot(s: State, key: Key)
    requires ApiOk(s) && key in s.api
    ensures s.api[key].uid in s.issued
    ensures var g := s.issued[s.api[key].uid].root; g in s.issued && s.issued[g].key in s.api && s.api[s.issued[g].key].uid == g
  {
  }

  lemma NotLive(s: State, gateway: string, uid: string)
    requires ApiOk(s) && Gone(s, gateway) && CreatedFor(s, uid, gateway)
    ensures !Live(s, Lbc, uid) && !Live(s, Vmc, uid) && !Live(s, Sgc, uid)
  {
  }

  lemma ProbesAreRules(lb: LB.Cloud, assign: map<string, LR.Assigned>)
    requires LR.Image(lb, assign)
    ensures lb.HasLb? && lb.props.Some? ==> Keys(LB.ProbeNames(lb.props.value.probes)) == LR.RuleKeys(lb)
  {
  }

  lemma NotNamed(s: State, uid: string)
    requires NicOk(s) && !Live(s, Vmc, uid)
    ensures ManagedName(uid) !in s.prefixes
    ensures forall place, c :: Attached(s, place, c) ==> c.name != ManagedName(uid)
  {
    hide PlaceOk, Attached, Clean, RefersTo;
    UidOfName(uid);
    forall place, c | Attached(s, place, c)
      ensures c.name != ManagedName(uid)
    {
      AttachedListed(s, place, c);
    }
  }

  /** At every moment of every run, a managed prefix an attached IP configuration draws on exists. */
  lemma PrefixOutlivesUse(s0: State, actions: seq<Action>, place: Place, c: N.IpConfig, x: string)
    requires Initial(s0) && Attached(Run(s0, actions), place, c) && N.MANAGED_PREFIX <= x && RefersTo(c, x)
    ensures exists p :: p in Run(s0, actions).prefixes && EqualFold(p, x)
  {
    hide Run, NicOk, ApiOk, LbOk, SgcWorkerOk, LbWorkerOk, VmWorkerOk, SecretsOk, Attached, Live;
    var s := Run(s0, actions);
    RunInv(s0, actions);
    AttachedListed(s, place, c);
    SamePrefixName(c.name, x, c);
  }

  lemma SamePrefixName(a: string, b: string, c: N.IpConfig)
    requires RefersTo(c, a) && RefersTo(c, b)
    ensures EqualFold(a, b)
  {
    var head := "/publicIPPrefixes/";
    FoldAppend(head, a);
    FoldAppend(head, b);
    assert (Fold(head) + Fold(a))[|head|..] == Fold(a);
    assert (Fold(head) + Fold(b))[|head|..] == Fold(b);
  }
}
