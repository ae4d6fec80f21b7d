// What the controllers get done: what stands in Azure when a reconcile has gone through,
// and that from every reachable state a gateway can still be served, and still be removed.

module LifecycleProgress {
  import opened Wrappers
  import opened Names
  import opened Sequences
  import opened Lifecycle
  import opened LifecycleRuns
  import LB = LoadBalancer
  import LR = LoadBalancerRuns
  import N = VmssNic
  import NR = VmssNicRuns

  // ---------------------------------------------------------------- children follow their parent

  /** The child, new or old, has its parent's pool and egress, unless it is another parent's; no other object changes. */
  ghost predicate Follows(s: State, t: State, key: Key, parent: Obj) {
    key in t.api && t.api.Keys == s.api.Keys + {key} && (forall k :: k in s.api && k != key ==> t.api[k] == s.api[k]) &&
    if t.api[key].owner == parent.uid then t.api[key].pool == parent.pool && t.api[key].egress == parent.egress
    else key in s.api && t.api[key] == s.api[key]
  }

  lemma FollowsWrite(s: State, t: State, key: Key, parent: Obj, o: Obj)
    requires t.api == s.api[key := o] && o.owner == parent.uid && o.pool == parent.pool && o.egress == parent.egress
    ensures Follows(s, t, key, parent)
  {
  }

  lemma FollowsSame(s: State, t: State, key: Key, parent: Obj)
    requires t.api == s.api && key in s.api && s.api[key].owner != parent.uid
    ensures Follows(s, t, key, parent)
  {
  }

  /** A create step makes the child follow its parent. */
  lemma LbcFollows(s: State, uid: string)
    requires s.sgcPc == SCreating && SgcStep(s, SgcCreateLbc(uid)) != s
    ensures Follows(s, SgcStep(s, SgcCreateLbc(uid)), Key(Lbc, s.sgcSnap.name), s.sgcSnap.obj)
  {
    hide Unused, Follows;
    var t, key, parent := SgcStep(s, SgcCreateLbc(uid)), Key(Lbc, s.sgcSnap.name), s.sgcSnap.obj;
    if key in s.api && s.api[key].owner != parent.uid {
      FollowsSame(s, t, key, parent);
    } else {
      FollowsWrite(s, t, key, parent, if key in s.api then Patched(s.api[key], parent) else Child(parent, uid));
    }
  }

  lemma VmcFollows(s: State, uid: string)
    requires s.lbPc == LCreating && LbStep(s, LbCreateVmc(uid)) != s
    ensures Follows(s, LbStep(s, LbCreateVmc(uid)), Key(Vmc, s.lbSnap.name), s.lbSnap.obj)
  {
    hide Unused, RuleOutcome, Follows;
    var t, key, parent := LbStep(s, LbCreateVmc(uid)), Key(Vmc, s.lbSnap.name), s.lbSnap.obj;
    if key in s.api && s.api[key].owner != parent.uid {
      FollowsSame(s, t, key, parent);
    } else {
      FollowsWrite(s, t, key, parent, if key in s.api then Patched(s.api[key], parent) else Child(parent, uid));
    }
  }

  // ---------------------------------------------------------------- what a finished VM reconcile has done

  /** The prefix an egress asks for: the one managed under this name, the user's own, or none. */
  ghost function PrefixFor(egress: Egress, name: string): string {
    match egress
    case ManagedPrefix => PrefixId(name)
    case OwnPrefix(id) => id
    case PrivateOnly => ""
  }

  /** The place has the IP configuration of that name, with the egress, in its base's subnet. */
  ghost predicate Carries(s: State, place: Place, name: string, egress: Egress) {
    place in s.managed && place in s.base &&
    exists i :: 0 <= i < |s.managed[place]| && NR.Wanted(s.managed[place][i], name, PrefixFor(egress, name), N.SubnetOf(s.base[place]))
  }

  /** The worker's reference is what its copy's egress asks for, and the places it has been to have it. */
  ghost predicate OnCourse(s: State) {
    var o := s.vmSnap.obj;
    var m := ManagedName(o.uid);
    match s.vmPc
    case VTemplate(want, ref, own) => want ==> ref == PrefixFor(o.egress, m) && own == o.egress.ManagedPrefix?
    case VListing(want, ref, own) =>
      want ==> ref == PrefixFor(o.egress, m) && own == o.egress.ManagedPrefix? && Carries(s, Template(o.pool), m, o.egress)
    case VInstances(want, ref, own, todo) =>
      want ==>
        ref == PrefixFor(o.egress, m) && own == o.egress.ManagedPrefix? && Carries(s, Template(o.pool), m, o.egress) &&
        forall id :: Instance(o.pool, id) in s.managed && id !in todo ==> Carries(s, Instance(o.pool, id), m, o.egress)
    case _ => true
  }

  lemma CarriesReads(s: State, t: State, from: Place, to: Place, name: string, egress: Egress)
    requires Carries(s, from, name, egress) && to in t.managed && to in t.base
    requires t.managed[to] == s.managed[from] && t.base[to] == s.base[from]
    ensures Carries(t, to, name, egress)
  {
  }

  /** Steps that leave the worker and the interfaces alone leave it on course. */
  lemma CourseReads(s: State, t: State)
    requires OnCourse(s) && t.vmPc == s.vmPc && t.vmSnap == s.vmSnap && t.managed == s.managed && t.base == s.base
    ensures OnCourse(t)
  {
  }

  /** A new instance carries what its scale set's model does; the others carry what they did. */
  lemma ScaleCarries(s: State, a: Action, place: Place, name: string, egress: Egress)
    requires Inv(s) && Scales(a) && place in ScaleStep(s, a).managed
    requires Carries(s, if place in s.managed then place else Template(place.pool), name, egress)
    ensures Carries(ScaleStep(s, a), place, name, egress)
  {
    hide Inv, Carries;
    SameKeys(s);
    var from := if place in s.managed then place else Template(place.pool);
    CarriesBase(s, from, name, egress);
    CarriesReads(s, ScaleStep(s, a), from, place, name, egress);
  }

  lemma CarriesBase(s: State, place: Place, name: string, egress: Egress)
    requires Carries(s, place, name, egress)
    ensures place in s.managed && place in s.base
  {
  }

  lemma CourseScale(s: State, a: Action)
    requires OnCourse(s) && Inv(s) && Scales(a)
    ensures OnCourse(ScaleStep(s, a))
  {
    hide Inv, Carries, PrefixFor, ManagedName;
    var t, o := ScaleStep(s, a), s.vmSnap.obj;
    var m := ManagedName(o.uid);
    SameKeys(s);
    if (t.vmPc.VListing? || t.vmPc.VInstances?) && t.vmPc.want {
      CarriesBase(s, Template(o.pool), m, o.egress);
      ScaleCarries(s, a, Template(o.pool), m, o.egress);
      forall id | t.vmPc.VInstances? && Instance(o.pool, id) in t.managed && id !in t.vmPc.todo
        ensures Carries(t, Instance(o.pool, id), m, o.egress)
      {
        ScaleCarries(s, a, Instance(o.pool, id), m, o.egress);
      }
    }
  }

  lemma SameKeys(s: State)
    requires Inv(s)
    ensures s.managed.Keys == s.nics.Keys && s.base.Keys == s.nics.Keys
  {
    hide ApiOk, LbOk, NicOk, SecretsOk, SgcWorkerOk, LbWorkerOk;
  }

  /** One place reconciled by a worker that wants its configuration: the place then carries it. */
  lemma NicStepCarries(s: State, place: Place, ref: string, next: VmPc)
    requires Inv(s) && place in s.nics && ref == PrefixFor(s.vmSnap.obj.egress, ManagedName(s.vmSnap.obj.uid))
    ensures var t, o := NicStep(s, place, true, ref, next), s.vmSnap.obj;
            t.vmPc == next && t.vmSnap == s.vmSnap && t.base == s.base && t.managed.Keys == s.managed.Keys &&
            (forall pl :: pl in s.managed && pl != place ==> t.managed[pl] == s.managed[pl]) && t.nics.Keys == s.nics.Keys &&
            t.prefixes == s.prefixes && t.api == s.api && Carries(t, place, ManagedName(o.uid), o.egress)
  {
    hide ApiOk, LbOk, SecretsOk, SgcWorkerOk, LbWorkerOk, VmPcOk, N.Reconciled, NR.Updated, NR.Base, NR.ManagedList, NR.Shape, NR.Wanted,
      EntryOk, N.SubnetOf, PrefixFor;
    var m := ManagedName(s.vmSnap.obj.uid);
    UidOfName(s.vmSnap.obj.uid);
    assert PlaceOk(s, place);
    NR.ReconcileShape(s.base[place], s.managed[place], m, ref, BackendPoolId(place.pool), true);
    var i := NR.UpdatedCarries(s.managed[place], m, ref, N.SubnetOf(s.base[place]));
  }

  lemma CourseVm(s: State, a: Action)
    requires OnCourse(s) && Inv(s) && !Scales(a) && !ByUser(a) && !BySgc(a) && !ByLb(a)
    ensures OnCourse(VmStep(s, a))
  {
    hide Inv, OnCourse, NicStep, ManagedName, PrefixFor, Foreign;
    match a {
      case VmPrefix => CoursePrefix(s);
      case VmTemplate => CourseTemplate(s);
      case VmListInstances => CourseListed(s);
      case VmInstance(id) => CourseInstance(s, id);
      case _ => CourseOther(s, a);
    }
  }

  lemma CourseSet(t: State)
    requires t.vmPc == VTemplate(true, PrefixFor(t.vmSnap.obj.egress, ManagedName(t.vmSnap.obj.uid)), t.vmSnap.obj.egress.ManagedPrefix?)
    ensures OnCourse(t)
  {
  }

  /** A worker that is not attaching has nothing to keep to. */
  lemma CourseIdle(t: State)
    requires t.vmPc.VTemplate? || t.vmPc.VListing? || t.vmPc.VInstances? ==> !t.vmPc.want
    ensures OnCourse(t)
  {
  }

  /** The prefix step settles what to attach from the egress of the worker's copy. */
  lemma CoursePrefix(s: State)
    requires OnCourse(s)
    ensures OnCourse(VmStep(s, VmPrefix))
  {
    hide OnCourse, NicStep, PrefixEnsured;
    EnsuredCourse(s);
  }

  lemma EnsuredCourse(s: State)
    requires OnCourse(s)
    ensures OnCourse(PrefixEnsured(s))
  {
    hide OnCourse, Foreign, ManagedName, PrefixId;
    if s.vmPc != VPrefix {
    } else if PrefixEnsured(s).vmPc == VIdle {
      CourseIdle(PrefixEnsured(s));
    } else {
      CourseSet(PrefixEnsured(s));
    }
  }

  lemma CourseTemplate(s: State)
    requires OnCourse(s) && Inv(s)
    ensures OnCourse(VmStep(s, VmTemplate))
  {
    hide Inv, Carries, NicStep, ManagedName, PrefixFor, Foreign;
    if s.vmPc.VTemplate? {
      var next := VListing(s.vmPc.want, s.vmPc.ref, s.vmPc.own);
      if Template(s.vmSnap.obj.pool) in s.nics && s.vmPc.want {
        NicStepCarries(s, Template(s.vmSnap.obj.pool), s.vmPc.ref, next);
      } else {
        NicStepPc(s, Template(s.vmSnap.obj.pool), s.vmPc.want, s.vmPc.ref, next);
      }
    }
  }

  lemma NicStepPc(s: State, place: Place, want: bool, ref: string, next: VmPc)
    ensures NicStep(s, place, want, ref, next).vmPc == VIdle || NicStep(s, place, want, ref, next).vmPc == next
    ensures place !in s.nics ==> NicStep(s, place, want, ref, next).vmPc == VIdle
  {
    hide N.Reconciled;
  }

  lemma CourseListed(s: State)
    requires OnCourse(s) && Inv(s)
    ensures OnCourse(VmStep(s, VmListInstances))
  {
    hide Inv, Carries, ManagedName, PrefixFor, NicStep;
    SameKeys(s);
    if s.vmPc.VListing? && s.vmPc.want {
      var t, o := VmStep(s, VmListInstances), s.vmSnap.obj;
      CarriesBase(s, Template(o.pool), ManagedName(o.uid), o.egress);
      CarriesReads(s, t, Template(o.pool), Template(o.pool), ManagedName(o.uid), o.egress);
      forall id | Instance(o.pool, id) in t.managed
        ensures id in t.vmPc.todo
      {
        var pl := Instance(o.pool, id);
        assert pl in s.nics && pl.Instance? && pl.pool == o.pool && pl.id == id;
      }
    }
  }

  lemma CourseInstance(s: State, id: string)
    requires OnCourse(s) && Inv(s)
    ensures OnCourse(VmStep(s, VmInstance(id)))
  {
    hide Inv, Carries, NicStep, ManagedName, PrefixFor;
    if s.vmPc.VInstances? && id in s.vmPc.todo {
      var place, next := Instance(s.vmSnap.obj.pool, id), VInstances(s.vmPc.want, s.vmPc.ref, s.vmPc.own, s.vmPc.todo - {id});
      if place in s.nics && s.vmPc.want {
        NicStepCarries(s, place, s.vmPc.ref, next);
        CourseOnward(s, NicStep(s, place, true, s.vmPc.ref, next), id);
      } else {
        NicStepPc(s, place, s.vmPc.want, s.vmPc.ref, next);
      }
    }
  }

  lemma CourseOnward(s: State, t: State, id: string)
    requires OnCourse(s) && s.vmPc.VInstances? && s.vmPc.want && t.vmSnap == s.vmSnap
    requires t.vmPc == VInstances(true, s.vmPc.ref, s.vmPc.own, s.vmPc.todo - {id})
    requires var o := s.vmSnap.obj; var place := Instance(o.pool, id);
             t.base == s.base && t.managed.Keys == s.managed.Keys && Carries(t, place, ManagedName(o.uid), o.egress) &&
             forall pl :: pl in s.managed && pl != place ==> t.managed[pl] == s.managed[pl]
    ensures OnCourse(t)
  {
    hide Carries, ManagedName, PrefixFor;
    var o := s.vmSnap.obj;
    var m := ManagedName(o.uid);
    CarriesBase(s, Template(o.pool), m, o.egress);
    CarriesReads(s, t, Template(o.pool), Template(o.pool), m, o.egress);
    forall x | Instance(o.pool, x) in t.managed && x !in t.vmPc.todo && x != id
      ensures Carries(t, Instance(o.pool, x), m, o.egress)
    {
      CarriesBase(s, Instance(o.pool, x), m, o.egress);
      CarriesReads(s, t, Instance(o.pool, x), Instance(o.pool, x), m, o.egress);
    }
  }

  /** Every other step of the worker leaves the attaching part, or the worker and the interfaces alone. */
  lemma CourseOther(s: State, a: Action)
    requires OnCourse(s) && !Scales(a) && !ByUser(a) && !BySgc(a) && !ByLb(a)
    requires !a.VmPrefix? && !a.VmTemplate? && !a.VmListInstances? && !a.VmInstance?
    ensures OnCourse(VmStep(s, a))
  {
    hide OnCourse, VmStep;
    var t := VmStep(s, a);
    if a.VmFetch? || a.VmList? || a.VmNext? {
      PickReads(s, a);
    } else if a.VmAddFinalizer? || a.VmAfterInstances? {
      OnReads(s, a);
    } else {
      EndReads(s, a);
    }
    if t.vmPc.VTemplate? || t.vmPc.VListing? || t.vmPc.VInstances? ==> !t.vmPc.want {
      CourseIdle(t);
    } else {
      CourseReads(s, t);
    }
  }

  ghost predicate SameCourse(s: State, t: State) {
    (t.vmPc == s.vmPc && t.vmSnap == s.vmSnap && t.managed == s.managed && t.base == s.base) ||
    (t.vmPc.VTemplate? || t.vmPc.VListing? || t.vmPc.VInstances? ==> !t.vmPc.want)
  }

  lemma PickReads(s: State, a: Action)
    requires a.VmFetch? || a.VmList? || a.VmNext?
    ensures SameCourse(s, VmStep(s, a))
  {
    hide NicStep, ManagedName, Listed, PrefixEnsured, FinalizerDropped;
  }

  lemma OnReads(s: State, a: Action)
    requires a.VmAddFinalizer? || a.VmAfterInstances?
    ensures SameCourse(s, VmStep(s, a))
  {
    hide NicStep, ManagedName, Listed, PrefixEnsured, FinalizerDropped;
  }

  lemma EndReads(s: State, a: Action)
    requires a.VmDropPrefix? || a.VmRemoveFinalizer? || a.VmStop? || a.VmRestart?
    ensures SameCourse(s, VmStep(s, a))
  {
    hide NicStep, ManagedName, Listed, PrefixEnsured, FinalizerDropped, Current;
  }

  ghost predicate SameWorker(s: State, t: State) {
    t.vmPc == s.vmPc && t.vmSnap == s.vmSnap && t.vmQueue == s.vmQueue &&
    t.managed == s.managed && t.base == s.base && t.nics == s.nics && t.prefixes == s.prefixes
  }

  lemma CourseStep(s: State, a: Action)
    requires OnCourse(s) && Inv(s)
    ensures OnCourse(Step(s, a))
  {
    hide *;
    StepIs(s, a);
    if Scales(a) {
      CourseScale(s, a);
    } else if ByUser(a) || BySgc(a) || ByLb(a) {
      CourseElsewhere(s, a);
    } else {
      CourseVm(s, a);
    }
  }

  lemma CourseElsewhere(s: State, a: Action)
    requires OnCourse(s) && (ByUser(a) || BySgc(a) || ByLb(a))
    ensures OnCourse(Step(s, a))
  {
    hide OnCourse, Step, ByUser, BySgc, ByLb;
    ElsewhereReads(s, a);
    CourseReads(s, Step(s, a));
  }

  lemma ElsewhereReads(s: State, a: Action)
    requires ByUser(a) || BySgc(a) || ByLb(a)
    ensures SameWorker(s, Step(s, a))
  {
    hide UserStep, SgcStep, LbStep, VmStep, ScaleStep;
  }

  lemma {:induction false} RunKeeps(s: State, actions: seq<Action>)
    requires Inv(s) && OnCourse(s)
    ensures Inv(Run(s, actions)) && OnCourse(Run(s, actions))
  {
    hide Inv, OnCourse, Step;
    if actions != [] {
      var before := Run(s, actions[..|actions| - 1]);
      RunKeeps(s, actions[..|actions| - 1]);
      StepInv(before, actions[|actions| - 1]);
      CourseStep(before, actions[|actions| - 1]);
    }
  }

  lemma RunOnCourse(s: State, actions: seq<Action>)
    requires Initial(s)
    ensures Inv(Run(s, actions)) && OnCourse(Run(s, actions))
  {
    hide Inv, OnCourse, Run;
    InitialInv(s);
    CourseStarts(s);
    RunKeeps(s, actions);
  }

  lemma CourseStarts(s: State)
    requires Initial(s)
    ensures OnCourse(s)
  {
  }

  /** A primary interface there has the IP configuration of that name, in the primary subnet and with the egress's prefix. */
  ghost predicate Equipped(s: State, place: Place, name: string, egress: Egress) {
    place in s.nics &&
    exists c :: Attached(s, place, c) && NR.Wanted(c, name, PrefixFor(egress, name), N.SubnetOf(s.nics[place]))
  }

  /**
   * Whenever the VM controller stands at the end of its instances, every place of the pool, listed or new, has the
   * IP configuration its copy's egress asks for, and a managed prefix it draws on exists.
   */
  lemma DoneServes(s0: State, actions: seq<Action>, place: Place)
    requires Initial(s0)
    requires var s := Run(s0, actions);
             s.vmPc.VInstances? && s.vmPc.want && s.vmPc.todo == {} && place in s.nics && place.pool == s.vmSnap.obj.pool
    ensures var s := Run(s0, actions); var o := s.vmSnap.obj;
            Equipped(s, place, ManagedName(o.uid), o.egress) && (o.egress.ManagedPrefix? ==> ManagedName(o.uid) in s.prefixes)
  {
    hide Run, Inv, Carries, PrefixFor, ManagedName, Equipped;
    var s := Run(s0, actions);
    var o := s.vmSnap.obj;
    RunOnCourse(s0, actions);
    SameKeys(s);
    assert place == Template(o.pool) || (place.Instance? && place == Instance(o.pool, place.id));
    CarriesAttached(s, place, o.uid, o.egress);
    PrefixThere(s);
  }

  lemma CarriesAttached(s: State, place: Place, uid: string, egress: Egress)
    requires Inv(s) && place in s.nics && Carries(s, place, ManagedName(uid), egress)
    ensures Equipped(s, place, ManagedName(uid), egress)
  {
    hide ApiOk, LbOk, SecretsOk, SgcWorkerOk, LbWorkerOk, VmWorkerOk, NR.Base, NR.ManagedList, NR.Shape, EntryOk, N.SubnetOf, PrefixFor;
    assert PlaceOk(s, place);
    var i :| 0 <= i < |s.managed[place]| &&
             NR.Wanted(s.managed[place][i], ManagedName(uid), PrefixFor(egress, ManagedName(uid)), N.SubnetOf(s.base[place]));
    NR.ShapeCarries(s.base[place], s.managed[place], BackendPoolId(place.pool), i);
    NR.ShapeExpected(s.base[place], s.managed[place], BackendPoolId(place.pool));
    UidOfName(uid);
    assert Attached(s, place, s.managed[place][i]);
  }

  lemma PrefixThere(s: State)
    requires Inv(s) && OnCourse(s) && s.vmPc.VInstances? && s.vmPc.want
    ensures s.vmSnap.obj.egress.ManagedPrefix? ==> ManagedName(s.vmSnap.obj.uid) in s.prefixes
  {
    hide ApiOk, LbOk, NicOk, SecretsOk, SgcWorkerOk, LbWorkerOk, Settled, Carries, PrefixFor;
  }

  // ---------------------------------------------------------------- continuing a run

  lemma {:induction false} RunAppend(s: State, a: seq<Action>, b: seq<Action>)
    ensures Run(s, a + b) == Run(Run(s, a), b)
  {
    hide Step;
    if b == [] {
      assert a + b == a;
    } else {
      RunAppend(s, a, b[..|b| - 1]);
      assert (a + b)[..|a + b| - 1] == a + b[..|b| - 1];
    }
  }

  lemma RunMore(s: State, actions: seq<Action>, a: Action)
    ensures Run(s, actions + [a]) == Step(Run(s, actions), a)
  {
    hide Step;
    assert (actions + [a])[..|actions|] == actions;
  }

  lemma RunFour(s: State, a: Action, b: Action, c: Action, d: Action)
    ensures Run(s, [a, b, c, d]) == Step(Step(Step(Step(s, a), b), c), d)
  {
    hide Step;
    RunMore(s, [], a);
    RunMore(s, [a], b);
    RunMore(s, [a, b], c);
    RunMore(s, [a, b, c], d);
    assert [a, b, c] + [d] == [a, b, c, d] && [a, b] + [c] == [a, b, c] && [a] + [b] == [a, b] && [] + [a] == [a];
  }

  lemma SgcOpens(s: State, name: string)
    ensures Step(s, SgcFetch(name)) == SgcFetched(s, name) && Step(s, SgcAddFinalizer) == SgcFinalized(s)
  {
    hide SgcFetched, SgcFinalized, SecretEnsured, LbcEnsured, SecretDropped, LbcDropped, SgcReleased, UserStep, ScaleStep, LbStep, VmStep;
  }

  lemma SgcCreates(s: State, uid: string)
    ensures Step(s, SgcSecret) == SecretEnsured(s) && Step(s, SgcCreateLbc(uid)) == LbcEnsured(s, uid)
  {
    hide SgcFetched, SgcFinalized, SecretEnsured, LbcEnsured, SecretDropped, LbcDropped, SgcReleased, UserStep, ScaleStep, LbStep, VmStep;
  }

  lemma SgcDrops(s: State)
    ensures Step(s, SgcDropSecret) == SecretDropped(s) && Step(s, SgcDropLbc) == LbcDropped(s)
  {
    hide SgcFetched, SgcFinalized, SecretEnsured, LbcEnsured, SecretDropped, LbcDropped, SgcReleased, UserStep, ScaleStep, LbStep, VmStep;
  }

  lemma SgcReleases(s: State)
    ensures Step(s, SgcRemoveFinalizer) == SgcReleased(s)
  {
    hide SgcFetched, SgcFinalized, SecretEnsured, LbcEnsured, SecretDropped, LbcDropped, SgcReleased, UserStep, ScaleStep, LbStep, VmStep;
  }

  lemma LbOpens(s: State, name: string)
    ensures Step(s, LbFetch(name)) == LbFetched(s, name) && Step(s, LbAddFinalizer) == LbFinalized(s)
  {
    hide LbFetched, LbFinalized, RuleReconciled, VmcEnsured, VmcDropped, LbReleased, UserStep, ScaleStep, SgcStep, VmStep;
  }

  lemma LbCreates(s: State, uid: string, env: LB.Env)
    ensures Step(s, LbRule(true, env)) == RuleReconciled(s, true, true, env) && Step(s, LbCreateVmc(uid)) == VmcEnsured(s, uid)
  {
    hide LbFetched, LbFinalized, RuleReconciled, VmcEnsured, VmcDropped, LbReleased, UserStep, ScaleStep, SgcStep, VmStep;
  }

  lemma LbDrops(s: State, env: LB.Env)
    ensures Step(s, LbDropVmc) == VmcDropped(s) && Step(s, LbDropRule(true, env)) == RuleReconciled(s, true, false, env)
  {
    hide LbFetched, LbFinalized, RuleReconciled, VmcEnsured, VmcDropped, LbReleased, UserStep, ScaleStep, SgcStep, VmStep;
  }

  lemma LbReleases(s: State)
    ensures Step(s, LbRemoveFinalizer) == LbReleased(s)
  {
    hide LbFetched, LbFinalized, RuleReconciled, VmcEnsured, VmcDropped, LbReleased, UserStep, ScaleStep, SgcStep, VmStep;
  }

  lemma VmOpens(s: State, name: string)
    ensures Step(s, VmFetch(name)) == VmFetched(s, name) && Step(s, VmAddFinalizer) == VmFinalized(s)
  {
    hide VmFetched, VmFinalized, PrefixEnsured, TemplateReconciled, InstancesListed, InstanceReconciled, InstancesDone, PrefixDeleted, VmReleased,
      UserStep, ScaleStep, SgcStep, LbStep;
  }

  lemma VmAttaches(s: State)
    ensures Step(s, VmPrefix) == PrefixEnsured(s) && Step(s, VmTemplate) == TemplateReconciled(s)
  {
    hide VmFetched, VmFinalized, PrefixEnsured, TemplateReconciled, InstancesListed, InstanceReconciled, InstancesDone, PrefixDeleted, VmReleased,
      UserStep, ScaleStep, SgcStep, LbStep;
  }

  lemma VmVisits(s: State, id: string)
    ensures Step(s, VmListInstances) == InstancesListed(s) && Step(s, VmInstance(id)) == InstanceReconciled(s, id)
  {
    hide VmFetched, VmFinalized, PrefixEnsured, TemplateReconciled, InstancesListed, InstanceReconciled, InstancesDone, PrefixDeleted, VmReleased,
      UserStep, ScaleStep, SgcStep, LbStep;
  }

  lemma VmEnds(s: State)
    ensures Step(s, VmAfterInstances) == InstancesDone(s) && Step(s, VmDropPrefix) == PrefixDeleted(s)
  {
    hide VmFetched, VmFinalized, PrefixEnsured, TemplateReconciled, InstancesListed, InstanceReconciled, InstancesDone, PrefixDeleted, VmReleased,
      UserStep, ScaleStep, SgcStep, LbStep;
  }

  lemma VmReleases(s: State)
    ensures Step(s, VmRemoveFinalizer) == VmReleased(s)
  {
    hide VmFetched, VmFinalized, PrefixEnsured, TemplateReconciled, InstancesListed, InstanceReconciled, InstancesDone, PrefixDeleted, VmReleased,
      UserStep, ScaleStep, SgcStep, LbStep;
  }

  // ---------------------------------------------------------------- a gateway reconcile that goes through

  /** The gateway is finalized, its secret is there and its LB configuration follows it; other objects stay. */
  ghost predicate SgcDone(s: State, t: State, name: string, uid: string)
    requires Key(Sgc, name) in s.api
  {
    var sgc, lbc, o := Key(Sgc, name), Key(Lbc, name), s.api[Key(Sgc, name)];
    t == s.(api := t.api, issued := t.issued, assign := t.assign, secrets := t.secrets, sgcPc := SIdle, sgcSnap := t.sgcSnap) &&
    t.api.Keys == s.api.Keys + {lbc} && t.api[sgc] == o.(finalizer := true, version := t.api[sgc].version) && o.uid in t.secrets &&
    (forall k :: k in s.api && k != sgc && k != lbc ==> t.api[k] == s.api[k]) &&
    t.api[lbc].owner == o.uid && t.api[lbc].pool == o.pool && t.api[lbc].egress == o.egress &&
    (if lbc in s.api then t.api[lbc].uid == s.api[lbc].uid && t.api[lbc].deleting == s.api[lbc].deleting else !t.api[lbc].deleting) &&
    forall u :: u in t.issued && u != uid ==> u in s.issued
  }

  lemma SgcPass(s: State, name: string, uid: string) returns (more: seq<Action>)
    requires Inv(s) && s.sgcPc == SIdle && Key(Sgc, name) in s.api && !s.api[Key(Sgc, name)].deleting && Unused(s, uid)
    ensures SgcDone(s, Run(s, more), name, uid)
  {
    hide *;
    more := [SgcFetch(name), SgcAddFinalizer, SgcSecret, SgcCreateLbc(uid)];
    RunFour(s, more[0], more[1], more[2], more[3]);
    var s1 := SgcFetched(s, name);
    var s2 := SgcFinalized(s1);
    var s3 := SecretEnsured(s2);
    SgcOpens(s, name);
    SgcOpens(s1, name);
    SgcCreates(s2, uid);
    SgcCreates(s3, uid);
    SgcPassed(s, name, uid);
  }

  lemma SgcPassed(s: State, name: string, uid: string)
    requires Inv(s) && s.sgcPc == SIdle && Key(Sgc, name) in s.api && !s.api[Key(Sgc, name)].deleting && Unused(s, uid)
    ensures SgcDone(s, LbcEnsured(SecretEnsured(SgcFinalized(SgcFetched(s, name))), uid), name, uid)
  {
    hide Inv, LbcEnsured, SgcDone;
    if Key(Lbc, name) in s.api {
      LbcOwned(s, name);
    }
    var s3 := SecretEnsured(SgcFinalized(SgcFetched(s, name)));
    SgcReady(s, name);
    SgcLast(s, s3, name, uid);
  }

  /** Before the create step: the gateway finalized and its secret there. */
  ghost predicate SgcReadied(s: State, t: State, name: string)
    requires Key(Sgc, name) in s.api
  {
    var sgc, o := Key(Sgc, name), s.api[Key(Sgc, name)];
    t == s.(api := t.api, secrets := s.secrets + {o.uid}, sgcPc := SCreating, sgcSnap := Snapshot(name, o)) &&
    t.api.Keys == s.api.Keys && t.api[sgc] == o.(finalizer := true, version := t.api[sgc].version) &&
    forall k :: k in s.api && k != sgc ==> t.api[k] == s.api[k]
  }

  lemma SgcReady(s: State, name: string)
    requires s.sgcPc == SIdle && Key(Sgc, name) in s.api && !s.api[Key(Sgc, name)].deleting
    ensures SgcReadied(s, SecretEnsured(SgcFinalized(SgcFetched(s, name))), name)
  {
  }

  lemma SgcLast(s: State, t: State, name: string, uid: string)
    requires Key(Sgc, name) in s.api && SgcReadied(s, t, name) && Unused(s, uid)
    requires Key(Lbc, name) in s.api ==> s.api[Key(Lbc, name)].owner == s.api[Key(Sgc, name)].uid
    ensures SgcDone(s, LbcEnsured(t, uid), name, uid)
  {
    hide Fold;
  }

  lemma LbcOwned(s: State, name: string)
    requires Inv(s) && Key(Lbc, name) in s.api
    ensures Key(Sgc, name) in s.api && s.api[Key(Lbc, name)].owner == s.api[Key(Sgc, name)].uid && s.api[Key(Lbc, name)].pool == s.api[Key(Sgc, name)].pool
  {
    hide LbOk, NicOk, SecretsOk, SgcWorkerOk, LbWorkerOk, VmWorkerOk;
    assert ObjectOk(s, Key(Lbc, name));
  }

  // ---------------------------------------------------------------- a load balancer reconcile that goes through

  /** Azure answers, and takes the write. */
  const CALM := LB.Env(true, true, "10.0.0.4", LB.Done)

  /** The pool has a port left, or the configuration has its rule there already. */
  ghost predicate Room(lb: LB.Cloud, uid: string, pool: string) {
    LB.CountInPool(pool, LR.LbOf(lb).rules) < 1000 || LR.OwnRule(LR.LbOf(lb).rules, uid, pool)
  }

  lemma ImageFrontends(lb: LB.Cloud, assign: map<string, LR.Assigned>, pool: string)
    requires LR.Image(lb, assign)
    ensures LR.SoundCloud(lb) && LR.FrontendOk(LR.LbOf(lb), pool) && (lb.HasLb? ==> lb.props.Some?)
  {
  }

  /** From every reachable state, a rule reconcile under calm answers succeeds if there is room; a removal always does. */
  lemma RuleGoes(s: State, needLB: bool)
    requires Inv(s) && s.lbPc == (if needLB then LRule else LDropRule)
    requires needLB ==> Room(s.lb, s.lbSnap.obj.uid, s.lbSnap.obj.pool)
    ensures RuleReconciled(s, true, needLB, CALM).lbPc == if needLB then LCreating else LRemoving
  {
    hide ApiOk, LR.Image, LR.RuleKeys, NicOk, VmWorkerOk, SgcWorkerOk, SecretsOk, LB.Reconcile, LR.FrontendOk, LR.OwnRule, LR.InPlace, LB.CountInPool, Live;
    var o := s.lbSnap.obj;
    var e := LR.Event(LB.Config(o.uid, o.owner, PROBE_PORT), Ok(o.pool), needLB, CALM);
    PoolNamed(s, o.uid);
    ImageFrontends(s.lb, s.assign, o.pool);
    LR.SucceedsExactly(s.lb, e);
  }

  lemma PoolNamed(s: State, uid: string)
    requires Inv(s) && uid in s.issued
    ensures s.issued[uid].pool != ""
  {
    hide LbOk, NicOk, VmWorkerOk, SgcWorkerOk, LbWorkerOk, SecretsOk;
    assert OriginOk(s, uid);
  }

  /** The LB configuration is finalized and has its rule, and its VM configuration follows it; other objects stay. */
  ghost predicate LbDone(s: State, t: State, name: string, uid: string)
    requires Key(Lbc, name) in s.api
  {
    var lbc, vmc, o := Key(Lbc, name), Key(Vmc, name), s.api[Key(Lbc, name)];
    t == s.(api := t.api, issued := t.issued, lb := t.lb, lbPc := LIdle, lbSnap := t.lbSnap) &&
    t.api.Keys == s.api.Keys + {vmc} && t.api[lbc] == o.(finalizer := true, version := t.api[lbc].version) && o.uid in LR.RuleKeys(t.lb) &&
    (forall k :: k in s.api && k != lbc && k != vmc ==> t.api[k] == s.api[k]) &&
    t.api[vmc].owner == o.uid && t.api[vmc].pool == o.pool && t.api[vmc].egress == o.egress &&
    (if vmc in s.api then t.api[vmc].uid == s.api[vmc].uid && t.api[vmc].deleting == s.api[vmc].deleting else !t.api[vmc].deleting) &&
    forall u :: u in t.issued && u != uid ==> u in s.issued
  }

  /** Before the rule: the LB configuration finalized. */
  ghost predicate LbReadied(s: State, t: State, name: string)
    requires Key(Lbc, name) in s.api
  {
    var lbc, o := Key(Lbc, name), s.api[Key(Lbc, name)];
    t == s.(api := t.api, lbPc := LRule, lbSnap := Snapshot(name, o)) &&
    t.api.Keys == s.api.Keys && t.api[lbc] == o.(finalizer := true, version := t.api[lbc].version) &&
    forall k :: k in s.api && k != lbc ==> t.api[k] == s.api[k]
  }

  lemma LbReady(s: State, name: string)
    requires s.lbPc == LIdle && Key(Lbc, name) in s.api && Key(Sgc, name) in s.api && !s.api[Key(Lbc, name)].deleting
    ensures LbReadied(s, LbFinalized(LbFetched(s, name)), name)
  {
  }

  lemma LbLast(s: State, mid: State, t: State, name: string, uid: string)
    requires Key(Lbc, name) in s.api && LbReadied(s, mid, name) && t == mid.(lb := t.lb, lbPc := LCreating) && Unused(s, uid)
    requires s.api[Key(Lbc, name)].uid in s.issued && s.api[Key(Lbc, name)].uid in LR.RuleKeys(t.lb)
    requires Key(Vmc, name) in s.api ==> s.api[Key(Vmc, name)].owner == s.api[Key(Lbc, name)].uid
    ensures LbDone(s, VmcEnsured(t, uid), name, uid)
  {
    hide Fold, LR.RuleKeys;
  }

  lemma VmcOwned(s: State, name: string)
    requires Inv(s) && Key(Vmc, name) in s.api
    ensures Key(Lbc, name) in s.api && s.api[Key(Vmc, name)].owner == s.api[Key(Lbc, name)].uid && s.api[Key(Vmc, name)].pool == s.api[Key(Lbc, name)].pool
  {
    hide LbOk, NicOk, SecretsOk, SgcWorkerOk, LbWorkerOk, VmWorkerOk;
    assert ObjectOk(s, Key(Vmc, name));
  }

  lemma UidIssued(s: State, key: Key)
    requires Inv(s) && key in s.api
    ensures s.api[key].uid in s.issued
  {
    hide LbOk, NicOk, SecretsOk, SgcWorkerOk, LbWorkerOk, VmWorkerOk;
    ObjectFacts(s, key);
  }

  lemma RuleKept(s: State)
    requires Inv(s) && s.lbPc == LCreating
    ensures s.lbSnap.obj.uid in LR.RuleKeys(s.lb)
  {
    hide ApiOk, LbOk, NicOk, SecretsOk, SgcWorkerOk, VmWorkerOk;
  }

  lemma LbPass(s: State, name: string, uid: string) returns (more: seq<Action>)
    requires Inv(s) && s.lbPc == LIdle && Key(Lbc, name) in s.api && !s.api[Key(Lbc, name)].deleting && Unused(s, uid)
    requires Room(s.lb, s.api[Key(Lbc, name)].uid, s.api[Key(Lbc, name)].pool)
    ensures LbDone(s, Run(s, more), name, uid)
  {
    hide *;
    more := [LbFetch(name), LbAddFinalizer, LbRule(true, CALM), LbCreateVmc(uid)];
    RunFour(s, more[0], more[1], more[2], more[3]);
    var s1 := LbFetched(s, name);
    var s2 := LbFinalized(s1);
    var s3 := RuleReconciled(s2, true, true, CALM);
    LbOpens(s, name);
    LbOpens(s1, name);
    LbCreates(s2, uid, CALM);
    LbCreates(s3, uid, CALM);
    StepInv(s, more[0]);
    StepInv(s1, more[1]);
    StepInv(s2, more[2]);
    LbcOwned(s, name);
    LbPassed(s, s2, s3, name, uid) by {
      LbReady(s, name);
    }
  }

  lemma LbPassed(s: State, s2: State, s3: State, name: string, uid: string)
    requires Inv(s) && Inv(s2) && Inv(s3) && Key(Lbc, name) in s.api && Unused(s, uid)
    requires Room(s.lb, s.api[Key(Lbc, name)].uid, s.api[Key(Lbc, name)].pool)
    requires LbReadied(s, s2, name) && s3 == RuleReconciled(s2, true, true, CALM)
    ensures LbDone(s, VmcEnsured(s3, uid), name, uid)
  {
    hide Inv, Room, LbDone, VmcEnsured, RuleReconciled, Unused;
    RuleGoes(s2, true);
    RuleKept(s3);
    UidIssued(s, Key(Lbc, name));
    if Key(Vmc, name) in s.api {
      VmcOwned(s, name);
    }
    LbLast(s, s2, s3, name, uid);
  }

  // ---------------------------------------------------------------- a VM reconcile that goes through

  /** From every reachable state, a reconcile of a place that is there goes through. */
  lemma NicStepGoes(s: State, place: Place, want: bool, ref: string, next: VmPc)
    requires Inv(s) && place in s.nics
    ensures NicStep(s, place, want, ref, next).vmPc == next && NicStep(s, place, want, ref, next).nics.Keys == s.nics.Keys
  {
    hide ApiOk, LbOk, SecretsOk, SgcWorkerOk, LbWorkerOk, VmPcOk, N.Reconciled, NR.Updated, NR.Base, NR.ManagedList, NR.Shape, EntryOk;
    UidOfName(s.vmSnap.obj.uid);
    assert PlaceOk(s, place);
    NR.ReconcileShape(s.base[place], s.managed[place], ManagedName(s.vmSnap.obj.uid), ref, BackendPoolId(place.pool), want);
  }

  /** The worker's visits only touch interfaces. */
  ghost predicate Visited(s: State, t: State, pc: VmPc) {
    t == s.(nics := t.nics, managed := t.managed, vmPc := pc) && t.nics.Keys == s.nics.Keys
  }

  lemma InstanceGoes(s: State, id: string)
    requires Inv(s) && s.vmPc.VInstances? && id in s.vmPc.todo && Instance(s.vmSnap.obj.pool, id) in s.nics
    ensures Visited(s, InstanceReconciled(s, id), VInstances(s.vmPc.want, s.vmPc.ref, s.vmPc.own, s.vmPc.todo - {id}))
  {
    hide Inv, NicStep;
    NicStepGoes(s, Instance(s.vmSnap.obj.pool, id), s.vmPc.want, s.vmPc.ref, VInstances(s.vmPc.want, s.vmPc.ref, s.vmPc.own, s.vmPc.todo - {id}));
  }

  /** One by one, every instance listed is reconciled. */
  lemma {:induction false} InstancesPass(s: State) returns (more: seq<Action>)
    requires Inv(s) && s.vmPc.VInstances? && forall id :: id in s.vmPc.todo ==> Instance(s.vmSnap.obj.pool, id) in s.nics
    ensures Visited(s, Run(s, more), VInstances(s.vmPc.want, s.vmPc.ref, s.vmPc.own, {}))
    decreases |s.vmPc.todo|
  {
    hide Inv, Step, InstanceReconciled;
    if s.vmPc.todo == {} {
      more := [];
    } else {
      var id :| id in s.vmPc.todo;
      var t := InstanceReconciled(s, id);
      InstanceGoes(s, id);
      VmVisits(s, id);
      StepInv(s, VmInstance(id));
      var rest := InstancesPass(t);
      more := [VmInstance(id)] + rest;
      RunAppend(s, [VmInstance(id)], rest);
      RunMore(s, [], VmInstance(id));
      assert [] + [VmInstance(id)] == [VmInstance(id)];
    }
  }

  lemma ListingGoes(s: State)
    requires s.vmPc.VListing?
    ensures var t, pc := InstancesListed(s), s.vmPc;
            t.vmPc.VInstances? && t == s.(vmPc := VInstances(pc.want, pc.ref, pc.own, t.vmPc.todo)) &&
            forall id :: id in t.vmPc.todo ==> Instance(s.vmSnap.obj.pool, id) in s.nics
  {
    forall id | id in InstancesListed(s).vmPc.todo
      ensures Instance(s.vmSnap.obj.pool, id) in s.nics
    {
      var pl :| pl in s.nics && pl.Instance? && pl.pool == s.vmSnap.obj.pool && pl.id == id;
      assert pl == Instance(s.vmSnap.obj.pool, id);
    }
  }

  lemma TemplateGoes(s: State)
    requires Inv(s) && s.vmPc.VTemplate? && Template(s.vmSnap.obj.pool) in s.nics
    ensures Visited(s, TemplateReconciled(s), VListing(s.vmPc.want, s.vmPc.ref, s.vmPc.own))
  {
    hide Inv, NicStep;
    NicStepGoes(s, Template(s.vmSnap.obj.pool), s.vmPc.want, s.vmPc.ref, VListing(s.vmPc.want, s.vmPc.ref, s.vmPc.own));
  }

  /** The scale set's model, then every instance. */
  lemma VisitAll(s: State) returns (more: seq<Action>)
    requires Inv(s) && s.vmPc.VTemplate? && Template(s.vmSnap.obj.pool) in s.nics
    ensures Visited(s, Run(s, more), VInstances(s.vmPc.want, s.vmPc.ref, s.vmPc.own, {}))
  {
    hide Inv, Step, TemplateReconciled, InstancesListed, Run;
    var s1 := TemplateReconciled(s);
    var s2 := InstancesListed(s1);
    TemplateGoes(s);
    ListingGoes(s1);
    VmAttaches(s);
    VmVisits(s1, "");
    StepInv(s, VmTemplate);
    StepInv(s1, VmListInstances);
    var rest := InstancesPass(s2);
    more := [VmTemplate, VmListInstances] + rest;
    RunTwo(s, VmTemplate, VmListInstances);
    RunAppend(s, [VmTemplate, VmListInstances], rest);
  }

  lemma RunTwo(s: State, a: Action, b: Action)
    ensures Run(s, [a, b]) == Step(Step(s, a), b)
  {
    hide Step;
    RunMore(s, [], a);
    RunMore(s, [a], b);
    assert [a] + [b] == [a, b] && [] + [a] == [a];
  }

  /** The user's own prefix, if that is the egress, is a real one of theirs. */
  ghost predicate Usable(egress: Egress) {
    egress.OwnPrefix? ==> egress.id != "" && Foreign(egress.id)
  }

  /** The VM configuration is finalized and every place of its pool has its IP configuration; other objects stay. */
  ghost predicate VmDone(s: State, t: State, name: string)
    requires Key(Vmc, name) in s.api
  {
    var vmc, o := Key(Vmc, name), s.api[Key(Vmc, name)];
    t == s.(api := t.api, prefixes := t.prefixes, nics := t.nics, managed := t.managed, vmPc := VIdle, vmSnap := t.vmSnap) &&
    t.nics.Keys == s.nics.Keys && t.api.Keys == s.api.Keys && t.api[vmc] == o.(finalizer := true, version := t.api[vmc].version) &&
    (forall k :: k in s.api && k != vmc ==> t.api[k] == s.api[k]) &&
    (forall place :: place in t.nics && place.pool == o.pool ==> Carries(t, place, ManagedName(o.uid), o.egress)) &&
    (o.egress.ManagedPrefix? <==> ManagedName(o.uid) in t.prefixes)
  }

  /** Before the interfaces: the VM configuration finalized, and its prefix there. */
  ghost predicate VmReadied(s: State, t: State, name: string)
    requires Key(Vmc, name) in s.api
  {
    var vmc, o := Key(Vmc, name), s.api[Key(Vmc, name)];
    t == s.(api := t.api, prefixes := t.prefixes, vmPc := t.vmPc, vmSnap := Snapshot(name, o)) && t.vmPc.VTemplate? && t.vmPc.want &&
    t.api.Keys == s.api.Keys && t.api[vmc] == o.(finalizer := true, version := t.api[vmc].version) &&
    forall k :: k in s.api && k != vmc ==> t.api[k] == s.api[k]
  }

  lemma VmReady(s: State, name: string)
    requires s.vmPc == VIdle && s.vmQueue == [] && Key(Vmc, name) in s.api && Key(Sgc, name) in s.api
    requires !s.api[Key(Vmc, name)].deleting && Usable(s.api[Key(Vmc, name)].egress) && Template(s.api[Key(Vmc, name)].pool) in s.nics
    ensures VmReadied(s, PrefixEnsured(VmFinalized(VmFetched(s, name))), name)
  {
    hide Foreign, ManagedName;
  }

  /** At the end of the instances, every place of the pool carries the configuration. */
  lemma AllCarry(s: State, place: Place)
    requires Inv(s) && OnCourse(s) && s.vmPc.VInstances? && s.vmPc.want && s.vmPc.todo == {}
    requires place in s.nics && place.pool == s.vmSnap.obj.pool
    ensures Carries(s, place, ManagedName(s.vmSnap.obj.uid), s.vmSnap.obj.egress)
  {
    hide Inv, Carries, PrefixFor, ManagedName;
    SameKeys(s);
    assert place == Template(place.pool) || (place.Instance? && place == Instance(place.pool, place.id));
  }

  /** The worker's way back to idle leaves the interfaces alone, and the prefix when it is its own. */
  lemma Finish(s: State) returns (more: seq<Action>)
    requires s.vmPc.VInstances? && s.vmPc.want && s.vmPc.todo == {}
    ensures var t := Run(s, more); t == s.(prefixes := t.prefixes, vmPc := VIdle) && t.prefixes == if s.vmPc.own then s.prefixes else s.prefixes - {ManagedName(s.vmSnap.obj.uid)}
  {
    hide Step, ManagedName;
    VmEnds(s);
    VmEnds(InstancesDone(s));
    RunTwo(s, VmAfterInstances, VmDropPrefix);
    RunMore(s, [], VmAfterInstances);
    assert [] + [VmAfterInstances] == [VmAfterInstances];
    more := if s.vmPc.own then [VmAfterInstances] else [VmAfterInstances, VmDropPrefix];
  }

  lemma OwnPrefixed(s: State)
    requires OnCourse(s) && s.vmPc.VInstances? && s.vmPc.want
    ensures s.vmPc.own == s.vmSnap.obj.egress.ManagedPrefix?
  {
    hide Carries, PrefixFor;
  }

  lemma VmPass(s: State, name: string) returns (more: seq<Action>)
    requires Inv(s) && OnCourse(s) && s.vmPc == VIdle && s.vmQueue == [] && Key(Vmc, name) in s.api && Key(Sgc, name) in s.api
    requires !s.api[Key(Vmc, name)].deleting && Usable(s.api[Key(Vmc, name)].egress) && Template(s.api[Key(Vmc, name)].pool) in s.nics
    ensures VmDone(s, Run(s, more), name)
  {
    hide *;
    var first := [VmFetch(name), VmAddFinalizer, VmPrefix];
    var s1 := VmFetched(s, name);
    var s2 := VmFinalized(s1);
    var s3 := PrefixEnsured(s2);
    VmOpens(s, name);
    VmOpens(s1, name);
    VmAttaches(s2);
    RunTwo(s, VmFetch(name), VmAddFinalizer);
    RunMore(s, [VmFetch(name), VmAddFinalizer], VmPrefix);
    assert [VmFetch(name), VmAddFinalizer] + [VmPrefix] == first;
    RunKeeps(s, first);
    VmReady(s, name);
    VmReadiedFacts(s, s3, name);
    var visits := VisitAll(s3);
    var s4 := Run(s3, visits);
    RunKeeps(s3, visits);
    VisitedFacts(s3, s4);
    var last := Finish(s4);
    more := first + visits + last;
    RunAppend(s, first, visits);
    RunAppend(s, first + visits, last);
    VmPassed(s, s3, s4, Run(s4, last), name);
  }

  lemma VmReadiedFacts(s: State, t: State, name: string)
    requires Key(Vmc, name) in s.api && VmReadied(s, t, name)
    ensures t.vmPc.VTemplate? && t.vmPc.want && t.nics == s.nics && t.vmSnap.obj.pool == s.api[Key(Vmc, name)].pool
  {
  }

  lemma VisitedFacts(s: State, t: State)
    requires s.vmPc.VTemplate? && s.vmPc.want && Visited(s, t, VInstances(s.vmPc.want, s.vmPc.ref, s.vmPc.own, {}))
    ensures t.vmPc.VInstances? && t.vmPc.want && t.vmPc.todo == {}
  {
  }

  lemma VmPassed(s: State, s3: State, s4: State, t: State, name: string)
    requires Key(Vmc, name) in s.api && VmReadied(s, s3, name) && Inv(s4) && OnCourse(s4)
    requires Visited(s3, s4, VInstances(s3.vmPc.want, s3.vmPc.ref, s3.vmPc.own, {}))
    requires t == s4.(prefixes := t.prefixes, vmPc := VIdle)
    requires t.prefixes == if s4.vmPc.own then s4.prefixes else s4.prefixes - {ManagedName(s4.vmSnap.obj.uid)}
    ensures VmDone(s, t, name)
  {
    hide Inv, OnCourse, Carries, ManagedName;
    var o := s.api[Key(Vmc, name)];
    OwnPrefixed(s4);
    PrefixThere(s4);
    SameKeys(s4);
    forall place | place in t.nics && place.pool == o.pool
      ensures Carries(t, place, ManagedName(o.uid), o.egress)
    {
      AllCarry(s4, place);
      CarriesReads(s4, t, place, place, ManagedName(o.uid), o.egress);
    }
  }

  // ---------------------------------------------------------------- serving a gateway from anywhere

  /** Every controller gives up what it is doing. */
  const HALT := [SgcStop, LbStop, VmRestart]

  ghost function Halted(s: State): State {
    s.(sgcPc := SIdle, lbPc := LIdle, vmPc := VIdle, vmQueue := [])
  }

  lemma HaltRuns(s: State)
    ensures Run(s, HALT) == Halted(s)
  {
    hide Step;
    RunTwo(s, SgcStop, LbStop);
    RunMore(s, [SgcStop, LbStop], VmRestart);
    assert [SgcStop, LbStop] + [VmRestart] == HALT;
    SgcStops(s);
    LbStops(s.(sgcPc := SIdle));
    VmRestarts(s.(sgcPc := SIdle, lbPc := LIdle));
  }

  lemma SgcStops(s: State)
    ensures Step(s, SgcStop) == s.(sgcPc := SIdle)
  {
    hide SgcFetched, SgcFinalized, SecretEnsured, LbcEnsured, SecretDropped, LbcDropped, SgcReleased, UserStep, ScaleStep, LbStep, VmStep;
  }

  lemma LbStops(s: State)
    ensures Step(s, LbStop) == s.(lbPc := LIdle)
  {
    hide LbFetched, LbFinalized, RuleReconciled, VmcEnsured, VmcDropped, LbReleased, UserStep, ScaleStep, SgcStep, VmStep;
  }

  lemma VmRestarts(s: State)
    ensures Step(s, VmRestart) == s.(vmPc := VIdle, vmQueue := [])
  {
    hide VmFetched, VmFinalized, PrefixEnsured, TemplateReconciled, InstancesListed, InstanceReconciled, InstancesDone, PrefixDeleted, VmReleased,
      Listed, UserStep, ScaleStep, SgcStep, LbStep;
  }

  lemma {:induction false} LongerThan(used: set<string>) returns (n: nat)
    ensures forall u :: u in used ==> |u| < n
  {
    if used == {} {
      n := 0;
    } else {
      var u :| u in used;
      n := LongerThan(used - {u});
      n := if |u| < n then n else |u| + 1;
    }
  }

  lemma FreshUid(s: State) returns (uid: string)
    ensures Unused(s, uid)
  {
    var n := LongerThan(s.issued.Keys);
    uid := seq(n + 1, _ => 'a');
    assert Fold(uid) == uid;
  }

  /** Nothing is being deleted, the egress and the scale set are there, and the pool has room. */
  ghost predicate Serviceable(s: State, name: string) {
    var sgc, lbc, vmc := Key(Sgc, name), Key(Lbc, name), Key(Vmc, name);
    sgc in s.api && !s.api[sgc].deleting && (lbc in s.api ==> !s.api[lbc].deleting) && (vmc in s.api ==> !s.api[vmc].deleting) &&
    Usable(s.api[sgc].egress) && Template(s.api[sgc].pool) in s.nics &&
    (LB.CountInPool(s.api[sgc].pool, LR.LbOf(s.lb).rules) < 1000 ||
     (lbc in s.api && LR.OwnRule(LR.LbOf(s.lb).rules, s.api[lbc].uid, s.api[sgc].pool)))
  }

  /** The gateway's secret, objects and rule are there, its managed prefix iff it wants one, and its IP configuration all over its pool. */
  ghost predicate Served(s: State, name: string) {
    var sgc, lbc, vmc := Key(Sgc, name), Key(Lbc, name), Key(Vmc, name);
    sgc in s.api && lbc in s.api && vmc in s.api &&
    var o, m := s.api[sgc], ManagedName(s.api[vmc].uid);
    o.uid in s.secrets && s.api[lbc].owner == o.uid && s.api[vmc].owner == s.api[lbc].uid && s.api[lbc].uid in LR.RuleKeys(s.lb) &&
    (o.egress.ManagedPrefix? <==> m in s.prefixes) &&
    forall place :: place in s.nics && place.pool == o.pool ==> Equipped(s, place, m, o.egress)
  }

  /** From every reachable state a serviceable gateway can be served, whatever the controllers were doing. */
  lemma CanServe(s0: State, actions: seq<Action>, name: string) returns (more: seq<Action>)
    requires Initial(s0) && Serviceable(Run(s0, actions), name)
    ensures var s, t, sgc := Run(s0, actions), Run(s0, actions + more), Key(Sgc, name);
            Served(t, name) && sgc in s.api && t.api[sgc] == s.api[sgc].(finalizer := true, version := t.api[sgc].version)
  {
    hide *;
    var s := Run(s0, actions);
    RunOnCourse(s0, actions);
    var h := Halted(s);
    HaltRuns(s);
    RunKeeps(s, HALT);
    HaltedFacts(s, name);
    var u := FreshUid(h);
    var first := SgcPass(h, name, u);
    var a := Run(h, first);
    RunKeeps(h, first);
    var v := FreshUid(a);
    RoomStays(h, a, name, u);
    var second := LbPass(a, name, v);
    var b := Run(a, second);
    RunKeeps(a, second);
    StillReady(h, a, b, name, u, v);
    var third := VmPass(b, name);
    RunKeeps(b, third);
    ServedAtLast(h, a, b, Run(b, third), name, u, v);
    more := HALT + first + second + third;
    RunAppend(s, HALT, first);
    RunAppend(s, HALT + first, second);
    RunAppend(s, HALT + first + second, third);
    RunAppend(s0, actions, more);
  }

  lemma HaltedFacts(s: State, name: string)
    requires Serviceable(s, name)
    ensures var h := Halted(s);
            h.sgcPc == SIdle && h.lbPc == LIdle && h.vmPc == VIdle && h.vmQueue == [] && Serviceable(h, name) &&
            Key(Sgc, name) in h.api && !h.api[Key(Sgc, name)].deleting && h.api == s.api && Key(Sgc, name) in s.api
  {
    hide Usable, LR.LbOf, LR.OwnRule;
  }

  lemma RoomStays(h: State, a: State, name: string, u: string)
    requires Serviceable(h, name) && Key(Sgc, name) in h.api && SgcDone(h, a, name, u) && h.lbPc == LIdle
    ensures a.lbPc == LIdle && Key(Lbc, name) in a.api && !a.api[Key(Lbc, name)].deleting
    ensures Room(a.lb, a.api[Key(Lbc, name)].uid, a.api[Key(Lbc, name)].pool)
  {
    hide Usable, LR.LbOf, LR.OwnRule;
  }

  lemma StillReady(h: State, a: State, b: State, name: string, u: string, v: string)
    requires Serviceable(h, name) && Key(Sgc, name) in h.api && SgcDone(h, a, name, u) && Key(Lbc, name) in a.api && LbDone(a, b, name, v)
    requires h.vmPc == VIdle && h.vmQueue == []
    ensures b.vmPc == VIdle && b.vmQueue == [] && Key(Vmc, name) in b.api && Key(Sgc, name) in b.api
    ensures var o := b.api[Key(Vmc, name)]; !o.deleting && Usable(o.egress) && Template(o.pool) in b.nics
  {
    hide Usable, LR.LbOf, LR.OwnRule, LR.RuleKeys;
  }

  lemma ServedAtLast(h: State, a: State, b: State, t: State, name: string, u: string, v: string)
    requires Key(Sgc, name) in h.api && SgcDone(h, a, name, u) && Key(Lbc, name) in a.api && LbDone(a, b, name, v)
    requires Key(Vmc, name) in b.api && VmDone(b, t, name) && Inv(t)
    ensures Served(t, name) && t.api[Key(Sgc, name)] == h.api[Key(Sgc, name)].(finalizer := true, version := t.api[Key(Sgc, name)].version)
  {
    hide Carries, ManagedName, LR.RuleKeys, Inv, Equipped;
    var o := t.api[Key(Vmc, name)];
    forall place | place in t.nics && place.pool == o.pool
      ensures Equipped(t, place, ManagedName(o.uid), o.egress)
    {
      CarriesAttached(t, place, o.uid, o.egress);
    }
  }

  // ---------------------------------------------------------------- removing a gateway from anywhere

  /** The object is gone; the steps that got there touched interfaces, prefixes and their own worker. */
  ghost predicate VmcRemoved(s: State, t: State, name: string) {
    t == s.(api := s.api - {Key(Vmc, name)}, prefixes := t.prefixes, nics := t.nics, managed := t.managed, vmPc := VIdle, vmSnap := t.vmSnap)
  }

  lemma VmDeleting(s: State, name: string)
    requires s.vmPc == VIdle && s.vmQueue == [] && Key(Vmc, name) in s.api && Key(Sgc, name) in s.api
    requires s.api[Key(Vmc, name)].deleting && s.api[Key(Vmc, name)].finalizer
    ensures VmFetched(s, name) == s.(vmPc := VTemplate(false, "", false), vmSnap := Snapshot(name, s.api[Key(Vmc, name)]))
  {
  }

  lemma VmLetsGo(s: State, v: State, name: string)
    requires Key(Vmc, name) in s.api && s.api[Key(Vmc, name)].deleting
    requires Visited(s.(vmPc := VTemplate(false, "", false), vmSnap := Snapshot(name, s.api[Key(Vmc, name)])), v, VInstances(false, "", false, {}))
    ensures VmcRemoved(s, VmReleased(PrefixDeleted(InstancesDone(v))), name)
  {
    hide ManagedName;
  }

  lemma RemoveVmc(s: State, name: string) returns (more: seq<Action>)
    requires Inv(s) && s.vmPc == VIdle && s.vmQueue == [] && Key(Vmc, name) in s.api && Key(Sgc, name) in s.api
    requires s.api[Key(Vmc, name)].deleting && s.api[Key(Vmc, name)].finalizer && Template(s.api[Key(Vmc, name)].pool) in s.nics
    ensures VmcRemoved(s, Run(s, more), name)
  {
    hide *;
    var s1 := VmFetched(s, name);
    VmOpens(s, name);
    StepInv(s, VmFetch(name));
    VmDeleting(s, name);
    var visits := VisitAll(s1);
    var v := Run(s1, visits);
    var last := [VmAfterInstances, VmDropPrefix, VmRemoveFinalizer];
    VmEnds(v);
    VmEnds(InstancesDone(v));
    VmReleases(PrefixDeleted(InstancesDone(v)));
    RunTwo(v, VmAfterInstances, VmDropPrefix);
    RunMore(v, [VmAfterInstances, VmDropPrefix], VmRemoveFinalizer);
    assert [VmAfterInstances, VmDropPrefix] + [VmRemoveFinalizer] == last;
    VmLetsGo(s, v, name);
    RunFirst(s, VmFetch(name));
    more := [VmFetch(name)] + visits + last;
    RunAppend(s, [VmFetch(name)], visits);
    RunAppend(s, [VmFetch(name)] + visits, last);
  }

  lemma RunFirst(s: State, a: Action)
    ensures Run(s, [a]) == Step(s, a)
  {
    hide Step;
    RunMore(s, [], a);
    assert [] + [a] == [a];
  }

  /** Deleting a child: it is gone at once, or stays under its finalizer, being deleted. */
  ghost predicate Marked(s: State, t: State, key: Key) {
    t.api.Keys <= s.api.Keys && s.api.Keys <= t.api.Keys + {key} && (forall k :: k in s.api && k != key ==> t.api[k] == s.api[k]) &&
    (key in t.api ==> key in s.api && t.api[key].deleting && t.api[key].finalizer && t.api[key].pool == s.api[key].pool && t.api[key].uid == s.api[key].uid && s.api[key].finalizer)
  }

  lemma DeletedMarks(s: State, t: State, key: Key)
    requires Inv(s) && t.api == Deleted(s.api, key)
    ensures Marked(s, t, key) && (key !in s.api ==> t.api == s.api)
  {
    hide LbOk, NicOk, SecretsOk, SgcWorkerOk, LbWorkerOk, VmWorkerOk;
    if key in s.api {
      ObjectFacts(s, key);
    }
  }

  /** First pass over a deleted LB configuration: its VM configuration is deleted. */
  lemma LbMarks(s: State, name: string) returns (more: seq<Action>)
    requires Inv(s) && s.lbPc == LIdle && Key(Lbc, name) in s.api && Key(Sgc, name) in s.api
    requires s.api[Key(Lbc, name)].deleting && s.api[Key(Lbc, name)].finalizer
    ensures var t := Run(s, more); t == s.(api := t.api, lbPc := LIdle, lbSnap := t.lbSnap) && Marked(s, t, Key(Vmc, name))
  {
    hide Inv, Step, Marked, Deleted, Run;
    var s1 := LbFetched(s, name);
    var s2 := VmcDropped(s1);
    LbOpens(s, name);
    LbDrops(s1, CALM);
    DeletedMarks(s, s2, Key(Vmc, name));
    more := [LbFetch(name), LbDropVmc, LbStop];
    RunTwo(s, LbFetch(name), LbDropVmc);
    RunMore(s, [LbFetch(name), LbDropVmc], LbStop);
    assert [LbFetch(name), LbDropVmc] + [LbStop] == more;
    LbStops(s2);
    MarkedReads(s, s2, s2.(lbPc := LIdle), Key(Vmc, name));
  }

  lemma MarkedReads(s: State, t: State, u: State, key: Key)
    requires Marked(s, t, key) && u.api == t.api
    ensures Marked(s, u, key)
  {
  }

  /** Second pass: with no VM configuration left, the rule goes and then the finalizer. */
  lemma LbEnds(s: State, name: string) returns (more: seq<Action>)
    requires Inv(s) && s.lbPc == LIdle && Key(Lbc, name) in s.api && Key(Sgc, name) in s.api && Key(Vmc, name) !in s.api
    requires s.api[Key(Lbc, name)].deleting && s.api[Key(Lbc, name)].finalizer
    ensures var t := Run(s, more); t == s.(api := s.api - {Key(Lbc, name)}, lb := t.lb, lbPc := LIdle, lbSnap := t.lbSnap)
  {
    hide Inv, Step, Run, RuleReconciled;
    var s1 := LbFetched(s, name);
    var s2 := VmcDropped(s1);
    var s3 := RuleReconciled(s2, true, false, CALM);
    more := [LbFetch(name), LbDropVmc, LbDropRule(true, CALM), LbRemoveFinalizer];
    LbOpens(s, name);
    LbDrops(s1, CALM);
    LbDrops(s2, CALM);
    LbReleases(s3);
    StepInv(s, more[0]);
    StepInv(s1, more[1]);
    RuleGoes(s2, false);
    RunFour(s, more[0], more[1], more[2], more[3]);
  }

  /** Everything a removal of the LB configuration may touch, besides the API server. */
  ghost predicate LbcRemoved(s: State, t: State, name: string) {
    Key(Lbc, name) !in t.api && (forall k :: k in s.api && k != Key(Lbc, name) && k != Key(Vmc, name) ==> k in t.api && t.api[k] == s.api[k]) &&
    t == s.(api := t.api, lb := t.lb, lbPc := LIdle, lbSnap := t.lbSnap, prefixes := t.prefixes, nics := t.nics, managed := t.managed,
            vmPc := VIdle, vmSnap := t.vmSnap)
  }

  ghost predicate Removable(s: State, name: string) {
    var vmc := Key(Vmc, name);
    vmc in s.api && s.api[vmc].finalizer ==> Template(s.api[vmc].pool) in s.nics
  }

  /** A VM configuration that is gone, or being deleted under its finalizer, can be got rid of. */
  lemma VmcLeaves(s: State, name: string) returns (more: seq<Action>)
    requires Inv(s) && s.vmPc == VIdle && s.vmQueue == [] && Key(Sgc, name) in s.api
    requires Key(Vmc, name) in s.api ==>
               s.api[Key(Vmc, name)].deleting && s.api[Key(Vmc, name)].finalizer && Template(s.api[Key(Vmc, name)].pool) in s.nics
    ensures VmcRemoved(s, Run(s, more), name)
  {
    hide Inv, Run, VmcRemoved;
    if Key(Vmc, name) in s.api {
      more := RemoveVmc(s, name);
    } else {
      more := [];
      RunNone(s);
      AlreadyRemoved(s, name);
    }
  }

  lemma AlreadyRemoved(s: State, name: string)
    requires s.vmPc == VIdle && Key(Vmc, name) !in s.api
    ensures VmcRemoved(s, s, name)
  {
    assert s.api - {Key(Vmc, name)} == s.api;
  }

  lemma StillRemovable(s: State, a: State, name: string)
    requires Removable(s, name) && Marked(s, a, Key(Vmc, name)) && a.nics == s.nics && Key(Sgc, name) in s.api
    ensures Key(Sgc, name) in a.api
    ensures Key(Vmc, name) in a.api ==>
              a.api[Key(Vmc, name)].deleting && a.api[Key(Vmc, name)].finalizer && Template(a.api[Key(Vmc, name)].pool) in a.nics
  {
  }

  lemma OnlyLbc(s: State, a: State, b: State, name: string)
    requires Key(Lbc, name) in s.api && Key(Sgc, name) in s.api && Marked(s, a, Key(Vmc, name)) && VmcRemoved(a, b, name) && a.lbPc == LIdle
    ensures b.lbPc == LIdle && Key(Lbc, name) in b.api && b.api[Key(Lbc, name)] == s.api[Key(Lbc, name)] && Key(Sgc, name) in b.api && Key(Vmc, name) !in b.api
  {
  }

  lemma LbcGone(s: State, a: State, b: State, t: State, name: string)
    requires Marked(s, a, Key(Vmc, name)) && a == s.(api := a.api, lbPc := LIdle, lbSnap := a.lbSnap) && VmcRemoved(a, b, name)
    requires t == b.(api := b.api - {Key(Lbc, name)}, lb := t.lb, lbPc := LIdle, lbSnap := t.lbSnap)
    ensures LbcRemoved(s, t, name)
  {
  }

  lemma RemoveLbc(s: State, name: string) returns (more: seq<Action>)
    requires Inv(s) && OnCourse(s) && s.lbPc == LIdle && s.vmPc == VIdle && s.vmQueue == [] && Key(Lbc, name) in s.api && Key(Sgc, name) in s.api
    requires s.api[Key(Lbc, name)].deleting && s.api[Key(Lbc, name)].finalizer && Removable(s, name)
    ensures LbcRemoved(s, Run(s, more), name)
  {
    hide Inv, OnCourse, Step, Run, Removable, VmcRemoved, Marked;
    var first := LbMarks(s, name);
    var a := Run(s, first);
    RunKeeps(s, first);
    StillRemovable(s, a, name);
    var second := VmcLeaves(a, name);
    var b := Run(a, second);
    RunKeeps(a, second);
    OnlyLbc(s, a, b, name);
    var third := LbEnds(b, name);
    more := first + second + third;
    RunAppend(s, first, second);
    RunAppend(s, first + second, third);
    LbcGone(s, a, b, Run(b, third), name);
  }

  lemma RunNone(s: State)
    ensures Run(s, []) == s
  {
  }

  /** First pass over a deleted gateway: its secret goes and its LB configuration is deleted. */
  lemma SgcMarks(s: State, name: string) returns (more: seq<Action>)
    requires Inv(s) && s.sgcPc == SIdle && Key(Sgc, name) in s.api && s.api[Key(Sgc, name)].deleting && s.api[Key(Sgc, name)].finalizer
    ensures var t := Run(s, more);
            t == s.(api := t.api, secrets := s.secrets - {s.api[Key(Sgc, name)].uid}, sgcPc := SIdle, sgcSnap := t.sgcSnap) &&
            Marked(s, t, Key(Lbc, name))
  {
    hide Inv, Step, Marked, Deleted, Run;
    var s1 := SgcFetched(s, name);
    var s2 := SecretDropped(s1);
    var s3 := LbcDropped(s2);
    SgcOpens(s, name);
    SgcDrops(s1);
    SgcDrops(s2);
    DeletedMarks(s, s3, Key(Lbc, name));
    more := [SgcFetch(name), SgcDropSecret, SgcDropLbc, SgcStop];
    RunFour(s, more[0], more[1], more[2], more[3]);
    SgcStops(s3);
    MarkedReads(s, s3, s3.(sgcPc := SIdle), Key(Lbc, name));
  }

  /** Second pass: with neither secret nor LB configuration left, the finalizer goes. */
  lemma SgcEnds(s: State, name: string) returns (more: seq<Action>)
    requires s.sgcPc == SIdle && Key(Sgc, name) in s.api && s.api[Key(Sgc, name)].deleting && s.api[Key(Sgc, name)].finalizer
    requires s.api[Key(Sgc, name)].uid !in s.secrets && Key(Lbc, name) !in s.api
    ensures Key(Sgc, name) !in Run(s, more).api
  {
    hide Step, Run;
    var s1 := SgcFetched(s, name);
    var s2 := SecretDropped(s1);
    var s3 := LbcDropped(s2);
    SgcOpens(s, name);
    SgcDrops(s1);
    SgcDrops(s2);
    SgcReleases(s3);
    more := [SgcFetch(name), SgcDropSecret, SgcDropLbc, SgcRemoveFinalizer];
    RunFour(s, more[0], more[1], more[2], more[3]);
  }

  lemma RemoveSgc(s: State, name: string) returns (more: seq<Action>)
    requires Inv(s) && OnCourse(s) && s.sgcPc == SIdle && s.lbPc == LIdle && s.vmPc == VIdle && s.vmQueue == []
    requires Key(Sgc, name) in s.api && s.api[Key(Sgc, name)].deleting && s.api[Key(Sgc, name)].finalizer && Removable(s, name)
    ensures Key(Sgc, name) !in Run(s, more).api
  {
    hide Inv, OnCourse, Step, Run;
    var first := SgcMarks(s, name);
    var a := Run(s, first);
    RunKeeps(s, first);
    var second := [];
    if Key(Lbc, name) in a.api {
      second := RemoveLbc(a, name);
    } else {
      RunNone(a);
    }
    var b := Run(a, second);
    var third := SgcEnds(b, name);
    more := first + second + third;
    RunAppend(s, first, second);
    RunAppend(s, first + second, third);
  }

  /** From every reachable state a gateway can be removed, whatever the controllers were doing and however far it had come. */
  lemma CanRemove(s0: State, actions: seq<Action>, name: string) returns (more: seq<Action>)
    requires Initial(s0) && Removable(Run(s0, actions), name)
    ensures Key(Sgc, name) !in Run(s0, actions + more).api
  {
    hide Initial, Inv, OnCourse, Step, Run, Deleted, HALT;
    var s := Run(s0, actions);
    RunOnCourse(s0, actions);
    HaltRuns(s);
    RunKeeps(s, HALT);
    var h, sgc := Halted(s), Key(Sgc, name);
    var d := h.(api := Deleted(h.api, sgc));
    DeleteStep(h, sgc);
    RunFirst(h, ApiDelete(sgc));
    RunKeeps(h, [ApiDelete(sgc)]);
    DeletedMarks(h, d, sgc);
    var rest := [];
    if sgc in d.api {
      rest := RemoveSgc(d, name);
    } else {
      RunNone(d);
    }
    more := HALT + [ApiDelete(sgc)] + rest;
    RunAppend(s, HALT, [ApiDelete(sgc)]);
    RunAppend(s, HALT + [ApiDelete(sgc)], rest);
    RunAppend(s0, actions, more);
  }

  lemma DeleteStep(s: State, key: Key)
    ensures Step(s, ApiDelete(key)) == s.(api := Deleted(s.api, key))
  {
    hide Deleted, ScaleStep, SgcStep, LbStep, VmStep;
  }
}
