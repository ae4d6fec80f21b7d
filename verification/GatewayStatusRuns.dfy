// The GatewayStatus object under concurrent read-edit-write by any number of workers.

module GatewayStatusRuns {
  import opened Wrappers
  import opened Sequences
  import opened GatewayStatus

  // ---------------------------------------------------------------- edits

  datatype Op = AddGateway(gateway: Gateway) | RemoveGateway(link: string) | AddPeer(peer: Peer) | RemovePeers(peers: seq<Peer>) | Deletion

  predicate Adds(op: Op) {
    op.AddGateway? || op.AddPeer?
  }

  function Created(op: Op): Spec
    requires Adds(op)
  {
    if op.AddGateway? then Spec([op.gateway], []) else Spec([], [op.peer])
  }

  predicate Changes(spec: Spec, op: Op) {
    match op
    case AddGateway(g) => GatewayAdded(spec, g) != spec
    case RemoveGateway(link) => GatewayRemoved(spec, link) != spec
    case AddPeer(p) => PeersEdited(ByKey(spec.peers), [p], true) != ByKey(spec.peers)
    case RemovePeers(ps) => PeersEdited(ByKey(spec.peers), ps, false) != ByKey(spec.peers)
    case Deletion => false
  }

  /** What a worker may write for an edit that changes something; a rebuilt peer list has any order. */
  ghost predicate Edited(spec: Spec, op: Op, next: Spec) {
    match op
    case AddGateway(g) => next == GatewayAdded(spec, g)
    case RemoveGateway(link) => next == GatewayRemoved(spec, link)
    case AddPeer(p) => next.gateways == spec.gateways && Lists(next.peers, PeersEdited(ByKey(spec.peers), [p], true))
    case RemovePeers(ps) => next.gateways == spec.gateways && Lists(next.peers, PeersEdited(ByKey(spec.peers), ps, false))
    case Deletion => false
  }

  // ---------------------------------------------------------------- the object's meaning

  /** Ready gateways by link and ready peers by key. */
  datatype Ready = Ready(gateways: map<string, Gateway>, peers: map<string, Peer>)

  function Apply(r: Option<Ready>, op: Op): Option<Ready> {
    match op
    case Deletion => None
    case AddGateway(g) =>
      if r.None? then Some(Ready(map[g.link := g], map[]))
      else if g.link in r.value.gateways then r
      else Some(r.value.(gateways := r.value.gateways[g.link := g]))
    case RemoveGateway(link) =>
      if r.None? then None
      else Some(Ready(r.value.gateways - {link}, map k | k in r.value.peers && r.value.peers[k].link != link :: r.value.peers[k]))
    case AddPeer(p) =>
      if r.None? then Some(Ready(map[], map[p.key := p]))
      else if p.key in r.value.peers then r
      else Some(r.value.(peers := r.value.peers[p.key := p]))
    case RemovePeers(ps) =>
      if r.None? then None
      else Some(r.value.(peers := r.value.peers - set i | 0 <= i < |ps| :: ps[i].key))
  }

  /** What the committed edits, applied one after another, say is ready. */
  function Meaning(log: seq<Op>): Option<Ready> {
    if log == [] then None else Apply(Meaning(log[..|log| - 1]), log[|log| - 1])
  }

  ghost predicate ListsGateways(gs: seq<Gateway>, m: map<string, Gateway>) {
    LinksDistinct(gs) && (forall g :: g in gs <==> g.link in m && m[g.link] == g) && (forall l :: l in m ==> m[l].link == l)
  }

  ghost predicate Reflects(spec: Spec, r: Option<Ready>) {
    r.Some? && ListsGateways(spec.gateways, r.value.gateways) && Lists(spec.peers, r.value.peers)
  }

  // ---------------------------------------------------------------- the API server and its writers

  datatype Object = Object(version: nat, spec: Spec)
  datatype Pending = Pending(op: Op, seen: Option<Object>)

  /** The stored object, the next version, what each worker has read, and the committed edits. */
  datatype State = State(stored: Option<Object>, next: nat, workers: map<nat, Pending>, log: seq<Op>)

  datatype Action = Read(worker: nat, op: Op) | Finish(worker: nat, edited: Spec) | Abandon(worker: nat) | Delete

  ghost function Commit(s: State, spec: Spec, op: Op): State {
    s.(stored := Some(Object(s.next, spec)), next := s.next + 1, log := s.log + [op])
  }

  /** Creates need an absent object, updates the version that was read; otherwise the write is refused. */
  ghost function Written(s: State, p: Pending, edited: Spec): State {
    match p.seen
    case None => if !Adds(p.op) || s.stored.Some? then s else Commit(s, Created(p.op), p.op)
    case Some(o) =>
      if !Changes(o.spec, p.op) || s.stored.None? || s.stored.value.version != o.version || !Edited(o.spec, p.op, edited) then s
      else Commit(s, edited, p.op)
  }

  ghost function Step(s: State, a: Action): State {
    match a
    case Read(w, op) => if op.Deletion? then s else s.(workers := s.workers[w := Pending(op, s.stored)])
    case Abandon(w) => s.(workers := s.workers - {w})
    case Finish(w, edited) =>
      if w !in s.workers then s else Written(s.(workers := s.workers - {w}), s.workers[w], edited)
    case Delete => s.(stored := None, log := s.log + [Deletion])
  }

  ghost function Run(s: State, actions: seq<Action>): State {
    if actions == [] then s else Step(Run(s, actions[..|actions| - 1]), actions[|actions| - 1])
  }

  const EMPTY := State(None, 0, map[], [])

  // ---------------------------------------------------------------- an edit does what it means

  lemma {:induction false} WithoutMembers<T>(s: seq<T>, p: T -> bool, x: T)
    ensures x in Without(s, p) <==> x in s && !p(x)
  {
    if s != [] {
      WithoutMembers(s[1..], p, x);
      assert s == [s[0]] + s[1..];
    }
  }

  lemma {:induction false} WithoutKeys(ps: seq<Peer>, p: Peer -> bool)
    requires KeysDistinct(ps)
    ensures KeysDistinct(Without(ps, p))
  {
    if ps != [] {
      WithoutKeys(ps[1..], p);
      var rest := Without(ps[1..], p);
      forall i | 0 <= i < |rest|
        ensures rest[i].key != ps[0].key
      {
        WithoutMembers(ps[1..], p, rest[i]);
      }
    }
  }

  lemma ByKeyMembers(ps: seq<Peer>, p: Peer)
    requires KeysDistinct(ps)
    ensures p in ps <==> p.key in ByKey(ps) && ByKey(ps)[p.key] == p
  {
  }

  /** Cutting out a link's peers leaves exactly the peers of other links. */
  lemma PeersWithout(ps: seq<Peer>, m: map<string, Peer>, link: string)
    requires Lists(ps, m)
    ensures Lists(Without(ps, OnLink(link)), map k | k in m && m[k].link != link :: m[k])
  {
    hide Without, ByKey;
    var left := Without(ps, OnLink(link));
    WithoutKeys(ps, OnLink(link));
    ByKeyContents(ps);
    ByKeyContents(left);
    forall k
      ensures k in ByKey(left) <==> k in m && m[k].link != link
      ensures k in ByKey(left) ==> ByKey(left)[k] == m[k]
    {
      if k in ByKey(left) {
        WithoutMembers(ps, OnLink(link), ByKey(left)[k]);
        ByKeyMembers(ps, ByKey(left)[k]);
      }
      if k in m && m[k].link != link {
        WithoutMembers(ps, OnLink(link), m[k]);
        ByKeyMembers(left, m[k]);
      }
    }
  }

  lemma GatewaysWithout(gs: seq<Gateway>, m: map<string, Gateway>, link: string)
    requires ListsGateways(gs, m)
    ensures ListsGateways(RemoveAt(gs, FirstIndex(gs, OfLink(link))), m - {link})
  {
  }

  lemma GatewaysFound(gs: seq<Gateway>, m: map<string, Gateway>, link: string)
    requires ListsGateways(gs, m)
    ensures FirstIndex(gs, OfLink(link)) < |gs| <==> link in m
    ensures RemoveAt(gs, FirstIndex(gs, OfLink(link))) == gs <==> link !in m
  {
  }

  lemma GatewaysWith(gs: seq<Gateway>, m: map<string, Gateway>, g: Gateway)
    requires ListsGateways(gs, m) && g.link !in m
    ensures ListsGateways(gs + [g], m[g.link := g])
  {
  }

  lemma {:induction false} PeersRemoved(m: map<string, Peer>, ps: seq<Peer>)
    ensures PeersEdited(m, ps, false) == m - set i | 0 <= i < |ps| :: ps[i].key
  {
    if ps != [] {
      var init, last := ps[..|ps| - 1], ps[|ps| - 1];
      PeersRemoved(m, init);
      var keys := set i | 0 <= i < |init| :: init[i].key;
      assert (set i | 0 <= i < |ps| :: ps[i].key) == keys + {last.key} by {
        assert forall i :: 0 <= i < |init| ==> init[i] == ps[i];
        forall k | k in keys
          ensures k in set i | 0 <= i < |ps| :: ps[i].key
        {
          var i :| 0 <= i < |init| && init[i].key == k;
          assert ps[i].key == k;
        }
        assert ps[|ps| - 1].key == last.key;
      }
    }
  }

  lemma PeerAdded(m: map<string, Peer>, p: Peer)
    ensures PeersEdited(m, [p], true) == if p.key in m then m else m[p.key := p]
  {
  }

  /** Whatever a worker writes for an edit means what the edit means. */
  lemma EditReflects(spec: Spec, op: Op, next: Spec, r: Option<Ready>)
    requires Reflects(spec, r) && Edited(spec, op, next)
    ensures Reflects(next, Apply(r, op))
  {
    hide ListsGateways, Lists, ByKey, PeersEdited, FirstIndex, RemoveAt, Without;
    PeersOf(spec, r);
    match op {
      case AddGateway(g) =>
        GatewaysFound(spec.gateways, r.value.gateways, g.link);
        if g.link !in r.value.gateways {
          GatewaysWith(spec.gateways, r.value.gateways, g);
        }
      case RemoveGateway(link) =>
        GatewaysWithout(spec.gateways, r.value.gateways, link);
        PeersWithout(spec.peers, r.value.peers, link);
      case AddPeer(p) => PeerAdded(r.value.peers, p);
      case RemovePeers(ps) => PeersRemoved(r.value.peers, ps);
    }
  }

  lemma PeersOf(spec: Spec, r: Option<Ready>)
    requires Reflects(spec, r)
    ensures ByKey(spec.peers) == r.value.peers
  {
  }

  /** A worker skips the write exactly when its edit means nothing new. */
  lemma SkipsExactly(spec: Spec, op: Op, r: Option<Ready>)
    requires Reflects(spec, r) && !op.Deletion?
    ensures Changes(spec, op) <==> Apply(r, op) != r
  {
    hide Lists, ByKey, PeersEdited, FirstIndex, RemoveAt, Without, ListsGateways;
    PeersOf(spec, r);
    match op {
      case AddGateway(g) => GatewaysFound(spec.gateways, r.value.gateways, g.link);
      case RemoveGateway(link) => RemovalNoticed(spec, link, r);
      case AddPeer(p) => PeerAdded(r.value.peers, p);
      case RemovePeers(ps) => PeersRemoved(r.value.peers, ps);
    }
  }

  lemma RemovalNoticed(spec: Spec, link: string, r: Option<Ready>)
    requires Reflects(spec, r)
    ensures GatewayRemoved(spec, link) == spec <==> Apply(r, RemoveGateway(link)) == r
  {
    hide FirstIndex, RemoveAt, Without, ListsGateways, Lists;
    GatewaysFound(spec.gateways, r.value.gateways, link);
    PeersNoticed(spec.peers, r.value.peers, link);
    assert link !in r.value.gateways <==> r.value.gateways - {link} == r.value.gateways;
  }

  lemma PeersNoticed(ps: seq<Peer>, m: map<string, Peer>, link: string)
    requires Lists(ps, m)
    ensures Without(ps, OnLink(link)) == ps <==> (map k | k in m && m[k].link != link :: m[k]) == m
  {
    hide ByKey, Without;
    ByKeyContents(ps);
    var left := map k | k in m && m[k].link != link :: m[k];
    if i :| 0 <= i < |ps| && ps[i].link == link {
      WithoutMembers(ps, OnLink(link), ps[i]);
      assert ps[i].key in m && ps[i].key !in left;
    } else {
      WithoutNone(ps, OnLink(link));
      assert forall k :: k in m ==> m[k].link != link;
    }
  }

  // ---------------------------------------------------------------- every run

  ghost predicate Inv(s: State) {
    (s.stored.None? ==> Meaning(s.log).None?) &&
    (s.stored.Some? ==> s.stored.value.version < s.next && Reflects(s.stored.value.spec, Meaning(s.log))) &&
    (forall w :: w in s.workers ==> !s.workers[w].op.Deletion? && SeenOk(s, s.workers[w].seen))
  }

  /** A version names one content: what was read at the stored version is what is stored. */
  ghost predicate SeenOk(s: State, seen: Option<Object>) {
    seen.Some? ==> seen.value.version < s.next && (s.stored.Some? && s.stored.value.version == seen.value.version ==> s.stored == seen)
  }

  lemma CommitInv(s: State, spec: Spec, op: Op)
    requires Inv(s) && Reflects(spec, Apply(Meaning(s.log), op))
    ensures Inv(Commit(s, spec, op))
  {
  }

  lemma CreatedReflects(op: Op)
    requires Adds(op)
    ensures Reflects(Created(op), Apply(None, op))
  {
    if op.AddPeer? {
      assert [op.peer][..0] == [];
      assert ByKey([]) == map[];
    }
  }

  lemma StepInv(s: State, a: Action)
    requires Inv(s)
    ensures Inv(Step(s, a))
  {
    hide Reflects, Apply, Edited, Changes, Created, Commit;
    match a {
      case Read(w, op) =>
      case Abandon(w) =>
      case Delete => DeleteInv(s);
      case Finish(w, edited) =>
        if w in s.workers {
          var p, idle := s.workers[w], s.(workers := s.workers - {w});
          if p.seen.None? && Adds(p.op) && s.stored.None? {
            CreatedReflects(p.op);
            CommitInv(idle, Created(p.op), p.op);
          } else if p.seen.Some? && s.stored.Some? && s.stored.value.version == p.seen.value.version && Edited(p.seen.value.spec, p.op, edited) {
            EditReflects(p.seen.value.spec, p.op, edited, Meaning(s.log));
            CommitInv(idle, edited, p.op);
          }
        }
    }
  }

  lemma DeleteInv(s: State)
    requires Inv(s)
    ensures Inv(Step(s, Delete))
  {
  }

  /** A committed edit was made to the object as it stood: no write in between is overwritten. */
  lemma CommitOnCurrent(s: State, w: nat, edited: Spec)
    requires Inv(s) && w in s.workers && Step(s, Finish(w, edited)) != s.(workers := s.workers - {w})
    ensures s.workers[w].seen == s.stored && Step(s, Finish(w, edited)).log == s.log + [s.workers[w].op]
  {
  }

  /** A worker that returns without writing saw its edit already in effect. */
  lemma SkippedInEffect(s: State, op: Op)
    requires Inv(s) && !op.Deletion?
    requires if s.stored.None? then !Adds(op) else !Changes(s.stored.value.spec, op)
    ensures Apply(Meaning(s.log), op) == Meaning(s.log)
  {
    hide Reflects, Changes;
    if s.stored.Some? {
      SkipsExactly(s.stored.value.spec, op, Meaning(s.log));
    }
  }

  /** In every run the object says exactly what the committed edits amount to, with distinct links and keys. */
  lemma {:induction false} RunReflects(actions: seq<Action>)
    ensures var end := Run(EMPTY, actions);
            Inv(end) && (end.stored.Some? <==> Meaning(end.log).Some?) &&
            (end.stored.Some? ==> Reflects(end.stored.value.spec, Meaning(end.log)))
  {
    hide Step, Reflects, Meaning;
    if actions == [] {
      assert Meaning([]).None? by {
        EmptyMeaning();
      }
    } else {
      var init := actions[..|actions| - 1];
      RunReflects(init);
      StepInv(Run(EMPTY, init), actions[|actions| - 1]);
    }
    SomeMeaning(Run(EMPTY, actions));
  }

  lemma EmptyMeaning()
    ensures Meaning([]).None?
  {
  }

  lemma SomeMeaning(s: State)
    requires Inv(s)
    ensures s.stored.Some? <==> Meaning(s.log).Some?
  {
  }
}
