// The node's GatewayStatus object: the edits the two daemon controllers make to the
// copy they read, and the versioned writes that publish them.

module GatewayStatus {
  import opened Sequences

  datatype Gateway = Gateway(link: string, name: string)
  datatype Peer = Peer(key: string, link: string, endpoint: string)
  datatype Spec = Spec(gateways: seq<Gateway>, peers: seq<Peer>)

  ghost predicate LinksDistinct(gs: seq<Gateway>) {
    forall i, j :: 0 <= i < j < |gs| ==> gs[i].link != gs[j].link
  }

  ghost predicate KeysDistinct(ps: seq<Peer>) {
    forall i, j :: 0 <= i < j < |ps| ==> ps[i].key != ps[j].key
  }

  function OnLink(link: string): Peer -> bool { (p: Peer) => p.link == link }

  function OfLink(link: string): Gateway -> bool { (g: Gateway) => g.link == link }

  // ---------------------------------------------------------------- the gateway controller's edits

  /** Appended unless a gateway of the link is already listed. */
  function GatewayAdded(spec: Spec, g: Gateway): Spec {
    if FirstIndex(spec.gateways, OfLink(g.link)) < |spec.gateways| then spec
    else spec.(gateways := spec.gateways + [g])
  }

  /** The first gateway of the link goes, and every peer on it. */
  function GatewayRemoved(spec: Spec, link: string): Spec {
    Spec(RemoveAt(spec.gateways, FirstIndex(spec.gateways, OfLink(link))), Without(spec.peers, OnLink(link)))
  }

  /** Walks the list backwards and cuts each match out of it. */
  method RemovePeersOn(peers: seq<Peer>, link: string) returns (left: seq<Peer>, changed: bool)
    ensures left == Without(peers, OnLink(link))
    ensures changed <==> left != peers
  {
    left, changed := peers, false;
    var i := |peers|;
    ghost var kept: seq<Peer> := Without(peers[i..], OnLink(link));
    assert kept == [];
    hide Without;
    while i > 0
      invariant 0 <= i <= |peers|
      invariant left == peers[..i] + kept && kept == Without(peers[i..], OnLink(link))
      invariant |left| <= |peers| && (changed <==> |left| < |peers|)
    {
      i := i - 1;
      WithoutStep(peers, i, OnLink(link));
      if left[i].link == link {
        changed := true;
        left := left[..i] + left[i + 1..];
      } else {
        kept := [peers[i]] + kept;
      }
    }
    assert peers[0..] == peers;
    WithoutShorter(peers, OnLink(link));
  }

  lemma {:induction false} WithoutShorter<T>(s: seq<T>, p: T -> bool)
    ensures |Without(s, p)| <= |s| && (|Without(s, p)| == |s| ==> Without(s, p) == s)
  {
    if s != [] {
      WithoutShorter(s[1..], p);
    }
  }

  method EditGateway(spec: Spec, g: Gateway, add: bool) returns (edited: Spec, changed: bool)
    ensures edited == if add then GatewayAdded(spec, g) else GatewayRemoved(spec, g.link)
    ensures changed <==> edited != spec
  {
    var gateways := spec.gateways;
    changed := false;
    var found := false;
    var i := 0;
    while i < |spec.gateways| && !found
      invariant 0 <= i <= |spec.gateways|
      invariant !found ==> !changed && gateways == spec.gateways && forall j :: 0 <= j < i ==> spec.gateways[j].link != g.link
      invariant found ==> FirstIndex(spec.gateways, OfLink(g.link)) < |spec.gateways| && changed == !add
      invariant found ==> gateways == if add then spec.gateways else RemoveAt(spec.gateways, FirstIndex(spec.gateways, OfLink(g.link)))
    {
      if spec.gateways[i].link == g.link {
        FirstIs(spec.gateways, OfLink(g.link), i);
        if !add {
          changed := true;
          gateways := gateways[..i] + gateways[i + 1..];
        }
        found := true;
      }
      i := i + 1;
    }
    if add && !found {
      gateways := gateways + [g];
      changed := true;
    }
    edited := Spec(gateways, spec.peers);
    if !add {
      var peers, cut := RemovePeersOn(spec.peers, g.link);
      edited := edited.(peers := peers);
      changed := changed || cut;
    }
  }

  // ---------------------------------------------------------------- the pod-endpoint controller's edits

  /** Peers by key; of two with one key the later counts. */
  function ByKey(ps: seq<Peer>): map<string, Peer> {
    if ps == [] then map[] else ByKey(ps[..|ps| - 1])[ps[|ps| - 1].key := ps[|ps| - 1]]
  }

  function PeersEdited(m: map<string, Peer>, ps: seq<Peer>, add: bool): map<string, Peer> {
    if ps == [] then m
    else
      var before, p := PeersEdited(m, ps[..|ps| - 1], add), ps[|ps| - 1];
      if p.key in before then (if add then before else before - {p.key})
      else if add then before[p.key := p] else before
  }

  /** Any order will do: the list is rebuilt from a map. */
  ghost predicate Lists(ps: seq<Peer>, m: map<string, Peer>) {
    KeysDistinct(ps) && ByKey(ps) == m
  }

  lemma {:induction false} ByKeyContents(ps: seq<Peer>)
    ensures forall k :: k in ByKey(ps) ==> ByKey(ps)[k].key == k && ByKey(ps)[k] in ps
    ensures forall i :: 0 <= i < |ps| ==> ps[i].key in ByKey(ps)
    ensures KeysDistinct(ps) ==> forall i :: 0 <= i < |ps| ==> ByKey(ps)[ps[i].key] == ps[i]
  {
    if ps != [] {
      var init, last := ps[..|ps| - 1], ps[|ps| - 1];
      ByKeyContents(init);
      assert ps == init + [last];
      forall i | 0 <= i < |init|
        ensures ps[i].key in ByKey(ps) && (KeysDistinct(ps) ==> ByKey(ps)[ps[i].key] == ps[i])
      {
        assert init[i] == ps[i];
      }
    }
  }

  method EditPeers(peers: seq<Peer>, configs: seq<Peer>, add: bool) returns (edited: seq<Peer>, changed: bool)
    ensures changed <==> PeersEdited(ByKey(peers), configs, add) != ByKey(peers)
    ensures !changed ==> edited == peers
    ensures changed ==> Lists(edited, PeersEdited(ByKey(peers), configs, add))
  {
    var m: map<string, Peer> := map[];
    var n := 0;
    while n < |peers|
      invariant 0 <= n <= |peers| && m == ByKey(peers[..n])
    {
      assert peers[..n + 1][..n] == peers[..n];
      m := m[peers[n].key := peers[n]];
      n := n + 1;
    }
    assert peers[..n] == peers;
    ghost var start := m;
    changed := false;
    n := 0;
    while n < |configs|
      invariant 0 <= n <= |configs| && m == PeersEdited(start, configs[..n], add)
      invariant if add then start.Keys <= m.Keys else m.Keys <= start.Keys
      invariant changed <==> m.Keys != start.Keys
    {
      assert configs[..n + 1][..n] == configs[..n];
      var p := configs[n];
      if p.key in m {
        if !add {
          m := m - {p.key};
          changed := true;
        }
      } else if add {
        m := m[p.key := p];
        changed := true;
      }
      n := n + 1;
    }
    assert configs[..n] == configs;
    UnchangedKeys(start, configs, add);
    if !changed {
      return peers, false;
    }
    ByKeyContents(peers);
    EditedKeys(start, configs, add);
    edited := ListPeers(m);
  }

  method ListPeers(m: map<string, Peer>) returns (ps: seq<Peer>)
    requires forall k :: k in m ==> m[k].key == k
    ensures Lists(ps, m)
  {
    ps := [];
    var todo := m.Keys;
    while todo != {}
      invariant todo <= m.Keys && KeysDistinct(ps)
      invariant ByKey(ps) == map k | k in m && k !in todo :: m[k]
      decreases |todo|
    {
      var k :| k in todo;
      ByKeyContents(ps);
      var next := ps + [m[k]];
      assert next[..|ps|] == ps;
      ps, todo := next, todo - {k};
    }
  }

  lemma {:induction false} EditedKeys(m: map<string, Peer>, ps: seq<Peer>, add: bool)
    requires forall k :: k in m ==> m[k].key == k
    ensures forall k :: k in PeersEdited(m, ps, add) ==> PeersEdited(m, ps, add)[k].key == k
  {
    if ps != [] {
      EditedKeys(m, ps[..|ps| - 1], add);
    }
  }

  lemma {:induction false} UnchangedKeys(m: map<string, Peer>, ps: seq<Peer>, add: bool)
    ensures var edited := PeersEdited(m, ps, add);
            (if add then m.Keys <= edited.Keys else edited.Keys <= m.Keys) &&
            (forall k :: k in m && k in edited ==> edited[k] == m[k]) && (edited.Keys == m.Keys ==> edited == m)
  {
    if ps != [] {
      UnchangedKeys(m, ps[..|ps| - 1], add);
    }
  }
}
