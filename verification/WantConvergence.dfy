/** Want propagation dies out: on a forest, the frames in flight can trigger only finitely many
    more, because each frame only ever causes frames that move further away from its sender. */
module WantConvergence {
  import opened Forests
  import opened Demands
  import opened WantNetwork
  import opened Sums

  type Edge = (NodeId, NodeId)

  // ---------------------------------------------------------------------------------------------
  // The weight of a frame: how many nodes lie ahead of it
  // ---------------------------------------------------------------------------------------------

  ghost function Ahead(g: Topology, e: Edge): set<NodeId> {
    g.Side(e.1, e.0)
  }

  ghost function AheadOfAny(g: Topology, es: set<Edge>): set<NodeId> {
    set n | n in g.nodes && exists e :: e in es && n in Ahead(g, e)
  }

  ghost function Sizes(g: Topology, es: set<Edge>): map<Edge, int> {
    map e | e in es :: |Ahead(g, e)|
  }

  lemma AddDirection(g: Topology, es: set<Edge>, e: Edge)
    requires e in es && forall f | f in es && f != e :: Ahead(g, f) !! Ahead(g, e)
    ensures |AheadOfAny(g, es)| == |AheadOfAny(g, es - {e})| + |Ahead(g, e)|
    ensures Sum(Sizes(g, es)) == Sum(Sizes(g, es - {e})) + |Ahead(g, e)|
  {
    assert Ahead(g, e) <= g.nodes;
    hide Ahead;
    var rest := es - {e};
    assert AheadOfAny(g, es) == AheadOfAny(g, rest) + Ahead(g, e);
    assert AheadOfAny(g, rest) !! Ahead(g, e);
    hide AheadOfAny;
    SumPick(Sizes(g, es), e);
    assert Sizes(g, es) - {e} == Sizes(g, rest);
  }

  lemma {:induction false} FanOutSize(g: Topology, b: NodeId, es: set<Edge>)
    requires g.Forest() && forall e | e in es :: e.0 == b
    ensures |AheadOfAny(g, es)| == Sum(Sizes(g, es))
    decreases |es|
  {
    hide Topology.Forest, Topology.Side;
    if e :| e in es {
      forall f | f in es && f != e ensures Ahead(g, f) !! Ahead(g, e) {
        SidesBehindAreDisjoint(g, b, f.1, e.1);
      }
      hide Ahead, AheadOfAny, Sizes;
      FanOutSize(g, b, es - {e});
      AddDirection(g, es, e);
    } else {
      assert AheadOfAny(g, es) == {};
      assert Sizes(g, es) == map[];
    }
  }

  ghost function Onward(g: Topology, a: NodeId, b: NodeId): set<Edge> {
    set e | e in g.arcs && e.0 == b && e.1 != a
  }

  /** The nodes ahead of a->b: b itself, and those ahead of b's onward edges, counted once each. */
  lemma AheadSize(g: Topology, a: NodeId, b: NodeId)
    requires g.Forest() && g.Adj(a, b)
    ensures |Ahead(g, (a, b))| == 1 + Sum(Sizes(g, Onward(g, a, b)))
  {
    var es := Onward(g, a, b);
    FanOutSize(g, b, es);
    forall n ensures n in Ahead(g, (a, b)) <==> n in {b} + AheadOfAny(g, es) {
      SideUnfolds(g, b, a, n);
      if n in Ahead(g, (a, b)) && n != b {
        var c :| g.Adj(b, c) && c != a && g.OnSide(c, b, n);
        assert (b, c) in es && n in Ahead(g, (b, c));
      }
      if n in AheadOfAny(g, es) {
        var e :| e in es && n in Ahead(g, e);
        assert e == (b, e.1) && g.Adj(b, e.1);
      }
    }
    assert Ahead(g, (a, b)) == {b} + AheadOfAny(g, es);
    forall e | e in es ensures b !in Ahead(g, e) {
      NearNodeIsNotBehind(g, b, e.1);
    }
    assert b !in AheadOfAny(g, es);
  }

  function Frames(s: Net, e: Edge): seq<Demand> {
    if e.0 in s && e.1 in s[e.0].links then s[e.0].links[e.1].out else []
  }

  /** Frames in flight, each weighted with the nodes ahead of it. */
  ghost function Load(g: Topology, s: Net): map<Edge, int> {
    map e | e in g.arcs :: Weight(g, s, e)
  }

  ghost function Weight(g: Topology, s: Net, e: Edge): int {
    |Frames(s, e)| * |Ahead(g, e)|
  }

  ghost function Pending(g: Topology, s: Net): int {
    Sum(Load(g, s))
  }

  ghost predicate AllRan(s: Net) {
    forall n | n in s :: s[n].ran
  }

  // ---------------------------------------------------------------------------------------------
  // Every delivery lowers the pending weight
  // ---------------------------------------------------------------------------------------------

  lemma SameOthersSameAggregate(n: Node, n0: Node, a: NodeId, v: Demand, w: Demand)
    requires n.local == n0.local && n.links.Keys == n0.links.Keys
    requires forall o | o in n.links && o != a :: n.links[o] == n0.links[o]
    requires n.IsAggregate(a, v) && n0.IsAggregate(a, w)
    ensures w.Equal(v)
  {
    forall t: Topic ensures w.Accepts(t) <==> v.Accepts(t) {
      if n.OtherWants(a, t) {
        var o :| o in n.links && o != a && n.links[o].peerWantSeen && n.links[o].peerWant.Accepts(t);
        assert n0.links[o].peerWant.Accepts(t);
      }
      if n0.OtherWants(a, t) {
        var o :| o in n0.links && o != a && n0.links[o].peerWantSeen && n0.links[o].peerWant.Accepts(t);
        assert n.links[o].peerWant.Accepts(t);
      }
    }
    DemandEqualIsExtensional(w, v);
  }

  /** A node that has announced before never answers a want with a frame to the same neighbour. */
  lemma NoFrameBack(n: Node, n': Node, a: NodeId, d: Demand)
    requires a in n.links && n.ran && Announced(n) && Recomputes(Informed(n, a, d), n')
    ensures n'.links[a].out == n.links[a].out
  {
    var n0 := Informed(n, a, d);
    assert AnnouncesAggregate(n0, a, n'.links[a]);
    var w: Demand :| n0.IsAggregate(a, w) && Announces(w, n0.links[a], n'.links[a]);
    SameOthersSameAggregate(n, n0, a, n.links[a].myWant, w);
  }

  /** What one delivery does to the number of frames on an edge, at most. */
  ghost function Growth(g: Topology, a: NodeId, b: NodeId, e: Edge): int {
    if e == (a, b) then -1 else if e in Onward(g, a, b) then 1 else 0
  }

  lemma ChannelGrowth(g: Topology, s: Net, s': Net, a: NodeId, b: NodeId, d: Demand, e: Edge)
    requires Inv(g, s) && AllRan(s) && Deliver(s, s', a, b, d) && e in g.arcs
    ensures |Frames(s', e)| <= |Frames(s, e)| + Growth(g, a, b, e)
  {
    hide EdgeCoherent, AnnouncesAggregate, Demand.Equal, Node.IsAggregate;
    assert g.Adj(e.0, e.1);
    if e.0 == b {
      assert Announced(s[b]);
      if e.1 == a {
        NoFrameBack(s[b], s'[b], a, d);
      } else {
        AnnouncesKeeps(Informed(s[b], a, d), e.1, s'[b].links[e.1]);
      }
    }
  }

  ghost function Change(g: Topology, a: NodeId, b: NodeId): map<Edge, int> {
    map e | e in g.arcs :: WeightGrowth(g, a, b, e)
  }

  ghost function WeightGrowth(g: Topology, a: NodeId, b: NodeId, e: Edge): int {
    Growth(g, a, b, e) * |Ahead(g, e)|
  }

  lemma EdgeWeightGrowth(g: Topology, s: Net, s': Net, a: NodeId, b: NodeId, d: Demand, e: Edge)
    requires Inv(g, s) && AllRan(s) && Deliver(s, s', a, b, d) && e in g.arcs
    ensures 0 <= Weight(g, s', e) <= Weight(g, s, e) + WeightGrowth(g, a, b, e)
  {
    hide Inv, Deliver, AllRan, Growth, Frames, Ahead;
    ChannelGrowth(g, s, s', a, b, d, e);
    ScaledBelow(|Frames(s', e)|, |Frames(s, e)|, Growth(g, a, b, e), |Ahead(g, e)|);
  }

  lemma WeightGrowthCases(g: Topology, a: NodeId, b: NodeId, e: Edge)
    ensures WeightGrowth(g, a, b, e)
         == if e == (a, b) then -|Ahead(g, e)| else if e in Onward(g, a, b) then |Ahead(g, e)| else 0
  {}

  lemma ChangeIsMinusOne(g: Topology, a: NodeId, b: NodeId)
    requires g.Forest() && g.Adj(a, b)
    ensures Sum(Change(g, a, b)) == -1
  {
    AheadSize(g, a, b);
    var onward := Sizes(g, Onward(g, a, b));
    hide WeightGrowth, Ahead, Topology.Forest;
    forall e | e in g.arcs
      ensures Change(g, a, b)[e]
           == if e == (a, b) then -|Ahead(g, (a, b))| else if e in onward then onward[e] else 0
    {
      WeightGrowthCases(g, a, b, e);
    }
    SumWith(Change(g, a, b), onward, (a, b), -|Ahead(g, (a, b))|);
  }

  lemma ScaledBelow(len': nat, len: nat, step: int, size: nat)
    requires len' <= len + step
    ensures len' * size <= len * size + step * size
  {
    assert len' * size <= (len + step) * size;
  }

  lemma DeliveryRuns(s: Net, s': Net, a: NodeId, b: NodeId, d: Demand)
    requires AllRan(s) && Deliver(s, s', a, b, d)
    ensures AllRan(s') && LocalDemands(s') == LocalDemands(s)
  {
    hide AnnouncesAggregate, Demand.Equal;
  }

  /** Each delivered frame strictly lowers the weight in flight. */
  lemma DeliveryShrinks(g: Topology, s: Net, s': Net, a: NodeId, b: NodeId, d: Demand)
    requires g.Forest() && Inv(g, s) && AllRan(s) && Deliver(s, s', a, b, d)
    ensures 0 <= Pending(g, s') < Pending(g, s)
  {
    assert g.Adj(a, b);
    hide Inv, Deliver, AllRan, Weight, WeightGrowth, Topology.Forest;
    forall e | e in g.arcs ensures 0 <= Load(g, s')[e] <= Load(g, s)[e] + Change(g, a, b)[e] {
      EdgeWeightGrowth(g, s, s', a, b, d, e);
    }
    SumBelow(Load(g, s'), Load(g, s), Change(g, a, b));
    ChangeIsMinusOne(g, a, b);
    SumIsNatural(Load(g, s'));
  }

  ghost predicate Delivers(s: Net, s': Net) {
    exists a, b, d :: Deliver(s, s', a, b, d)
  }

  /** However frames are scheduled, at most `Pending` deliveries can happen in a row. */
  lemma {:induction false} DeliveriesAreBounded(g: Topology, r: seq<Net>)
    requires g.Forest() && r != [] && Inv(g, r[0]) && AllRan(r[0])
    requires forall i | 0 <= i < |r| - 1 :: Delivers(r[i], r[i + 1])
    ensures |r| - 1 <= Pending(g, r[0])
    decreases |r|
  {
    hide Inv, Deliver, AllRan, Topology.Forest;
    if |r| == 1 {
      SumIsNatural(Load(g, r[0]));
    } else {
      assert Delivers(r[0], r[0 + 1]);
      var a, b, d :| Deliver(r[0], r[1], a, b, d);
      DeliveryShrinks(g, r[0], r[1], a, b, d);
      DeliveryRuns(r[0], r[1], a, b, d);
      DeliverKeepsInv(g, r[0], r[1], a, b, d);
      forall i | 0 <= i < |r[1..]| - 1 ensures Delivers(r[1..][i], r[1..][i + 1]) {
        assert Delivers(r[i + 1], r[i + 1 + 1]);
      }
      DeliveriesAreBounded(g, r[1..]);
    }
  }

  // ---------------------------------------------------------------------------------------------
  // A frame in flight can always be delivered, so deliveries end in a quiescent state
  // ---------------------------------------------------------------------------------------------

  function PeerWants(n: Node): map<NodeId, Demand> {
    map o | o in n.links && n.links[o].peerWantSeen :: n.links[o].peerWant
  }

  ghost function Aggregate(n: Node, m: NodeId): Demand {
    Both(n.local, AllOf(PeerWants(n), PeerWants(n).Keys - {m}))
  }

  lemma AggregateIsAggregate(n: Node, m: NodeId)
    ensures n.IsAggregate(m, Aggregate(n, m))
  {
    var others := PeerWants(n).Keys - {m};
    forall t: Topic ensures Aggregate(n, m).Accepts(t) <==> n.local.Accepts(t) || n.OtherWants(m, t) {
      AllOfAccepts(PeerWants(n), others, t);
      if n.OtherWants(m, t) {
        var o :| o in n.links && o != m && n.links[o].peerWantSeen && n.links[o].peerWant.Accepts(t);
        assert o in others && PeerWants(n)[o].Accepts(t);
      }
      if AllOf(PeerWants(n), others).Accepts(t) {
        var o :| o in others && PeerWants(n)[o].Accepts(t);
        assert o in n.links;
      }
    }
  }

  ghost function Announcing(w: Demand, l: Link): (l': Link)
    ensures Announces(w, l, l')
  {
    if !l.myWantSent || !w.Equal(l.myWant)
    then l.(myWant := w, myWantSent := true, out := l.out + [w])
    else l
  }

  ghost function Recomputed(n: Node): Node {
    n.(ran := true, links := map m | m in n.links :: Announcing(Aggregate(n, m), n.links[m]))
  }

  lemma RecomputedRecomputes(n: Node)
    ensures Recomputes(n, Recomputed(n))
  {
    forall m | m in n.links ensures AnnouncesAggregate(n, m, Recomputed(n).links[m]) {
      AggregateIsAggregate(n, m);
    }
  }

  lemma FrameIsDeliverable(s: Net, a: NodeId, b: NodeId) returns (s': Net)
    requires a in s && b in s && a != b && b in s[a].links && a in s[b].links && s[a].links[b].out != []
    ensures Deliver(s, s', a, b, s[a].links[b].out[0])
  {
    hide Recomputes, Recomputed;
    var d := s[a].links[b].out[0];
    RecomputedRecomputes(Informed(s[b], a, d));
    s' := s[a := Popped(s[a], b)][b := Recomputed(Informed(s[b], a, d))];
  }

  lemma SomeDelivery(g: Topology, s: Net) returns (s': Net, a: NodeId, b: NodeId, d: Demand)
    requires Shaped(g, s) && AllRan(s) && !Quiescent(s)
    ensures Deliver(s, s', a, b, d)
  {
    a, b :| a in s && b in s[a].links && s[a].links[b].out != [];
    d := s[a].links[b].out[0];
    assert g.Adj(a, b) && g.Adj(b, a);
    s' := FrameIsDeliverable(s, a, b);
  }

  lemma InvIsShaped(g: Topology, s: Net)
    requires Inv(g, s)
    ensures Shaped(g, s)
  {}

  /** With demand left alone, the network reaches quiescence by deliveries alone. */
  lemma {:induction false} WantsConverge(g: Topology, s: Net) returns (r: seq<Net>)
    requires g.Forest() && Inv(g, s) && AllRan(s)
    ensures r != [] && r[0] == s && forall i | 0 <= i < |r| - 1 :: Delivers(r[i], r[i + 1])
    ensures Inv(g, r[|r| - 1]) && Quiescent(r[|r| - 1])
    ensures LocalDemands(r[|r| - 1]) == LocalDemands(s)
    decreases Pending(g, s)
  {
    hide Inv, Deliver, AllRan, Topology.Forest, Pending, Quiescent, LocalDemands;
    if Quiescent(s) {
      r := [s];
    } else {
      InvIsShaped(g, s);
      var s', a, b, d := SomeDelivery(g, s);
      DeliveryShrinks(g, s, s', a, b, d);
      DeliveryRuns(s, s', a, b, d);
      DeliverKeepsInv(g, s, s', a, b, d);
      var r' := WantsConverge(g, s');
      r := [s] + r';
      forall i | 0 <= i < |r| - 1 ensures Delivers(r[i], r[i + 1]) {
        if i > 0 {
          assert Delivers(r'[i - 1], r'[i - 1 + 1]);
        }
      }
    }
  }
}
