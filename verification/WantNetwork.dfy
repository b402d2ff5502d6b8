/** Demand of one node or one edge, on both subscription dimensions of a want frame. */
module Demands {
  import opened Wants

  /** What can be demanded: a speaker's audio, or a speaker's screen (with its companion audio). */
  datatype Topic = Topic(video: bool, uid: Uid)

  datatype Demand = Demand(audio: WantSet, screen: WantSet)
  {
    predicate Accepts(t: Topic) {
      if t.video then screen.Wants(t.uid) else audio.Wants(t.uid)
    }

    predicate Equal(o: Demand) {
      audio.Equal(o.audio) && screen.Equal(o.screen)
    }
  }

  const NO_DEMAND := Demand(WANT_NONE, WANT_NONE)

  function Both(a: Demand, b: Demand): (r: Demand)
    ensures forall t: Topic :: r.Accepts(t) <==> a.Accepts(t) || b.Accepts(t)
  {
    Demand(Union(a.audio, b.audio), Union(a.screen, b.screen))
  }

  lemma DemandEqualIsExtensional(a: Demand, b: Demand)
    ensures a.Equal(b) <==> forall t: Topic :: a.Accepts(t) <==> b.Accepts(t)
  {
    EqualIsExtensional(a.audio, b.audio);
    EqualIsExtensional(a.screen, b.screen);
    if forall t: Topic :: a.Accepts(t) <==> b.Accepts(t) {
      forall u: Uid ensures (a.audio.Wants(u) <==> b.audio.Wants(u)) && (a.screen.Wants(u) <==> b.screen.Wants(u)) {
        assert a.Accepts(Topic(false, u)) <==> b.Accepts(Topic(false, u));
        assert a.Accepts(Topic(true, u)) <==> b.Accepts(Topic(true, u));
      }
    }
  }
}

/** The want-propagation protocol of a whole cascade: every node re-announces, on each edge, its
    own demand joined with what every other edge wants; frames travel in order on each edge. */
module WantNetwork {
  import opened Forests
  import opened Demands

  /** One node's view of one edge; `out` holds the want frames it has sent and not yet delivered. */
  datatype Link = Link(peerWant: Demand, peerWantSeen: bool, myWant: Demand, myWantSent: bool, out: seq<Demand>)

  const NEW_LINK := Link(NO_DEMAND, false, NO_DEMAND, false, [])

  /** `ran` records whether the node has recomputed at least once. */
  datatype Node = Node(local: Demand, ran: bool, links: map<NodeId, Link>)
  {
    ghost predicate OtherWants(m: NodeId, t: Topic) {
      exists o :: o in links && o != m && links[o].peerWantSeen && links[o].peerWant.Accepts(t)
    }

    /** w is the aggregate announced to m: local demand or any other edge's. */
    ghost predicate IsAggregate(m: NodeId, w: Demand) {
      forall t: Topic :: w.Accepts(t) <==> local.Accepts(t) || OtherWants(m, t)
    }

    /** Everything the aggregates depend on. */
    ghost predicate SameInputs(o: Node) {
      && local == o.local
      && links.Keys == o.links.Keys
      && forall m | m in links ::
           links[m].peerWant == o.links[m].peerWant && links[m].peerWantSeen == o.links[m].peerWantSeen
    }
  }

  type Net = map<NodeId, Node>

  ghost predicate Shaped(g: Topology, s: Net) {
    && g.WellFormed()
    && s.Keys == g.nodes
    && forall n, m | n in s :: m in s[n].links <==> g.Adj(n, m)
  }

  ghost predicate Init(g: Topology, s: Net) {
    && Shaped(g, s)
    && forall n | n in s :: !s[n].ran && forall m | m in s[n].links :: s[n].links[m] == NEW_LINK
  }

  // ---------------------------------------------------------------------------------------------
  // Steps
  // ---------------------------------------------------------------------------------------------

  /** The announcing part of `recompute` on one edge: a frame goes out on first use or on change. */
  ghost predicate Announces(w: Demand, l: Link, l': Link) {
    if !l.myWantSent || !w.Equal(l.myWant)
    then l' == l.(myWant := w, myWantSent := true, out := l.out + [w])
    else l' == l
  }

  ghost predicate AnnouncesAggregate(n: Node, m: NodeId, l': Link)
    requires m in n.links
  {
    exists w: Demand :: n.IsAggregate(m, w) && Announces(w, n.links[m], l')
  }

  /** Node n recomputes and sends on every edge. */
  ghost predicate Recomputes(n: Node, n': Node) {
    && n'.local == n.local
    && n'.ran
    && n'.links.Keys == n.links.Keys
    && forall m | m in n.links :: AnnouncesAggregate(n, m, n'.links[m])
  }

  /** The demand of n's own listeners changes (or merely a recompute runs). */
  ghost predicate LocalChange(s: Net, s': Net, n: NodeId, d: Demand) {
    && n in s
    && s'.Keys == s.Keys
    && Recomputes(s[n].(local := d), s'[n])
    && forall x | x in s && x != n :: s'[x] == s[x]
  }

  /** b's record once a's want d has arrived, before b recomputes. */
  function Informed(n: Node, a: NodeId, d: Demand): Node
    requires a in n.links
  {
    n.(links := n.links[a := n.links[a].(peerWant := d, peerWantSeen := true)])
  }

  function Popped(n: Node, b: NodeId): Node
    requires b in n.links && n.links[b].out != []
  {
    n.(links := n.links[b := n.links[b].(out := n.links[b].out[1..])])
  }

  /** The oldest frame on a->b arrives; decoding keeps its meaning. */
  ghost predicate Deliver(s: Net, s': Net, a: NodeId, b: NodeId, d: Demand) {
    && a in s && b in s && a != b && b in s[a].links && a in s[b].links
    && s[a].links[b].out != []
    && d.Equal(s[a].links[b].out[0])
    && s'.Keys == s.Keys
    && s'[a] == Popped(s[a], b)
    && Recomputes(Informed(s[b], a, d), s'[b])
    && forall x | x in s && x != a && x != b :: s'[x] == s[x]
  }

  ghost predicate Next(s: Net, s': Net) {
    (exists n, d :: LocalChange(s, s', n, d)) || (exists a, b, d :: Deliver(s, s', a, b, d))
  }

  ghost predicate Run(g: Topology, r: seq<Net>) {
    && r != []
    && Init(g, r[0])
    && forall i | 0 <= i < |r| - 1 :: Next(r[i], r[i + 1])
  }

  // ---------------------------------------------------------------------------------------------
  // What every step keeps
  // ---------------------------------------------------------------------------------------------

  /** The receiver's view, or the newest frame on its way, is what the sender last announced. */
  ghost predicate EdgeCoherent(fwd: Link, back: Link) {
    if !fwd.myWantSent then fwd.out == [] && !back.peerWantSeen
    else if fwd.out == [] then back.peerWantSeen && back.peerWant.Equal(fwd.myWant)
    else fwd.out[|fwd.out| - 1].Equal(fwd.myWant)
  }

  ghost predicate Announced(n: Node) {
    n.ran ==> forall m | m in n.links :: n.links[m].myWantSent && n.IsAggregate(m, n.links[m].myWant)
  }

  ghost predicate Inv(g: Topology, s: Net) {
    && Shaped(g, s)
    && (forall n | n in s :: Announced(s[n]))
    && (forall a, b | g.Adj(a, b) :: EdgeCoherent(s[a].links[b], s[b].links[a]))
  }

  lemma AggregateEqual(n: Node, m: NodeId, w: Demand, v: Demand)
    requires n.IsAggregate(m, w) && w.Equal(v)
    ensures n.IsAggregate(m, v)
  {
    DemandEqualIsExtensional(w, v);
  }

  lemma AggregateTransfers(n: Node, n': Node, m: NodeId, w: Demand)
    requires n.SameInputs(n') && n.IsAggregate(m, w)
    ensures n'.IsAggregate(m, w)
  {
    forall t: Topic ensures n'.OtherWants(m, t) <==> n.OtherWants(m, t) {
      if n'.OtherWants(m, t) {
        var o :| o in n'.links && o != m && n'.links[o].peerWantSeen && n'.links[o].peerWant.Accepts(t);
        assert n.links[o].peerWantSeen && n.links[o].peerWant.Accepts(t);
      }
      if n.OtherWants(m, t) {
        var o :| o in n.links && o != m && n.links[o].peerWantSeen && n.links[o].peerWant.Accepts(t);
        assert n'.links[o].peerWantSeen && n'.links[o].peerWant.Accepts(t);
      }
    }
  }

  lemma AnnouncesKeeps(n: Node, m: NodeId, l': Link)
    requires m in n.links && AnnouncesAggregate(n, m, l')
    ensures l'.peerWant == n.links[m].peerWant && l'.peerWantSeen == n.links[m].peerWantSeen
    ensures l'.myWantSent && n.IsAggregate(m, l'.myWant)
    ensures forall back: Link :: EdgeCoherent(n.links[m], back) ==> EdgeCoherent(l', back)
    ensures |l'.out| <= |n.links[m].out| + 1
  {
    var l := n.links[m];
    var w: Demand :| n.IsAggregate(m, w) && Announces(w, l, l');
    if l.myWantSent && w.Equal(l.myWant) {
      AggregateEqual(n, m, w, l.myWant);
    }
    DemandEqualIsExtensional(w, w);
  }

  lemma RecomputeAnnounces(n: Node, n': Node)
    requires Recomputes(n, n')
    ensures n.SameInputs(n') && Announced(n')
    ensures forall m, back: Link | m in n.links && EdgeCoherent(n.links[m], back) :: EdgeCoherent(n'.links[m], back)
  {
    hide EdgeCoherent, AnnouncesAggregate, Node.IsAggregate;
    forall m | m in n.links
      ensures n'.links[m].peerWant == n.links[m].peerWant && n'.links[m].peerWantSeen == n.links[m].peerWantSeen
      ensures n'.links[m].myWantSent && n.IsAggregate(m, n'.links[m].myWant)
      ensures forall back: Link :: EdgeCoherent(n.links[m], back) ==> EdgeCoherent(n'.links[m], back)
    {
      AnnouncesKeeps(n, m, n'.links[m]);
    }
    forall m | m in n'.links ensures n'.IsAggregate(m, n'.links[m].myWant) {
      AggregateTransfers(n, n', m, n'.links[m].myWant);
    }
  }

  /** The receiving end matters only through the want it has recorded. */
  lemma ReceiverFieldsOnly(fwd: Link, back: Link, back': Link)
    requires EdgeCoherent(fwd, back)
    requires back'.peerWant == back.peerWant && back'.peerWantSeen == back.peerWantSeen
    ensures EdgeCoherent(fwd, back')
  {}

  lemma LocalChangeKeepsInv(g: Topology, s: Net, s': Net, n: NodeId, d: Demand)
    requires Inv(g, s) && LocalChange(s, s', n, d)
    ensures Inv(g, s')
  {
    hide Recomputes, Announced, EdgeCoherent;
    RecomputeAnnounces(s[n].(local := d), s'[n]);
    forall a, b | g.Adj(a, b) ensures EdgeCoherent(s'[a].links[b], s'[b].links[a]) {
      assert EdgeCoherent(s[a].links[b], s[b].links[a]);
      if b == n {
        ReceiverFieldsOnly(s[a].links[b], s[b].links[a], s'[b].links[a]);
      }
    }
  }

  /** Taking the oldest frame off an edge keeps it coherent. */
  lemma PopKeepsCoherent(fwd: Link, back: Link, d: Demand)
    requires EdgeCoherent(fwd, back) && fwd.out != [] && d.Equal(fwd.out[0])
    ensures EdgeCoherent(fwd.(out := fwd.out[1..]), back.(peerWant := d, peerWantSeen := true))
  {
    if |fwd.out| == 1 {
      DemandEqualIsExtensional(d, fwd.out[0]);
      DemandEqualIsExtensional(fwd.out[0], fwd.myWant);
      DemandEqualIsExtensional(d, fwd.myWant);
    }
  }

  /** Every edge stays coherent: the one read from, those b announces on, and the rest. */
  lemma DeliverKeepsCoherent(g: Topology, s: Net, s': Net, a: NodeId, b: NodeId, d: Demand, x: NodeId, y: NodeId)
    requires Inv(g, s) && Shaped(g, s') && Deliver(s, s', a, b, d) && g.Adj(x, y)
    requires Informed(s[b], a, d).SameInputs(s'[b])
    requires forall m, back: Link | m in s[b].links && EdgeCoherent(Informed(s[b], a, d).links[m], back)
               :: EdgeCoherent(s'[b].links[m], back)
    ensures EdgeCoherent(s'[x].links[y], s'[y].links[x])
  {
    hide Recomputes, Announced, EdgeCoherent, Demand.Equal;
    var n0 := Informed(s[b], a, d);
    assert EdgeCoherent(s[x].links[y], s[y].links[x]);
    if x == b {
      EdgeCoherentForward(s[b].links[y], n0.links[y], s[y].links[b]);
      assert EdgeCoherent(s'[b].links[y], s[y].links[b]);
      ReceiverFieldsOnly(s'[b].links[y], s[y].links[b], s'[y].links[b]);
    } else if x == a && y == b {
      PopKeepsCoherent(s[a].links[b], s[b].links[a], d);
      ReceiverFieldsOnly(s'[a].links[b], n0.links[a], s'[b].links[a]);
    } else {
      assert s'[x].links[y] == s[x].links[y];
      ReceiverFieldsOnly(s[x].links[y], s[y].links[x], s'[y].links[x]);
    }
  }

  lemma DeliverKeepsShape(g: Topology, s: Net, s': Net, a: NodeId, b: NodeId, d: Demand)
    requires Shaped(g, s) && Deliver(s, s', a, b, d)
    ensures Shaped(g, s')
  {
    hide AnnouncesAggregate, Demand.Equal;
    forall n, m | n in s' ensures m in s'[n].links <==> m in s[n].links {}
  }

  lemma DeliverFrame(s: Net, s': Net, a: NodeId, b: NodeId, d: Demand)
    requires Deliver(s, s', a, b, d)
    ensures s'.Keys == s.Keys && s'[a] == Popped(s[a], b)
    ensures forall x | x in s && x != a && x != b :: s'[x] == s[x]
  {}

  lemma DeliverKeepsInv(g: Topology, s: Net, s': Net, a: NodeId, b: NodeId, d: Demand)
    requires Inv(g, s) && Deliver(s, s', a, b, d)
    ensures Inv(g, s')
  {
    hide Recomputes, Announced, EdgeCoherent, Demand.Equal;
    RecomputeAnnounces(Informed(s[b], a, d), s'[b]);
    PoppedStaysAnnounced(s[a], b);
    DeliverKeepsShape(g, s, s', a, b, d);
    hide Deliver, Shaped;
    assert forall x | x in s' :: Announced(s'[x]) by {
      DeliverFrame(s, s', a, b, d);
    }
    forall x, y | g.Adj(x, y) ensures EdgeCoherent(s'[x].links[y], s'[y].links[x]) {
      DeliverKeepsCoherent(g, s, s', a, b, d, x, y);
    }
  }

  /** The sending end matters only through its announcement and its frames in flight. */
  lemma EdgeCoherentForward(fwd: Link, fwd': Link, back: Link)
    requires EdgeCoherent(fwd, back)
    requires fwd'.myWant == fwd.myWant && fwd'.myWantSent == fwd.myWantSent && fwd'.out == fwd.out
    ensures EdgeCoherent(fwd', back)
  {}

  lemma PoppedStaysAnnounced(n: Node, b: NodeId)
    requires Announced(n) && b in n.links && n.links[b].out != []
    ensures Announced(Popped(n, b))
  {
    if n.ran {
      hide Node.IsAggregate;
      forall m | m in n.links ensures Popped(n, b).IsAggregate(m, n.links[m].myWant) {
        AggregateTransfers(n, Popped(n, b), m, n.links[m].myWant);
      }
    }
  }

  lemma NextKeepsInv(g: Topology, s: Net, s': Net)
    requires Inv(g, s) && Next(s, s')
    ensures Inv(g, s')
  {
    if n, d :| LocalChange(s, s', n, d) {
      LocalChangeKeepsInv(g, s, s', n, d);
    } else {
      var a, b, d :| Deliver(s, s', a, b, d);
      DeliverKeepsInv(g, s, s', a, b, d);
    }
  }

  lemma {:induction false} RunKeepsInv(g: Topology, r: seq<Net>, i: nat)
    requires Run(g, r) && i < |r|
    ensures Inv(g, r[i])
  {
    if i > 0 {
      RunKeepsInv(g, r, i - 1);
      assert Next(r[i - 1], r[i - 1 + 1]);
      NextKeepsInv(g, r[i - 1], r[i]);
    }
  }

  // ---------------------------------------------------------------------------------------------
  // Quiescence: the announced wants are the fixpoint, and the fixpoint is the far side's demand.
  // ---------------------------------------------------------------------------------------------

  ghost predicate Quiescent(s: Net) {
    forall n | n in s :: s[n].ran && forall m | m in s[n].links :: s[n].links[m].out == []
  }

  /** w(a, b): the want that edge a->b carries. */
  type WantMap = (NodeId, NodeId) -> Demand

  ghost predicate BehindWants(g: Topology, w: WantMap, a: NodeId, b: NodeId, t: Topic) {
    exists c :: g.Adj(c, a) && c != b && w(c, a).Accepts(t)
  }

  ghost predicate Equation(g: Topology, local: map<NodeId, Demand>, w: WantMap, a: NodeId, b: NodeId, t: Topic)
    requires a in local
  {
    w(a, b).Accepts(t) <==> local[a].Accepts(t) || BehindWants(g, w, a, b, t)
  }

  /** The per-node equations: each edge carries its tail's demand joined with the edges behind. */
  ghost predicate Solves(g: Topology, local: map<NodeId, Demand>, w: WantMap) {
    && g.WellFormed()
    && local.Keys == g.nodes
    && forall a, b, t: Topic | g.Adj(a, b) :: Equation(g, local, w, a, b, t)
  }

  /** Some node on a's side of the edge a->b demands t. */
  ghost predicate SideDemands(g: Topology, local: map<NodeId, Demand>, a: NodeId, b: NodeId, t: Topic) {
    exists n :: n in local && g.OnSide(a, b, n) && local[n].Accepts(t)
  }

  lemma {:induction false} DemandReachesEdge(g: Topology, local: map<NodeId, Demand>, w: WantMap, p: seq<NodeId>,
                                             t: Topic)
    requires Solves(g, local, w)
    requires g.Walk(p) && |p| >= 2 && p[|p| - 1] in local && local[p[|p| - 1]].Accepts(t)
    ensures w(p[1], p[0]).Accepts(t)
    decreases |p|
  {
    assert g.Hop(p, 0);
    assert Equation(g, local, w, p[1], p[0], t);
    if |p| > 2 {
      SubWalk(g, p, 1, |p|);
      DemandReachesEdge(g, local, w, p[1..|p|], t);
      assert g.Hop(p, 1);
      assert g.Adj(p[2], p[1]) && w(p[2], p[1]).Accepts(t);
    }
  }

  lemma {:induction false} WantHasSource(g: Topology, local: map<NodeId, Demand>, w: WantMap, p: seq<NodeId>, t: Topic)
    returns (n: NodeId)
    requires g.Forest() && Solves(g, local, w)
    requires g.Walk(p) && |p| >= 2 && w(p[|p| - 1], p[|p| - 2]).Accepts(t)
    ensures n in local && g.OnSide(p[|p| - 1], p[|p| - 2], n) && local[n].Accepts(t)
    decreases |g.nodes| - |p|
  {
    var a, b := p[|p| - 1], p[|p| - 2];
    assert g.Hop(p, |p| - 2);
    assert g.Adj(a, b);
    assert Equation(g, local, w, a, b, t);
    if local[a].Accepts(t) {
      n := a;
      EdgeWalk(g, b, a);
    } else {
      var c :| g.Adj(c, a) && c != b && w(c, a).Accepts(t);
      EdgeWalk(g, a, c);
      Join(g, p, [a, c]);
      assert p + [a, c][1..] == p + [c];
      WalkIsShort(g, p + [c]);
      n := WantHasSource(g, local, w, p + [c], t);
      SideUnfolds(g, a, b, n);
    }
  }

  /** Every solution of the equations says exactly "someone on this side demands it". */
  lemma FixpointIsSideDemand(g: Topology, local: map<NodeId, Demand>, w: WantMap, a: NodeId, b: NodeId, t: Topic)
    requires g.Forest() && Solves(g, local, w) && g.Adj(a, b)
    ensures w(a, b).Accepts(t) <==> SideDemands(g, local, a, b, t)
  {
    if w(a, b).Accepts(t) {
      EdgeWalk(g, b, a);
      var n := WantHasSource(g, local, w, [b, a], t);
    }
    if SideDemands(g, local, a, b, t) {
      var n :| n in local && g.OnSide(a, b, n) && local[n].Accepts(t);
      var p :| g.WalkOver(p, b, a, n);
      DemandReachesEdge(g, local, w, p, t);
    }
  }

  lemma FixpointIsUnique(g: Topology, local: map<NodeId, Demand>, w: WantMap, v: WantMap, a: NodeId, b: NodeId)
    requires g.Forest() && Solves(g, local, w) && Solves(g, local, v) && g.Adj(a, b)
    ensures w(a, b).Equal(v(a, b))
  {
    forall t: Topic ensures w(a, b).Accepts(t) <==> v(a, b).Accepts(t) {
      FixpointIsSideDemand(g, local, w, a, b, t);
      FixpointIsSideDemand(g, local, v, a, b, t);
    }
    DemandEqualIsExtensional(w(a, b), v(a, b));
  }

  ghost function AllOf(local: map<NodeId, Demand>, s: set<NodeId>): Demand
    requires s <= local.Keys
    decreases |s|
  {
    if s == {} then NO_DEMAND else var n :| n in s; Both(local[n], AllOf(local, s - {n}))
  }

  lemma {:induction false} AllOfAccepts(local: map<NodeId, Demand>, s: set<NodeId>, t: Topic)
    requires s <= local.Keys
    ensures AllOf(local, s).Accepts(t) <==> exists n :: n in s && local[n].Accepts(t)
    decreases |s|
  {
    if s != {} {
      var n :| n in s && AllOf(local, s) == Both(local[n], AllOf(local, s - {n}));
      var rest := s - {n};
      AllOfAccepts(local, rest, t);
      var d := AllOf(local, rest);
      assert AllOf(local, s) == Both(local[n], d);
      assert Both(local[n], d).Accepts(t) <==> local[n].Accepts(t) || d.Accepts(t);
      if d.Accepts(t) {
        var m :| m in rest && local[m].Accepts(t);
        assert m in s;
      }
      if m :| m in s && local[m].Accepts(t) {
        assert m == n || m in rest;
      }
    }
  }

  /** The equations always have a solution: announce every demand of the side. */
  lemma FixpointExists(g: Topology, local: map<NodeId, Demand>) returns (w: WantMap)
    requires g.Forest() && local.Keys == g.nodes
    ensures Solves(g, local, w)
  {
    w := (a, b) => AllOf(local, g.Side(a, b));
    forall a, b, t: Topic | g.Adj(a, b) ensures Equation(g, local, w, a, b, t) {
      AllOfAccepts(local, g.Side(a, b), t);
      if w(a, b).Accepts(t) {
        var n :| n in g.Side(a, b) && local[n].Accepts(t);
        SideUnfolds(g, a, b, n);
        if n != a {
          var c :| g.Adj(a, c) && c != b && g.OnSide(c, a, n);
          AllOfAccepts(local, g.Side(c, a), t);
          assert g.Adj(c, a) && w(c, a).Accepts(t);
        }
      }
      if local[a].Accepts(t) {
        SideUnfolds(g, a, b, a);
      }
      if c :| g.Adj(c, a) && c != b && w(c, a).Accepts(t) {
        AllOfAccepts(local, g.Side(c, a), t);
        var n :| n in g.Side(c, a) && local[n].Accepts(t);
        SideUnfolds(g, a, b, n);
      }
    }
  }

  function LocalDemands(s: Net): map<NodeId, Demand> {
    map n | n in s :: s[n].local
  }

  function AnnouncedWants(s: Net): WantMap {
    (a, b) => if a in s && b in s[a].links then s[a].links[b].myWant else NO_DEMAND
  }

  /** At rest, a node's record of a neighbour's want is what that neighbour announced. */
  lemma RecordedIsAnnounced(g: Topology, s: Net, c: NodeId, a: NodeId, t: Topic)
    requires Inv(g, s) && Quiescent(s) && g.Adj(c, a)
    ensures c in s[a].links && s[a].links[c].peerWantSeen
    ensures s[a].links[c].peerWant.Accepts(t) <==> AnnouncedWants(s)(c, a).Accepts(t)
  {
    hide Node.IsAggregate;
    assert EdgeCoherent(s[c].links[a], s[a].links[c]);
    assert Announced(s[c]);
    DemandEqualIsExtensional(s[a].links[c].peerWant, s[c].links[a].myWant);
  }

  lemma QuiescentEquation(g: Topology, s: Net, a: NodeId, b: NodeId, t: Topic)
    requires Inv(g, s) && Quiescent(s) && g.Adj(a, b)
    ensures Equation(g, LocalDemands(s), AnnouncedWants(s), a, b, t)
  {
    hide EdgeCoherent;
    var w, n := AnnouncedWants(s), s[a];
    assert Announced(n) && n.IsAggregate(b, n.links[b].myWant);
    hide Announced;
    if n.OtherWants(b, t) {
      var o :| o in n.links && o != b && n.links[o].peerWantSeen && n.links[o].peerWant.Accepts(t);
      RecordedIsAnnounced(g, s, o, a, t);
      assert g.Adj(o, a) && w(o, a).Accepts(t);
    }
    if c :| g.Adj(c, a) && c != b && w(c, a).Accepts(t) {
      RecordedIsAnnounced(g, s, c, a, t);
    }
  }

  lemma QuiescentSolves(g: Topology, s: Net)
    requires Inv(g, s) && Quiescent(s)
    ensures Solves(g, LocalDemands(s), AnnouncedWants(s))
  {
    hide EdgeCoherent, Announced;
    forall a, b, t: Topic | g.Adj(a, b) ensures Equation(g, LocalDemands(s), AnnouncedWants(s), a, b, t) {
      QuiescentEquation(g, s, a, b, t);
    }
  }

  /** At rest, what a node knows of its neighbour's want is the demand beyond that neighbour. */
  lemma PeerWantIsSideDemand(g: Topology, s: Net, a: NodeId, b: NodeId, t: Topic)
    requires g.Forest() && Inv(g, s) && Quiescent(s) && g.Adj(a, b)
    ensures a in s && b in s[a].links && s[a].links[b].peerWantSeen
    ensures s[a].links[b].peerWant.Accepts(t) <==> SideDemands(g, LocalDemands(s), b, a, t)
  {
    assert g.Adj(b, a);
    QuiescentSolves(g, s);
    RecordedIsAnnounced(g, s, b, a, t);
    hide Inv, Quiescent, Solves;
    FixpointIsSideDemand(g, LocalDemands(s), AnnouncedWants(s), b, a, t);
  }

  /** In every run over a forest, once nothing is in flight, each edge announces exactly the
      demand of the nodes on its side, and the receiving end has recorded just that. */
  lemma QuiescentWantsAreExact(g: Topology, r: seq<Net>, a: NodeId, b: NodeId, t: Topic)
    requires g.Forest() && Run(g, r) && Quiescent(r[|r| - 1]) && g.Adj(a, b)
    ensures var s := r[|r| - 1];
      && a in s && b in s && b in s[a].links && a in s[b].links && s[b].links[a].peerWantSeen
      && (s[a].links[b].myWant.Accepts(t) <==> SideDemands(g, LocalDemands(s), a, b, t))
      && (s[b].links[a].peerWant.Accepts(t) <==> SideDemands(g, LocalDemands(s), a, b, t))
  {
    var s := r[|r| - 1];
    RunKeepsInv(g, r, |r| - 1);
    PeerWantIsSideDemand(g, s, b, a, t);
    RecordedIsAnnounced(g, s, a, b, t);
  }
}
