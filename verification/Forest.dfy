/** Cascade topologies: links between nodes, walks that never turn back, and sides of an edge. */
module Forests {
  import opened Sizes

  type NodeId = string

  /** A parent/child link is an arc each way: media and wants flow in both directions. */
  datatype Topology = Topology(nodes: set<NodeId>, arcs: set<(NodeId, NodeId)>)
  {
    predicate Adj(a: NodeId, b: NodeId) {
      (a, b) in arcs
    }

    ghost predicate WellFormed() {
      forall a, b | Adj(a, b) :: a in nodes && b in nodes && a != b && Adj(b, a)
    }

    ghost predicate Hop(p: seq<NodeId>, i: nat)
      requires i + 1 < |p|
    {
      Adj(p[i], p[i + 1]) && (i + 2 < |p| ==> p[i] != p[i + 2])
    }

    /** A walk along links that never goes straight back over the link it came by. */
    ghost predicate Walk(p: seq<NodeId>) {
      && |p| >= 1
      && p[0] in nodes
      && forall i | 0 <= i < |p| - 1 :: Hop(p, i)
    }

    /** No walk returns to where it started: there is no cycle. */
    ghost predicate Forest() {
      WellFormed() && forall p | Walk(p) && |p| > 1 :: p[0] != p[|p| - 1]
    }

    ghost predicate Connected() {
      forall a, b | a in nodes && b in nodes :: exists p :: Walk(p) && p[0] == a && p[|p| - 1] == b
    }

    ghost predicate Tree() {
      Forest() && Connected()
    }

    ghost predicate WalkOver(p: seq<NodeId>, b: NodeId, a: NodeId, n: NodeId) {
      Walk(p) && |p| >= 2 && p[0] == b && p[1] == a && p[|p| - 1] == n
    }

    /** n lies on a's side of the edge between a and b. */
    ghost predicate OnSide(a: NodeId, b: NodeId, n: NodeId) {
      exists p :: WalkOver(p, b, a, n)
    }

    ghost function Side(a: NodeId, b: NodeId): set<NodeId> {
      set n | n in nodes && OnSide(a, b, n)
    }
  }

  lemma {:induction false} WalkStaysInside(g: Topology, p: seq<NodeId>, i: nat)
    requires g.WellFormed() && g.Walk(p) && i < |p|
    ensures p[i] in g.nodes
  {
    if i > 0 {
      assert g.Hop(p, i - 1);
    }
  }

  lemma SubWalk(g: Topology, p: seq<NodeId>, i: nat, j: nat)
    requires g.WellFormed() && g.Walk(p) && i < j <= |p|
    ensures g.Walk(p[i..j])
  {
    WalkStaysInside(g, p, i);
    forall k | 0 <= k < |p[i..j]| - 1 ensures g.Hop(p[i..j], k) {
      assert g.Hop(p, i + k);
    }
  }

  lemma EdgeWalk(g: Topology, b: NodeId, a: NodeId)
    requires g.WellFormed() && g.Adj(a, b)
    ensures g.WalkOver([b, a], b, a, a)
  {
    assert g.Hop([b, a], 0);
  }

  lemma Prepend(g: Topology, b: NodeId, p: seq<NodeId>)
    requires g.WellFormed() && g.Walk(p) && g.Adj(b, p[0]) && (|p| > 1 ==> b != p[1])
    ensures g.Walk([b] + p)
  {
    var q := [b] + p;
    forall k | 0 <= k < |q| - 1 ensures g.Hop(q, k) {
      if k > 0 {
        assert g.Hop(p, k - 1);
      }
    }
  }

  lemma Reversal(g: Topology, p: seq<NodeId>) returns (r: seq<NodeId>)
    requires g.WellFormed() && g.Walk(p)
    ensures g.Walk(r) && |r| == |p| && forall i | 0 <= i < |p| :: r[i] == p[|p| - 1 - i]
  {
    r := seq(|p|, i requires 0 <= i < |p| => p[|p| - 1 - i]);
    WalkStaysInside(g, p, |p| - 1);
    forall k | 0 <= k < |r| - 1 ensures g.Hop(r, k) {
      assert g.Hop(p, |p| - 2 - k);
      if k + 2 < |r| {
        assert g.Hop(p, |p| - 3 - k);
      }
    }
  }

  /** Two walks meeting end to start join into one unless the second turns straight back. */
  lemma Join(g: Topology, p: seq<NodeId>, q: seq<NodeId>)
    requires g.WellFormed() && g.Walk(p) && g.Walk(q) && p[|p| - 1] == q[0]
    requires |p| > 1 && |q| > 1 ==> p[|p| - 2] != q[1]
    ensures g.Walk(p + q[1..])
  {
    var r := p + q[1..];
    forall k | 0 <= k < |r| - 1 ensures g.Hop(r, k) {
      if k < |p| - 1 {
        assert g.Hop(p, k);
      } else {
        assert g.Hop(q, k - (|p| - 1));
      }
    }
  }

  /** In a forest the nodes of a walk are distinct, so walks are short. */
  lemma WalkIsShort(g: Topology, p: seq<NodeId>)
    requires g.Forest() && g.Walk(p)
    ensures |p| <= |g.nodes|
  {
    forall i, j | 0 <= i < j < |p| ensures p[i] != p[j] {
      SubWalk(g, p, i, j + 1);
      assert p[i..j + 1][0] == p[i] && p[i..j + 1][j - i] == p[j];
    }
    forall i | 0 <= i < |p| ensures p[i] in g.nodes {
      WalkStaysInside(g, p, i);
    }
    DistinctIsSmall(p, g.nodes);
  }

  /** A closed tour from b and back over two different neighbours cannot exist. */
  lemma NoTour(g: Topology, p: seq<NodeId>, q: seq<NodeId>)
    requires g.Forest() && g.Walk(p) && g.Walk(q)
    requires p[0] == q[0] && p[|p| - 1] == q[|q| - 1] && |p| > 1 && |q| > 1
    ensures p[1] == q[1]
  {
    if p[1] != q[1] {
      var r := Reversal(g, p);
      assert r[|r| - 2] == p[1] && r[|r| - 1] == p[0];
      Join(g, r, q);
      assert false;
    }
  }

  lemma NoTourBackwards(g: Topology, p: seq<NodeId>, q: seq<NodeId>)
    requires g.Forest() && g.Walk(p) && g.Walk(q)
    requires p[0] == q[0] && p[|p| - 1] == q[|q| - 1] && |p| > 1 && |q| > 1
    ensures p[|p| - 2] == q[|q| - 2]
  {
    var r := Reversal(g, p);
    var t := Reversal(g, q);
    NoTour(g, r, t);
  }

  // ---------------------------------------------------------------------------------------------
  // A side is its near node plus the sides behind that node's other neighbours.
  // ---------------------------------------------------------------------------------------------

  lemma SideUnfolds(g: Topology, a: NodeId, b: NodeId, n: NodeId)
    requires g.WellFormed() && g.Adj(a, b)
    ensures g.OnSide(a, b, n) <==> n == a || exists c | g.Adj(a, c) && c != b :: g.OnSide(c, a, n)
  {
    if g.OnSide(a, b, n) && n != a {
      var p :| g.WalkOver(p, b, a, n);
      assert |p| > 2 && g.Hop(p, 0) && g.Hop(p, 1);
      WalkStaysInside(g, p, 2);
      SubWalk(g, p, 1, |p|);
      assert g.WalkOver(p[1..|p|], a, p[2], n);
      assert g.OnSide(p[2], a, n);
    }
    if c :| g.Adj(a, c) && c != b && g.OnSide(c, a, n) {
      var p :| g.WalkOver(p, a, c, n);
      Prepend(g, b, p);
      assert g.WalkOver([b] + p, b, a, n);
    }
    if n == a {
      EdgeWalk(g, b, a);
    }
  }

  lemma SidesBehindAreDisjoint(g: Topology, a: NodeId, c: NodeId, d: NodeId)
    requires g.Forest() && c != d
    ensures g.Side(c, a) !! g.Side(d, a)
  {
    forall n | n in g.Side(c, a) && n in g.Side(d, a) ensures false {
      var p :| g.WalkOver(p, a, c, n);
      var q :| g.WalkOver(q, a, d, n);
      NoTour(g, p, q);
    }
  }

  /** Only one neighbour of a leads to n. */
  lemma OneWayThere(g: Topology, a: NodeId, c: NodeId, d: NodeId, n: NodeId)
    requires g.Forest() && g.OnSide(c, a, n) && g.OnSide(d, a, n)
    ensures c == d
  {
    var p :| g.WalkOver(p, a, c, n);
    var q :| g.WalkOver(q, a, d, n);
    NoTour(g, p, q);
  }

  lemma NearNodeIsNotBehind(g: Topology, a: NodeId, c: NodeId)
    requires g.Forest()
    ensures a !in g.Side(c, a)
  {
    forall p ensures !g.WalkOver(p, a, c, a) {}
  }
}
