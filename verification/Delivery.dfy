/** Track delivery over a whole cascade at rest: who carries a published track, and from where. */
module Delivery {
  import Wants
  import opened Forests
  import opened Demands
  import opened WantNetwork

  type TrackKey = string

  datatype Remote = Remote(topic: Topic, origin: NodeId)

  /** One node's tracks: published here, received from a neighbour, and sent to each neighbour. */
  datatype Media = Media(local: map<TrackKey, Topic>, remote: map<TrackKey, Remote>, sent: map<NodeId, set<TrackKey>>)

  type Plane = map<NodeId, Media>

  /** a has track k with topic t from somewhere other than b. */
  ghost predicate HasFor(m: Media, b: NodeId, k: TrackKey, t: Topic) {
    (k in m.local && m.local[k] == t) || (k in m.remote && m.remote[k].topic == t && m.remote[k].origin != b)
  }

  /** What recompute keeps on the edge a->b: a candidate the peer has asked for. */
  ghost predicate Carries(s: Net, p: Plane, a: NodeId, b: NodeId, k: TrackKey, t: Topic) {
    && a in p && a in s && b in s[a].links
    && HasFor(p[a], b, k, t)
    && s[a].links[b].peerWantSeen && s[a].links[b].peerWant.Accepts(t)
  }

  ghost predicate SentExactly(s: Net, p: Plane, a: NodeId, b: NodeId) {
    a in p && b in p[a].sent && forall k :: k in p[a].sent[b] <==> exists t :: Carries(s, p, a, b, k, t)
  }

  /** Everything b has from a is carried there. */
  ghost predicate HeldIsCarried(s: Net, p: Plane, a: NodeId, b: NodeId) {
    a in p && b in p && forall k | k in p[b].remote && p[b].remote[k].origin == a ::
        Carries(s, p, a, b, k, p[b].remote[k].topic)
  }

  /** Everything a sends to b is held there. */
  ghost predicate SentIsHeld(p: Plane, a: NodeId, b: NodeId) {
    && a in p && b in p && b in p[a].sent
    && forall k | k in p[a].sent[b] :: k in p[b].remote && p[b].remote[k].origin == a
  }

  /** Every node has recomputed with its lease valid and every end of a track has been seen. */
  ghost predicate Forwarded(g: Topology, s: Net, p: Plane) {
    && p.Keys == g.nodes && s.Keys == g.nodes
    && (forall a, b | g.Adj(a, b) :: SentExactly(s, p, a, b) && HeldIsCarried(s, p, a, b))
    && (forall b, k | b in p && k in p[b].remote :: g.Adj(p[b].remote[k].origin, b))
  }

  /** Nothing that is sent was turned away. */
  ghost predicate Received(g: Topology, p: Plane) {
    forall a, b | g.Adj(a, b) :: SentIsHeld(p, a, b)
  }

  ghost predicate OnePublisher(p: Plane) {
    forall a, b, k | a in p && b in p && k in p[a].local && k in p[b].local :: a == b
  }

  /** A network at rest, wants and media. */
  ghost predicate Resting(g: Topology, s: Net, p: Plane) {
    g.Forest() && Inv(g, s) && Quiescent(s) && Forwarded(g, s, p) && OnePublisher(p)
  }

  ghost predicate AtRest(g: Topology, s: Net, p: Plane) {
    Resting(g, s, p) && Received(g, p)
  }

  /** The route of k to the end of w: it starts where k is published with topic t. */
  ghost predicate Route(g: Topology, p: Plane, w: seq<NodeId>, k: TrackKey, t: Topic) {
    g.Walk(w) && |w| >= 2 && w[0] in p && k in p[w[0]].local && p[w[0]].local[k] == t
  }

  /** a got k from c, which therefore carries it to a. */
  lemma CarriedFurtherBack(g: Topology, s: Net, p: Plane, a: NodeId, b: NodeId, k: TrackKey, t: Topic)
    returns (c: NodeId)
    requires Resting(g, s, p) && Carries(s, p, a, b, k, t) && !(k in p[a].local && p[a].local[k] == t)
    ensures g.Adj(c, a) && c != b && Carries(s, p, c, a, k, t)
  {
    hide Inv, Quiescent, OnePublisher, SentExactly, Topology.Forest;
    c := p[a].remote[k].origin;
    assert g.Adj(c, a);
    assert HeldIsCarried(s, p, c, a);
  }

  /** Whatever crosses the first hop of w came to it along some route from its publisher. */
  lemma {:induction false} CarriedHasRoute(g: Topology, s: Net, p: Plane, w: seq<NodeId>, k: TrackKey, t: Topic)
    returns (head: seq<NodeId>)
    requires Resting(g, s, p) && g.Walk(w) && |w| >= 2 && Carries(s, p, w[0], w[1], k, t)
    ensures Route(g, p, head + w, k, t)
    decreases |g.nodes| - |w|
  {
    hide Inv, Quiescent, OnePublisher, Topology.Walk, Forwarded;
    if k in p[w[0]].local && p[w[0]].local[k] == t {
      head := [];
      assert head + w == w;
    } else {
      var c := CarriedFurtherBack(g, s, p, w[0], w[1], k, t);
      Prepend(g, c, w);
      WalkIsShort(g, [c] + w);
      hide Topology.Forest;
      var h := CarriedHasRoute(g, s, p, [c] + w, k, t);
      head := h + [c];
      assert head + w == h + ([c] + w);
    }
  }

  lemma RemoteHasRoute(g: Topology, s: Net, p: Plane, b: NodeId, k: TrackKey) returns (r: seq<NodeId>)
    requires Resting(g, s, p) && b in p && k in p[b].remote
    ensures Route(g, p, r, k, p[b].remote[k].topic) && r[|r| - 1] == b && r[|r| - 2] == p[b].remote[k].origin
  {
    hide Inv, Quiescent, OnePublisher;
    var a := p[b].remote[k].origin;
    assert g.Adj(a, b) && HeldIsCarried(s, p, a, b);
    EdgeWalk(g, a, b);
    hide Topology.Forest;
    var h := CarriedHasRoute(g, s, p, [a, b], k, p[b].remote[k].topic);
    r := h + [a, b];
  }

  /** Along a walk from the publisher to a demanding node, every node gets the track from the
      node before it. */
  lemma {:induction false} RouteIsServed(g: Topology, s: Net, p: Plane, w: seq<NodeId>, k: TrackKey, t: Topic, i: nat)
    requires AtRest(g, s, p) && Route(g, p, w, k, t) && 1 <= i < |w|
    requires w[|w| - 1] in s && s[w[|w| - 1]].local.Accepts(t)
    ensures w[i] in p && k in p[w[i]].remote && p[w[i]].remote[k] == Remote(t, w[i - 1])
    decreases i
  {
    hide Inv, Quiescent;
    var a, b := w[i - 1], w[i];
    assert g.Hop(w, i - 1);
    if i > 1 {
      RouteIsServed(g, s, p, w, k, t, i - 1);
      assert g.Hop(w, i - 2);
    }
    assert HasFor(p[a], b, k, t);
    WantReachesBack(g, s, w, i, t);
    assert Carries(s, p, a, b, k, t);
    assert SentExactly(s, p, a, b) && SentIsHeld(p, a, b);
    SubWalk(g, w, 0, i + 1);
    var q := RemoteHasRoute(g, s, p, b, k);
    assert q[0] == w[0];
  }

  lemma WantReachesBack(g: Topology, s: Net, w: seq<NodeId>, i: nat, t: Topic)
    requires g.Forest() && Inv(g, s) && Quiescent(s) && g.Walk(w) && 1 <= i < |w|
    requires w[|w| - 1] in s && s[w[|w| - 1]].local.Accepts(t)
    ensures w[i - 1] in s && w[i] in s[w[i - 1]].links
    ensures s[w[i - 1]].links[w[i]].peerWantSeen && s[w[i - 1]].links[w[i]].peerWant.Accepts(t)
  {
    hide Inv, Quiescent;
    assert g.Hop(w, i - 1);
    SubWalk(g, w, i - 1, |w|);
    var q := w[i - 1..|w|];
    PeerWantIsSideDemand(g, s, w[i - 1], w[i], t);
    assert g.WalkOver(q, w[i - 1], w[i], w[|w| - 1]);
    assert w[|w| - 1] in LocalDemands(s) && g.OnSide(w[i], w[i - 1], w[|w| - 1]);
  }

  /** q lies on a walk from n to a node that demands t. */
  ghost predicate OnDemandedPath(g: Topology, s: Net, n: NodeId, q: NodeId, t: Topic) {
    exists w, i :: DemandedPath(g, s, w, n, q, t, i)
  }

  ghost predicate DemandedPath(g: Topology, s: Net, w: seq<NodeId>, n: NodeId, q: NodeId, t: Topic, i: nat) {
    g.Walk(w) && 1 <= i < |w| && w[0] == n && w[i] == q && w[|w| - 1] in s && s[w[|w| - 1]].local.Accepts(t)
  }

  /** What is present is demanded: q, having k, is on the way from the publisher to a demanding node. */
  lemma PresentIsDemanded(g: Topology, s: Net, p: Plane, n: NodeId, q: NodeId, k: TrackKey)
    requires Resting(g, s, p) && n in p && q in p && k in p[n].local && k in p[q].remote
    ensures OnDemandedPath(g, s, n, q, p[n].local[k])
  {
    hide Inv, Quiescent;
    var r := RemoteHasRoute(g, s, p, q, k);
    assert r[0] == n;
    assert HeldIsCarried(s, p, r[|r| - 2], q) by {
      assert g.Hop(r, |r| - 2);
    }
    CarriedIsDemanded(g, s, p, r, p[n].local[k]);
  }

  /** The end-to-end theorem. At rest, a track published at n with topic t is present at another
      node q exactly when q is on the way from n to some node that demands t. */
  lemma PresenceIsExact(g: Topology, s: Net, p: Plane, n: NodeId, q: NodeId, k: TrackKey)
    requires AtRest(g, s, p) && n in p && q in p && n != q && k in p[n].local
    ensures k in p[q].remote <==> OnDemandedPath(g, s, n, q, p[n].local[k])
  {
    hide Inv, Quiescent;
    var t := p[n].local[k];
    if k in p[q].remote {
      PresentIsDemanded(g, s, p, n, q, k);
    }
    if OnDemandedPath(g, s, n, q, t) {
      var w, i :| DemandedPath(g, s, w, n, q, t, i);
      RouteIsServed(g, s, p, w, k, t, i);
    }
  }

  /** A hop that carries t leads to a node demanding t, without turning back. */
  lemma CarriedIsDemanded(g: Topology, s: Net, p: Plane, r: seq<NodeId>, t: Topic)
    requires g.Forest() && Inv(g, s) && Quiescent(s) && g.Walk(r) && |r| >= 2
    requires r[|r| - 2] in s && r[|r| - 1] in s[r[|r| - 2]].links
    requires s[r[|r| - 2]].links[r[|r| - 1]].peerWant.Accepts(t)
    ensures OnDemandedPath(g, s, r[0], r[|r| - 1], t)
  {
    hide Inv, Quiescent;
    var a, q := r[|r| - 2], r[|r| - 1];
    assert g.Hop(r, |r| - 2);
    PeerWantIsSideDemand(g, s, a, q, t);
    hide Topology.Forest;
    var d :| d in LocalDemands(s) && g.OnSide(q, a, d) && LocalDemands(s)[d].Accepts(t);
    var z :| g.WalkOver(z, a, q, d);
    SubWalk(g, r, 0, |r| - 1);
    var head := r[0..|r| - 1];
    assert |head| > 1 ==> g.Hop(r, |r| - 3);
    Join(g, head, z);
    var w := head + z[1..];
    assert w[|r| - 1] == q && w[|w| - 1] == d && w[0] == r[0];
    assert DemandedPath(g, s, w, r[0], q, t, |r| - 1);
  }

  /** What a sends to b over an edge is demanded beyond it, and only a carries it to b. */
  lemma SentIsDemanded(g: Topology, s: Net, p: Plane, a: NodeId, b: NodeId, k: TrackKey) returns (n: NodeId)
    requires Resting(g, s, p) && g.Adj(a, b) && k in p[a].sent[b]
    ensures n in p && b in p && n != b && k in p[n].local && OnDemandedPath(g, s, n, b, p[n].local[k])
    ensures k in p[b].remote ==> p[b].remote[k].origin == a
  {
    hide Inv, Quiescent;
    assert SentExactly(s, p, a, b);
    var t :| Carries(s, p, a, b, k, t);
    EdgeWalk(g, b, a);
    EdgeWalk(g, a, b);
    var h := CarriedHasRoute(g, s, p, [a, b], k, t);
    var r := h + [a, b];
    n := r[0];
    CarriedIsDemanded(g, s, p, r, t);
    if k in p[b].remote {
      var q := RemoteHasRoute(g, s, p, b, k);
      NoTourBackwards(g, q, r);
    }
  }

  /** A resting network delivers every track exactly where it should if and only if nothing that is
      sent was turned away. */
  lemma ExactIffReceived(g: Topology, s: Net, p: Plane)
    requires Resting(g, s, p)
    ensures Received(g, p) <==> AllPresent(g, s, p)
  {
    hide Inv, Quiescent, OnDemandedPath, Forwarded, Topology.Forest, OnePublisher;
    if Received(g, p) {
      hide Received;
      forall n, q, k | n in p && q in p && n != q && k in p[n].local ensures PresentAt(g, s, p, n, q, k) {
        PresenceIsExact(g, s, p, n, q, k);
      }
    }
    if AllPresent(g, s, p) {
      forall a, b | g.Adj(a, b) ensures SentIsHeld(p, a, b) {
        SentAreHeld(g, s, p, a, b);
      }
    }
  }

  ghost predicate PresentAt(g: Topology, s: Net, p: Plane, n: NodeId, q: NodeId, k: TrackKey)
    requires n in p && q in p && k in p[n].local
  {
    k in p[q].remote <==> OnDemandedPath(g, s, n, q, p[n].local[k])
  }

  ghost predicate AllPresent(g: Topology, s: Net, p: Plane) {
    forall n, q, k | n in p && q in p && n != q && k in p[n].local :: PresentAt(g, s, p, n, q, k)
  }

  lemma SentAreHeld(g: Topology, s: Net, p: Plane, a: NodeId, b: NodeId)
    requires Resting(g, s, p) && AllPresent(g, s, p) && g.Adj(a, b)
    ensures SentIsHeld(p, a, b)
  {
    hide Inv, Quiescent, OnDemandedPath, OnePublisher;
    assert SentExactly(s, p, a, b) && b in g.nodes;
    hide SentExactly, Topology.Forest;
    forall k | k in p[a].sent[b] ensures k in p[b].remote && p[b].remote[k].origin == a {
      var n := SentIsDemanded(g, s, p, a, b, k);
      assert PresentAt(g, s, p, n, b, k);
    }
  }

  /** On a tree, every node that demands the track has it, from one neighbour: the next node
      towards the publisher. */
  lemma DemandIsMet(g: Topology, s: Net, p: Plane, n: NodeId, q: NodeId, k: TrackKey) returns (w: seq<NodeId>)
    requires AtRest(g, s, p) && g.Tree() && n in p && q in p && n != q && k in p[n].local
    requires s[q].local.Accepts(p[n].local[k])
    ensures g.Walk(w) && |w| >= 2 && w[0] == n && w[|w| - 1] == q
    ensures k in p[q].remote && p[q].remote[k] == Remote(p[n].local[k], w[|w| - 2])
  {
    hide Inv, Quiescent;
    w :| g.Walk(w) && w[0] == n && w[|w| - 1] == q;
    RouteIsServed(g, s, p, w, k, p[n].local[k], |w| - 1);
  }

  /** An edge carries a track only if somebody beyond it demands it. */
  lemma NoIdleBranch(g: Topology, s: Net, p: Plane, a: NodeId, b: NodeId, k: TrackKey)
    requires AtRest(g, s, p) && g.Adj(a, b) && k in p[a].sent[b]
    ensures exists t :: Carries(s, p, a, b, k, t) && SideDemands(g, LocalDemands(s), b, a, t)
  {
    hide Inv, Quiescent;
    assert SentExactly(s, p, a, b);
    var t :| Carries(s, p, a, b, k, t);
    PeerWantIsSideDemand(g, s, a, b, t);
  }

  // ---------------------------------------------------------------------------------------------
  // A network at rest
  // ---------------------------------------------------------------------------------------------

  const PAIR := Topology({"a", "b"}, {("a", "b"), ("b", "a")})
  const ALL := Demand(Wants.WantAllExcept({}), Wants.WantAllExcept({}))
  const SONG := Topic(false, "u")

  lemma PairIsForest()
    ensures PAIR.Forest()
  {
    forall p | PAIR.Walk(p) && |p| > 1 ensures p[0] != p[|p| - 1] {
      assert PAIR.Hop(p, 0);
      if |p| > 2 {
        assert PAIR.Hop(p, 1);
      }
    }
  }

  const PAIR_WANTS: Net :=
    map["a" := Node(NO_DEMAND, true, map["b" := Link(ALL, true, NO_DEMAND, true, [])]),
        "b" := Node(ALL, true, map["a" := Link(NO_DEMAND, true, ALL, true, [])])]

  const PAIR_MEDIA: Plane :=
    map["a" := Media(map["k" := SONG], map[], map["b" := {"k"}]),
        "b" := Media(map[], map["k" := Remote(SONG, "a")], map["a" := {}])]

  lemma PairWants()
    ensures Inv(PAIR, PAIR_WANTS) && Quiescent(PAIR_WANTS)
  {
    assert forall t: Topic :: ALL.Accepts(t) && !NO_DEMAND.Accepts(t);
    DemandEqualIsExtensional(ALL, ALL);
    DemandEqualIsExtensional(NO_DEMAND, NO_DEMAND);
    assert PAIR_WANTS["a"].IsAggregate("b", NO_DEMAND) && PAIR_WANTS["b"].IsAggregate("a", ALL);
    hide Node.IsAggregate;
  }

  lemma PairMedia()
    ensures Forwarded(PAIR, PAIR_WANTS, PAIR_MEDIA) && Received(PAIR, PAIR_MEDIA)
  {
    assert forall t: Topic :: ALL.Accepts(t) && !NO_DEMAND.Accepts(t);
    assert Carries(PAIR_WANTS, PAIR_MEDIA, "a", "b", "k", SONG);
    assert forall k, t :: !Carries(PAIR_WANTS, PAIR_MEDIA, "b", "a", k, t);
    assert SentExactly(PAIR_WANTS, PAIR_MEDIA, "a", "b") && SentExactly(PAIR_WANTS, PAIR_MEDIA, "b", "a");
    assert HeldIsCarried(PAIR_WANTS, PAIR_MEDIA, "a", "b") && HeldIsCarried(PAIR_WANTS, PAIR_MEDIA, "b", "a");
    hide SentExactly, HeldIsCarried;
  }

  /** Two nodes: b demands everything, a publishes, and b has the track from a. */
  lemma RestIsPossible()
    ensures AtRest(PAIR, PAIR_WANTS, PAIR_MEDIA) && PAIR_MEDIA["b"].remote["k"] == Remote(SONG, "a")
  {
    PairIsForest();
    PairWants();
    PairMedia();
    hide Topology.Forest, Inv, Quiescent, Forwarded, Received;
  }
}
