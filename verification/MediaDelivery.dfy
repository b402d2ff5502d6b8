/** Where the runs of the media plane come to rest: delivery is exact there, if and only if nothing
    was refused on the way; and after a courteous run it always is. */
module MediaDelivery {
  import opened Forests
  import opened Demands
  import opened WantNetwork
  import opened Delivery
  import opened MediaRuns

  function PlaneOf(of: Topics, x: System): Plane {
    map n | n in x.relays ::
      var r := x.relays[n];
      Media(map k | k in r.local :: of(k), map k | k in r.remote :: Remote(of(k), r.remote[k]),
            map m | m in r.ports :: r.ports[m].sent)
  }

  /** Nothing is under way and nobody has anything left to do. */
  ghost predicate Still(x: System) {
    && Quiescent(x.net)
    && (forall n | n in x.relays :: !x.relays[n].owed)
    && (forall a, b, k :: Way(x, a, b, k) == [])
  }

  lemma DesiredIsCarried(g: Topology, of: Topics, x: System, a: NodeId, b: NodeId, k: TrackKey, t: Topic)
    requires a in x.relays && a in x.net
    ensures Carries(x.net, PlaneOf(of, x), a, b, k, t) <==> t == of(k) && k in Desired(of, x.net[a], x.relays[a], b)
  {}

  /** At rest an edge's sender sends what the receiver has open. */
  lemma RestEdge(g: Topology, of: Topics, x: System, a: NodeId, b: NodeId, k: TrackKey)
    requires MediaInv(g, of, x) && Still(x) && g.Adj(a, b)
    ensures a in x.relays && b in x.relays && a in x.net && b in x.relays[a].ports && a in x.relays[b].ports
    ensures k in x.relays[a].ports[b].sent <==> k in Desired(of, x.net[a], x.relays[a], b)
    ensures k in x.relays[a].ports[b].sent <==> Open(x, b, a, k)
    ensures !(Holds(x, b, a, k) && Drains(x, b, a, k))
  {
    InvNodes(g, x.net);
    hide Inv, Desired, Quiescent;
    assert RelayOk(g, of, x, a) && RelayOk(g, of, x, b) && EdgeOk(x, a, b, k);
    assert Way(x, a, b, k) == [];
  }

  lemma RestForwards(g: Topology, of: Topics, x: System, a: NodeId, b: NodeId)
    requires MediaInv(g, of, x) && Still(x) && g.Adj(a, b)
    ensures SentExactly(x.net, PlaneOf(of, x), a, b) && HeldIsCarried(x.net, PlaneOf(of, x), a, b)
  {
    hide MediaInv, Still, Desired, Carries;
    var p := PlaneOf(of, x);
    RestEdge(g, of, x, a, b, "");
    forall k ensures k in p[a].sent[b] <==> exists t :: Carries(x.net, p, a, b, k, t) {
      RestEdge(g, of, x, a, b, k);
      DesiredIsCarried(g, of, x, a, b, k, of(k));
      if t :| Carries(x.net, p, a, b, k, t) {
        DesiredIsCarried(g, of, x, a, b, k, t);
      }
    }
    forall k | k in p[b].remote && p[b].remote[k].origin == a ensures Carries(x.net, p, a, b, k, p[b].remote[k].topic) {
      RestEdge(g, of, x, a, b, k);
      assert Holds(x, b, a, k);
      DesiredIsCarried(g, of, x, a, b, k, of(k));
    }
  }

  lemma RestIsForwarded(g: Topology, of: Topics, x: System)
    requires MediaInv(g, of, x) && Still(x)
    ensures Forwarded(g, x.net, PlaneOf(of, x))
  {
    hide Inv, EdgesOk, Still, Desired, SentExactly, HeldIsCarried;
    forall a, b | g.Adj(a, b)
      ensures SentExactly(x.net, PlaneOf(of, x), a, b) && HeldIsCarried(x.net, PlaneOf(of, x), a, b)
    {
      RestForwards(g, of, x, a, b);
    }
    forall b, k | b in x.relays && k in x.relays[b].remote ensures g.Adj(x.relays[b].remote[k], b) {
      assert RelayOk(g, of, x, b);
    }
  }

  /** At rest, all that is sent is held if and only if no refused track is being drained. */
  lemma ReceivedIffNoneDrained(g: Topology, of: Topics, x: System)
    requires MediaInv(g, of, x) && Still(x)
    ensures Received(g, PlaneOf(of, x)) <==> NoneDrained(x)
  {
    hide Inv, EdgesOk, Still, Desired, Drains, RelaysOk;
    if NoneDrained(x) {
      forall a, b | g.Adj(a, b) ensures SentIsHeld(PlaneOf(of, x), a, b) {
        RestEdge(g, of, x, a, b, "");
        forall k | k in x.relays[a].ports[b].sent ensures Holds(x, b, a, k) {
          RestEdge(g, of, x, a, b, k);
        }
      }
    }
    if Received(g, PlaneOf(of, x)) {
      forall b, a, k ensures !Drains(x, b, a, k) {
        HeldIsNotDrained(g, of, x, a, b, k);
      }
    }
  }

  lemma HeldIsNotDrained(g: Topology, of: Topics, x: System, a: NodeId, b: NodeId, k: TrackKey)
    requires MediaInv(g, of, x) && Still(x) && (g.Adj(a, b) ==> SentIsHeld(PlaneOf(of, x), a, b))
    ensures !Drains(x, b, a, k)
  {
    InvNodes(g, x.net);
    hide Inv, EdgesOk, Still, Desired;
    if g.Adj(a, b) {
      RestEdge(g, of, x, a, b, k);
    } else if b in x.relays {
      assert RelayOk(g, of, x, b);
    }
  }

  /** No node publishes a track that another does. */
  ghost predicate Sole(x: System) {
    forall m, n, k | Publishes(x, m, k) && Publishes(x, n, k) :: m == n
  }

  lemma SoleIsOnePublisher(of: Topics, x: System)
    requires Sole(x)
    ensures OnePublisher(PlaneOf(of, x))
  {
    var p := PlaneOf(of, x);
    forall a, b, k | a in p && b in p && k in p[a].local && k in p[b].local ensures a == b {
      assert Publishes(x, a, k) && Publishes(x, b, k);
    }
  }

  /** Any run over a forest, courteous or not, once it is at rest with one publisher to a track: every
      track is present exactly where it is demanded if and only if none is being drained. */
  lemma ExactIffNoneDrained(g: Topology, of: Topics, xs: seq<System>, evs: seq<Event>)
    requires g.Forest() && MediaRun(g, of, xs, evs)
    requires var x := xs[|xs| - 1]; Still(x) && Sole(x)
    ensures var x := xs[|xs| - 1];
      && Resting(g, x.net, PlaneOf(of, x))
      && (NoneDrained(x) <==> AllPresent(g, x.net, PlaneOf(of, x)))
  {
    var x := xs[|xs| - 1];
    hide MediaRun, Inv, RelaysOk, EdgesOk, Sole, NoneDrained, AllPresent, Received, Topology.Forest, Forwarded,
         OnePublisher, PlaneOf;
    MediaRunKeepsInv(g, of, xs, evs, |xs| - 1);
    RestIsForwarded(g, of, x);
    SoleIsOnePublisher(of, x);
    ReceivedIffNoneDrained(g, of, x);
    hide MediaInv;
    ExactIffReceived(g, x.net, PlaneOf(of, x));
  }

  lemma TidyIsSole(g: Topology, x: System)
    requires Tidy(g, x)
    ensures Sole(x) && NoneDrained(x)
  {
    forall m, n, k | Publishes(x, m, k) && Publishes(x, n, k) ensures m == n {
      assert Rooted(g, x, k);
      var o :| Free(g, x, o, k);
    }
  }

  /** A courteous run that has come to rest is at rest in the sense of Delivery. */
  lemma CourteousRunsRest(g: Topology, of: Topics, xs: seq<System>, evs: seq<Event>)
    requires g.Forest() && MediaRun(g, of, xs, evs) && Courteous(g, xs, evs) && Still(xs[|xs| - 1])
    ensures var x := xs[|xs| - 1]; AtRest(g, x.net, PlaneOf(of, x))
  {
    var x := xs[|xs| - 1];
    hide MediaRun, Courteous, Tidy, Sole, NoneDrained, AllPresent, Received, Topology.Forest, Resting, PlaneOf, Still;
    CourteousRunIsTidy(g, of, xs, evs, |xs| - 1);
    TidyIsSole(g, x);
    ExactIffNoneDrained(g, of, xs, evs);
    hide MediaInv;
    ExactIffReceived(g, x.net, PlaneOf(of, x));
  }

  /** End to end, over runs: once a courteous run is at rest, a track published at n is present at
      another node q exactly when q is on the way from n to a node that demands it. */
  lemma PresenceAfterRun(g: Topology, of: Topics, xs: seq<System>, evs: seq<Event>, n: NodeId, q: NodeId, k: TrackKey)
    requires g.Forest() && MediaRun(g, of, xs, evs) && Courteous(g, xs, evs) && Still(xs[|xs| - 1])
    requires var x := xs[|xs| - 1]; n in x.relays && q in x.relays && n != q && k in x.relays[n].local
    ensures var x := xs[|xs| - 1]; k in x.relays[q].remote <==> OnDemandedPath(g, x.net, n, q, of(k))
  {
    var x := xs[|xs| - 1];
    hide MediaRun, Courteous, Still, AtRest, Topology.Forest, OnDemandedPath;
    CourteousRunsRest(g, of, xs, evs);
    PresenceIsExact(g, x.net, PlaneOf(of, x), n, q, k);
  }

  /** On a tree, every node that demands the track then has it, from the next node towards n. */
  lemma DemandMetAfterRun(g: Topology, of: Topics, xs: seq<System>, evs: seq<Event>, n: NodeId, q: NodeId, k: TrackKey)
    returns (w: seq<NodeId>)
    requires g.Tree() && MediaRun(g, of, xs, evs) && Courteous(g, xs, evs) && Still(xs[|xs| - 1])
    requires var x := xs[|xs| - 1];
      && n in x.relays && q in x.relays && n != q && k in x.relays[n].local
      && q in x.net && x.net[q].local.Accepts(of(k))
    ensures g.Walk(w) && |w| >= 2 && w[0] == n && w[|w| - 1] == q
    ensures var x := xs[|xs| - 1]; k in x.relays[q].remote && x.relays[q].remote[k] == w[|w| - 2]
  {
    var x := xs[|xs| - 1];
    hide MediaRun, Courteous, Still, AtRest, Topology.Forest, Topology.Connected;
    CourteousRunsRest(g, of, xs, evs);
    w := DemandIsMet(g, x.net, PlaneOf(of, x), n, q, k);
  }
}
