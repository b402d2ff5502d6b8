/** Packets over a whole cascade: an out track lets packets through only if the source it was set up on
    is the one the node has, and packets reach exactly the nodes on the way to a demanding one. */
module MediaFeed {
  import opened Forests
  import opened Demands
  import opened WantNetwork
  import opened Delivery
  import opened MediaRuns
  import opened MediaDelivery

  /** Packets of k go into a's out track to b: from the local publisher it was set up on, or from the
      read loop of a track of other origin, which writes to every other edge that carries k. */
  predicate Feeds(x: System, a: NodeId, b: NodeId, k: TrackKey) {
    && Sends(x, a, b, k)
    && ((Owns(x, a, b, k) && Publishes(x, a, k)) || (k in x.relays[a].remote && x.relays[a].remote[k] != b))
  }

  /** a has nothing left to recompute, sends k to b, and no packet gets in. */
  predicate Starved(x: System, a: NodeId, b: NodeId, k: TrackKey) {
    Sends(x, a, b, k) && !x.relays[a].owed && !Feeds(x, a, b, k)
  }

  // ---------------------------------------------------------------------------------------------
  // Publishing with care
  // ---------------------------------------------------------------------------------------------

  /** k is a relay on the edge to m, or would be set up as one. */
  predicate RelaysTo(r: Relay, m: NodeId, k: TrackKey)
    requires m in r.ports
  {
    (k in r.ports[m].sent && k !in r.ports[m].own) || (k in r.remote && r.remote[k] != m)
  }

  /** No edge of the node has k as a relay, or would have. */
  predicate Clean(r: Relay, k: TrackKey) {
    forall m | m in r.ports :: !RelaysTo(r, m, k)
  }

  predicate Careful(x: System, ev: Event) {
    ev.Publish? && ev.n in x.relays ==> Clean(x.relays[ev.n], ev.k)
  }

  predicate Settled(r: Relay) {
    forall k | k in r.local :: Clean(r, k)
  }

  predicate AllSettled(x: System) {
    forall n | n in x.relays :: Settled(x.relays[n])
  }

  lemma RecomputedSettled(of: Topics, n: Node, r: Relay, allowed: bool)
    requires Settled(r)
    ensures Settled(Recomputed(of, n, r, allowed))
  {
    hide Desired;
    var r' := Recomputed(of, n, r, allowed);
    forall k, m | k in r'.local && m in r'.ports ensures !RelaysTo(r', m, k) {
      assert Clean(r, k);
      assert !RelaysTo(r, m, k);
    }
  }

  lemma SeenSettled(r: Relay, a: NodeId, k: TrackKey, sign: Sign)
    requires Settled(r) && a in r.ports
    ensures Settled(Seen(r, a, k, sign))
  {
    var r' := Seen(r, a, k, sign);
    forall j, m | j in r'.local && m in r'.ports ensures !RelaysTo(r', m, j) {
      assert Clean(r, j);
      assert !RelaysTo(r, m, j);
    }
  }

  lemma TakenSettled(r: Relay, b: NodeId, k: TrackKey)
    requires Settled(r) && b in r.ports && Queue(r.ports[b], k) != []
    ensures Settled(Taken(r, b, k))
  {
    var r' := Taken(r, b, k);
    forall j, m | j in r'.local && m in r'.ports ensures !RelaysTo(r', m, j) {
      assert Clean(r, j);
      assert !RelaysTo(r, m, j);
    }
  }

  lemma LocalSettled(r: Relay, r': Relay)
    requires Settled(r) && r'.remote == r.remote && r'.ports == r.ports
    requires forall k | k in r'.local :: k in r.local || Clean(r, k)
    ensures Settled(r')
  {
    forall k, m | k in r'.local && m in r'.ports ensures !RelaysTo(r', m, k) {
      assert Clean(r, k);
      assert !RelaysTo(r, m, k);
    }
  }

  lemma OneSettles(x: System, n: NodeId, r: Relay)
    requires AllSettled(x) && Settled(r)
    ensures AllSettled(WithRelay(x, n, r))
  {
    hide Settled;
  }

  lemma ArriveSettles(x: System, a: NodeId, b: NodeId, k: TrackKey)
    requires AllSettled(x) && CanArrive(x, a, b, k)
    ensures AllSettled(Arrived(x, a, b, k))
  {
    hide Settled, Taken, Seen;
    TakenSettled(x.relays[a], b, k);
    SeenSettled(x.relays[b], a, k, Way(x, a, b, k)[0]);
  }

  lemma WantsSettle(g: Topology, of: Topics, x: System, x': System)
    requires MediaInv(g, of, x) && AllSettled(x) && WantsMoved(x, x')
    ensures AllSettled(x')
  {
    hide Inv, RelayOk, EdgesOk, Settled, Next, Clean;
    forall n | n in x'.relays ensures Settled(x'.relays[n]) {
      LocalSettled(x.relays[n], x'.relays[n]);
    }
  }

  lemma StepKeepsSettled(g: Topology, of: Topics, x: System, ev: Event, x': System)
    requires MediaInv(g, of, x) && AllSettled(x) && Step(of, x, ev, x') && Careful(x, ev)
    ensures AllSettled(x')
  {
    hide MediaInv, Settled, AllSettled, Clean, Recomputed, Arrived, CanArrive, WantsMoved;
    match ev
    case Publish(n, k) => PublishSettles(x, n, x.relays[n].(local := x.relays[n].local + {k}, owed := true));
    case Unpublish(n, k) => PublishSettles(x, n, x.relays[n].(local := x.relays[n].local - {k}, owed := true));
    case Recompute(n, allowed) =>
      SettledAt(x, n);
      RecomputedSettled(of, x.net[n], x.relays[n], allowed);
      OneSettles(x, n, Recomputed(of, x.net[n], x.relays[n], allowed));
    case Arrive(a, b, k) => ArriveSettles(x, a, b, k);
    case Wants => WantsSettle(g, of, x, x');
  }

  lemma SettledAt(x: System, n: NodeId)
    requires AllSettled(x) && n in x.relays
    ensures Settled(x.relays[n])
  {
    hide Settled;
  }

  lemma PublishSettles(x: System, n: NodeId, r: Relay)
    requires AllSettled(x) && n in x.relays && r.remote == x.relays[n].remote && r.ports == x.relays[n].ports
    requires forall k | k in r.local :: k in x.relays[n].local || Clean(x.relays[n], k)
    ensures AllSettled(WithRelay(x, n, r))
  {
    hide Settled, Clean;
    LocalSettled(x.relays[n], r);
    OneSettles(x, n, r);
  }

  lemma {:induction false} CarefulRunSettles(g: Topology, of: Topics, xs: seq<System>, evs: seq<Event>, i: nat)
    requires MediaRun(g, of, xs, evs) && i < |xs| && forall j | 0 <= j < |evs| :: Careful(xs[j], evs[j])
    ensures AllSettled(xs[i])
  {
    hide MediaInv, Step, Init, Settled, Careful;
    if i > 0 {
      CarefulRunSettles(g, of, xs, evs, i - 1);
      MediaRunKeepsInv(g, of, xs, evs, i - 1);
      StepKeepsSettled(g, of, xs[i - 1], evs[i - 1], xs[i - 1 + 1]);
    } else {
      forall n | n in xs[0].relays ensures Settled(xs[0].relays[n]) {
        NothingLocal(xs[0].relays[n]);
      }
    }
  }

  lemma NothingLocal(r: Relay)
    requires r.local == {}
    ensures Settled(r)
  {}

  lemma SentIsDesired(g: Topology, of: Topics, x: System, a: NodeId, b: NodeId, k: TrackKey)
    requires MediaInv(g, of, x) && Sends(x, a, b, k) && !x.relays[a].owed
    ensures a in x.net && k in Desired(of, x.net[a], x.relays[a], b)
  {
    InvNodes(g, x.net);
    hide Inv, EdgesOk, Desired;
    assert RelayOk(g, of, x, a);
  }

  lemma SettledKeeps(r: Relay, b: NodeId, k: TrackKey)
    requires Settled(r) && b in r.ports && k in r.local
    ensures !RelaysTo(r, b, k)
  {
    assert Clean(r, k);
  }

  /** A node that has recomputed feeds all that it sends. */
  lemma SettledFeeds(g: Topology, of: Topics, x: System, a: NodeId, b: NodeId, k: TrackKey)
    requires MediaInv(g, of, x) && AllSettled(x)
    ensures !Starved(x, a, b, k)
  {
    hide MediaInv, Settled;
    if Sends(x, a, b, k) && !x.relays[a].owed {
      SentIsDesired(g, of, x, a, b, k);
      if k in x.relays[a].local {
        SettledKeeps(x.relays[a], b, k);
      }
    }
  }

  /** In a run all of whose publications are made with care nothing that is sent is ever starved. */
  lemma CarefulRunsFeed(g: Topology, of: Topics, xs: seq<System>, evs: seq<Event>, i: nat, a: NodeId, b: NodeId,
                        k: TrackKey)
    requires MediaRun(g, of, xs, evs) && i < |xs| && forall j | 0 <= j < |evs| :: Careful(xs[j], evs[j])
    ensures !Starved(xs[i], a, b, k)
  {
    hide MediaInv, MediaRun, AllSettled, Careful, Starved;
    CarefulRunSettles(g, of, xs, evs, i);
    MediaRunKeepsInv(g, of, xs, evs, i);
    SettledFeeds(g, of, xs[i], a, b, k);
  }

  // ---------------------------------------------------------------------------------------------
  // End to end
  // ---------------------------------------------------------------------------------------------

  /** Packets of k published at w[0] pass every hop of w: each node has k from the node before it, and
      its out track to the next one is fed. */
  ghost predicate Flows(g: Topology, x: System, w: seq<NodeId>, k: TrackKey) {
    && g.Walk(w) && |w| >= 2 && Publishes(x, w[0], k)
    && forall i | 0 <= i < |w| - 1 :: Passes(x, w[i], w[i + 1], k)
  }

  predicate Passes(x: System, a: NodeId, b: NodeId, k: TrackKey) {
    Feeds(x, a, b, k) && Holds(x, b, a, k)
  }

  /** Packets of k published at n reach q. */
  ghost predicate Reaches(g: Topology, x: System, n: NodeId, q: NodeId, k: TrackKey) {
    exists w :: Flows(g, x, w, k) && w[0] == n && w[|w| - 1] == q
  }

  lemma PlaneAt(of: Topics, x: System, n: NodeId)
    requires n in x.relays
    ensures var p := PlaneOf(of, x);
      && n in p && p[n].local.Keys == x.relays[n].local && p[n].remote.Keys == x.relays[n].remote.Keys
      && (forall k | k in p[n].local :: p[n].local[k] == of(k))
      && (forall k | k in p[n].remote :: p[n].remote[k].origin == x.relays[n].remote[k])
  {}

  /** Each node of a demanded walk has the track from the node before it. */
  lemma HopHolds(g: Topology, of: Topics, x: System, w: seq<NodeId>, k: TrackKey, j: nat)
    requires AtRest(g, x.net, PlaneOf(of, x)) && g.Walk(w) && j + 1 < |w| && Publishes(x, w[0], k)
    requires w[|w| - 1] in x.net && x.net[w[|w| - 1]].local.Accepts(of(k))
    ensures Holds(x, w[j + 1], w[j], k)
  {
    hide AtRest, PlaneOf;
    PlaneAt(of, x, w[0]);
    RouteIsServed(g, x.net, PlaneOf(of, x), w, k, of(k), j + 1);
    hide Topology.Walk;
    PlaneNodes(of, x);
    PlaneAt(of, x, w[j + 1]);
  }

  lemma PlaneNodes(of: Topics, x: System)
    ensures PlaneOf(of, x).Keys == x.relays.Keys
  {}

  /** One hop of a demanded walk. */
  lemma HopPasses(g: Topology, of: Topics, x: System, w: seq<NodeId>, k: TrackKey, j: nat)
    requires MediaInv(g, of, x) && AllSettled(x) && Still(x) && AtRest(g, x.net, PlaneOf(of, x))
    requires g.Walk(w) && j + 1 < |w| && Publishes(x, w[0], k)
    requires w[|w| - 1] in x.net && x.net[w[|w| - 1]].local.Accepts(of(k))
    ensures Passes(x, w[j], w[j + 1], k)
  {
    hide AtRest, AllSettled, Desired, MediaInv, Still, PlaneOf;
    assert g.Hop(w, j);
    HopHolds(g, of, x, w, k, j);
    hide Topology.Walk;
    RestEdge(g, of, x, w[j], w[j + 1], k);
    SettledFeeds(g, of, x, w[j], w[j + 1], k);
    StillOwesNothing(x, w[j]);
  }

  lemma StillOwesNothing(x: System, n: NodeId)
    requires Still(x) && n in x.relays
    ensures !x.relays[n].owed
  {}

  lemma PrefixFlows(g: Topology, of: Topics, x: System, w: seq<NodeId>, k: TrackKey, i: nat)
    requires MediaInv(g, of, x) && AllSettled(x) && Still(x) && AtRest(g, x.net, PlaneOf(of, x))
    requires g.Walk(w) && 1 <= i < |w| && Publishes(x, w[0], k)
    requires w[|w| - 1] in x.net && x.net[w[|w| - 1]].local.Accepts(of(k))
    ensures Flows(g, x, w[..i + 1], k)
  {
    hide MediaInv, AllSettled, Still, AtRest, Passes, PlaneOf;
    assert w[..i + 1] == w[0..i + 1];
    AtRestForest(g, x.net, PlaneOf(of, x));
    SubWalk(g, w, 0, i + 1);
    forall j | 0 <= j < i ensures Passes(x, w[j], w[j + 1], k) {
      HopPasses(g, of, x, w, k, j);
    }
    hide Topology.Walk, Topology.Forest;
    var v := w[..i + 1];
    forall j | 0 <= j < |v| - 1 ensures Passes(x, v[j], v[j + 1], k) {
      assert v[j] == w[j] && v[j + 1] == w[j + 1];
    }
  }

  lemma AtRestForest(g: Topology, s: Net, p: Plane)
    requires AtRest(g, s, p)
    ensures g.Forest()
  {}

  lemma ReachesHolds(g: Topology, x: System, n: NodeId, q: NodeId, k: TrackKey)
    requires Reaches(g, x, n, q, k)
    ensures q in x.relays && k in x.relays[q].remote
  {
    hide Topology.Walk, Feeds;
    var w :| Flows(g, x, w, k) && w[0] == n && w[|w| - 1] == q;
    assert Passes(x, w[|w| - 2], w[|w| - 2 + 1], k);
  }

  lemma DemandedIsReached(g: Topology, of: Topics, x: System, n: NodeId, q: NodeId, k: TrackKey)
    requires MediaInv(g, of, x) && AllSettled(x) && Still(x) && AtRest(g, x.net, PlaneOf(of, x))
    requires Publishes(x, n, k) && OnDemandedPath(g, x.net, n, q, of(k))
    ensures Reaches(g, x, n, q, k)
  {
    hide Still, AtRest, OnDemandedPath, MediaInv, AllSettled, PlaneOf, Flows, Topology.Walk;
    var w, i := PathOf(g, x.net, n, q, of(k));
    PrefixFlows(g, of, x, w, k, i);
    var v := w[..i + 1];
    assert v[0] == n && v[|v| - 1] == q;
  }

  /** Once a run of free and careful publications is at rest, packets of a track published at n reach
      another node q exactly when q is on the way from n to a node that demands it. */
  lemma PacketsAfterRun(g: Topology, of: Topics, xs: seq<System>, evs: seq<Event>, n: NodeId, q: NodeId, k: TrackKey)
    requires g.Forest() && MediaRun(g, of, xs, evs) && Courteous(g, xs, evs) && Still(xs[|xs| - 1])
    requires forall j | 0 <= j < |evs| :: Careful(xs[j], evs[j])
    requires var x := xs[|xs| - 1]; n in x.relays && q in x.relays && n != q && k in x.relays[n].local
    ensures var x := xs[|xs| - 1]; Reaches(g, x, n, q, k) <==> OnDemandedPath(g, x.net, n, q, of(k))
  {
    var x := xs[|xs| - 1];
    hide MediaRun, Courteous, Still, AtRest, Topology.Forest, OnDemandedPath, MediaInv, AllSettled, Careful, PlaneOf,
         Reaches;
    CarefulRunSettles(g, of, xs, evs, |xs| - 1);
    MediaRunKeepsInv(g, of, xs, evs, |xs| - 1);
    CourteousRunsRest(g, of, xs, evs);
    PresenceAfterRun(g, of, xs, evs, n, q, k);
    if Reaches(g, x, n, q, k) {
      ReachesHolds(g, x, n, q, k);
    }
    if OnDemandedPath(g, x.net, n, q, of(k)) {
      DemandedIsReached(g, of, x, n, q, k);
    }
  }

  lemma PathOf(g: Topology, s: Net, n: NodeId, q: NodeId, t: Topic) returns (w: seq<NodeId>, i: nat)
    requires OnDemandedPath(g, s, n, q, t)
    ensures g.Walk(w) && 1 <= i < |w| && w[0] == n && w[i] == q && w[|w| - 1] in s && s[w[|w| - 1]].local.Accepts(t)
  {
    w, i :| DemandedPath(g, s, w, n, q, t, i);
  }
}
