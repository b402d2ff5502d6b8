/** The condition for publishing is exact, hop by hop: publishing a track at a node can leave an edge that
    carries it without packets if and only if some edge of that node has the track as a relay, or would. */
module StarvedHop {
  import opened Forests
  import opened Demands
  import opened WantNetwork
  import opened Delivery
  import opened MediaRuns
  import opened MediaGuard
  import opened MediaFeed
  import Star = MovedPublisher

  /** From x, with nobody publishing any more, events can happen that leave some edge of n starved of k. */
  ghost predicate MayStarve(of: Topics, x: System, n: NodeId, k: TrackKey) {
    exists y, m :: LeadsTo(of, x, y) && Starved(y, n, m, k)
  }

  // ---------------------------------------------------------------------------------------------
  // A careful publication is safe
  // ---------------------------------------------------------------------------------------------

  lemma {:induction false} SettledPath(g: Topology, of: Topics, xs: seq<System>, evs: seq<Event>, i: nat)
    requires Path(of, xs, evs) && MediaInv(g, of, xs[0]) && AllSettled(xs[0]) && i < |xs|
    requires forall j | 0 <= j < |evs| :: !evs[j].Publish?
    ensures MediaInv(g, of, xs[i]) && AllSettled(xs[i])
  {
    hide MediaInv, Step, AllSettled;
    if i > 0 {
      SettledPath(g, of, xs, evs, i - 1);
      MediaStepKeepsInv(g, of, xs[i - 1], evs[i - 1], xs[i - 1 + 1]);
      StepKeepsSettled(g, of, xs[i - 1], evs[i - 1], xs[i - 1 + 1]);
    }
  }

  lemma SettledIsSafe(g: Topology, of: Topics, x: System, n: NodeId, k: TrackKey)
    requires MediaInv(g, of, x) && AllSettled(x)
    ensures !MayStarve(of, x, n, k)
  {
    hide MediaInv, AllSettled, Step, Starved;
    if y, m :| LeadsTo(of, x, y) && Starved(y, n, m, k) {
      var xs: seq<System>, evs: seq<Event> :| Course(of, xs, evs, x, y);
      SettledPath(g, of, xs, evs, |evs|);
      SettledFeeds(g, of, y, n, m, k);
    }
  }

  // ---------------------------------------------------------------------------------------------
  // The others are not
  // ---------------------------------------------------------------------------------------------

  /** n publishes k, m asks for it, and either n's out track to m is a relay, or k is remote as well. */
  ghost predicate Torn(g: Topology, of: Topics, x: System, n: NodeId, m: NodeId, k: TrackKey) {
    && MediaInv(g, of, x) && g.Adj(n, m) && n in x.relays && n in x.net && m in x.relays[n].ports
    && Publishes(x, n, k) && PeerAccepts(x.net[n], m, of(k))
  }

  predicate Relayed(x: System, n: NodeId, m: NodeId, k: TrackKey) {
    Sends(x, n, m, k) && !Owns(x, n, m, k)
  }

  lemma NodeOf(g: Topology, of: Topics, x: System, n: NodeId)
    requires MediaInv(g, of, x) && n in x.relays
    ensures n in x.net && n in g.nodes && g.WellFormed() && forall m | m in x.relays[n].ports :: g.Adj(n, m)
    ensures forall k | k in x.relays[n].remote :: g.Adj(x.relays[n].remote[k], n)
  {
    InvNodes(g, x.net);
    hide Inv, EdgesOk;
    assert RelayOk(g, of, x, n);
  }

  lemma PortsOf(g: Topology, of: Topics, x: System, n: NodeId, m: NodeId)
    requires MediaInv(g, of, x) && g.Adj(n, m)
    ensures n in x.relays && n in x.net && m in x.relays[n].ports
  {
    InvNodes(g, x.net);
    hide Inv, EdgesOk;
    assert RelayOk(g, of, x, n);
  }

  /** One out track after a recomputation of its node. */
  lemma OutAfter(of: Topics, x: System, n: NodeId, allowed: bool, m: NodeId, k: TrackKey)
    requires n in x.relays && n in x.net && m in x.relays[n].ports && Publishes(x, n, k)
    requires PeerAccepts(x.net[n], m, of(k))
    ensures var r := x.relays[n]; var x' := WithRelay(x, n, Recomputed(of, x.net[n], r, allowed));
      && Publishes(x', n, k) && x'.net == x.net && x'.relays[n].remote == r.remote && x'.relays[n].owed == !allowed
      && m in x'.relays[n].ports && (Sends(x', n, m, k) <==> allowed)
      && (allowed ==> (Owns(x', n, m, k) <==> if Sends(x, n, m, k) then Owns(x, n, m, k) else k in Attached(r, m)))
  {}

  /** The lease of n lapses and comes back while k is remote from elsewhere: k is set up as a relay. */
  lemma SetUpRelay(g: Topology, of: Topics, x: System, n: NodeId, m: NodeId, k: TrackKey) returns (y: System)
    requires Torn(g, of, x, n, m, k) && k in x.relays[n].remote && x.relays[n].remote[k] != m
    ensures Torn(g, of, y, n, m, k) && Relayed(y, n, m, k) && LeadsTo(of, x, y)
  {
    hide MediaInv, LeadsTo, Recomputed, PeerAccepts, Sends, Owns, Publishes;
    var x1 := WithRelay(x, n, Recomputed(of, x.net[n], x.relays[n], false));
    OutAfter(of, x, n, false, m, k);
    RecomputeKeepsInv(g, of, x, n, false);
    LeadsBy(of, x, Recompute(n, false), x1);
    y := WithRelay(x1, n, Recomputed(of, x1.net[n], x1.relays[n], true));
    OutAfter(of, x1, n, true, m, k);
    RecomputeKeepsInv(g, of, x1, n, true);
    LeadsOn(of, x, x1, Recompute(n, true), y);
  }

  /** c's lease lapses: it sends nothing. */
  lemma StopSending(g: Topology, of: Topics, x: System, c: NodeId, n: NodeId, k: TrackKey) returns (y: System)
    requires MediaInv(g, of, x) && g.Adj(c, n) && c != n
    ensures MediaInv(g, of, y) && LeadsTo(of, x, y) && !Sends(y, c, n, k)
    ensures y.net == x.net && y.relays.Keys == x.relays.Keys && n in x.relays && y.relays[n] == x.relays[n]
  {
    hide MediaInv, LeadsTo, Recomputed, EdgeOk;
    PortsOf(g, of, x, c, n);
    WayIsArrival(g, of, x, c, n, k);
    y := WithRelay(x, c, Recomputed(of, x.net[c], x.relays[c], false));
    RecomputeAt(of, x, c, false, c, n, k);
    RecomputeKeepsInv(g, of, x, c, false);
    LeadsBy(of, x, Recompute(c, false), y);
  }

  /** The node from which n has k stops sending it, and the end arrives. */
  lemma EndRemote(g: Topology, of: Topics, x: System, n: NodeId, m: NodeId, k: TrackKey) returns (y: System)
    requires Torn(g, of, x, n, m, k) && Relayed(x, n, m, k) && k in x.relays[n].remote
    ensures Torn(g, of, y, n, m, k) && Relayed(y, n, m, k) && k !in y.relays[n].remote && LeadsTo(of, x, y)
  {
    hide MediaInv, LeadsTo, PeerAccepts, EdgeOk, Sends, Owns, Way, Kept;
    var c := x.relays[n].remote[k];
    NodeOf(g, of, x, n);
    assert g.Adj(c, n) && c != n;
    var x1 := StopSending(g, of, x, c, n, k);
    SameRelayAt(x, x1, n, m, k);
    y := Flush(g, of, x1, c, n, k);
    LeadsThen(of, x, x1, y);
    PortsOf(g, of, y, n, m);
    WayIsArrival(g, of, y, c, n, k);
    EndedIsGone(x1, y, c, n, k);
    KeptRelay(x1, y, c, n, k, m);
  }

  lemma SameRelayAt(x: System, y: System, n: NodeId, m: NodeId, k: TrackKey)
    requires n in x.relays && n in y.relays && y.relays[n] == x.relays[n]
    ensures Relayed(x, n, m, k) ==> Relayed(y, n, m, k)
    ensures Publishes(x, n, k) ==> Publishes(y, n, k)
  {}

  lemma EndedIsGone(x: System, y: System, c: NodeId, n: NodeId, k: TrackKey)
    requires n in x.relays && n in y.relays && k in x.relays[n].remote && x.relays[n].remote[k] == c
    requires Kept(x, y, c, n, k) && EdgeOk(y, c, n, k) && Way(y, c, n, k) == [] && !Sends(y, c, n, k)
    ensures k !in y.relays[n].remote
  {
    forall d ensures !Holds(y, n, d, k) {
      if d != c {
        assert !Holds(x, n, d, k);
      }
    }
    assert k in y.relays[n].remote ==> Holds(y, n, y.relays[n].remote[k], k);
  }

  lemma KeptRelay(x: System, y: System, c: NodeId, n: NodeId, k: TrackKey, m: NodeId)
    requires Kept(x, y, c, n, k) && SameOuts(x, y, k) && Publishes(x, n, k) && Relayed(x, n, m, k)
    ensures y.net == x.net && Publishes(y, n, k) && Relayed(y, n, m, k)
  {}

  /** n recomputes: the out track stays a relay, with nothing to relay. */
  lemma RelayStarves(g: Topology, of: Topics, x: System, n: NodeId, m: NodeId, k: TrackKey)
    requires Torn(g, of, x, n, m, k) && Relayed(x, n, m, k) && (k in x.relays[n].remote ==> x.relays[n].remote[k] == m)
    ensures MayStarve(of, x, n, k)
  {
    hide MediaInv, LeadsTo, Recomputed, PeerAccepts, Sends, Owns;
    var y := WithRelay(x, n, Recomputed(of, x.net[n], x.relays[n], true));
    OutAfter(of, x, n, true, m, k);
    LeadsBy(of, x, Recompute(n, true), y);
    assert Starved(y, n, m, k);
  }

  lemma TornMayStarve(g: Topology, of: Topics, x: System, n: NodeId, m: NodeId, k: TrackKey)
    requires Torn(g, of, x, n, m, k)
    requires Relayed(x, n, m, k) || (k in x.relays[n].remote && x.relays[n].remote[k] != m)
    ensures MayStarve(of, x, n, k)
  {
    hide LeadsTo, Relayed, MediaInv, PeerAccepts, Publishes;
    var y := x;
    LeadsNowhere(of, x);
    if !Relayed(x, n, m, k) {
      y := SetUpRelay(g, of, x, n, m, k);
    }
    if k in y.relays[n].remote && y.relays[n].remote[k] != m {
      var z := EndRemote(g, of, y, n, m, k);
      LeadsThen(of, x, y, z);
      y := z;
    }
    RelayStarves(g, of, y, n, m, k);
    StarvedLater(of, x, y, n, k);
  }

  lemma StarvedLater(of: Topics, x: System, y: System, n: NodeId, k: TrackKey)
    requires LeadsTo(of, x, y) && MayStarve(of, y, n, k)
    ensures MayStarve(of, x, n, k)
  {
    hide LeadsTo, Starved;
    var z, m :| LeadsTo(of, y, z) && Starved(z, n, m, k);
    LeadsThen(of, x, y, z);
  }

  /** m asks for k, whatever else it wants. */
  lemma Tear(g: Topology, of: Topics, x: System, n: NodeId, m: NodeId, k: TrackKey) returns (y: System)
    requires g.Forest() && MediaInv(g, of, x) && g.Adj(n, m) && Publishes(x, n, k)
    ensures Torn(g, of, y, n, m, k) && SameMedia(x, y) && LeadsTo(of, x, y)
  {
    hide MediaInv, LeadsTo, PeerAccepts, Topology.Forest, SameMedia;
    PortsOf(g, of, x, n, m);
    NodeOf(g, of, x, n);
    PortsOf(g, of, x, m, n);
    EdgeWalk(g, n, m);
    var w := [n, m];
    y := AskFor(g, of, x, w, k);
    assert w[0] in y.net && PeerAccepts(y.net[w[0]], w[0 + 1], of(k));
    PortsOf(g, of, y, n, m);
    SamePublishes(x, y, n, k);
  }

  lemma SamePublishes(x: System, y: System, n: NodeId, k: TrackKey)
    requires SameMedia(x, y) && Publishes(x, n, k)
    ensures Publishes(y, n, k)
  {}

  lemma SameRelays(x: System, y: System, n: NodeId, m: NodeId, k: TrackKey)
    requires SameMedia(x, y) && n in x.relays && m in x.relays[n].ports
    ensures n in y.relays && (RelaysTo(x.relays[n], m, k) ==>
              Relayed(y, n, m, k) || (k in y.relays[n].remote && y.relays[n].remote[k] != m))
  {}

  lemma UncleanStarves(g: Topology, of: Topics, x: System, n: NodeId, k: TrackKey)
    requires g.Forest() && MediaInv(g, of, x) && Publishes(x, n, k) && !Clean(x.relays[n], k)
    ensures MayStarve(of, x, n, k)
  {
    hide MediaInv, LeadsTo, Topology.Forest, SameMedia, Torn, MayStarve, RelaysTo;
    var m :| m in x.relays[n].ports && RelaysTo(x.relays[n], m, k);
    NodeOf(g, of, x, n);
    var y := Tear(g, of, x, n, m, k);
    SameRelays(x, y, n, m, k);
    TornMayStarve(g, of, y, n, m, k);
    StarvedLater(of, x, y, n, k);
  }

  lemma PublishKeepsClean(of: Topics, x: System, n: NodeId, k: TrackKey, x': System)
    requires Step(of, x, Publish(n, k), x')
    ensures n in x.relays && Publishes(x', n, k) && (Clean(x'.relays[n], k) <==> Clean(x.relays[n], k))
  {
    assert x'.relays[n].ports == x.relays[n].ports && x'.relays[n].remote == x.relays[n].remote;
    assert forall m | m in x.relays[n].ports :: RelaysTo(x'.relays[n], m, k) == RelaysTo(x.relays[n], m, k);
  }

  /** The condition is exact. After any run of careful publications over a forest, publishing k at n can
      leave an edge of n that carries k without packets, with nothing more published, if and only if some
      edge of n has k as a relay or would be set up as one. */
  lemma CarefulIsExact(g: Topology, of: Topics, xs: seq<System>, evs: seq<Event>, n: NodeId, k: TrackKey, x': System)
    requires g.Forest() && MediaRun(g, of, xs, evs) && forall j | 0 <= j < |evs| :: Careful(xs[j], evs[j])
    requires Step(of, xs[|xs| - 1], Publish(n, k), x')
    ensures n in xs[|xs| - 1].relays && (MayStarve(of, x', n, k) <==> !Clean(xs[|xs| - 1].relays[n], k))
  {
    var x := xs[|xs| - 1];
    hide MediaInv, MayStarve, Topology.Forest, Step, MediaRun, AllSettled, Clean;
    PublishKeepsClean(of, x, n, k, x');
    CarefulRunSettles(g, of, xs, evs, |xs| - 1);
    MediaRunKeepsInv(g, of, xs, evs, |xs| - 1);
    MediaStepKeepsInv(g, of, x, Publish(n, k), x');
    if Clean(x.relays[n], k) {
      StepKeepsSettled(g, of, x, Publish(n, k), x');
      SettledIsSafe(g, of, x', n, k);
    } else {
      UncleanStarves(g, of, x', n, k);
    }
  }

  // ---------------------------------------------------------------------------------------------
  // Free publications alone do not keep packets flowing
  // ---------------------------------------------------------------------------------------------

  /** A run of free publications so far. */
  ghost predicate Ends(g: Topology, of: Topics, xs: seq<System>, evs: seq<Event>, x: System) {
    MediaRun(g, of, xs, evs) && Courteous(g, xs, evs) && xs[|evs|] == x
  }

  lemma GoOn(g: Topology, of: Topics, xs: seq<System>, evs: seq<Event>, x: System, ev: Event, y: System)
    returns (ys: seq<System>, es: seq<Event>)
    requires Ends(g, of, xs, evs, x) && Step(of, x, ev, y) && (ev.Publish? ==> Free(g, x, ev.n, ev.k))
    ensures Ends(g, of, ys, es, y)
  {
    hide Step, Free, Init, InitRelays;
    ys, es := xs + [y], evs + [ev];
    forall i | 0 <= i < |es| ensures Step(of, ys[i], es[i], ys[i + 1]) {
      if i < |evs| {
        assert Step(of, xs[i], evs[i], xs[i + 1]);
      }
    }
    assert ys[0] == xs[0];
    forall i | 0 <= i < |es| && es[i].Publish? ensures Free(g, ys[i], es[i].n, es[i].k) {
      if i < |evs| {
        assert ys[i] == xs[i] && es[i] == evs[i];
      }
    }
  }

  lemma {:induction false} GoAlong(g: Topology, of: Topics, xs: seq<System>, evs: seq<Event>, zs: seq<System>,
                                   more: seq<Event>, i: nat)
    returns (ys: seq<System>, es: seq<Event>)
    requires Path(of, zs, more) && i < |zs| && Ends(g, of, xs, evs, zs[0])
    requires forall j | 0 <= j < |more| :: !more[j].Publish?
    ensures Ends(g, of, ys, es, zs[i])
  {
    hide Ends, Step;
    if i == 0 {
      ys, es := xs, evs;
    } else {
      ys, es := GoAlong(g, of, xs, evs, zs, more, i - 1);
      ys, es := GoOn(g, of, ys, es, zs[i - 1], more[i - 1], zs[i - 1 + 1]);
    }
  }

  lemma GoTo(g: Topology, of: Topics, xs: seq<System>, evs: seq<Event>, x: System, y: System)
    returns (ys: seq<System>, es: seq<Event>)
    requires Ends(g, of, xs, evs, x) && LeadsTo(of, x, y)
    ensures Ends(g, of, ys, es, y)
  {
    hide Ends, Step;
    var zs: seq<System>, more: seq<Event> :| Course(of, zs, more, x, y);
    ys, es := GoAlong(g, of, xs, evs, zs, more, |more|);
  }

  /** What holds at the end of a run of free publications. */
  lemma EndsWell(g: Topology, of: Topics, xs: seq<System>, evs: seq<Event>, x: System)
    requires g.Forest() && Ends(g, of, xs, evs, x)
    ensures MediaInv(g, of, x) && Tidy(g, x)
  {
    hide MediaInv, Tidy, Step, Free, Init, InitRelays, Topology.Forest;
    MediaRunKeepsInv(g, of, xs, evs, |evs|);
    CourteousRunIsTidy(g, of, xs, evs, |evs|);
  }

  lemma {:induction false} FreePath(g: Topology, of: Topics, xs: seq<System>, evs: seq<Event>, i: nat, n: NodeId,
                                    k: TrackKey)
    requires g.Forest() && Path(of, xs, evs) && i < |xs| && MediaInv(g, of, xs[0]) && Free(g, xs[0], n, k)
    requires forall j | 0 <= j < |evs| :: !evs[j].Publish?
    ensures MediaInv(g, of, xs[i]) && Free(g, xs[i], n, k)
  {
    hide MediaInv, Step, Free, Topology.Forest;
    if i > 0 {
      FreePath(g, of, xs, evs, i - 1, n, k);
      MediaStepKeepsInv(g, of, xs[i - 1], evs[i - 1], xs[i - 1 + 1]);
      StepKeepsFree(g, of, xs[i - 1], evs[i - 1], xs[i - 1 + 1], n, k);
    }
  }

  lemma FreeStays(g: Topology, of: Topics, x: System, y: System, n: NodeId, k: TrackKey)
    requires g.Forest() && MediaInv(g, of, x) && Free(g, x, n, k) && LeadsTo(of, x, y)
    ensures Free(g, y, n, k)
  {
    hide MediaInv, Step, Free, Topology.Forest;
    var xs: seq<System>, evs: seq<Event> :| Course(of, xs, evs, x, y);
    FreePath(g, of, xs, evs, |evs|, n, k);
  }

  /** Published at a and asked for by b, a free track arrives at b. */
  lemma Bring(g: Topology, of: Topics, x: System, a: NodeId, b: NodeId, k: TrackKey) returns (y: System)
    requires g.Forest() && MediaInv(g, of, x) && Tidy(g, x) && g.Adj(a, b) && Publishes(x, a, k)
    ensures LeadsTo(of, x, y) && Holds(y, b, a, k) && Way(y, a, b, k) == []
  {
    hide MediaInv, Tidy, LeadsTo, PeerAccepts, Topology.Forest, Recomputed, Owns, Way;
    var x1 := Tear(g, of, x, a, b, k);
    var x2 := WithRelay(x1, a, Recomputed(of, x1.net[a], x1.relays[a], true));
    OutAfter(of, x1, a, true, b, k);
    RecomputeKeepsInv(g, of, x1, a, true);
    LeadsOn(of, x, x1, Recompute(a, true), x2);
    y := Flush(g, of, x2, a, b, k);
    LeadsThen(of, x, x2, y);
    WayIsArrival(g, of, y, a, b, k);
    TidyStays(g, of, x, y);
    ArrivedIsHeld(g, y, a, b, k);
  }

  lemma ArrivedIsHeld(g: Topology, x: System, a: NodeId, b: NodeId, k: TrackKey)
    requires Tidy(g, x) && EdgeOk(x, a, b, k) && Way(x, a, b, k) == [] && Sends(x, a, b, k)
    ensures Holds(x, b, a, k)
  {
    assert !Drains(x, b, a, k);
  }

  lemma TidyStays(g: Topology, of: Topics, x: System, y: System)
    requires g.Forest() && MediaInv(g, of, x) && Tidy(g, x) && LeadsTo(of, x, y)
    ensures Tidy(g, y)
  {
    hide MediaInv, Step, Tidy, Topology.Forest;
    var xs: seq<System>, evs: seq<Event> :| Course(of, xs, evs, x, y);
    TidyPath(g, of, xs, evs, |evs|);
  }

  lemma StarIsForest()
    ensures Star.PATH.Forest()
  {
    forall p | Star.PATH.Walk(p) && |p| > 1 ensures p[0] != p[|p| - 1] {
      assert Star.PATH.Hop(p, 0);
      if |p| > 2 {
        assert Star.PATH.Hop(p, 1);
      }
      if |p| > 3 {
        assert Star.PATH.Hop(p, 2);
      }
    }
  }

  /** Where every edge is b's, a track is free at b once nobody else publishes it and none is on its way in. */
  lemma FreeInTheMiddle(x: System, k: TrackKey)
    requires forall n :: !Publishes(x, n, k)
    requires Up !in Way(x, "a", "b", k) && Up !in Way(x, "c", "b", k)
    ensures Free(Star.PATH, x, "b", k)
  {
    StarIsForest();
    forall a, b | Star.PATH.Adj(a, b) && b != "b" ensures Star.PATH.OnSide(a, b, "b") {
      Star.PathEdges(a, b);
      WalkGivesSide(Star.PATH, b, a);
    }
    forall a | Star.PATH.Adj(a, "b") ensures Up !in Way(x, a, "b", k) {
      Star.PathEdges(a, "b");
    }
  }

  /** What is free at a comes to b from a only. */
  lemma NoneFromC(x: System, k: TrackKey)
    requires Free(Star.PATH, x, "a", k)
    ensures Way(x, "c", "b", k) == []
  {
    StarIsForest();
    WalkGivesSide(Star.PATH, "b", "a");
    if Trace(x, "c", "b", k) {
      hide Topology.OnSide, Topology.Forest;
      OneWayThere(Star.PATH, "b", "a", "c", "a");
    }
  }

  lemma Begin(of: Topics) returns (x: System)
    ensures Ends(Star.PATH, of, [x], [], x) && Free(Star.PATH, x, "a", "k") && "a" in x.relays
  {
    x := Star.Opening(Star.START);
    Star.BeginNet();
    Star.BeginRelays();
    hide Init, InitRelays, Topology.Walk;
    forall a, b ensures !Trace(x, a, b, "k") {
      NothingAt(x, a, b);
    }
    hide Trace;
    assert forall n :: !Publishes(x, n, "k");
    assert forall n :: Way(x, n, "a", "k") == [];
  }

  lemma NothingAt(x: System, a: NodeId, b: NodeId)
    requires x == Star.Opening(Star.START)
    ensures !Trace(x, a, b, "k")
  {}

  function Published(x: System, n: NodeId, k: TrackKey): System
    requires n in x.relays
  {
    WithRelay(x, n, x.relays[n].(local := x.relays[n].local + {k}, owed := true))
  }

  function Withdrawn(x: System, n: NodeId, k: TrackKey): System
    requires n in x.relays
  {
    WithRelay(x, n, x.relays[n].(local := x.relays[n].local - {k}, owed := true))
  }

  /** The track is published at a, and b has it from there. */
  lemma FirstPublisher(of: Topics) returns (xs: seq<System>, evs: seq<Event>, x: System)
    ensures Ends(Star.PATH, of, xs, evs, x) && Free(Star.PATH, x, "a", "k") && "a" in x.relays
    ensures Holds(x, "b", "a", "k") && Way(x, "a", "b", "k") == []
  {
    hide Ends, MediaInv, Tidy, Free, LeadsTo, Topology.Forest, Way;
    StarIsForest();
    var x0 := Begin(of);
    var x1 := Published(x0, "a", "k");
    assert Step(of, x0, Publish("a", "k"), x1);
    xs, evs := GoOn(Star.PATH, of, [x0], [], x0, Publish("a", "k"), x1);
    EndsWell(Star.PATH, of, [x0], [], x0);
    EndsWell(Star.PATH, of, xs, evs, x1);
    StepKeepsFree(Star.PATH, of, x0, Publish("a", "k"), x1, "a", "k");
    x := Bring(Star.PATH, of, x1, "a", "b", "k");
    FreeStays(Star.PATH, of, x1, x, "a", "k");
    xs, evs := GoTo(Star.PATH, of, xs, evs, x1, x);
    EndsWell(Star.PATH, of, xs, evs, x);
    PortsOf(Star.PATH, of, x, "a", "b");
  }

  lemma WithdrawnFrame(x: System, k: TrackKey)
    requires "a" in x.relays && Free(Star.PATH, x, "a", k)
    ensures var y := Withdrawn(x, "a", k);
      && (forall n :: !Publishes(y, n, k)) && (forall c, d :: Way(y, c, d, k) == Way(x, c, d, k))
      && (Holds(x, "b", "a", k) ==> Holds(y, "b", "a", k))
  {
    hide Topology.OnSide;
    forall n ensures !Publishes(Withdrawn(x, "a", k), n, k) {
      assert Publishes(x, n, k) ==> n == "a";
    }
  }

  /** It is withdrawn there, and published at b before its end has arrived. */
  lemma SecondPublisher(of: Topics) returns (xs: seq<System>, evs: seq<Event>, x: System)
    ensures Ends(Star.PATH, of, xs, evs, x) && MediaInv(Star.PATH, of, x)
    ensures Publishes(x, "b", "k") && !Clean(x.relays["b"], "k")
  {
    hide Ends, MediaInv, Tidy, Free, LeadsTo, Topology.Forest, Way;
    StarIsForest();
    var y: System;
    xs, evs, y := FirstPublisher(of);
    NoneFromC(y, "k");
    WithdrawnFrame(y, "k");
    var z := Withdrawn(y, "a", "k");
    assert Step(of, y, Unpublish("a", "k"), z);
    xs, evs := GoOn(Star.PATH, of, xs, evs, y, Unpublish("a", "k"), z);
    FreeInTheMiddle(z, "k");
    x := Published(z, "b", "k");
    assert Step(of, z, Publish("b", "k"), x);
    xs, evs := GoOn(Star.PATH, of, xs, evs, z, Publish("b", "k"), x);
    EndsWell(Star.PATH, of, xs, evs, x);
    PortsOf(Star.PATH, of, x, "b", "c");
    assert RelaysTo(x.relays["b"], "c", "k");
  }

  /** A run all of whose publications are free, and at whose end b, with nothing left to recompute, sends
      a track it publishes over an edge into which no packet gets. */
  lemma FreeIsNotEnough(of: Topics) returns (xs: seq<System>, evs: seq<Event>, m: NodeId)
    ensures MediaRun(Star.PATH, of, xs, evs) && Courteous(Star.PATH, xs, evs)
    ensures Publishes(xs[|evs|], "b", "k") && Starved(xs[|evs|], "b", m, "k")
  {
    hide MediaInv, Free, LeadsTo, Topology.Forest, Starved, MediaRun, Courteous, Clean;
    var x: System;
    xs, evs, x := SecondPublisher(of);
    StarIsForest();
    UncleanStarves(Star.PATH, of, x, "b", "k");
    var y, e :| LeadsTo(of, x, y) && Starved(y, "b", e, "k");
    xs, evs := GoTo(Star.PATH, of, xs, evs, x, y);
    m := e;
    EndsWell(Star.PATH, of, xs, evs, y);
    StarvedIsPublished(Star.PATH, of, y, "b", e, "k");
  }

  /** Only a published track can be starved. */
  lemma StarvedIsPublished(g: Topology, of: Topics, x: System, n: NodeId, m: NodeId, k: TrackKey)
    requires MediaInv(g, of, x) && Starved(x, n, m, k)
    ensures Publishes(x, n, k)
  {
    hide MediaInv;
    SentIsDesired(g, of, x, n, m, k);
  }
}
