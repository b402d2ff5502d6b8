/** The condition for publishing is exact: a publication can lead to a refused arrival if and only if
    the track was not free at that node. */
module MediaGuard {
  import opened Forests
  import opened Demands
  import opened WantNetwork
  import opened Delivery
  import opened MediaRuns
  import W = WantConvergence

  /** Events other than publications lead from x to y. */
  ghost predicate LeadsTo(of: Topics, x: System, y: System) {
    exists xs, evs :: Course(of, xs, evs, x, y)
  }

  ghost predicate Course(of: Topics, xs: seq<System>, evs: seq<Event>, x: System, y: System) {
    Path(of, xs, evs) && xs[0] == x && xs[|evs|] == y && forall i | 0 <= i < |evs| :: !evs[i].Publish?
  }

  lemma LeadsNowhere(of: Topics, x: System)
    ensures LeadsTo(of, x, x)
  {
    assert Course(of, [x], [], x, x);
  }

  lemma LeadsOn(of: Topics, x: System, y: System, ev: Event, z: System)
    requires LeadsTo(of, x, y) && Step(of, y, ev, z) && !ev.Publish?
    ensures LeadsTo(of, x, z)
  {
    hide Step;
    var xs: seq<System>, evs: seq<Event> :| Course(of, xs, evs, x, y);
    var xs', evs' := xs + [z], evs + [ev];
    forall i | 0 <= i < |evs'| ensures Step(of, xs'[i], evs'[i], xs'[i + 1]) && !evs'[i].Publish? {
      if i < |evs| {
        assert Step(of, xs[i], evs[i], xs[i + 1]) && !evs[i].Publish?;
      }
    }
    assert Course(of, xs', evs', x, z);
  }

  lemma LeadsBy(of: Topics, x: System, ev: Event, y: System)
    requires Step(of, x, ev, y) && !ev.Publish?
    ensures LeadsTo(of, x, y)
  {
    hide Step;
    LeadsNowhere(of, x);
    LeadsOn(of, x, x, ev, y);
  }

  lemma LeadsThen(of: Topics, x: System, y: System, z: System)
    requires LeadsTo(of, x, y) && LeadsTo(of, y, z)
    ensures LeadsTo(of, x, z)
  {
    hide Step;
    var xs: seq<System>, evs: seq<Event> :| Course(of, xs, evs, x, y);
    var ys: seq<System>, es: seq<Event> :| Course(of, ys, es, y, z);
    var xs', evs' := xs + ys[1..], evs + es;
    forall i | 0 <= i < |evs'| ensures Step(of, xs'[i], evs'[i], xs'[i + 1]) && !evs'[i].Publish? {
      if i < |evs| {
        assert Step(of, xs[i], evs[i], xs[i + 1]) && !evs[i].Publish?;
      } else {
        var j := i - |evs|;
        assert Step(of, ys[j], es[j], ys[j + 1]) && !es[j].Publish?;
      }
    }
    assert Course(of, xs', evs', x, z);
  }

  /** From x, with nobody publishing any more, events can happen that end in a refused arrival of k. */
  ghost predicate MayRefuse(of: Topics, x: System, k: TrackKey) {
    exists y, a, b :: LeadsTo(of, x, y) && Refuses(y, Arrive(a, b, k))
  }

  lemma RefusalNow(of: Topics, x: System, a: NodeId, b: NodeId, k: TrackKey)
    requires Refuses(x, Arrive(a, b, k))
    ensures MayRefuse(of, x, k)
  {
    LeadsNowhere(of, x);
  }

  lemma RefusalLater(of: Topics, x: System, y: System, k: TrackKey)
    requires LeadsTo(of, x, y)
    ensures MayRefuse(of, y, k) ==> MayRefuse(of, x, k)
  {
    hide LeadsTo, Refuses;
    if z, a, b :| LeadsTo(of, y, z) && Refuses(z, Arrive(a, b, k)) {
      LeadsThen(of, x, y, z);
    }
  }

  // ---------------------------------------------------------------------------------------------
  // A free publication is safe
  // ---------------------------------------------------------------------------------------------

  lemma {:induction false} TidyPath(g: Topology, of: Topics, xs: seq<System>, evs: seq<Event>, i: nat)
    requires g.Forest() && Path(of, xs, evs) && MediaInv(g, of, xs[0]) && Tidy(g, xs[0]) && i < |xs|
    requires forall j | 0 <= j < |evs| :: !evs[j].Publish?
    ensures MediaInv(g, of, xs[i]) && Tidy(g, xs[i])
  {
    hide MediaInv, Step, Tidy, Topology.Forest, Refuses;
    if i > 0 {
      TidyPath(g, of, xs, evs, i - 1);
      MediaStepKeepsInv(g, of, xs[i - 1], evs[i - 1], xs[i - 1 + 1]);
      CourteousStep(g, of, xs[i - 1], evs[i - 1], xs[i - 1 + 1]);
    }
  }

  lemma TidyIsSafe(g: Topology, of: Topics, x: System, k: TrackKey)
    requires g.Forest() && MediaInv(g, of, x) && Tidy(g, x)
    ensures !MayRefuse(of, x, k)
  {
    hide MediaInv, Tidy, Topology.Forest;
    if y, a, b :| LeadsTo(of, x, y) && Refuses(y, Arrive(a, b, k)) {
      var xs: seq<System>, evs: seq<Event> :| Course(of, xs, evs, x, y);
      TidyPath(g, of, xs, evs, |evs|);
      TidyRefusesNothing(g, of, y, Arrive(a, b, k), Arrived(y, a, b, k));
    }
  }

  // ---------------------------------------------------------------------------------------------
  // Driving a track over one edge
  // ---------------------------------------------------------------------------------------------

  /** a has k to send to b. */
  predicate Available(x: System, a: NodeId, b: NodeId, k: TrackKey) {
    a in x.relays && (k in x.relays[a].local || (k in x.relays[a].remote && x.relays[a].remote[k] != b))
  }

  /** b would refuse k from a. */
  predicate Blocked(x: System, b: NodeId, a: NodeId, k: TrackKey) {
    b in x.relays && Refused(x.relays[b], a, k)
  }

  /** The want state, who publishes k, and who has it from whom, except for b from a. */
  ghost predicate Kept(x: System, y: System, a: NodeId, b: NodeId, k: TrackKey) {
    && y.net == x.net && y.relays.Keys == x.relays.Keys
    && (forall m :: Publishes(y, m, k) == Publishes(x, m, k))
    && (forall m, c | !(m == b && c == a) :: Holds(y, m, c, k) == Holds(x, m, c, k))
  }

  lemma KeptAvailable(x: System, y: System, a: NodeId, b: NodeId, k: TrackKey, c: NodeId, d: NodeId)
    requires Kept(x, y, a, b, k) && c != b && Available(x, c, d, k)
    ensures Available(y, c, d, k)
  {
    if k in x.relays[c].local {
      assert Publishes(y, c, k);
    } else {
      assert Holds(y, c, x.relays[c].remote[k], k);
    }
  }

  lemma KeptBlocked(x: System, y: System, a: NodeId, b: NodeId, k: TrackKey, c: NodeId, d: NodeId)
    requires Kept(x, y, a, b, k) && (c != b || d == a) && Blocked(x, c, d, k)
    ensures Blocked(y, c, d, k)
  {
    if k in x.relays[c].local {
      assert Publishes(y, c, k);
    } else {
      assert Holds(y, c, x.relays[c].remote[k], k);
    }
  }

  lemma ArriveKeeps(x: System, a: NodeId, b: NodeId, k: TrackKey)
    requires CanArrive(x, a, b, k) && EdgeOk(x, a, b, k)
    ensures Kept(x, Arrived(x, a, b, k), a, b, k)
  {
    hide EdgeOk, Arrived;
    ArriveKeys(x, a, b, k);
    ArrivePublishes(x, a, b, k, k);
    forall m, c | !(m == b && c == a) ensures Holds(Arrived(x, a, b, k), m, c, k) == Holds(x, m, c, k) {
      ArrivalAt(x, a, b, k, c, m, k);
    }
  }

  /** Nobody's out tracks of k have changed. */
  ghost predicate SameOuts(x: System, y: System, k: TrackKey) {
    forall a, b :: Sends(y, a, b, k) == Sends(x, a, b, k) && Owns(y, a, b, k) == Owns(x, a, b, k)
  }

  lemma ArriveSameOuts(x: System, a: NodeId, b: NodeId, k: TrackKey)
    requires CanArrive(x, a, b, k)
    ensures SameOuts(x, Arrived(x, a, b, k), k)
  {}

  /** Everything of k on the edge a->b arrives, unless that already ends in a refusal. */
  lemma {:induction false} Flush(g: Topology, of: Topics, x: System, a: NodeId, b: NodeId, k: TrackKey)
    returns (y: System)
    requires MediaInv(g, of, x) && g.Adj(a, b)
    ensures MediaInv(g, of, y) && Way(y, a, b, k) == [] && Kept(x, y, a, b, k) && SameOuts(x, y, k)
    ensures LeadsTo(of, x, y)
    decreases |Way(x, a, b, k)|
  {
    hide MediaInv, EdgeOk, Arrived, LeadsTo, Kept, Owns, Sends;
    if Way(x, a, b, k) == [] {
      y := x;
      LeadsNowhere(of, x);
      KeptSame(x, a, b, k);
    } else {
      WayIsArrival(g, of, x, a, b, k);
      var x1 := Arrived(x, a, b, k);
      ArrivalHere(x, a, b, k);
      ArriveKeepsInv(g, of, x, a, b, k);
      ArriveKeeps(x, a, b, k);
      ArriveSameOuts(x, a, b, k);
      LeadsBy(of, x, Arrive(a, b, k), x1);
      y := Flush(g, of, x1, a, b, k);
      LeadsThen(of, x, x1, y);
      KeptThen(x, x1, y, a, b, k);
    }
  }

  lemma WayIsArrival(g: Topology, of: Topics, x: System, a: NodeId, b: NodeId, k: TrackKey)
    requires MediaInv(g, of, x) && g.Adj(a, b)
    ensures EdgeOk(x, a, b, k) && a in x.relays && b in x.relays && a in x.net && b in x.relays[a].ports
    ensures Way(x, a, b, k) != [] ==> CanArrive(x, a, b, k)
  {
    InvNodes(g, x.net);
    assert RelayOk(g, of, x, a) && RelayOk(g, of, x, b);
  }

  lemma KeptSame(x: System, a: NodeId, b: NodeId, k: TrackKey)
    ensures Kept(x, x, a, b, k)
  {}

  lemma KeptThen(x: System, y: System, z: System, a: NodeId, b: NodeId, k: TrackKey)
    requires Kept(x, y, a, b, k) && Kept(y, z, a, b, k)
    ensures Kept(x, z, a, b, k)
  {}

  lemma RecomputeKeeps(of: Topics, x: System, n: NodeId, allowed: bool, a: NodeId, b: NodeId, k: TrackKey)
    requires n in x.relays && n in x.net
    ensures Kept(x, WithRelay(x, n, Recomputed(of, x.net[n], x.relays[n], allowed)), a, b, k)
  {}

  /** a's lease lapses and comes back: all that is under way to b arrives, and then k comes up anew. */
  lemma Resend(g: Topology, of: Topics, x: System, a: NodeId, b: NodeId, k: TrackKey) returns (y: System)
    requires MediaInv(g, of, x) && g.Adj(a, b) && Available(x, a, b, k) && a in x.net && PeerAccepts(x.net[a], b, of(k))
    ensures MediaInv(g, of, y) && Kept(x, y, a, b, k) && CanArrive(y, a, b, k) && Way(y, a, b, k)[0] == Up
    ensures EdgeOk(y, a, b, k)
    ensures LeadsTo(of, x, y)
  {
    hide MediaInv, LeadsTo, Kept, Recomputed, EdgeOk, CanArrive, PeerAccepts, Way, Owns;
    WayIsArrival(g, of, x, a, b, k);
    var x1 := WithRelay(x, a, Recomputed(of, x.net[a], x.relays[a], false));
    RecomputeAt(of, x, a, false, a, b, k);
    RecomputeKeeps(of, x, a, false, a, b, k);
    RecomputeKeepsInv(g, of, x, a, false);
    LeadsBy(of, x, Recompute(a, false), x1);
    var x2 := Flush(g, of, x1, a, b, k);
    LeadsThen(of, x, x1, x2);
    KeptThen(x, x1, x2, a, b, k);
    assert a != b by {
      MediaShape(g, of, x);
    }
    KeptAvailable(x, x2, a, b, k, a, b);
    WayIsArrival(g, of, x2, a, b, k);
    KeptNet(x, x2, a, b, k);
    y := WithRelay(x2, a, Recomputed(of, x2.net[a], x2.relays[a], true));
    RecomputeAt(of, x2, a, true, a, b, k);
    RecomputeKeeps(of, x2, a, true, a, b, k);
    RecomputeKeepsInv(g, of, x2, a, true);
    LeadsOn(of, x, x2, Recompute(a, true), y);
    KeptThen(x, x2, y, a, b, k);
    WayIsArrival(g, of, y, a, b, k);
    ComesUp(x2, y, a, b, k);
  }

  lemma MediaShape(g: Topology, of: Topics, x: System)
    requires MediaInv(g, of, x)
    ensures g.WellFormed()
  {
    InvNodes(g, x.net);
  }

  lemma KeptNet(x: System, y: System, a: NodeId, b: NodeId, k: TrackKey)
    requires Kept(x, y, a, b, k)
    ensures y.net == x.net
  {}

  lemma ComesUp(x: System, y: System, a: NodeId, b: NodeId, k: TrackKey)
    requires EdgeOk(x, a, b, k) && Way(x, a, b, k) == [] && !Sends(x, a, b, k)
    requires EdgeOk(y, a, b, k) && Sends(y, a, b, k)
    requires Holds(y, b, a, k) == Holds(x, b, a, k) && Drains(y, b, a, k) == Drains(x, b, a, k)
    ensures Way(y, a, b, k) != [] && Way(y, a, b, k)[0] == Up
  {}

  /** k reaches b from a, unless it can be refused. */
  lemma Push(g: Topology, of: Topics, x: System, a: NodeId, b: NodeId, k: TrackKey) returns (y: System)
    requires MediaInv(g, of, x) && g.Adj(a, b) && Available(x, a, b, k) && a in x.net && PeerAccepts(x.net[a], b, of(k))
    ensures LeadsTo(of, x, y)
    ensures MayRefuse(of, x, k)
              || (MediaInv(g, of, y) && Kept(x, y, a, b, k) && Holds(y, b, a, k) && !Blocked(x, b, a, k))
  {
    hide MediaInv, MayRefuse, LeadsTo, Kept, EdgeOk, PeerAccepts, Way, Arrived, Refused;
    var x1 := Resend(g, of, x, a, b, k);
    y := Arrived(x1, a, b, k);
    LeadsOn(of, x, x1, Arrive(a, b, k), y);
    if Refused(x1.relays[b], a, k) {
      RefusalNow(of, x1, a, b, k);
      RefusalLater(of, x, x1, k);
    } else {
      if Blocked(x, b, a, k) {
        KeptBlocked(x, x1, a, b, k, b, a);
      }
      ArrivalHere(x1, a, b, k);
      ArriveKeepsInv(g, of, x1, a, b, k);
      ArriveKeeps(x1, a, b, k);
      KeptThen(x, x1, y, a, b, k);
    }
  }

  ghost predicate Accepting(x: System, w: seq<NodeId>, t: Topic) {
    forall i | 0 <= i < |w| - 1 :: w[i] in x.net && PeerAccepts(x.net[w[i]], w[i + 1], t)
  }

  lemma WalkDiffers(g: Topology, w: seq<NodeId>, i: nat, j: nat)
    requires g.Forest() && g.Walk(w) && i < j < |w|
    ensures w[i] != w[j]
  {
    SubWalk(g, w, i, j + 1);
    var v := w[i..j + 1];
    assert v[0] == w[i] && v[|v| - 1] == w[j];
  }

  /** Along a walk that asks for k all the way, k travels until some node refuses it. */
  lemma {:induction false} Drive(g: Topology, of: Topics, x: System, w: seq<NodeId>, i: nat, k: TrackKey)
    requires g.Forest() && MediaInv(g, of, x) && g.Walk(w) && i + 1 < |w|
    requires Available(x, w[i], w[i + 1], k) && Accepting(x, w, of(k))
    requires Blocked(x, w[|w| - 1], w[|w| - 2], k)
    ensures MayRefuse(of, x, k)
    decreases |w| - i
  {
    hide MediaInv, MayRefuse, LeadsTo, Kept, PeerAccepts, Topology.Forest, Refused;
    assert g.Hop(w, i);
    var y := Push(g, of, x, w[i], w[i + 1], k);
    if i + 2 < |w| && !MayRefuse(of, x, k) {
      KeptNet(x, y, w[i], w[i + 1], k);
      if i + 2 < |w| {
        WalkDiffers(g, w, i + 1, |w| - 1);
      }
      KeptBlocked(x, y, w[i], w[i + 1], k, w[|w| - 1], w[|w| - 2]);
      Drive(g, of, y, w, i + 1, k);
      RefusalLater(of, x, y, k);
    }
  }

  // ---------------------------------------------------------------------------------------------
  // Making the whole walk ask for the track
  // ---------------------------------------------------------------------------------------------

  /** Want frames move no media. */
  predicate SameMedia(x: System, y: System) {
    && y.relays.Keys == x.relays.Keys
    && forall n | n in x.relays ::
         && y.relays[n].local == x.relays[n].local && y.relays[n].remote == x.relays[n].remote
         && y.relays[n].ports == x.relays[n].ports
  }

  lemma FollowNet(g: Topology, of: Topics, x: System, s: Net) returns (y: System)
    requires MediaInv(g, of, x) && Next(x.net, s)
    ensures MediaInv(g, of, y) && y.net == s && SameMedia(x, y) && LeadsTo(of, x, y)
  {
    hide LeadsTo, Next, Inv;
    NextKeepsInv(g, x.net, s);
    InvNodes(g, s);
    y := System(s, map n | n in x.relays ::
        x.relays[n].(owed := x.relays[n].owed || (n in s && n in x.net && s[n] != x.net[n])));
    RelaysNodes(g, of, x);
    hide RelaysOk, EdgesOk;
    assert Step(of, x, Wants, y);
    MediaStepKeepsInv(g, of, x, Wants, y);
    hide Step;
    LeadsBy(of, x, Wants, y);
  }

  lemma {:induction false} FollowRun(g: Topology, of: Topics, x: System, r: seq<Net>, i: nat) returns (y: System)
    requires MediaInv(g, of, x) && i < |r| && r[0] == x.net && forall j | 0 <= j < |r| - 1 :: W.Delivers(r[j], r[j + 1])
    ensures MediaInv(g, of, y) && y.net == r[i] && SameMedia(x, y) && LeadsTo(of, x, y)
  {
    hide LeadsTo, MediaInv, Next;
    if i == 0 {
      y := x;
      LeadsNowhere(of, x);
    } else {
      var z := FollowRun(g, of, x, r, i - 1);
      assert W.Delivers(r[i - 1], r[i - 1 + 1]);
      DeliversIsNext(r[i - 1], r[i]);
      y := FollowNet(g, of, z, r[i]);
      LeadsThen(of, x, z, y);
    }
  }

  lemma DeliversIsNext(s: Net, s': Net)
    requires W.Delivers(s, s')
    ensures Next(s, s')
  {
    hide Deliver;
  }

  lemma ChangeDemand(g: Topology, of: Topics, x: System, n: NodeId, d: Demand) returns (y: System)
    requires MediaInv(g, of, x) && n in x.net
    ensures MediaInv(g, of, y) && SameMedia(x, y) && LeadsTo(of, x, y)
    ensures y.net.Keys == x.net.Keys && y.net[n].local == d && y.net[n].ran
    ensures forall m | m in x.net && m != n :: y.net[m] == x.net[m]
  {
    hide MediaInv, LeadsTo;
    var n' := W.Recomputed(x.net[n].(local := d));
    W.RecomputedRecomputes(x.net[n].(local := d));
    var s := x.net[n := n'];
    hide Recomputes, W.Recomputed;
    assert LocalChange(x.net, s, n, d);
    y := FollowNet(g, of, x, s);
  }

  ghost function Asleep(s: Net): set<NodeId> {
    set n | n in s && !s[n].ran
  }

  /** Every node recomputes at least once. */
  lemma {:induction false} Awaken(g: Topology, of: Topics, x: System) returns (y: System)
    requires MediaInv(g, of, x)
    ensures MediaInv(g, of, y) && SameMedia(x, y) && LeadsTo(of, x, y)
    ensures y.net.Keys == x.net.Keys && W.AllRan(y.net)
    decreases |Asleep(x.net)|
  {
    hide MediaInv, LeadsTo;
    if n :| n in Asleep(x.net) {
      var z := ChangeDemand(g, of, x, n, x.net[n].local);
      assert Asleep(z.net) == Asleep(x.net) - {n};
      y := Awaken(g, of, z);
      LeadsThen(of, x, z, y);
    } else {
      y := x;
      LeadsNowhere(of, x);
      forall n | n in x.net ensures x.net[n].ran {
        assert n !in Asleep(x.net);
      }
    }
  }

  /** Node m asks for everything and the wants settle. */
  lemma AskAndSettle(g: Topology, of: Topics, x: System, m: NodeId) returns (y: System)
    requires g.Forest() && MediaInv(g, of, x) && m in x.net
    ensures MediaInv(g, of, y) && SameMedia(x, y) && LeadsTo(of, x, y)
    ensures Quiescent(y.net) && m in y.net && y.net[m].local == ALL
  {
    hide MediaInv, LeadsTo, Quiescent, Topology.Forest, Inv, W.Delivers;
    var x1 := Awaken(g, of, x);
    var x2 := ChangeDemand(g, of, x1, m, ALL);
    LeadsThen(of, x, x1, x2);
    assert W.AllRan(x2.net);
    InvOf(g, of, x2);
    var r := W.WantsConverge(g, x2.net);
    hide W.AllRan;
    y := FollowRun(g, of, x2, r, |r| - 1);
    LeadsThen(of, x, x2, y);
    assert m in LocalDemands(x2.net) && LocalDemands(x2.net)[m] == ALL;
    assert m in LocalDemands(y.net);
  }

  /** The node at the end of w asks for everything, and the wants settle: every hop of w asks for k. */
  lemma AskFor(g: Topology, of: Topics, x: System, w: seq<NodeId>, k: TrackKey) returns (y: System)
    requires g.Forest() && MediaInv(g, of, x) && g.Walk(w) && |w| >= 1 && w[|w| - 1] in x.net
    ensures MediaInv(g, of, y) && SameMedia(x, y) && LeadsTo(of, x, y)
    ensures Accepting(y, w, of(k))
  {
    hide MediaInv, LeadsTo, Quiescent, Topology.Forest, Topology.Walk, Inv, SameMedia;
    y := AskAndSettle(g, of, x, w[|w| - 1]);
    InvOf(g, of, y);
    assert ALL.Accepts(of(k));
    forall i | 0 <= i < |w| - 1 ensures w[i] in y.net && PeerAccepts(y.net[w[i]], w[i + 1], of(k)) {
      WantReachesBack(g, y.net, w, i + 1, of(k));
    }
  }

  lemma InvOf(g: Topology, of: Topics, x: System)
    requires MediaInv(g, of, x)
    ensures Inv(g, x.net) && x.net.Keys == x.relays.Keys == g.nodes
  {}

  // ---------------------------------------------------------------------------------------------
  // Publishing what is not free
  // ---------------------------------------------------------------------------------------------

  lemma SameMediaAt(x: System, y: System, n: NodeId, m: NodeId, k: TrackKey)
    requires SameMedia(x, y)
    ensures Available(x, n, m, k) ==> Available(y, n, m, k)
    ensures Blocked(x, n, m, k) ==> Blocked(y, n, m, k)
  {}

  /** k is published at the start of w and would be refused at its end. */
  lemma Collision(g: Topology, of: Topics, x: System, w: seq<NodeId>, k: TrackKey)
    requires g.Forest() && MediaInv(g, of, x) && g.Walk(w) && |w| >= 2
    requires Publishes(x, w[0], k) && Blocked(x, w[|w| - 1], w[|w| - 2], k)
    ensures MayRefuse(of, x, k)
  {
    hide MediaInv, MayRefuse, LeadsTo, Topology.Forest, Refused, SameMedia, Accepting, Topology.Walk;
    InvOf(g, of, x);
    hide Inv;
    var y := AskFor(g, of, x, w, k);
    SameMediaAt(x, y, w[0], w[1], k);
    SameMediaAt(x, y, w[|w| - 1], w[|w| - 2], k);
    Drive(g, of, y, w, 0, k);
    RefusalLater(of, x, y, k);
  }

  /** k is still to come up at n, where it is published. */
  lemma {:induction false} UpAtPublisher(g: Topology, of: Topics, x: System, a: NodeId, n: NodeId, k: TrackKey)
    requires MediaInv(g, of, x) && g.Adj(a, n) && Publishes(x, n, k) && Up in Way(x, a, n, k)
    ensures MayRefuse(of, x, k)
    decreases |Way(x, a, n, k)|
  {
    hide MediaInv, MayRefuse, LeadsTo, EdgeOk, Arrived;
    WayIsArrival(g, of, x, a, n, k);
    if Way(x, a, n, k)[0] == Up {
      RefusalNow(of, x, a, n, k);
    } else {
      ArrivalHere(x, a, n, k);
      ArriveKeepsInv(g, of, x, a, n, k);
      ArrivePublishes(x, a, n, k, k);
      LeadsBy(of, x, Arrive(a, n, k), Arrived(x, a, n, k));
      RefusalLater(of, x, Arrived(x, a, n, k), k);
      UpAtPublisher(g, of, Arrived(x, a, n, k), a, n, k);
    }
  }

  lemma ConnectedWalk(g: Topology, n: NodeId, m: NodeId) returns (w: seq<NodeId>)
    requires g.Tree() && n in g.nodes && m in g.nodes && n != m
    ensures g.Walk(w) && |w| >= 2 && w[0] == n && w[|w| - 1] == m
    ensures g.OnSide(w[|w| - 2], m, n)
  {
    hide Topology.Forest;
    w :| g.Walk(w) && w[0] == n && w[|w| - 1] == m;
    assert g.WellFormed() by {
      ForestIsWellFormed(g);
    }
    var r := Reversal(g, w);
    assert g.WalkOver(r, m, w[|w| - 2], n);
  }

  /** b has k from a, away from the way to n, where k is published. */
  lemma HeldCollides(g: Topology, of: Topics, x: System, n: NodeId, a: NodeId, b: NodeId, k: TrackKey)
    requires g.Tree() && MediaInv(g, of, x) && g.Adj(a, b) && b != n && !g.OnSide(a, b, n)
    requires Publishes(x, n, k) && Holds(x, b, a, k)
    ensures MayRefuse(of, x, k)
  {
    hide MediaInv, MayRefuse, Topology.OnSide;
    InvOf(g, of, x);
    hide Inv;
    var w := ConnectedWalk(g, n, b);
    Collision(g, of, x, w, k);
  }

  /** Something of k is on a->b: it is there to collide with, or comes up. */
  lemma TraceCollides(g: Topology, of: Topics, x: System, n: NodeId, a: NodeId, b: NodeId, k: TrackKey)
    requires g.Tree() && MediaInv(g, of, x) && NoneDrained(x) && g.Adj(a, b) && b != n && !g.OnSide(a, b, n)
    requires Publishes(x, n, k) && Trace(x, a, b, k)
    ensures MayRefuse(of, x, k)
  {
    hide MediaInv, MayRefuse, LeadsTo, Topology.OnSide, Topology.Tree, Arrived;
    WayIsArrival(g, of, x, a, b, k);
    assert !Drains(x, b, a, k);
    if Holds(x, b, a, k) {
      HeldCollides(g, of, x, n, a, b, k);
    } else {
      assert Way(x, a, b, k) != [] && Way(x, a, b, k)[0] == Up;
      if Refused(x.relays[b], a, k) {
        RefusalNow(of, x, a, b, k);
      } else {
        var y := Arrived(x, a, b, k);
        ArrivalHere(x, a, b, k);
        hide EdgeOk, Refused;
        ArriveKeepsInv(g, of, x, a, b, k);
        ArrivePublishes(x, a, b, k, k);
        LeadsBy(of, x, Arrive(a, b, k), y);
        RefusalLater(of, x, y, k);
        HeldCollides(g, of, y, n, a, b, k);
      }
    }
  }

  lemma PublisherCollides(g: Topology, of: Topics, x: System, n: NodeId, m: NodeId, k: TrackKey)
    requires g.Tree() && MediaInv(g, of, x) && m != n && Publishes(x, n, k) && Publishes(x, m, k)
    ensures MayRefuse(of, x, k)
  {
    hide MediaInv, MayRefuse, Topology.OnSide;
    InvOf(g, of, x);
    hide Inv;
    var w := ConnectedWalk(g, n, m);
    Collision(g, of, x, w, k);
  }

  lemma PublishFrame(of: Topics, x: System, n: NodeId, k: TrackKey, x': System)
    requires Step(of, x, Publish(n, k), x')
    ensures Publishes(x', n, k) && forall m | Publishes(x, m, k) :: Publishes(x', m, k)
    ensures forall a, b :: Way(x', a, b, k) == Way(x, a, b, k) && Trace(x', a, b, k) == Trace(x, a, b, k)
    ensures NoneDrained(x) ==> NoneDrained(x')
  {
    assert forall b, a, j :: Drains(x', b, a, j) == Drains(x, b, a, j);
  }

  lemma NotFreeCollides(g: Topology, of: Topics, x: System, n: NodeId, k: TrackKey, x': System)
    requires g.Tree() && MediaInv(g, of, x) && NoneDrained(x) && !Free(g, x, n, k) && Step(of, x, Publish(n, k), x')
    ensures MayRefuse(of, x', k)
  {
    hide MediaInv, MayRefuse, Topology.OnSide, Topology.Tree, NoneDrained, Trace, Way, Step, Publishes;
    MediaStepKeepsInv(g, of, x, Publish(n, k), x');
    PublishFrame(of, x, n, k, x');
    if m :| Publishes(x, m, k) && m != n {
      PublisherCollides(g, of, x', n, m, k);
    } else if a, b :| g.Adj(a, b) && b != n && Trace(x, a, b, k) && !g.OnSide(a, b, n) {
      TraceCollides(g, of, x', n, a, b, k);
    } else {
      var a :| g.Adj(a, n) && Up in Way(x, a, n, k);
      UpAtPublisher(g, of, x', a, n, k);
    }
  }

  /** The condition is exact. After any courteous run over a tree, publishing k at n can lead to a
      refused arrival of k, with nothing more published, if and only if k was not free at n. */
  lemma FreeIsExact(g: Topology, of: Topics, xs: seq<System>, evs: seq<Event>, n: NodeId, k: TrackKey, x': System)
    requires g.Tree() && MediaRun(g, of, xs, evs) && Courteous(g, xs, evs)
    requires Step(of, xs[|xs| - 1], Publish(n, k), x')
    ensures MayRefuse(of, x', k) <==> !Free(g, xs[|xs| - 1], n, k)
  {
    var x := xs[|xs| - 1];
    assert g.Forest();
    hide MediaInv, MayRefuse, Topology.Tree, Topology.Forest, Step, Free, Rooted, MediaRun, Courteous, NoneDrained;
    MediaRunKeepsInv(g, of, xs, evs, |xs| - 1);
    CourteousRunIsTidy(g, of, xs, evs, |xs| - 1);
    if Free(g, x, n, k) {
      MediaStepKeepsInv(g, of, x, Publish(n, k), x');
      CourteousStep(g, of, x, Publish(n, k), x');
      TidyIsSafe(g, of, x', k);
    } else {
      NotFreeCollides(g, of, x, n, k, x');
    }
  }
}
