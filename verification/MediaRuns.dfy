/** Media moving through a cascade: what each node publishes, what it has taken from which neighbour,
    what it sends and what is still on its way; interleaved with the want protocol. */
module MediaRuns {
  import opened Forests
  import opened Demands
  import opened WantNetwork
  import opened Delivery

  /** What the receiving end of an edge learns of one track: it comes up, or it ends. */
  datatype Sign = Up | End

  /** A node's side of one edge. `sent`: its out tracks; `line`: per track, the signs the peer has not
      seen yet, oldest first; `drained`: tracks the peer sends that this node refused on arrival; `own`:
      the out tracks that were set up on the local publisher, the others being relays. */
  datatype Port = Port(sent: set<TrackKey>, line: map<TrackKey, seq<Sign>>, drained: set<TrackKey>, own: set<TrackKey>)

  const NEW_PORT := Port({}, map[], {}, {})

  /** `remote` names the neighbour each accepted track came from; `owed`: a recompute is due. */
  datatype Relay = Relay(local: set<TrackKey>, remote: map<TrackKey, NodeId>, ports: map<NodeId, Port>, owed: bool)

  datatype System = System(net: Net, relays: map<NodeId, Relay>)

  /** The user and medium of a track: a session never changes its user. */
  type Topics = TrackKey -> Topic

  datatype Event =
    | Publish(n: NodeId, k: TrackKey)
    | Unpublish(n: NodeId, k: TrackKey)
    | Recompute(n: NodeId, allowed: bool)
    | Arrive(a: NodeId, b: NodeId, k: TrackKey)
    | Wants

  // ---------------------------------------------------------------------------------------------
  // One track on one edge
  // ---------------------------------------------------------------------------------------------

  predicate Sends(x: System, a: NodeId, b: NodeId, k: TrackKey) {
    a in x.relays && b in x.relays[a].ports && k in x.relays[a].ports[b].sent
  }

  /** a's out track of k to b was set up on the publisher at a. */
  predicate Owns(x: System, a: NodeId, b: NodeId, k: TrackKey) {
    a in x.relays && b in x.relays[a].ports && k in x.relays[a].ports[b].own
  }

  function Queue(p: Port, k: TrackKey): seq<Sign> {
    if k in p.line then p.line[k] else []
  }

  /** The signs of k on their way from a to b. */
  function Way(x: System, a: NodeId, b: NodeId, k: TrackKey): seq<Sign> {
    if a in x.relays && b in x.relays[a].ports then Queue(x.relays[a].ports[b], k) else []
  }

  predicate Holds(x: System, b: NodeId, a: NodeId, k: TrackKey) {
    b in x.relays && k in x.relays[b].remote && x.relays[b].remote[k] == a
  }

  predicate Drains(x: System, b: NodeId, a: NodeId, k: TrackKey) {
    b in x.relays && a in x.relays[b].ports && k in x.relays[b].ports[a].drained
  }

  /** b has a track k open from a, for use or to drain it. */
  predicate Open(x: System, b: NodeId, a: NodeId, k: TrackKey) {
    Holds(x, b, a, k) || Drains(x, b, a, k)
  }

  /** Anything of k on the edge a->b. */
  predicate Trace(x: System, a: NodeId, b: NodeId, k: TrackKey) {
    Sends(x, a, b, k) || Way(x, a, b, k) != [] || Open(x, b, a, k)
  }

  predicate Publishes(x: System, n: NodeId, k: TrackKey) {
    n in x.relays && k in x.relays[n].local
  }

  // ---------------------------------------------------------------------------------------------
  // What a node does
  // ---------------------------------------------------------------------------------------------

  predicate PeerAccepts(n: Node, b: NodeId, t: Topic) {
    b in n.links && n.links[b].peerWantSeen && n.links[b].peerWant.Accepts(t)
  }

  /** The candidates for the edge to b that b has asked for. */
  function Desired(of: Topics, n: Node, r: Relay, b: NodeId): set<TrackKey> {
    set k | k in r.local + r.remote.Keys && (k in r.local || r.remote[k] != b) && PeerAccepts(n, b, of(k))
  }

  /** The tracks that a new out track to b would be set up for on the local publisher: remote
      candidates are entered last, so one of other origin takes precedence. */
  function Attached(r: Relay, b: NodeId): set<TrackKey> {
    set k | k in r.local && (k in r.remote ==> r.remote[k] == b)
  }

  /** Out tracks replaced by d: one sign for each track that comes or goes. Those that stay, stay as
      they were set up. */
  function Retracked(p: Port, d: set<TrackKey>, attached: set<TrackKey>): Port {
    p.(sent := d,
       own := (set k | k in d && if k in p.sent then k in p.own else k in attached),
       line := map k | k in p.line.Keys + p.sent + d ::
         Queue(p, k) + (if k in d && k !in p.sent then [Up] else if k in p.sent && k !in d then [End] else []))
  }

  /** Without a valid lease nothing is sent, and a recompute stays due until there is one. */
  function Recomputed(of: Topics, n: Node, r: Relay, allowed: bool): Relay {
    r.(ports := map m | m in r.ports ::
        Retracked(r.ports[m], if allowed then Desired(of, n, r, m) else {}, Attached(r, m)),
       owed := !allowed)
  }

  /** The loop defence, applied once, as the track comes up. */
  predicate Refused(r: Relay, a: NodeId, k: TrackKey) {
    k in r.local || (k in r.remote && r.remote[k] != a)
  }

  /** The receiving node on one sign of track k from a. A refused track is drained until it ends. */
  function Seen(r: Relay, a: NodeId, k: TrackKey, sign: Sign): Relay
    requires a in r.ports
  {
    match sign
    case Up =>
      if Refused(r, a, k) then r.(ports := r.ports[a := r.ports[a].(drained := r.ports[a].drained + {k})])
      else r.(remote := r.remote[k := a], owed := true)
    case End =>
      if k in r.ports[a].drained then r.(ports := r.ports[a := r.ports[a].(drained := r.ports[a].drained - {k})])
      else if k in r.remote && r.remote[k] == a then r.(remote := r.remote - {k}, owed := true)
      else r
  }

  function Taken(r: Relay, b: NodeId, k: TrackKey): Relay
    requires b in r.ports && Queue(r.ports[b], k) != []
  {
    r.(ports := r.ports[b := r.ports[b].(line := r.ports[b].line[k := Queue(r.ports[b], k)[1..]])])
  }

  predicate CanArrive(x: System, a: NodeId, b: NodeId, k: TrackKey) {
    && a in x.relays && b in x.relays && a != b && b in x.relays[a].ports && a in x.relays[b].ports
    && Way(x, a, b, k) != []
  }

  function Arrived(x: System, a: NodeId, b: NodeId, k: TrackKey): System
    requires CanArrive(x, a, b, k)
  {
    x.(relays := x.relays[a := Taken(x.relays[a], b, k)][b := Seen(x.relays[b], a, k, Way(x, a, b, k)[0])])
  }

  function WithRelay(x: System, n: NodeId, r: Relay): System {
    x.(relays := x.relays[n := r])
  }

  /** Nodes whose want state has moved owe a recompute. */
  ghost predicate WantsMoved(x: System, x': System) {
    && Next(x.net, x'.net) && x'.net.Keys == x.net.Keys && x'.relays.Keys == x.relays.Keys
    && forall n | n in x.relays && n in x.net ::
         x'.relays[n] == x.relays[n].(owed := x.relays[n].owed || x'.net[n] != x.net[n])
  }

  ghost predicate Step(of: Topics, x: System, ev: Event, x': System) {
    match ev
    case Publish(n, k) => n in x.relays
           && x' == WithRelay(x, n, x.relays[n].(local := x.relays[n].local + {k}, owed := true))
    case Unpublish(n, k) => n in x.relays
           && x' == WithRelay(x, n, x.relays[n].(local := x.relays[n].local - {k}, owed := true))
    case Recompute(n, allowed) =>
      n in x.relays && n in x.net && x' == WithRelay(x, n, Recomputed(of, x.net[n], x.relays[n], allowed))
    case Arrive(a, b, k) => CanArrive(x, a, b, k) && x' == Arrived(x, a, b, k)
    case Wants => WantsMoved(x, x')
  }

  ghost predicate InitRelays(g: Topology, x: System) {
    && x.relays.Keys == g.nodes
    && forall n | n in x.relays ::
         && x.relays[n].local == {} && x.relays[n].remote == map[]
         && (forall m :: m in x.relays[n].ports <==> g.Adj(n, m))
         && (forall m | m in x.relays[n].ports :: x.relays[n].ports[m] == NEW_PORT)
         && x.relays[n].owed
  }

  ghost predicate Path(of: Topics, xs: seq<System>, evs: seq<Event>) {
    |xs| == |evs| + 1 && forall i | 0 <= i < |evs| :: Step(of, xs[i], evs[i], xs[i + 1])
  }

  ghost predicate MediaRun(g: Topology, of: Topics, xs: seq<System>, evs: seq<Event>) {
    Path(of, xs, evs) && Init(g, xs[0].net) && InitRelays(g, xs[0])
  }

  // ---------------------------------------------------------------------------------------------
  // What every run keeps
  // ---------------------------------------------------------------------------------------------

  /** The signs under way lead from what the receiver has open to what the sender sends. */
  predicate Leads(way: seq<Sign>, open: bool, sent: bool) {
    if way == [] then open == sent
    else
      && (way[0] == Up <==> !open)
      && (way[|way| - 1] == Up <==> sent)
      && forall i | 0 <= i < |way| - 1 :: way[i] != way[i + 1]
  }

  ghost predicate EdgeOk(x: System, a: NodeId, b: NodeId, k: TrackKey) {
    Leads(Way(x, a, b, k), Open(x, b, a, k), Sends(x, a, b, k)) && !(Holds(x, b, a, k) && Drains(x, b, a, k))
  }

  ghost predicate RelayOk(g: Topology, of: Topics, x: System, n: NodeId)
    requires n in x.relays && n in x.net
  {
    var r := x.relays[n];
    && (forall m :: m in r.ports <==> g.Adj(n, m))
    && (forall k | k in r.remote :: g.Adj(r.remote[k], n))
    && (!r.owed ==> forall m | m in r.ports :: r.ports[m].sent == Desired(of, x.net[n], r, m))
  }

  ghost predicate RelaysOk(g: Topology, of: Topics, x: System) {
    && x.relays.Keys == g.nodes && x.net.Keys == g.nodes
    && forall n | n in x.relays :: RelayOk(g, of, x, n)
  }

  ghost predicate EdgesOk(g: Topology, x: System) {
    forall a, b, k | g.Adj(a, b) :: EdgeOk(x, a, b, k)
  }

  ghost predicate MediaInv(g: Topology, of: Topics, x: System) {
    Inv(g, x.net) && RelaysOk(g, of, x) && EdgesOk(g, x)
  }

  lemma RetrackLeads(p: Port, d: set<TrackKey>, attached: set<TrackKey>, k: TrackKey, open: bool)
    requires Leads(Queue(p, k), open, k in p.sent)
    ensures Leads(Queue(Retracked(p, d, attached), k), open, k in d)
  {}

  lemma TailLeads(way: seq<Sign>, open: bool, sent: bool)
    requires Leads(way, open, sent) && way != []
    ensures Leads(way[1..], way[0] == Up, sent)
  {}

  /** Nothing about k on the edge a->b has changed. */
  predicate SameEdge(x: System, x': System, a: NodeId, b: NodeId, k: TrackKey) {
    && Way(x', a, b, k) == Way(x, a, b, k) && Sends(x', a, b, k) == Sends(x, a, b, k)
    && Holds(x', b, a, k) == Holds(x, b, a, k) && Drains(x', b, a, k) == Drains(x, b, a, k)
  }

  lemma RecomputeAt(of: Topics, x: System, n: NodeId, allowed: bool, a: NodeId, b: NodeId, k: TrackKey)
    requires n in x.relays && n in x.net
    ensures var x' := WithRelay(x, n, Recomputed(of, x.net[n], x.relays[n], allowed));
      && Holds(x', b, a, k) == Holds(x, b, a, k) && Drains(x', b, a, k) == Drains(x, b, a, k)
      && (a != n ==> SameEdge(x, x', a, b, k))
      && (EdgeOk(x, a, b, k) ==> EdgeOk(x', a, b, k))
      && (a == n && b in x.relays[n].ports ==>
            (Sends(x', n, b, k) <==> allowed && k in Desired(of, x.net[n], x.relays[n], b)))
  {
    hide Desired, Attached;
    if a == n && b in x.relays[n].ports {
      hide Leads, Retracked;
      var d := if allowed then Desired(of, x.net[n], x.relays[n], b) else {};
      if EdgeOk(x, a, b, k) {
        RetrackLeads(x.relays[n].ports[b], d, Attached(x.relays[n], b), k, Open(x, b, n, k));
      }
      RetrackedFields(x.relays[n].ports[b], d, Attached(x.relays[n], b));
    }
  }

  lemma RetrackedFields(p: Port, d: set<TrackKey>, attached: set<TrackKey>)
    ensures Retracked(p, d, attached).sent == d && Retracked(p, d, attached).drained == p.drained
  {}

  /** An arrival concerns one track on one edge. */
  lemma ArrivalAt(x: System, a: NodeId, b: NodeId, k: TrackKey, c: NodeId, d: NodeId, j: TrackKey)
    requires CanArrive(x, a, b, k) && EdgeOk(x, a, b, k)
    requires !(c == a && d == b && j == k)
    ensures SameEdge(x, Arrived(x, a, b, k), c, d, j)
  {}

  lemma ArrivalHere(x: System, a: NodeId, b: NodeId, k: TrackKey)
    requires CanArrive(x, a, b, k) && EdgeOk(x, a, b, k)
    ensures var x', sign := Arrived(x, a, b, k), Way(x, a, b, k)[0];
      && EdgeOk(x', a, b, k) && Way(x', a, b, k) == Way(x, a, b, k)[1..]
      && Sends(x', a, b, k) == Sends(x, a, b, k)
      && (Drains(x', b, a, k) <==> sign == Up && Refused(x.relays[b], a, k))
      && (Holds(x', b, a, k) <==> sign == Up && !Refused(x.relays[b], a, k))
  {
    TailLeads(Way(x, a, b, k), Open(x, b, a, k), Sends(x, a, b, k));
  }

  lemma SameEdgeOk(x: System, x': System, a: NodeId, b: NodeId, k: TrackKey)
    requires SameEdge(x, x', a, b, k) && EdgeOk(x, a, b, k)
    ensures EdgeOk(x', a, b, k)
  {}

  /** A node keeps what it must when its candidates, wants and out tracks stay, or a recompute is due. */
  lemma RelayStaysOk(g: Topology, of: Topics, x: System, x': System, n: NodeId)
    requires n in x.relays && n in x.net && n in x'.relays && n in x'.net && RelayOk(g, of, x, n)
    requires x'.relays[n].ports.Keys == x.relays[n].ports.Keys
    requires forall k | k in x'.relays[n].remote :: g.Adj(x'.relays[n].remote[k], n)
    requires !x'.relays[n].owed ==>
      && !x.relays[n].owed && x'.net[n] == x.net[n] && x'.relays[n].local == x.relays[n].local
      && x'.relays[n].remote == x.relays[n].remote
      && forall m | m in x.relays[n].ports :: x'.relays[n].ports[m].sent == x.relays[n].ports[m].sent
    ensures RelayOk(g, of, x', n)
  {}

  lemma PortsAreEdges(g: Topology, of: Topics, x: System, a: NodeId, b: NodeId, k: TrackKey)
    requires RelaysOk(g, of, x) && EdgesOk(g, x) && CanArrive(x, a, b, k)
    ensures g.Adj(a, b) && EdgeOk(x, a, b, k)
  {
    assert RelayOk(g, of, x, a);
  }

  lemma ArriveRelay(g: Topology, of: Topics, x: System, a: NodeId, b: NodeId, k: TrackKey, n: NodeId)
    requires CanArrive(x, a, b, k) && g.Adj(a, b) && n in x.relays && n in x.net && RelayOk(g, of, x, n)
    ensures n in Arrived(x, a, b, k).relays && RelayOk(g, of, Arrived(x, a, b, k), n)
  {
    hide Desired;
    RelayStaysOk(g, of, x, Arrived(x, a, b, k), n);
  }

  lemma ArriveEdge(x: System, a: NodeId, b: NodeId, k: TrackKey, c: NodeId, d: NodeId, j: TrackKey)
    requires CanArrive(x, a, b, k) && EdgeOk(x, a, b, k) && EdgeOk(x, c, d, j)
    ensures EdgeOk(Arrived(x, a, b, k), c, d, j)
  {
    hide EdgeOk, Arrived, SameEdge;
    if c == a && d == b && j == k {
      ArrivalHere(x, a, b, k);
    } else {
      ArrivalAt(x, a, b, k, c, d, j);
      SameEdgeOk(x, Arrived(x, a, b, k), c, d, j);
    }
  }

  lemma ArriveKeys(x: System, a: NodeId, b: NodeId, k: TrackKey)
    requires CanArrive(x, a, b, k)
    ensures var x' := Arrived(x, a, b, k); x'.relays.Keys == x.relays.Keys && x'.net == x.net
  {}

  lemma ArriveKeepsInv(g: Topology, of: Topics, x: System, a: NodeId, b: NodeId, k: TrackKey)
    requires MediaInv(g, of, x) && CanArrive(x, a, b, k)
    ensures MediaInv(g, of, Arrived(x, a, b, k))
  {
    hide Inv, EdgeOk, RelayOk, CanArrive, Arrived;
    var x' := Arrived(x, a, b, k);
    PortsAreEdges(g, of, x, a, b, k);
    ArriveKeys(x, a, b, k);
    forall n | n in x'.relays ensures RelayOk(g, of, x', n) {
      ArriveRelay(g, of, x, a, b, k, n);
    }
    forall c, d, j | g.Adj(c, d) ensures EdgeOk(x', c, d, j) {
      ArriveEdge(x, a, b, k, c, d, j);
    }
  }

  lemma RecomputeKeepsInv(g: Topology, of: Topics, x: System, n: NodeId, allowed: bool)
    requires MediaInv(g, of, x) && n in x.relays && n in x.net
    ensures MediaInv(g, of, WithRelay(x, n, Recomputed(of, x.net[n], x.relays[n], allowed)))
  {
    hide Inv, EdgeOk;
    var x' := WithRelay(x, n, Recomputed(of, x.net[n], x.relays[n], allowed));
    forall m | m in x'.relays ensures RelayOk(g, of, x', m) {
      assert RelayOk(g, of, x, m);
      if m != n {
        RelayStaysOk(g, of, x, x', m);
      } else {
        RecomputedRelay(g, of, x, n, allowed);
      }
    }
    hide RelayOk, Recomputed;
    forall a, b, k | g.Adj(a, b) ensures EdgeOk(x', a, b, k) {
      RecomputeAt(of, x, n, allowed, a, b, k);
    }
  }

  lemma RecomputedRelay(g: Topology, of: Topics, x: System, n: NodeId, allowed: bool)
    requires n in x.relays && n in x.net && RelayOk(g, of, x, n)
    ensures RelayOk(g, of, WithRelay(x, n, Recomputed(of, x.net[n], x.relays[n], allowed)), n)
  {
    var r' := Recomputed(of, x.net[n], x.relays[n], allowed);
    forall m | m in r'.ports ensures Desired(of, x.net[n], r', m) == Desired(of, x.net[n], x.relays[n], m) {}
    hide Desired;
  }

  /** Publishing, its end, and want frames move no track on any edge. */
  lemma QuietKeepsInv(g: Topology, of: Topics, x: System, x': System)
    requires MediaInv(g, of, x) && Inv(g, x'.net) && x'.net.Keys == g.nodes && x'.relays.Keys == x.relays.Keys
    requires forall n | n in x.relays ::
      && x'.relays[n].remote == x.relays[n].remote && x'.relays[n].ports == x.relays[n].ports
      && (!x'.relays[n].owed ==> x'.net[n] == x.net[n] && x'.relays[n] == x.relays[n])
    ensures MediaInv(g, of, x')
  {
    hide Inv;
    forall n | n in x'.relays ensures RelayOk(g, of, x', n) {
      assert RelayOk(g, of, x, n);
      RelayStaysOk(g, of, x, x', n);
    }
    hide RelayOk;
    forall a, b, k | g.Adj(a, b) ensures EdgeOk(x', a, b, k) {
      assert SameEdge(x, x', a, b, k);
      assert EdgeOk(x, a, b, k);
    }
  }

  lemma InvNodes(g: Topology, s: Net)
    requires Inv(g, s)
    ensures s.Keys == g.nodes && g.WellFormed()
  {}

  /** Every event keeps the signs of every track coherent and every recompute's result in force. */
  lemma MediaStepKeepsInv(g: Topology, of: Topics, x: System, ev: Event, x': System)
    requires MediaInv(g, of, x) && Step(of, x, ev, x')
    ensures MediaInv(g, of, x')
  {
    hide Inv, RelayOk, EdgesOk, Next, Arrived, CanArrive, Recomputed;
    match ev
    case Publish(n, k) => QuietKeepsInv(g, of, x, x');
    case Unpublish(n, k) => QuietKeepsInv(g, of, x, x');
    case Recompute(n, allowed) => RecomputeKeepsInv(g, of, x, n, allowed);
    case Arrive(a, b, k) => ArriveKeepsInv(g, of, x, a, b, k);
    case Wants =>
      NextKeepsInv(g, x.net, x'.net);
      InvNodes(g, x'.net);
      QuietKeepsInv(g, of, x, x');
  }

  lemma MediaInit(g: Topology, of: Topics, x: System)
    requires Init(g, x.net) && InitRelays(g, x)
    ensures MediaInv(g, of, x)
  {
    assert Inv(g, x.net);
    hide Inv;
  }

  lemma {:induction false} MediaRunKeepsInv(g: Topology, of: Topics, xs: seq<System>, evs: seq<Event>, i: nat)
    requires MediaRun(g, of, xs, evs) && i < |xs|
    ensures MediaInv(g, of, xs[i])
  {
    hide MediaInv, Step, Init, InitRelays;
    if i == 0 {
      MediaInit(g, of, xs[0]);
    } else {
      MediaRunKeepsInv(g, of, xs, evs, i - 1);
      MediaStepKeepsInv(g, of, xs[i - 1], evs[i - 1], xs[i - 1 + 1]);
    }
  }

  // ---------------------------------------------------------------------------------------------
  // When no arrival is refused
  // ---------------------------------------------------------------------------------------------

  predicate Refuses(x: System, ev: Event) {
    && ev.Arrive? && CanArrive(x, ev.a, ev.b, ev.k)
    && Way(x, ev.a, ev.b, ev.k)[0] == Up && Refused(x.relays[ev.b], ev.a, ev.k)
  }

  /** k may be published at n: no other node publishes it, and nothing of it is on any edge except
      going away from n; at n itself it may still be on its way out, but not on its way in. */
  ghost predicate Free(g: Topology, x: System, n: NodeId, k: TrackKey) {
    && (forall m | Publishes(x, m, k) :: m == n)
    && (forall a, b | g.Adj(a, b) && b != n && Trace(x, a, b, k) :: g.OnSide(a, b, n))
    && (forall a | g.Adj(a, n) :: Up !in Way(x, a, n, k))
  }

  ghost predicate Rooted(g: Topology, x: System, k: TrackKey) {
    exists n :: Free(g, x, n, k)
  }

  /** Every publication of a run was free when it was made. */
  ghost predicate Courteous(g: Topology, xs: seq<System>, evs: seq<Event>)
    requires |xs| == |evs| + 1
  {
    forall i | 0 <= i < |evs| && evs[i].Publish? :: Free(g, xs[i], evs[i].n, evs[i].k)
  }

  lemma FewerTraces(g: Topology, x: System, x': System, n: NodeId, k: TrackKey)
    requires Free(g, x, n, k)
    requires forall m | Publishes(x', m, k) :: m == n || Publishes(x, m, k)
    requires forall a, b | g.Adj(a, b) && Trace(x', a, b, k) :: Trace(x, a, b, k)
    requires forall a | g.Adj(a, n) && Up in Way(x', a, n, k) :: Up in Way(x, a, n, k)
    ensures Free(g, x', n, k)
  {
    hide Trace, Topology.OnSide;
  }

  lemma ForestIsWellFormed(g: Topology)
    requires g.Forest()
    ensures g.WellFormed()
  {}

  lemma RelayAt(g: Topology, of: Topics, x: System, m: NodeId, k: TrackKey)
    requires RelaysOk(g, of, x) && m in g.nodes
    ensures m in x.relays && m in x.net && (k in x.relays[m].remote ==> g.Adj(x.relays[m].remote[k], m))
  {
    assert RelayOk(g, of, x, m);
  }

  /** Elsewhere than at n, k is only had from the neighbour that leads to n. */
  lemma HeldFromRoot(g: Topology, of: Topics, x: System, n: NodeId, k: TrackKey, m: NodeId)
    requires g.WellFormed() && RelaysOk(g, of, x) && Free(g, x, n, k) && m in g.nodes && m != n
    ensures m in x.relays && m in x.net && k !in x.relays[m].local
    ensures k in x.relays[m].remote ==>
      var c := x.relays[m].remote[k]; g.Adj(c, m) && g.Adj(m, c) && g.OnSide(c, m, n)
  {
    hide Topology.OnSide;
    RelayAt(g, of, x, m, k);
    hide RelaysOk;
    assert k in x.relays[m].local ==> Publishes(x, m, k);
    if k in x.relays[m].remote {
      assert Trace(x, x.relays[m].remote[k], m, k);
    }
  }

  /** A neighbour of n has k only from n, so it has nothing of k to send there. */
  lemma NothingBack(g: Topology, of: Topics, x: System, n: NodeId, k: TrackKey, a: NodeId)
    requires g.Forest() && RelaysOk(g, of, x) && Free(g, x, n, k) && g.Adj(a, n)
    ensures a in x.relays && a in x.net && k !in Desired(of, x.net[a], x.relays[a], n)
  {
    hide Topology.OnSide, Topology.Forest, RelaysOk, Free;
    ForestIsWellFormed(g);
    HeldFromRoot(g, of, x, n, k, a);
    EdgeWalk(g, a, n);
    assert g.OnSide(n, a, n) by {
      WalkGivesSide(g, a, n);
    }
    if k in x.relays[a].remote {
      OneWayThere(g, a, x.relays[a].remote[k], n, n);
    }
  }

  lemma WalkGivesSide(g: Topology, a: NodeId, n: NodeId)
    requires g.WellFormed() && g.Adj(a, n)
    ensures g.OnSide(n, a, n) && g.OnSide(a, n, a)
  {
    EdgeWalk(g, a, n);
    EdgeWalk(g, n, a);
  }

  /** What m has of k goes away from n on every edge m sends it over. */
  lemma GoesOn(g: Topology, of: Topics, x: System, n: NodeId, k: TrackKey, m: NodeId, b: NodeId)
    requires g.Forest() && RelaysOk(g, of, x) && Free(g, x, n, k) && g.Adj(m, b) && b != n
    requires m in x.relays && m in x.net && k in Desired(of, x.net[m], x.relays[m], b)
    ensures g.OnSide(m, b, n)
  {
    hide Topology.OnSide, Topology.Forest, RelaysOk, Free;
    ForestIsWellFormed(g);
    SideUnfolds(g, m, b, n);
    if m != n {
      HeldFromRoot(g, of, x, n, k, m);
    }
  }

  /** The heart of it: a track that is free at n arrives where it is neither published nor had from
      another side, so it is never refused. */
  lemma FreeIsNotRefused(g: Topology, of: Topics, x: System, n: NodeId, k: TrackKey, a: NodeId, b: NodeId)
    requires g.Forest() && RelaysOk(g, of, x) && Free(g, x, n, k) && g.Adj(a, b) && CanArrive(x, a, b, k)
    ensures !Refuses(x, Arrive(a, b, k))
  {
    hide Topology.OnSide, Topology.Forest, RelaysOk;
    ForestIsWellFormed(g);
    if b != n && Way(x, a, b, k)[0] == Up {
      assert Trace(x, a, b, k);
      HeldFromRoot(g, of, x, n, k, b);
      if k in x.relays[b].remote {
        OneWayThere(g, b, x.relays[b].remote[k], a, n);
      }
    }
  }

  lemma ArriveFree(g: Topology, of: Topics, x: System, n: NodeId, k: TrackKey, a: NodeId, b: NodeId, j: TrackKey)
    requires Free(g, x, n, k) && CanArrive(x, a, b, j) && EdgeOk(x, a, b, j)
    ensures Free(g, Arrived(x, a, b, j), n, k)
  {
    hide Free, EdgeOk, Arrived, Refused;
    var x' := Arrived(x, a, b, j);
    forall c, d ensures Trace(x', c, d, k) ==> Trace(x, c, d, k)
      ensures Up in Way(x', c, d, k) ==> Up in Way(x, c, d, k)
    {
      if c == a && d == b && j == k {
        ArrivalHere(x, a, b, j);
      } else {
        ArrivalAt(x, a, b, j, c, d, k);
      }
    }
    ArrivePublishes(x, a, b, j, k);
    FewerTraces(g, x, x', n, k);
  }

  lemma ArrivePublishes(x: System, a: NodeId, b: NodeId, j: TrackKey, k: TrackKey)
    requires CanArrive(x, a, b, j)
    ensures forall m :: Publishes(Arrived(x, a, b, j), m, k) == Publishes(x, m, k)
  {}

  lemma RecomputeFree(g: Topology, of: Topics, x: System, n: NodeId, k: TrackKey, m: NodeId, allowed: bool)
    requires g.Forest() && RelaysOk(g, of, x) && EdgesOk(g, x) && Free(g, x, n, k) && m in x.relays && m in x.net
    ensures Free(g, WithRelay(x, m, Recomputed(of, x.net[m], x.relays[m], allowed)), n, k)
  {
    var x' := WithRelay(x, m, Recomputed(of, x.net[m], x.relays[m], allowed));
    hide Topology.OnSide, Topology.Forest, Desired;
    forall a, b | g.Adj(a, b) && b != n && Trace(x', a, b, k) ensures g.OnSide(a, b, n) {
      hide RelaysOk, EdgeOk;
      RecomputeTrace(g, of, x, m, allowed, a, b, k);
      if !Trace(x, a, b, k) {
        GoesOn(g, of, x, n, k, m, b);
      }
    }
    forall a | g.Adj(a, n) ensures Up !in Way(x', a, n, k) {
      hide RelaysOk, EdgeOk;
      NothingBack(g, of, x, n, k, a);
      RecomputeWay(of, x, m, allowed, a, n, k);
    }
    assert forall p :: Publishes(x', p, k) == Publishes(x, p, k);
  }

  lemma RecomputeTrace(g: Topology, of: Topics, x: System, m: NodeId, allowed: bool, a: NodeId, b: NodeId, k: TrackKey)
    requires m in x.relays && m in x.net
    requires var x' := WithRelay(x, m, Recomputed(of, x.net[m], x.relays[m], allowed)); Trace(x', a, b, k)
    ensures Trace(x, a, b, k) || (a == m && k in Desired(of, x.net[m], x.relays[m], b))
  {
    hide Desired;
  }

  lemma RecomputeWay(of: Topics, x: System, m: NodeId, allowed: bool, a: NodeId, b: NodeId, k: TrackKey)
    requires m in x.relays && m in x.net
    requires a == m ==> k !in Desired(of, x.net[m], x.relays[m], b)
    ensures var x' := WithRelay(x, m, Recomputed(of, x.net[m], x.relays[m], allowed));
      Up in Way(x', a, b, k) ==> Up in Way(x, a, b, k)
  {
    hide Desired;
  }

  /** Any event but the publication of k itself leaves k free where it was. */
  lemma StepKeepsFree(g: Topology, of: Topics, x: System, ev: Event, x': System, n: NodeId, k: TrackKey)
    requires g.Forest() && MediaInv(g, of, x) && Step(of, x, ev, x') && Free(g, x, n, k)
    requires !(ev.Publish? && ev.k == k && ev.n != n)
    ensures Free(g, x', n, k)
  {
    hide Inv, RelaysOk, EdgesOk, Next, Arrived, CanArrive, Recomputed, Free, Topology.Forest;
    match ev
    case Publish(m, j) => SameTraces(g, x, x', n, k);
    case Unpublish(m, j) => SameTraces(g, x, x', n, k);
    case Recompute(m, allowed) => RecomputeFree(g, of, x, n, k, m, allowed);
    case Arrive(a, b, j) =>
      PortsAreEdges(g, of, x, a, b, j);
      ArriveFree(g, of, x, n, k, a, b, j);
    case Wants =>
      RelaysNodes(g, of, x);
      SameTraces(g, x, x', n, k);
  }

  lemma RelaysNodes(g: Topology, of: Topics, x: System)
    requires RelaysOk(g, of, x)
    ensures x.relays.Keys == x.net.Keys == g.nodes
  {}

  lemma SameTraces(g: Topology, x: System, x': System, n: NodeId, k: TrackKey)
    requires Free(g, x, n, k) && x'.relays.Keys == x.relays.Keys
    requires forall m | m in x.relays ::
               x'.relays[m].remote == x.relays[m].remote && x'.relays[m].ports == x.relays[m].ports
    requires forall m | m in x.relays && k in x'.relays[m].local :: m == n || k in x.relays[m].local
    ensures Free(g, x', n, k)
  {
    hide Free;
    assert forall a, b :: Trace(x', a, b, k) == Trace(x, a, b, k) && Way(x', a, b, k) == Way(x, a, b, k);
    FewerTraces(g, x, x', n, k);
  }

  // ---------------------------------------------------------------------------------------------
  // Every courteous run
  // ---------------------------------------------------------------------------------------------

  ghost predicate NoneDrained(x: System) {
    forall b, a, k :: !Drains(x, b, a, k)
  }

  /** Every track has a node it is free at, and none is being drained. */
  ghost predicate Tidy(g: Topology, x: System) {
    (forall k :: Rooted(g, x, k)) && NoneDrained(x)
  }

  lemma StepKeepsRooted(g: Topology, of: Topics, x: System, ev: Event, x': System, k: TrackKey)
    requires g.Forest() && MediaInv(g, of, x) && Step(of, x, ev, x') && Rooted(g, x, k)
    requires ev.Publish? ==> Free(g, x, ev.n, ev.k)
    ensures Rooted(g, x', k)
  {
    hide MediaInv, Step, Free, Topology.Forest;
    var n :| Free(g, x, n, k);
    var m := if ev.Publish? && ev.k == k then ev.n else n;
    StepKeepsFree(g, of, x, ev, x', m, k);
  }

  lemma StepDrains(g: Topology, of: Topics, x: System, ev: Event, x': System, b: NodeId, a: NodeId, k: TrackKey)
    requires MediaInv(g, of, x) && Step(of, x, ev, x') && !Refuses(x, ev) && Drains(x', b, a, k)
    ensures Drains(x, b, a, k)
  {
    hide Inv, RelaysOk, EdgesOk, Next, Recomputed, Way;
    match ev
    case Publish(m, j) =>
    case Unpublish(m, j) =>
    case Recompute(m, allowed) => RecomputeAt(of, x, m, allowed, a, b, k);
    case Arrive(c, d, j) =>
    case Wants => RelaysNodes(g, of, x);
  }

  lemma TidyRefusesNothing(g: Topology, of: Topics, x: System, ev: Event, x': System)
    requires g.Forest() && MediaInv(g, of, x) && Step(of, x, ev, x') && Tidy(g, x)
    ensures !Refuses(x, ev)
  {
    hide Inv, RelaysOk, EdgesOk, Free, Topology.Forest, Arrived, Refuses;
    if ev.Arrive? {
      PortsAreEdges(g, of, x, ev.a, ev.b, ev.k);
      assert Rooted(g, x, ev.k);
      var n :| Free(g, x, n, ev.k);
      FreeIsNotRefused(g, of, x, n, ev.k, ev.a, ev.b);
    } else {
      OnlyArrivalsRefuse(x, ev);
    }
  }

  lemma OnlyArrivalsRefuse(x: System, ev: Event)
    requires !ev.Arrive?
    ensures !Refuses(x, ev)
  {}

  lemma CourteousStep(g: Topology, of: Topics, x: System, ev: Event, x': System)
    requires g.Forest() && MediaInv(g, of, x) && Step(of, x, ev, x') && Tidy(g, x)
    requires ev.Publish? ==> Free(g, x, ev.n, ev.k)
    ensures Tidy(g, x') && !Refuses(x, ev)
  {
    hide MediaInv, Step, Free, Rooted, Topology.Forest, Refuses, Drains;
    forall k ensures Rooted(g, x', k) {
      StepKeepsRooted(g, of, x, ev, x', k);
    }
    TidyRefusesNothing(g, of, x, ev, x');
    forall b, a, k ensures !Drains(x', b, a, k) {
      if Drains(x', b, a, k) {
        StepDrains(g, of, x, ev, x', b, a, k);
      }
    }
  }

  lemma NewIsTidy(g: Topology, x: System)
    requires InitRelays(g, x)
    ensures Tidy(g, x)
  {
    forall k ensures Rooted(g, x, k) {
      assert forall a, b :: !Trace(x, a, b, k);
      assert Free(g, x, "", k);
    }
  }

  lemma {:induction false} CourteousRunIsTidy(g: Topology, of: Topics, xs: seq<System>, evs: seq<Event>, i: nat)
    requires g.Forest() && MediaRun(g, of, xs, evs) && Courteous(g, xs, evs) && i < |xs|
    ensures Tidy(g, xs[i])
  {
    hide MediaInv, Step, Init, InitRelays, Tidy, Free, Topology.Forest, Refuses;
    if i == 0 {
      NewIsTidy(g, xs[0]);
    } else {
      CourteousRunIsTidy(g, of, xs, evs, i - 1);
      MediaRunKeepsInv(g, of, xs, evs, i - 1);
      CourteousStep(g, of, xs[i - 1], evs[i - 1], xs[i - 1 + 1]);
    }
  }

  /** Over a forest, as long as nobody publishes a track while traces of it travel another way, no
      track is ever refused on arrival. */
  lemma NoArrivalIsRefused(g: Topology, of: Topics, xs: seq<System>, evs: seq<Event>, i: nat)
    requires g.Forest() && MediaRun(g, of, xs, evs) && Courteous(g, xs, evs) && i < |evs|
    ensures !Refuses(xs[i], evs[i])
  {
    hide MediaInv, Step, Init, InitRelays, Tidy, Free, Topology.Forest, Refuses;
    CourteousRunIsTidy(g, of, xs, evs, i);
    MediaRunKeepsInv(g, of, xs, evs, i);
    TidyRefusesNothing(g, of, xs[i], evs[i], xs[i + 1]);
  }
}
