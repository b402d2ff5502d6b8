/** Who publishes, sends, has received or is draining what is what the events of the media plane have
    said: each of these holds from the event that starts it to the event that ends it. */
module MediaHistory {
  import opened Forests
  import opened Demands
  import opened WantNetwork
  import opened Delivery
  import opened MediaRuns

  datatype Fact =
    | Published(n: NodeId, k: TrackKey)
    | Sent(a: NodeId, b: NodeId, k: TrackKey)          // by a, to b
    | Received(b: NodeId, a: NodeId, k: TrackKey)      // by b, from a
    | Drained(b: NodeId, a: NodeId, k: TrackKey)

  predicate IsSo(x: System, f: Fact) {
    match f
    case Published(n, k) => n in x.relays && k in x.relays[n].local
    case Sent(a, b, k) => a in x.relays && b in x.relays[a].ports && k in x.relays[a].ports[b].sent
    case Received(b, a, k) => b in x.relays && k in x.relays[b].remote && x.relays[b].remote[k] == a
    case Drained(b, a, k) => b in x.relays && a in x.relays[b].ports && k in x.relays[b].ports[a].drained
  }

  /** b receives the sign of track k from a. */
  predicate Brings(x: System, ev: Event, a: NodeId, b: NodeId, k: TrackKey, sign: Sign) {
    ev == Arrive(a, b, k) && Way(x, a, b, k) != [] && Way(x, a, b, k)[0] == sign
  }

  /** Published at b, or received there from somebody else. */
  predicate Conflicts(x: System, a: NodeId, b: NodeId, k: TrackKey) {
    b in x.relays && (k in x.relays[b].local || (k in x.relays[b].remote && x.relays[b].remote[k] != a))
  }

  /** a has the track, not from b, and b's want accepts its user in its dimension. */
  predicate IsDue(of: Topics, x: System, a: NodeId, b: NodeId, k: TrackKey) {
    && a in x.relays && b in x.relays[a].ports
    && (k in x.relays[a].local || (k in x.relays[a].remote && x.relays[a].remote[k] != b))
    && a in x.net && b in x.net[a].links && x.net[a].links[b].peerWantSeen
    && var want := x.net[a].links[b].peerWant;
       if of(k).video then want.screen.Wants(of(k).uid) else want.audio.Wants(of(k).uid)
  }

  predicate Starts(of: Topics, x: System, ev: Event, f: Fact) {
    match f
    case Published(n, k) => ev == Publish(n, k)
    case Sent(a, b, k) => ev == Recompute(a, true) && IsDue(of, x, a, b, k)
    case Received(b, a, k) => Brings(x, ev, a, b, k, Up) && !Conflicts(x, a, b, k)
    case Drained(b, a, k) => Brings(x, ev, a, b, k, Up) && Conflicts(x, a, b, k)
  }

  /** The event, unless it starts f, makes f false. */
  predicate Ends(x: System, ev: Event, f: Fact) {
    match f
    case Published(n, k) => ev == Unpublish(n, k)
    case Sent(a, _, _) => ev.Recompute? && ev.n == a
    case Received(b, a, k) => Brings(x, ev, a, b, k, End)
    case Drained(b, a, k) => Brings(x, ev, a, b, k, End)
  }

  /** Some event before i started f, and none since has ended it. */
  ghost predicate Said(of: Topics, xs: seq<System>, evs: seq<Event>, i: nat, f: Fact)
    requires i <= |evs| <= |xs|
  {
    exists j :: 0 <= j < i && Starts(of, xs[j], evs[j], f) && forall m | j < m < i :: !Ends(xs[m], evs[m], f)
  }

  lemma SaidStep(of: Topics, xs: seq<System>, evs: seq<Event>, i: nat, f: Fact)
    requires i < |evs| <= |xs|
    ensures Said(of, xs, evs, i + 1, f) <==>
              Starts(of, xs[i], evs[i], f) || (Said(of, xs, evs, i, f) && !Ends(xs[i], evs[i], f))
  {
    hide Starts, Ends;
    if Said(of, xs, evs, i + 1, f) && !Starts(of, xs[i], evs[i], f) {
      var j :| 0 <= j < i + 1 && Starts(of, xs[j], evs[j], f) && forall m | j < m < i + 1 :: !Ends(xs[m], evs[m], f);
      assert j < i && !Ends(xs[i], evs[i], f);
    }
    if Said(of, xs, evs, i, f) && !Ends(xs[i], evs[i], f) {
      var j :| 0 <= j < i && Starts(of, xs[j], evs[j], f) && forall m | j < m < i :: !Ends(xs[m], evs[m], f);
      assert forall m | j < m < i + 1 :: !Ends(xs[m], evs[m], f);
    }
  }

  // ---------------------------------------------------------------------------------------------
  // Event by event
  // ---------------------------------------------------------------------------------------------

  lemma PublishSays(of: Topics, x: System, n: NodeId, k: TrackKey, f: Fact)
    requires n in x.relays
    ensures var x' := WithRelay(x, n, x.relays[n].(local := x.relays[n].local + {k}, owed := true));
      IsSo(x', f) <==> Starts(of, x, Publish(n, k), f) || (IsSo(x, f) && !Ends(x, Publish(n, k), f))
    ensures var x' := WithRelay(x, n, x.relays[n].(local := x.relays[n].local - {k}, owed := true));
      IsSo(x', f) <==> Starts(of, x, Unpublish(n, k), f) || (IsSo(x, f) && !Ends(x, Unpublish(n, k), f))
  {}

  lemma RecomputeSays(of: Topics, x: System, n: NodeId, allowed: bool, f: Fact)
    requires n in x.relays && n in x.net
    ensures var x', ev := WithRelay(x, n, Recomputed(of, x.net[n], x.relays[n], allowed)), Event.Recompute(n, allowed);
      IsSo(x', f) <==> Starts(of, x, ev, f) || (IsSo(x, f) && !Ends(x, ev, f))
  {
    hide Desired, Attached, EdgeOk;
    if f.Sent? {
      RecomputeAt(of, x, n, allowed, f.a, f.b, f.k);
      if f.b in x.relays[n].ports {
        DesiredIsDue(of, x, n, f.b, f.k);
      }
    } else if !f.Published? {
      RecomputeAt(of, x, n, allowed, f.a, f.b, f.k);
    }
    hide Recomputed, IsDue;
    assert WithRelay(x, n, Recomputed(of, x.net[n], x.relays[n], allowed)).relays.Keys == x.relays.Keys;
    RecomputedKeeps(of, x.net[n], x.relays[n], allowed);
  }

  lemma RecomputedKeeps(of: Topics, n: Node, r: Relay, allowed: bool)
    ensures var r' := Recomputed(of, n, r, allowed);
      r'.local == r.local && r'.remote == r.remote && r'.ports.Keys == r.ports.Keys
  {
    hide Desired, Attached;
  }

  lemma DesiredIsDue(of: Topics, x: System, n: NodeId, b: NodeId, k: TrackKey)
    requires n in x.relays && n in x.net && b in x.relays[n].ports
    ensures k in Desired(of, x.net[n], x.relays[n], b) <==> IsDue(of, x, n, b, k)
  {}

  /** An arrival of j on c->d, as far as another edge or track is concerned. */
  lemma OtherArrival(g: Topology, of: Topics, x: System, c: NodeId, d: NodeId, j: TrackKey, f: Fact)
    requires MediaInv(g, of, x) && CanArrive(x, c, d, j)
    requires f.Published? || !(f.k == j && f.a == c && f.b == d)
    ensures IsSo(Arrived(x, c, d, j), f) <==> IsSo(x, f)
  {
    PortsAreEdges(g, of, x, c, d, j);
    hide MediaInv, EdgeOk, CanArrive, Arrived, Way;
    if f.Published? {
      ArrivedLocal(x, c, d, j, f.n);
    } else {
      ArrivalAt(x, c, d, j, f.a, f.b, f.k);
    }
  }

  lemma ArrivedLocal(x: System, c: NodeId, d: NodeId, j: TrackKey, n: NodeId)
    requires CanArrive(x, c, d, j)
    ensures var x' := Arrived(x, c, d, j);
      (n in x'.relays <==> n in x.relays) && (n in x.relays ==> x'.relays[n].local == x.relays[n].local)
  {}

  lemma ArriveSays(g: Topology, of: Topics, x: System, c: NodeId, d: NodeId, j: TrackKey, f: Fact)
    requires MediaInv(g, of, x) && CanArrive(x, c, d, j)
    ensures var ev := Arrive(c, d, j);
      IsSo(Arrived(x, c, d, j), f) <==> Starts(of, x, ev, f) || (IsSo(x, f) && !Ends(x, ev, f))
  {
    PortsAreEdges(g, of, x, c, d, j);
    hide MediaInv, EdgeOk, Arrived, CanArrive, Way;
    if !f.Published? && f.k == j && f.a == c && f.b == d {
      hide Conflicts, Starts, Ends, IsSo;
      ArriveHereSays(of, x, c, d, j, f);
    } else {
      OtherArrival(g, of, x, c, d, j, f);
      hide IsSo, Conflicts;
    }
  }

  lemma ArriveHereSays(of: Topics, x: System, c: NodeId, d: NodeId, j: TrackKey, f: Fact)
    requires CanArrive(x, c, d, j) && EdgeOk(x, c, d, j)
    requires !f.Published? && f.k == j && f.a == c && f.b == d
    ensures var ev := Arrive(c, d, j);
      IsSo(Arrived(x, c, d, j), f) <==> Starts(of, x, ev, f) || (IsSo(x, f) && !Ends(x, ev, f))
  {
    ArrivalHere(x, c, d, j);
    UpWasShut(x, c, d, j);
    hide EdgeOk, Arrived, Way;
    assert d in x.relays && Way(x, c, d, j) != [];
    ConflictIsRefusal(x, c, d, j);
    hide Refused, Conflicts, CanArrive;
  }

  /** A track that comes up was not open, and one that ends was. */
  lemma UpWasShut(x: System, a: NodeId, b: NodeId, k: TrackKey)
    requires CanArrive(x, a, b, k) && EdgeOk(x, a, b, k)
    ensures Way(x, a, b, k)[0] == Up <==> !Holds(x, b, a, k) && !Drains(x, b, a, k)
  {}

  lemma ConflictIsRefusal(x: System, a: NodeId, b: NodeId, k: TrackKey)
    requires b in x.relays
    ensures Conflicts(x, a, b, k) <==> Refused(x.relays[b], a, k)
  {}

  lemma WantsSay(g: Topology, of: Topics, x: System, x': System, f: Fact)
    requires MediaInv(g, of, x) && WantsMoved(x, x')
    ensures IsSo(x', f) <==> IsSo(x, f)
  {
    RelaysNodes(g, of, x);
    hide MediaInv, Next;
  }

  lemma StepSays(g: Topology, of: Topics, x: System, ev: Event, x': System, f: Fact)
    requires MediaInv(g, of, x) && Step(of, x, ev, x')
    ensures IsSo(x', f) <==> Starts(of, x, ev, f) || (IsSo(x, f) && !Ends(x, ev, f))
  {
    hide MediaInv, IsSo, Starts, Ends, WantsMoved, CanArrive, Arrived, Recomputed;
    match ev
    case Publish(n, k) => PublishSays(of, x, n, k, f);
    case Unpublish(n, k) => PublishSays(of, x, n, k, f);
    case Recompute(n, allowed) => RecomputeSays(of, x, n, allowed, f);
    case Arrive(a, b, k) => ArriveSays(g, of, x, a, b, k, f);
    case Wants =>
      WantsSay(g, of, x, x', f);
      WantsStartNothing(of, x, f);
  }

  lemma WantsStartNothing(of: Topics, x: System, f: Fact)
    ensures !Starts(of, x, Event.Wants, f) && !Ends(x, Event.Wants, f)
  {}

  /** In every run each fact holds exactly if an event has started it that no later event has ended: a node
      publishes what it published last and has not withdrawn; it sends what was due, and asked for, when
      it last recomputed; it has received, or drains, what came up last and has not ended. */
  lemma {:induction false} HistoryIsExact(g: Topology, of: Topics, xs: seq<System>, evs: seq<Event>, i: nat, f: Fact)
    requires MediaRun(g, of, xs, evs) && i < |xs|
    ensures IsSo(xs[i], f) <==> Said(of, xs, evs, i, f)
  {
    hide MediaInv, Step, Init, IsSo, Starts, Ends, Said;
    if i == 0 {
      NothingSaid(g, of, xs, evs, f);
    } else {
      HistoryIsExact(g, of, xs, evs, i - 1, f);
      MediaRunKeepsInv(g, of, xs, evs, i - 1);
      StepSays(g, of, xs[i - 1], evs[i - 1], xs[i - 1 + 1], f);
      SaidStep(of, xs, evs, i - 1, f);
    }
  }

  lemma NothingSaid(g: Topology, of: Topics, xs: seq<System>, evs: seq<Event>, f: Fact)
    requires |evs| <= |xs| && 0 < |xs| && InitRelays(g, xs[0])
    ensures !IsSo(xs[0], f) && !Said(of, xs, evs, 0, f)
  {}

  /** A node publishes a track exactly if it has published it and not withdrawn it since. */
  lemma PublishesWhatItSaid(g: Topology, of: Topics, xs: seq<System>, evs: seq<Event>, i: nat, n: NodeId, k: TrackKey)
    requires MediaRun(g, of, xs, evs) && i < |xs|
    ensures Publishes(xs[i], n, k) <==>
              exists j :: 0 <= j < i && evs[j] == Publish(n, k) && forall m | j < m < i :: evs[m] != Unpublish(n, k)
  {
    HistoryIsExact(g, of, xs, evs, i, Published(n, k));
    hide MediaRun;
  }
}
