/** The condition for registering a session is exact: a registration can lead to an echo if and only if
    a remote track is left of an earlier session of that edge. */
module EchoGuard {
  import opened Options
  import opened Sums
  import opened Wants
  import opened Demands
  import opened CascadeRooms
  import opened CascadeRuns
  import opened CascadeEcho
  import Net = WantNetwork
  import Conv = WantConvergence

  // ---------------------------------------------------------------------------------------------
  // A recomputation always exists
  // ---------------------------------------------------------------------------------------------

  ghost function NextLink(r: Room, demand: Demand, key: EdgeKey, l: Net.Link): Net.Link
    requires Registered(r)
  {
    Conv.Announcing(Conv.Aggregate(AsNode(r, demand), key), l)
  }

  ghost function NextTable(r: Room, allowed: bool, demand: Demand): map<SessionId, Session>
    requires Registered(r)
  {
    map x | x in r.table ::
      if IsRegistered(r, x)
      then r.table[x].(active := allowed, out := NewOut(r, x, r.table[x], allowed),
             link := NextLink(r, demand, r.table[x].edge.Key(), r.table[x].link))
      else r.table[x]
  }

  lemma NextLinkAnnounces(r: Room, demand: Demand, key: EdgeKey)
    requires Registered(r) && key in r.sessions && r.table[r.sessions[key]].established
    ensures key in AsNode(r, demand).links
    ensures Net.AnnouncesAggregate(AsNode(r, demand), key, NextLink(r, demand, key, r.table[r.sessions[key]].link))
  {
    hide Edge.Key;
    Conv.AggregateIsAggregate(AsNode(r, demand), key);
    hide Net.Node.IsAggregate, Conv.Aggregate;
  }

  lemma NextTableRecomputes(r: Room, allowed: bool, demand: Demand)
    requires Pre(r) && Registered(r)
    ensures SessionsRecomputed(r, NextTable(r, allowed, demand), allowed, demand)
  {
    var table := NextTable(r, allowed, demand);
    forall key | key in r.sessions ensures SessionRecomputed(r, key, allowed, demand, table[r.sessions[key]]) {
      RegisteredIsUp(r, key);
      NextLinkAnnounces(r, demand, key);
      assert IsRegistered(r, r.sessions[key]);
      hide Edge.Key, Pre, NewOut, Net.AnnouncesAggregate, NextLink, AsNode;
    }
    hide Pre, Edge.Key, SessionRecomputed;
  }

  lemma RecomputeExists(r: Room, now: int, demand: Demand) returns (r': Room)
    requires Pre(r) && Registered(r)
    ensures Recomputed(r, r', now, demand)
  {
    hide Pre, Edge.Key;
    var allowed := ForwardingAllowed(r, now);
    var table := NextTable(r, allowed, demand);
    NextTableRecomputes(r, allowed, demand);
    hide NextTable, SessionsRecomputed, ActiveCounts, PrunedCounts, WithSinks;
    var r1 := r.(table := table);
    r' := r.(table := table, remote := WithSinks(r1), lastAllowed := allowed,
             activeTracks := Sum(ActiveCounts(r1)), prunedTracks := Sum(PrunedCounts(r, allowed)));
    SameCounts(r1, r');
  }

  // ---------------------------------------------------------------------------------------------
  // What can follow
  // ---------------------------------------------------------------------------------------------

  ghost predicate Path(states: seq<Room>, acts: seq<Act>) {
    |states| == |acts| + 1 && forall i | 0 <= i < |acts| ::
        Step(states[i], acts[i].ev, acts[i].now, acts[i].demand, states[i + 1])
  }

  /** From r, with nothing registered any more, events can happen that end in an echo over key. */
  ghost predicate MayEcho(r: Room, key: EdgeKey) {
    exists states, acts, k :: Echoing(states, acts, r, key, k)
  }

  ghost predicate Echoing(states: seq<Room>, acts: seq<Act>, r: Room, key: EdgeKey, k: TrackKey) {
    && Path(states, acts) && states[0] == r && (forall i | 0 <= i < |acts| :: !acts[i].ev.Establish?)
    && Echo(states[|acts|], key, k)
  }

  lemma EchoNow(r: Room, key: EdgeKey, k: TrackKey)
    requires Echo(r, key, k)
    ensures MayEcho(r, key)
  {
    hide Echo;
    assert Echoing([r], [], r, key, k);
  }

  lemma EchoLater(r: Room, act: Act, r': Room, key: EdgeKey)
    requires Step(r, act.ev, act.now, act.demand, r') && !act.ev.Establish?
    ensures MayEcho(r', key) ==> MayEcho(r, key)
  {
    hide Step, Echo;
    if MayEcho(r', key) {
      var states: seq<Room>, acts: seq<Act>, k: TrackKey :| Echoing(states, acts, r', key, k);
      var states', acts' := [r] + states, [act] + acts;
      forall i | 0 <= i < |acts'| ensures Step(states'[i], acts'[i].ev, acts'[i].now, acts'[i].demand, states'[i + 1]) {
        if i > 0 {
          assert Step(states[i - 1], acts[i - 1].ev, acts[i - 1].now, acts[i - 1].demand, states[i - 1 + 1]);
        }
      }
      assert states'[|acts'|] == states[|acts|];
      assert Echoing(states', acts', r, key, k);
    }
  }

  // ---------------------------------------------------------------------------------------------
  // An unhurried registration is safe
  // ---------------------------------------------------------------------------------------------

  lemma {:induction false} CalmPath(states: seq<Room>, acts: seq<Act>, i: nat, key: EdgeKey)
    requires Path(states, acts) && i < |states| && Inv(states[0]) && Registered(states[0]) && Calm(states[0], key)
    requires forall j | 0 <= j < |acts| :: !acts[j].ev.Establish?
    ensures Inv(states[i]) && Registered(states[i]) && Calm(states[i], key)
  {
    hide Inv, Step, Registered, Calm;
    if i > 0 {
      CalmPath(states, acts, i - 1, key);
      StepKeepsInv(states[i - 1], acts[i - 1].ev, acts[i - 1].now, acts[i - 1].demand, states[i - 1 + 1]);
      StepKeepsCalm(states[i - 1], acts[i - 1].ev, acts[i - 1].now, acts[i - 1].demand, states[i - 1 + 1], key);
    }
  }

  lemma CalmIsSafe(r: Room, key: EdgeKey)
    requires Inv(r) && Registered(r) && Calm(r, key)
    ensures !MayEcho(r, key)
  {
    hide Inv, Step, Registered, Calm, Echo;
    if MayEcho(r, key) {
      var states: seq<Room>, acts: seq<Act>, k: TrackKey :| Echoing(states, acts, r, key, k);
      CalmPath(states, acts, |acts|, key);
      EchoIsNotCalm(states[|acts|], key, k);
    }
  }

  // ---------------------------------------------------------------------------------------------
  // A hurried one is not
  // ---------------------------------------------------------------------------------------------

  /** sid is registered for key and does not wait for o, an earlier session of the edge that track k
      came from. */
  ghost predicate Ghost(r: Room, key: EdgeKey, sid: SessionId, k: TrackKey, o: SessionId) {
    && key in r.sessions && r.sessions[key] == sid && sid in r.table && o != sid
    && k in r.remote && r.remote[k].origin == o && o in r.table && r.table[o].edge.Key() == key
    && r.table[sid].started && r.table[sid].prev != Some(o)
  }

  ghost predicate Haunted(r: Room, key: EdgeKey, sid: SessionId, k: TrackKey, o: SessionId) {
    Inv(r) && Registered(r) && Ghost(r, key, sid, k, o)
  }

  lemma HauntedFacts(r: Room, key: EdgeKey, sid: SessionId, k: TrackKey, o: SessionId)
    requires Haunted(r, key, sid, k, o)
    ensures Ghost(r, key, sid, k, o) && MatchesEdge(r, key) && IsRegistered(r, sid) && !r.table[sid].closed
    ensures r.table[sid].prev.Some? ==>
      var p := r.table[sid].prev.value; p in r.table && p != sid && p != o && r.table[p].edge.Key() == key
    ensures forall e | e in r.edges :: r.edges[e].Key() == e
  {
    hide Edge.Key, Derived, OriginsInv;
    assert SessionOk(r, sid) && ReaderOk(r, sid);
  }

  /** The event's input leaves the haunting as it is. */
  ghost predicate Spares(r: Room, i: Room, key: EdgeKey, sid: SessionId, k: TrackKey, o: SessionId) {
    && key in i.sessions && i.sessions[key] == sid && k in i.remote && i.remote[k].origin == o
    && o in i.table && i.table[o].edge.Key() == key && sid in i.table && sid in r.table
    && i.table[sid].started && i.table[sid].prev == r.table[sid].prev
  }

  /** Any such event can happen, and leads on. */
  lemma Follow(r: Room, ev: Event, now: int, key: EdgeKey, sid: SessionId, k: TrackKey, o: SessionId) returns (r': Room)
    requires Haunted(r, key, sid, k, o) && Enabled(r, ev) && !ev.Establish? && Spares(r, Input(r, ev), key, sid, k, o)
    ensures Haunted(r', key, sid, k, o) && (MayEcho(r', key) ==> MayEcho(r, key))
    ensures Step(r, ev, now, NO_DEMAND, r')
    ensures var i := Input(r, ev);
      && r'.lease == i.lease && r'.epoch == i.epoch && r'.edges == i.edges && r'.local == i.local
      && r'.sessions == i.sessions
      && sid in r'.table && r'.table[sid].reading == i.table[sid].reading
  {
    hide Pre, Derived, Registered, Recomputed, Input, MayEcho, Edge.Key, Quiet, Enabled;
    InputKeepsPre(r, ev);
    InputRegistered(r, ev);
    var i := Input(r, ev);
    if Quiet(r, ev) {
      r' := i;
    } else {
      r' := RecomputeExists(i, now, NO_DEMAND);
      RecomputedRest(i, r', now, NO_DEMAND);
      RecomputedRecord(i, r', now, NO_DEMAND, sid);
      RecomputedRecord(i, r', now, NO_DEMAND, o);
    }
    StepKeepsInv(r, ev, now, NO_DEMAND, r');
    InvRegistered(r');
    EchoLater(r, Act(ev, now, NO_DEMAND), r', key);
  }

  lemma InputRegistered(r: Room, ev: Event)
    requires Inv(r) && Enabled(r, ev)
    ensures Registered(r) && Registered(Input(r, ev))
  {
    InputKeepsPre(r, ev);
    hide Input, Enabled;
  }

  lemma InvRegistered(r: Room)
    requires Inv(r)
    ensures Registered(r)
  {}

  /** The same edges under another epoch, as a command would carry them. */
  lemma {:induction false} AsCommand(edges: map<EdgeKey, Edge>, epoch: nat) returns (es: seq<Edge>)
    requires forall key | key in edges :: edges[key].Key() == key
    ensures Keyed(epoch, es) == map key | key in edges :: edges[key].(epoch := epoch)
    decreases |edges|
  {
    hide Edge.Key;
    if edges == map[] {
      es := [];
    } else {
      var key :| key in edges;
      var rest := edges - {key};
      assert rest.Keys == edges.Keys - {key};
      var es' := AsCommand(rest, epoch);
      var e := edges[key];
      es := es' + [e];
      RestampedKey(e, epoch);
      assert es[..|es| - 1] == es';
      assert Keyed(epoch, es) == Keyed(epoch, es')[key := e.(epoch := epoch)];
    }
  }

  lemma RestampedKey(e: Edge, epoch: nat)
    ensures e.(epoch := epoch).Key() == e.Key()
  {}

  /** Re-applying the edges in force under a later epoch keeps every registered session. */
  lemma RestampSpares(r: Room, epoch: nat, es: seq<Edge>, key: EdgeKey, sid: SessionId, k: TrackKey, o: SessionId)
    requires Registered(r) && Ghost(r, key, sid, k, o) && MatchesEdge(r, key) && IsRegistered(r, sid)
    requires epoch >= r.epoch
    requires Keyed(epoch, es) == map e | e in r.edges :: r.edges[e].(epoch := epoch)
    ensures Spares(r, Input(r, SetEdges(epoch, es)), key, sid, k, o)
    ensures Input(r, SetEdges(epoch, es)).epoch == epoch && Input(r, SetEdges(epoch, es)).lease == r.lease
    ensures Input(r, SetEdges(epoch, es)).local == r.local
    ensures Input(r, SetEdges(epoch, es)).table[sid].reading == r.table[sid].reading
  {
    hide Keyed, Edge.Key;
    var next := Keyed(epoch, es);
    assert SameEdge(next[key], r.table[sid].edge);
    forall e | e in next ensures next[e].Key() == e {
      KeyedIsKeyed(epoch, es, e);
    }
    WithEdgesRecord(r, epoch, next, sid);
    WithEdgesRecord(r, epoch, next, o);
    StillRegistered(r, epoch, next, key);
    hide WithEdges, Registered;
  }

  lemma StillRegistered(r: Room, epoch: nat, next: map<EdgeKey, Edge>, key: EdgeKey)
    requires Registered(r) && key in r.sessions && key in next && SameEdge(next[key], r.table[r.sessions[key]].edge)
    ensures var r' := WithEdges(r, epoch, next); key in r'.sessions && r'.sessions[key] == r.sessions[key]
    ensures var r' := WithEdges(r, epoch, next);
              r'.remote == r.remote && r'.lease == r.lease && r'.local == r.local && r'.epoch == epoch
  {
    hide Edge.Key;
  }

  lemma UnpublishSpares(r: Room, key: EdgeKey, sid: SessionId, k: TrackKey, o: SessionId)
    requires Registered(r) && Ghost(r, key, sid, k, o)
    ensures Spares(r, Input(r, Unpublish(k)), key, sid, k, o)
  {
    hide Edge.Key, Registered;
  }

  lemma LeaseSpares(r: Room, l: Lease, key: EdgeKey, sid: SessionId, k: TrackKey, o: SessionId)
    requires Registered(r) && Ghost(r, key, sid, k, o) && (r.lease.Some? ==> r.lease.value.epoch <= l.epoch)
    ensures Spares(r, Input(r, SetLease(l)), key, sid, k, o)
  {
    hide Edge.Key, Registered;
  }

  /** Closing the session that sid waits for does not touch o. */
  lemma FinishSpares(r: Room, key: EdgeKey, sid: SessionId, k: TrackKey, o: SessionId)
    requires Registered(r) && Ghost(r, key, sid, k, o) && !r.table[sid].reading
    requires r.table[sid].prev.Some? ==>
      var p := r.table[sid].prev.value; p in r.table && p != sid && p != o && r.table[p].edge.Key() == key
    ensures Enabled(r, FinishEstablish(sid)) && Spares(r, Input(r, FinishEstablish(sid)), key, sid, k, o)
    ensures var i := Input(r, FinishEstablish(sid));
      i.table[sid].reading && i.lease == r.lease && i.epoch == r.epoch && i.local == r.local
  {
    hide Edge.Key, Registered, Closed;
    if HasPrev(r, sid) {
      ClosedSpares(r, r.table[sid].prev.value, key, sid, k, o);
    }
  }

  lemma ClosedSpares(r: Room, p: SessionId, key: EdgeKey, sid: SessionId, k: TrackKey, o: SessionId)
    requires p in r.table && p != sid && p != o && r.table[p].edge.Key() == key
    requires key in r.sessions && r.sessions[key] == sid && sid in r.table && o in r.table && k in r.remote
    requires r.remote[k].origin == o
    ensures var c := Closed(r, p);
      && c.sessions == r.sessions && c.lease == r.lease && c.epoch == r.epoch && c.local == r.local
      && sid in c.table && c.table[sid] == r.table[sid] && o in c.table && c.table[o] == r.table[o]
      && k in c.remote && c.remote[k].origin == o
  {
    hide Edge.Key;
  }

  const EVERYTHING := Demand(WantAllExcept({}), WantAllExcept({}))

  lemma WantSpares(r: Room, key: EdgeKey, sid: SessionId, k: TrackKey, o: SessionId)
    requires Registered(r) && Ghost(r, key, sid, k, o) && r.table[sid].reading && !r.table[sid].closed && k !in r.local
    ensures Enabled(r, PeerWant(sid, EVERYTHING)) && Spares(r, Input(r, PeerWant(sid, EVERYTHING)), key, sid, k, o)
    ensures var i := Input(r, PeerWant(sid, EVERYTHING));
      && i.remote == r.remote && i.local == r.local && i.sessions == r.sessions
      && (ForwardingAllowed(r, 0) ==> ForwardingAllowed(i, 0))
      && i.table[sid].link.peerWantSeen && i.table[sid].link.peerWant == EVERYTHING
      && Asked(EVERYTHING, i.remote[k].pub) && SameEdgeOrigin(i, key, k)
    ensures !Quiet(r, PeerWant(sid, EVERYTHING))
  {
    hide Edge.Key, Registered;
  }

  /** With the lease valid and the key not published here, a want for everything is answered by an echo. */
  lemma WantEchoes(r: Room, key: EdgeKey, sid: SessionId, k: TrackKey, o: SessionId)
    requires Haunted(r, key, sid, k, o) && r.table[sid].reading && k !in r.local && ForwardingAllowed(r, 0)
    ensures MayEcho(r, key)
  {
    hide Pre, Derived, Edge.Key, Input, MayEcho, Spares, Recomputed, Registered, Asked, ForwardingAllowed, Quiet,
         Enabled, Echo;
    var ev := PeerWant(sid, EVERYTHING);
    HauntedFacts(r, key, sid, k, o);
    WantSpares(r, key, sid, k, o);
    InputKeepsPre(r, ev);
    InputRegistered(r, ev);
    var r' := Follow(r, ev, 0, key, sid, k, o);
    EchoIff(Input(r, ev), r', 0, NO_DEMAND, key, k);
    EchoNow(r', key, k);
  }

  /** Lease and edges can be brought to one epoch, so that forwarding is authorised. */
  lemma Authorise(r: Room, key: EdgeKey, sid: SessionId, k: TrackKey, o: SessionId) returns (r': Room)
    requires Haunted(r, key, sid, k, o) && k !in r.local
    ensures Haunted(r', key, sid, k, o) && (MayEcho(r', key) ==> MayEcho(r, key))
    ensures ForwardingAllowed(r', 0) && k !in r'.local && r'.table[sid].reading == r.table[sid].reading
  {
    hide Inv, Registered, Input, MayEcho, Edge.Key, Spares, Step;
    var epoch := if r.lease.Some? && r.lease.value.epoch > r.epoch then r.lease.value.epoch else r.epoch;
    var lease := Lease("", epoch, 1);
    LeaseSpares(r, lease, key, sid, k, o);
    LeaseInput(r, lease);
    var r1 := Follow(r, SetLease(lease), 0, key, sid, k, o);
    HauntedFacts(r1, key, sid, k, o);
    var es := AsCommand(r1.edges, epoch);
    RestampSpares(r1, epoch, es, key, sid, k, o);
    r' := Follow(r1, SetEdges(epoch, es), 0, key, sid, k, o);
  }

  lemma LeaseInput(r: Room, l: Lease)
    requires Registered(r) && (r.lease.Some? ==> r.lease.value.epoch <= l.epoch)
    ensures Enabled(r, SetLease(l)) && Input(r, SetLease(l)) == r.(lease := Some(l))
  {
    hide Registered;
  }

  /** A haunted room can be made to echo. */
  lemma HauntedMayEcho(r: Room, key: EdgeKey, sid: SessionId, k: TrackKey, o: SessionId)
    requires Haunted(r, key, sid, k, o)
    ensures MayEcho(r, key)
  {
    hide Inv, Registered, Input, MayEcho, Edge.Key, Spares, Step, ForwardingAllowed;
    UnpublishSpares(r, key, sid, k, o);
    UnpublishInput(r, k);
    var r1 := Follow(r, Unpublish(k), 0, key, sid, k, o);
    var r2 := Authorise(r1, key, sid, k, o);
    if r2.table[sid].reading {
      WantEchoes(r2, key, sid, k, o);
    } else {
      HauntedFacts(r2, key, sid, k, o);
      FinishSpares(r2, key, sid, k, o);
      var r3 := Follow(r2, FinishEstablish(sid), 0, key, sid, k, o);
      SameAuthority(r2, r3);
      WantEchoes(r3, key, sid, k, o);
    }
  }

  lemma UnpublishInput(r: Room, k: TrackKey)
    requires Registered(r)
    ensures Enabled(r, Unpublish(k)) && k !in Input(r, Unpublish(k)).local
  {
    hide Registered;
  }

  lemma SameAuthority(r: Room, r': Room)
    requires r'.lease == r.lease && r'.epoch == r.epoch
    ensures ForwardingAllowed(r', 0) == ForwardingAllowed(r, 0)
  {}

  lemma EstablishStep(r: Room, sid: SessionId, now: int, demand: Demand, r': Room)
    requires Inv(r) && Step(r, Establish(sid), now, demand, r') && StillDesired(r, r.table[sid])
    ensures sid in r.table && !r.table[sid].started
    ensures Registered(r) && Registered(Superseding(r, sid)) && Recomputed(Superseding(r, sid), r', now, demand)
  {
    hide Pre, Derived, Edge.Key, Registered, StillDesired, Superseding, Recomputed, Closed;
  }

  lemma SupersedingGhost(r: Room, sid: SessionId, k: TrackKey)
    requires SessionsInv(r) && Registered(r) && sid in r.table && !r.table[sid].started
    requires k in r.remote && Lingering(r, r.remote[k].origin)
    requires r.table[r.remote[k].origin].edge.Key() == r.table[sid].edge.Key()
    ensures Ghost(Superseding(r, sid), r.table[sid].edge.Key(), sid, k, r.remote[k].origin)
  {
    hide SessionsInv, Edge.Key, Superseding;
    var o, key := r.remote[k].origin, r.table[sid].edge.Key();
    Newcomer(r, sid);
    SupersedingRegister(r, sid);
    SupersedingTracks(r, sid);
    SupersedingFields(r, sid, sid);
    SupersedingFields(r, sid, o);
    EnteredIsStarted(r, sid);
    OffTheRegister(r, key, o);
    hide Registered;
  }

  lemma RecomputedGhost(r: Room, r': Room, now: int, demand: Demand, key: EdgeKey, sid: SessionId, k: TrackKey,
                        o: SessionId)
    requires Registered(r) && Recomputed(r, r', now, demand) && Ghost(r, key, sid, k, o)
    ensures Ghost(r', key, sid, k, o)
  {
    hide Recomputed, Registered, Edge.Key;
    RecomputedRest(r, r', now, demand);
    RecomputedRecord(r, r', now, demand, sid);
    RecomputedRecord(r, r', now, demand, o);
  }

  /** Registering over a haunting. */
  lemma HurryHaunts(r: Room, sid: SessionId, now: int, demand: Demand, r': Room, k: TrackKey)
    requires Inv(r) && Step(r, Establish(sid), now, demand, r') && StillDesired(r, r.table[sid])
    requires k in r.remote && Lingering(r, r.remote[k].origin)
    requires r.table[r.remote[k].origin].edge.Key() == r.table[sid].edge.Key()
    ensures Haunted(r', r.table[sid].edge.Key(), sid, k, r.remote[k].origin)
  {
    hide Inv, Edge.Key, Registered, StillDesired, Superseding, Recomputed, Step, Lingering, Ghost;
    InvSessions(r);
    EstablishStep(r, sid, now, demand, r');
    SupersedingGhost(r, sid, k);
    hide SessionsInv;
    RecomputedGhost(Superseding(r, sid), r', now, demand, r.table[sid].edge.Key(), sid, k, r.remote[k].origin);
    StepKeepsInv(r, Establish(sid), now, demand, r');
    InvRegistered(r');
  }

  lemma InvSessions(r: Room)
    requires Inv(r)
    ensures SessionsInv(r) && Registered(r)
  {}

  lemma EnteredIsStarted(r: Room, sid: SessionId)
    requires Registered(r) && sid in r.table
    ensures sid in Superseding(r, sid).table && Superseding(r, sid).table[sid].started
  {
    hide Edge.Key;
  }

  lemma OffTheRegister(r: Room, key: EdgeKey, o: SessionId)
    requires o in r.table && r.table[o].edge.Key() == key && !IsRegistered(r, o)
    ensures key in r.sessions ==> r.sessions[key] != o
  {}

  /** The condition is exact. After any polite run, registering a session whose edge is still in force
      can lead to an echo over that edge, with nothing registered any more, if and only if a remote
      track was left of an earlier session of it. */
  lemma UnhurriedIsExact(states: seq<Room>, acts: seq<Act>, sid: SessionId, now: int, demand: Demand, r': Room)
    requires Run(states, acts) && forall j | 0 <= j < |acts| :: Polite(states[j], acts[j].ev)
    requires var r := states[|acts|]; Step(r, Establish(sid), now, demand, r') && StillDesired(r, r.table[sid])
    ensures var r := states[|acts|]; var key := r.table[sid].edge.Key();
      MayEcho(r', key) <==> !Unhurried(r, key)
  {
    var r := states[|acts|];
    var key := r.table[sid].edge.Key();
    hide Run, Inv, Edge.Key, Registered, StillDesired, MayEcho, Step, Calm, Unhurried, Lingering;
    PoliteRunStaysCalm(states, acts, |acts|, key);
    StepKeepsInv(r, Establish(sid), now, demand, r');
    if Unhurried(r, key) {
      StepKeepsCalm(r, Establish(sid), now, demand, r', key);
      CalmIsSafe(r', key);
    } else {
      var k := HauntingTrack(r, key);
      HurryHaunts(r, sid, now, demand, r', k);
      HauntedMayEcho(r', key, sid, k, r.remote[k].origin);
    }
  }

  lemma HauntingTrack(r: Room, key: EdgeKey) returns (k: TrackKey)
    requires !Unhurried(r, key)
    ensures k in r.remote && Lingering(r, r.remote[k].origin) && r.table[r.remote[k].origin].edge.Key() == key
  {
    hide Edge.Key;
    var o :| Haunts(r, o) && r.table[o].edge.Key() == key;
    k :| k in r.remote && r.remote[k].origin == o;
  }
}
