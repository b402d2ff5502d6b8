/** The condition for publishing is exact: publishing a key can leave it carried and unfed if and only if
    a remote track of that key is left. */
module FeedGuard {
  import opened Options
  import opened Wants
  import opened Demands
  import opened CascadeRooms
  import opened CascadeRuns
  import opened EchoGuard
  import opened CascadeFeed
  import Net = WantNetwork
  import Witness = EchoWitness

  /** From r, with nothing published any more, events can happen that leave k carried and unfed. */
  ghost predicate MayStarve(r: Room, k: TrackKey) {
    exists states, acts, key :: Starving(states, acts, r, key, k)
  }

  ghost predicate Starving(states: seq<Room>, acts: seq<Act>, r: Room, key: EdgeKey, k: TrackKey) {
    && Path(states, acts) && states[0] == r && (forall i | 0 <= i < |acts| :: !acts[i].ev.Publish?)
    && Starved(states[|acts|], key, k)
  }

  lemma StarvedNow(r: Room, key: EdgeKey, k: TrackKey)
    requires Starved(r, key, k)
    ensures MayStarve(r, k)
  {
    hide Starved;
    assert Starving([r], [], r, key, k);
  }

  lemma StarvedLater(r: Room, act: Act, r': Room, k: TrackKey)
    requires Step(r, act.ev, act.now, act.demand, r') && !act.ev.Publish?
    ensures MayStarve(r', k) ==> MayStarve(r, k)
  {
    hide Step, Starved;
    if MayStarve(r', k) {
      var states: seq<Room>, acts: seq<Act>, key: EdgeKey :| Starving(states, acts, r', key, k);
      var states', acts' := [r] + states, [act] + acts;
      forall i | 0 <= i < |acts'|
        ensures Step(states'[i], acts'[i].ev, acts'[i].now, acts'[i].demand, states'[i + 1]) && !acts'[i].ev.Publish?
      {
        if i > 0 {
          assert Step(states[i - 1], acts[i - 1].ev, acts[i - 1].now, acts[i - 1].demand, states[i - 1 + 1]);
          assert !acts[i - 1].ev.Publish?;
        }
      }
      assert states'[|acts'|] == states[|acts|];
      assert Starving(states', acts', r, key, k);
    }
  }

  // ---------------------------------------------------------------------------------------------
  // A careful publication is safe
  // ---------------------------------------------------------------------------------------------

  lemma {:induction false} SettledPath(states: seq<Room>, acts: seq<Act>, i: nat)
    requires Path(states, acts) && i < |states| && FeedInv(states[0]) && Registered(states[0]) && Settled(states[0])
    requires forall j | 0 <= j < |acts| :: !acts[j].ev.Publish?
    ensures FeedInv(states[i]) && Registered(states[i]) && Settled(states[i])
  {
    hide FeedInv, Step, Registered, Settled;
    if i > 0 {
      SettledPath(states, acts, i - 1);
      CarefulStep(states[i - 1], acts[i - 1].ev, acts[i - 1].now, acts[i - 1].demand, states[i - 1 + 1]);
      FeedRegistered(states[i]);
    }
  }

  lemma SettledIsSafe(r: Room, k: TrackKey)
    requires FeedInv(r) && Registered(r) && Settled(r)
    ensures !MayStarve(r, k)
  {
    hide FeedInv, Step, Registered, Settled, Starved;
    if MayStarve(r, k) {
      var states: seq<Room>, acts: seq<Act>, key: EdgeKey :| Starving(states, acts, r, key, k);
      SettledPath(states, acts, |acts|);
      SettledIsFed(states[|acts|], key, k);
    }
  }

  // ---------------------------------------------------------------------------------------------
  // The others are not
  // ---------------------------------------------------------------------------------------------

  /** k is published here and a remote track of it is left. */
  ghost predicate Doubled(r: Room, k: TrackKey) {
    Inv(r) && Registered(r) && k in r.local && k in r.remote
  }

  /** Any event that leaves both sources can happen, and leads on. */
  lemma Follow(r: Room, ev: Event, k: TrackKey) returns (r': Room)
    requires Doubled(r, k) && Enabled(r, ev) && !ev.Publish?
    requires var i := Input(r, ev); k in i.local && k in i.remote
    ensures Doubled(r', k) && (MayStarve(r', k) ==> MayStarve(r, k))
    ensures var i := Input(r, ev);
      && Pre(i) && Registered(i) && (if Quiet(r, ev) then r' == i else CascadeRooms.Recomputed(i, r', 0, NO_DEMAND))
      && r'.lease == i.lease && r'.epoch == i.epoch && r'.edges == i.edges && r'.sessions == i.sessions
      && r'.table.Keys == i.table.Keys && r'.remote[k].origin == i.remote[k].origin
  {
    hide Pre, Derived, Registered, Recomputed, Input, MayStarve, Quiet, Enabled;
    InputKeepsPre(r, ev);
    InputRegistered(r, ev);
    var i := Input(r, ev);
    if Quiet(r, ev) {
      r' := i;
    } else {
      r' := RecomputeExists(i, 0, NO_DEMAND);
      RecomputedRest(i, r', 0, NO_DEMAND);
    }
    StepKeepsInv(r, ev, 0, NO_DEMAND, r');
    InvRegistered(r');
    StarvedLater(r, Act(ev, 0, NO_DEMAND), r', k);
  }

  lemma InvFacts(r: Room, k: TrackKey)
    requires Doubled(r, k)
    ensures forall key | key in r.edges :: r.edges[key].Key() == key
    ensures forall key | key in r.sessions :: key in r.edges
    ensures r.remote[k].origin in r.table
  {
    hide Edge.Key, SessionsInv, ReadersInv, Derived;
    assert OriginOk(r, r.remote[k].origin);
    forall key | key in r.sessions ensures key in r.edges {
      assert MatchesEdge(r, key);
    }
  }

  /** An edge that is not in the set yet. */
  lemma NewEdge(edges: map<EdgeKey, Edge>, epoch: nat) returns (e: Edge)
    ensures e.Key() !in edges && e.epoch == epoch
  {
    var x := FreshUid(edges.Keys);
    e := Edge(epoch, x, "", "", "");
    assert |e.Key()| > |x|;
  }

  lemma {:induction false} NewSession(s: set<SessionId>) returns (x: SessionId)
    ensures x !in s
    ensures forall y | y in s :: y < x
    decreases s
  {
    if s == {} {
      x := 0;
    } else {
      var y :| y in s;
      var x' := NewSession(s - {y});
      x := x' + y + 1;
      forall z | z in s ensures z < x {
        if z != y {
          assert z in s - {y};
        }
      }
    }
  }

  /** A lease of an epoch that edges can still be given. */
  lemma TakeLease(r: Room, k: TrackKey) returns (r': Room)
    requires Doubled(r, k)
    ensures Doubled(r', k) && (MayStarve(r', k) ==> MayStarve(r, k))
    ensures r'.lease.Some? && r'.lease.value.epoch >= r'.epoch && r'.lease.value.expireMs > 0
  {
    hide Inv, Registered, Input, MayStarve, Enabled, Quiet, Pre, Recomputed;
    var epoch := if r.lease.Some? && r.lease.value.epoch > r.epoch then r.lease.value.epoch else r.epoch;
    var lease := Lease("", epoch, 1);
    LeaseInput(r, lease);
    r' := Follow(r, SetLease(lease), k);
  }

  /** Lease and edges of one epoch, with one more edge in the set. */
  lemma AddEdge(r: Room, k: TrackKey) returns (r': Room, key: EdgeKey)
    requires Doubled(r, k)
    ensures Doubled(r', k) && (MayStarve(r', k) ==> MayStarve(r, k))
    ensures ForwardingAllowed(r', 0) && key in r'.edges && key !in r'.sessions
    ensures r'.edges[key].Key() == key && r'.edges[key].epoch == r'.epoch
  {
    hide Inv, Registered, Input, MayStarve, Edge.Key, Enabled, Quiet, Pre, Recomputed, Keyed;
    var r1 := TakeLease(r, k);
    var epoch := r1.lease.value.epoch;
    InvFacts(r1, k);
    var e := NewEdge(r1.edges, epoch);
    key := e.Key();
    var edges := r1.edges[key := e];
    var es := AsCommand(edges, epoch);
    assert Keyed(epoch, es)[key] == e;
    EdgesInput(r1, epoch, es, k, key, e);
    r' := Follow(r1, SetEdges(epoch, es), k);
  }

  lemma EdgesInput(r: Room, epoch: nat, es: seq<Edge>, k: TrackKey, key: EdgeKey, e: Edge)
    requires Doubled(r, k) && epoch >= r.epoch && key !in r.sessions
    requires key in Keyed(epoch, es) && Keyed(epoch, es)[key] == e
    ensures Enabled(r, SetEdges(epoch, es)) && Quiet(r, SetEdges(epoch, es))
    ensures var i := Input(r, SetEdges(epoch, es));
      && k in i.local && k in i.remote && i.lease == r.lease && i.epoch == epoch
      && key in i.edges && i.edges[key] == e && key !in i.sessions
  {
    hide Inv, Registered, Keyed, Edge.Key;
  }

  /** A connection of that edge is up and reads. */
  ghost predicate Reads(r: Room, k: TrackKey, key: EdgeKey, sid: SessionId) {
    && Doubled(r, k) && ForwardingAllowed(r, 0) && key in r.sessions && r.sessions[key] == sid && sid in r.table
    && r.remote[k].origin != sid && r.table[sid].reading && !r.table[sid].closed && !r.table[sid].link.peerWantSeen
  }

  lemma Connect(r: Room, k: TrackKey, key: EdgeKey) returns (r': Room, sid: SessionId)
    requires Doubled(r, k) && ForwardingAllowed(r, 0) && key in r.edges && key !in r.sessions
    requires r.edges[key].Key() == key && r.edges[key].epoch == r.epoch
    ensures Reads(r', k, key, sid) && (MayStarve(r', k) ==> MayStarve(r, k))
  {
    hide Inv, Registered, Input, MayStarve, Edge.Key, Enabled, Quiet, Pre, Recomputed, ForwardingAllowed;
    InvFacts(r, k);
    sid := NewSession(r.table.Keys);
    HandshakeInput(r, sid, key);
    var r1 := Follow(r, Handshake(sid, key), k);
    EstablishInput(r1, sid, key);
    var r2 := Follow(r1, Establish(sid), k);
    RecomputedRecord(Input(r1, Establish(sid)), r2, 0, NO_DEMAND, sid);
    FinishInput(r2, sid);
    r' := Follow(r2, FinishEstablish(sid), k);
    SameAuthority(r, r1);
    SameAuthority(r, r');
  }

  lemma HandshakeInput(r: Room, sid: SessionId, key: EdgeKey)
    requires Registered(r) && sid !in r.table && key in r.edges
    ensures Enabled(r, Handshake(sid, key)) && Quiet(r, Handshake(sid, key))
    ensures var i := Input(r, Handshake(sid, key));
      && i == r.(table := i.table) && i.table.Keys == r.table.Keys + {sid}
      && i.table[sid] == Session(r.edges[key], false, false, false, false, false, None, Net.NEW_LINK, map[])
  {
    hide Registered;
  }

  lemma EstablishInput(r: Room, sid: SessionId, key: EdgeKey)
    requires Registered(r) && sid in r.table && key in r.edges && key !in r.sessions && r.edges[key].Key() == key
    requires r.table[sid] == Session(r.edges[key], false, false, false, false, false, None, Net.NEW_LINK, map[])
    ensures Enabled(r, Establish(sid)) && !Quiet(r, Establish(sid))
    ensures var i := Input(r, Establish(sid));
      && i.lease == r.lease && i.epoch == r.epoch && i.local == r.local && i.remote == r.remote
      && i.sessions == r.sessions[key := sid] && sid in i.table && i.table.Keys == r.table.Keys
      && i.table[sid] == r.table[sid].(established := true, started := true)
  {
    hide Edge.Key, Registered;
  }

  lemma FinishInput(r: Room, sid: SessionId)
    requires Registered(r) && sid in r.table && r.table[sid].started && !r.table[sid].reading
    requires r.table[sid].prev == None
    ensures Enabled(r, FinishEstablish(sid)) && Quiet(r, FinishEstablish(sid))
    ensures Input(r, FinishEstablish(sid)) == r.(table := r.table[sid := r.table[sid].(reading := true)])
  {
    hide Registered;
  }

  lemma WantInput(r: Room, sid: SessionId)
    requires Registered(r) && sid in r.table && r.table[sid].reading && !r.table[sid].closed
    ensures Enabled(r, PeerWant(sid, EVERYTHING)) && !Quiet(r, PeerWant(sid, EVERYTHING))
    ensures var i, s := Input(r, PeerWant(sid, EVERYTHING)), r.table[sid];
      i == r.(table := r.table[sid := s.(link := s.link.(peerWant := EVERYTHING, peerWantSeen := true))])
  {
    hide Registered;
  }

  lemma EndInput(r: Room, k: TrackKey)
    requires Registered(r) && k in r.remote
    ensures var ev := TrackEnd(k, r.remote[k].id);
              Enabled(r, ev) && !Quiet(r, ev) && Input(r, ev) == r.(remote := r.remote - {k})
  {
    hide Registered;
  }

  /** A want for everything sets k up as a relay. */
  lemma AskedRelays(r: Room, k: TrackKey, sid: SessionId, s: Session)
    requires k in r.remote && r.remote[k].origin != sid && k !in s.out
    requires s.link.peerWantSeen && s.link.peerWant == EVERYTHING
    ensures var out := NewOut(r, sid, s, true); k in out && !out[k].local
  {
    assert Asked(EVERYTHING, r.remote[k].pub);
    hide Asked;
  }

  /** And it stays one while k is published. */
  lemma RelayStays(r: Room, k: TrackKey, sid: SessionId, s: Session)
    requires k in r.local && k in s.out && s.link.peerWantSeen && s.link.peerWant == EVERYTHING
    ensures var out := NewOut(r, sid, s, true); k in out && out[k] == s.out[k]
  {
    assert Asked(EVERYTHING, r.local[k]);
    hide Asked;
  }

  lemma SilentOut(r: Room, key: EdgeKey)
    requires Inv(r) && Registered(r) && key in r.sessions && !r.table[r.sessions[key]].link.peerWantSeen
    ensures r.table[r.sessions[key]].out == map[]
  {
    assert UpToDate(r, key);
    assert r.table[r.sessions[key]].out.Keys == {};
  }

  /** A connected edge that relays k although k is published here. */
  ghost predicate Relays(r: Room, k: TrackKey, key: EdgeKey) {
    && Doubled(r, k) && ForwardingAllowed(r, 0) && key in r.sessions
    && var s := r.table[r.sessions[key]];
       s.link.peerWantSeen && s.link.peerWant == EVERYTHING && k in s.out && !s.out[k].local
  }

  lemma Relay(r: Room, k: TrackKey, key: EdgeKey, sid: SessionId) returns (r': Room)
    requires Reads(r, k, key, sid)
    ensures Relays(r', k, key) && (MayStarve(r', k) ==> MayStarve(r, k))
  {
    hide Inv, Registered, Input, MayStarve, Edge.Key, Enabled, Quiet, Pre, Recomputed, ForwardingAllowed, NewOut;
    SilentOut(r, key);
    WantInput(r, sid);
    r' := Follow(r, PeerWant(sid, EVERYTHING), k);
    var i := Input(r, PeerWant(sid, EVERYTHING));
    SameAuthority(r, i);
    SameAuthority(r, r');
    RegisteredOnes(i, key);
    RecomputedRecord(i, r', 0, NO_DEMAND, sid);
    AskedRelays(i, k, sid, i.table[sid]);
  }

  /** The remote track ends: the relay has nothing left to relay, and is not set up anew. */
  lemma RelayStarves(r: Room, k: TrackKey, key: EdgeKey)
    requires Relays(r, k, key)
    ensures MayStarve(r, k)
  {
    hide Inv, Registered, Input, MayStarve, Edge.Key, Enabled, Quiet, Pre, Recomputed, ForwardingAllowed, NewOut;
    var ev := TrackEnd(k, r.remote[k].id);
    EndInput(r, k);
    InputKeepsPreOf(r, ev);
    var i := Input(r, ev);
    SameAuthority(r, i);
    var r' := RecomputeExists(i, 0, NO_DEMAND);
    RecomputedRest(i, r', 0, NO_DEMAND);
    RegisteredOnes(i, key);
    var sid := i.sessions[key];
    RecomputedRecord(i, r', 0, NO_DEMAND, sid);
    RelayStays(i, k, sid, i.table[sid]);
    RecomputedRegisters(i, r', 0, NO_DEMAND);
    assert Starved(r', key, k);
    StarvedNow(r', key, k);
    StarvedLater(r, Act(ev, 0, NO_DEMAND), r', k);
  }

  lemma InputKeepsPreOf(r: Room, ev: Event)
    requires Inv(r) && Enabled(r, ev)
    ensures Registered(r) && Pre(Input(r, ev)) && Registered(Input(r, ev))
  {
    InputKeepsPre(r, ev);
    InputRegistered(r, ev);
  }

  lemma DoubledMayStarve(r: Room, k: TrackKey)
    requires Doubled(r, k)
    ensures MayStarve(r, k)
  {
    hide Doubled, MayStarve, ForwardingAllowed, Edge.Key, Reads, Relays;
    var r1, key := AddEdge(r, k);
    var r2, sid := Connect(r1, k, key);
    var r3 := Relay(r2, k, key, sid);
    RelayStarves(r3, k, key);
  }

  lemma PublishInput(r: Room, k: TrackKey, pub: Pub)
    requires Registered(r)
    ensures var ev := Publish(k, pub); Enabled(r, ev) && !Quiet(r, ev) && Input(r, ev) == r.(local := r.local[k := pub])
  {
    hide Registered;
  }

  lemma PublishDoubles(r: Room, k: TrackKey, pub: Pub, now: int, demand: Demand, r': Room)
    requires Inv(r) && Step(r, Publish(k, pub), now, demand, r') && k in r.remote
    ensures Doubled(r', k)
  {
    hide Inv, Registered, Recomputed, Input, Enabled, Quiet;
    StepKeepsInv(r, Publish(k, pub), now, demand, r');
    InvRegistered(r');
    PublishInput(r, k, pub);
    RecomputedRest(Input(r, Publish(k, pub)), r', now, demand);
  }

  /** The condition is exact. After any careful run, publishing k can leave it carried and unfed, with
      nothing more published, if and only if a remote track of k was left. */
  lemma CarefulIsExact(states: seq<Room>, acts: seq<Act>, k: TrackKey, pub: Pub, now: int, demand: Demand, r': Room)
    requires Run(states, acts) && forall j | 0 <= j < |acts| :: Careful(states[j], acts[j].ev)
    requires Step(states[|acts|], Publish(k, pub), now, demand, r')
    ensures MayStarve(r', k) <==> k in states[|acts|].remote
  {
    var r := states[|acts|];
    hide Run, Inv, Pre, Registered, MayStarve, Step, Settled, SinksInv, NewHaveNone;
    CarefulRunSettles(states, acts, |acts|);
    if k in r.remote {
      PublishDoubles(r, k, pub, now, demand, r');
      DoubledMayStarve(r', k);
    } else {
      CarefulStep(r, Publish(k, pub), now, demand, r');
      SettledIsSafe(r', k);
    }
  }

  // ---------------------------------------------------------------------------------------------
  // How it happens
  // ---------------------------------------------------------------------------------------------

  lemma KeptOut(r: Room, sid: SessionId, s: Session, k: TrackKey)
    requires k in r.local && k in s.out && s.link.peerWantSeen && Asked(s.link.peerWant, r.local[k])
    ensures var out := NewOut(r, sid, s, true); k in out && out[k] == s.out[k]
  {
    hide Asked;
  }

  /** One step while the edge has a relay of the published key: the relay stays. */
  lemma RelaySurvives(i: Room, r': Room, now: int, demand: Demand, key: EdgeKey, k: TrackKey)
    requires Pre(i) && Registered(i) && CascadeRooms.Recomputed(i, r', now, demand) && key in i.sessions
    requires ForwardingAllowed(i, now) && k in i.local
    requires var s := i.table[i.sessions[key]];
      k in s.out && !s.out[k].local && s.link.peerWantSeen && Asked(s.link.peerWant, i.local[k])
    ensures Registered(r') && r'.sessions == i.sessions && r'.local == i.local && r'.remote.Keys == i.remote.Keys
    ensures r'.lease == i.lease && r'.epoch == i.epoch
    ensures (forall j | j in i.remote :: r'.remote[j].id == i.remote[j].id)
    ensures var s, s' := i.table[i.sessions[key]], r'.table[i.sessions[key]];
      && k in s'.out && !s'.out[k].local
      && s'.link.peerWantSeen && s'.link.peerWant == s.link.peerWant
  {
    RecomputedRest(i, r', now, demand);
    RecomputedRegisters(i, r', now, demand);
    RegisteredOnes(i, key);
    hide Pre, Registered, Recomputed, NewOut, ForwardingAllowed, Asked;
    RecomputedRecord(i, r', now, demand, i.sessions[key]);
    KeptOut(i, i.sessions[key], i.table[i.sessions[key]], k);
  }

  /** In any run: k is relayed over an edge, is published here, and then its remote track ends. The
      edge goes on carrying k, and nothing feeds it. */
  lemma PublishedOverRelay(states: seq<Room>, acts: seq<Act>, i: nat, key: EdgeKey, k: TrackKey, pub: Pub)
    requires Run(states, acts) && i + 1 < |acts|
    requires var r := states[i];
      && Registered(r) && key in r.sessions && k in r.remote
      && acts[i].ev == Publish(k, pub) && acts[i + 1].ev == TrackEnd(k, r.remote[k].id)
      && ForwardingAllowed(r, acts[i].now) && ForwardingAllowed(r, acts[i + 1].now)
      && var s := r.table[r.sessions[key]];
         k in s.out && !s.out[k].local && s.link.peerWantSeen && Asked(s.link.peerWant, pub)
    ensures Starved(states[i + 2], key, k)
  {
    RunKeepsInv(states, acts, i);
    RunKeepsInv(states, acts, i + 1);
    var r, r1, r2 := states[i], states[i + 1], states[i + 1 + 1];
    assert Step(r, acts[i].ev, acts[i].now, acts[i].demand, r1);
    assert Step(r1, acts[i + 1].ev, acts[i + 1].now, acts[i + 1].demand, r2);
    hide Run, Inv, Registered, Recomputed, Input, Enabled, Quiet, Pre, ForwardingAllowed, Asked;
    PublishInput(r, k, pub);
    InputKeepsPreOf(r, acts[i].ev);
    SameAuthorityAt(r, Input(r, acts[i].ev), acts[i].now);
    RelaySurvives(Input(r, acts[i].ev), r1, acts[i].now, acts[i].demand, key, k);
    EndInput(r1, k);
    InputKeepsPreOf(r1, acts[i + 1].ev);
    SameAuthorityAt(r, Input(r1, acts[i + 1].ev), acts[i + 1].now);
    RelaySurvives(Input(r1, acts[i + 1].ev), r2, acts[i + 1].now, acts[i + 1].demand, key, k);
  }

  lemma SameAuthorityAt(r: Room, r': Room, now: int)
    requires r'.lease == r.lease && r'.epoch == r.epoch
    ensures ForwardingAllowed(r', now) == ForwardingAllowed(r, now)
  {}

  lemma RunThenPath(states: seq<Room>, acts: seq<Act>, more: seq<Room>, rest: seq<Act>)
    requires Run(states, acts) && Path(more, rest) && more[0] == states[|acts|]
    ensures Run(states + more[1..], acts + rest)
  {
    hide Step;
    var states', acts' := states + more[1..], acts + rest;
    forall i | 0 <= i < |acts'| ensures Step(states'[i], acts'[i].ev, acts'[i].now, acts'[i].demand, states'[i + 1]) {
      if i < |acts| {
        assert Step(states[i], acts[i].ev, acts[i].now, acts[i].demand, states[i + 1]);
      } else {
        var j := i - |acts|;
        assert Step(more[j], rest[j].ev, rest[j].now, rest[j].demand, more[j + 1]);
      }
    }
  }

  lemma PathGrows(r: Room, act: Act, more: seq<Room>, rest: seq<Act>)
    requires Path(more, rest) && Step(r, act.ev, act.now, act.demand, more[0])
    ensures Path([r] + more, [act] + rest)
  {
    hide Step;
    var path, whole := [r] + more, [act] + rest;
    forall i | 0 <= i < |whole| ensures Step(path[i], whole[i].ev, whole[i].now, whole[i].demand, path[i + 1]) {
      if i > 0 {
        assert Step(more[i - 1], rest[i - 1].ev, rest[i - 1].now, rest[i - 1].demand, more[i - 1 + 1]);
      }
    }
  }

  /** A run from the new room that ends with a remote track. */
  lemma TrackIsHeld() returns (states: seq<Room>, acts: seq<Act>)
    ensures Run(states, acts) && Witness.TRACK in states[|acts|].remote
  {
    var r: Room;
    states, acts, r := Witness.TrackIsIn();
    hide Inv, Registered, Step;
  }

  lemma PublishStep(r: Room, k: TrackKey, pub: Pub) returns (r': Room)
    requires Inv(r)
    ensures Step(r, Publish(k, pub), 0, NO_DEMAND, r')
  {
    hide Inv, Registered, Recomputed, Input, Enabled, Quiet, Pre;
    InvRegistered(r);
    PublishInput(r, k, pub);
    InputKeepsPreOf(r, Publish(k, pub));
    r' := RecomputeExists(Input(r, Publish(k, pub)), 0, NO_DEMAND);
  }

  /** A run from the new room at whose end, with nothing published since, an edge carries a published
      track that nothing feeds. */
  lemma StarvationIsReachable() returns (states: seq<Room>, acts: seq<Act>, key: EdgeKey, at: nat)
    ensures Run(states, acts) && Starved(states[|acts|], key, Witness.TRACK)
    ensures at < |acts| && acts[at].ev == Publish(Witness.TRACK, Witness.PUB)
    ensures forall j | at < j < |acts| :: !acts[j].ev.Publish?
  {
    states, acts := TrackIsHeld();
    RunKeepsInv(states, acts, |acts|);
    RunShape(states, acts);
    hide Run, Inv, Step, Starved, Doubled, Path;
    var r := states[|acts|];
    var act := Act(Publish(Witness.TRACK, Witness.PUB), 0, NO_DEMAND);
    var r' := PublishStep(r, Witness.TRACK, Witness.PUB);
    PublishDoubles(r, Witness.TRACK, Witness.PUB, 0, NO_DEMAND, r');
    DoubledMayStarve(r', Witness.TRACK);
    var more: seq<Room>, rest: seq<Act>, e: EdgeKey :| Starving(more, rest, r', e, Witness.TRACK);
    PathShape(more, rest);
    PathGrows(r, act, more, rest);
    RunThenPath(states, acts, [r] + more, [act] + rest);
    key, at := e, |acts|;
    assert ([r] + more)[1..] == more;
    states, acts := states + more, acts + ([act] + rest);
    assert states[|acts|] == more[|rest|];
  }

  lemma PathShape(states: seq<Room>, acts: seq<Act>)
    requires Path(states, acts)
    ensures |states| == |acts| + 1
  {}
}
