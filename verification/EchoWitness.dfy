/** Two reachable echoes: a third connection of an edge registered before the second has closed the
    first; and a new connection of an edge registered before the one its change of endpoint dropped
    is closed. */
module EchoWitness {
  import opened Options
  import opened Wants
  import opened Demands
  import opened Tracks
  import opened CascadeRooms
  import opened CascadeRuns
  import opened CascadeEcho
  import opened EchoGuard

  const EDGE := Edge(1, "p", "c", "h", "")
  const MOVED := Edge(1, "p", "c", "h2", "")
  const KEY: EdgeKey := EDGE.Key()
  const LEASE := Lease("p", 1, 10)
  const TRACK: TrackKey := "t"
  const PUB := Pub("u", Audio)

  // ---------------------------------------------------------------------------------------------
  // Runs, as far as a schedule is concerned
  // ---------------------------------------------------------------------------------------------

  datatype Flags = Flags(edge: Edge, started: bool, reading: bool, closed: bool, prev: Option<SessionId>)

  ghost predicate Matches(s: Session, f: Flags) {
    s.edge == f.edge && s.started == f.started && s.reading == f.reading && s.closed == f.closed && s.prev == f.prev
  }

  /** The edge in force, who is registered, how far each connection has got, and whether the track of
      connection 1 is in. */
  datatype View = View(edge: Edge, sessions: map<EdgeKey, SessionId>, flags: map<SessionId, Flags>, remote: bool)

  ghost predicate Scene(r: Room, v: View) {
    && r.local == map[] && r.edges == map[KEY := v.edge] && r.epoch == 1 && r.lease == Some(LEASE)
    && r.sessions == v.sessions && r.table.Keys == v.flags.Keys
    && (forall x | x in v.flags :: Matches(r.table[x], v.flags[x]))
    && (if v.remote then TRACK in r.remote && r.remote[TRACK].origin == 1 && r.remote[TRACK].pub == PUB
         else r.remote == map[])
  }

  ghost predicate Last(states: seq<Room>, acts: seq<Act>, r: Room) {
    Run(states, acts) && states[|states| - 1] == r && Inv(r) && Registered(r)
  }

  lemma RunGrows(states: seq<Room>, acts: seq<Act>, r: Room, ev: Event, r': Room)
    requires Last(states, acts, r) && Step(r, ev, 0, NO_DEMAND, r')
    ensures Last(states + [r'], acts + [Act(ev, 0, NO_DEMAND)], r') && Registered(r')
  {
    hide Step, Inv;
    StepKeepsInv(r, ev, 0, NO_DEMAND, r');
    InvRegisters(r');
    var states', acts' := states + [r'], acts + [Act(ev, 0, NO_DEMAND)];
    forall i | 0 <= i < |acts'| ensures Step(states'[i], acts'[i].ev, acts'[i].now, acts'[i].demand, states'[i + 1]) {
      if i < |acts| {
        assert Step(states[i], acts[i].ev, acts[i].now, acts[i].demand, states[i + 1]);
      }
    }
  }

  lemma InvRegisters(r: Room)
    requires Inv(r)
    ensures Registered(r) && Pre(r)
  {}

  lemma PreRegisters(r: Room)
    requires Pre(r)
    ensures Registered(r)
  {}

  lemma MatchStays(r: Room, r': Room, x: SessionId, f: Flags)
    requires Registered(r) && Recomputed(r, r', 0, NO_DEMAND) && x in r.table && Matches(r.table[x], f)
    ensures x in r'.table && Matches(r'.table[x], f)
  {
    hide Recomputed, Registered;
    RecomputedRecord(r, r', 0, NO_DEMAND, x);
  }

  lemma SceneStays(r: Room, r': Room, v: View)
    requires Registered(r) && Recomputed(r, r', 0, NO_DEMAND) && Scene(r, v)
    ensures Scene(r', v)
  {
    hide Recomputed, Registered, Matches;
    RecomputedRest(r, r', 0, NO_DEMAND);
    forall x | x in v.flags ensures Matches(r'.table[x], v.flags[x]) {
      MatchStays(r, r', x, v.flags[x]);
    }
  }

  lemma LastGives(states: seq<Room>, acts: seq<Act>, r: Room)
    requires Last(states, acts, r)
    ensures Run(states, acts) && states[|states| - 1] == r && Inv(r) && Registered(r)
  {
    hide Run, Inv, Registered;
  }

  lemma SceneSessions(r: Room, v: View)
    requires Scene(r, v)
    ensures r.sessions == v.sessions
  {}

  lemma Go(states: seq<Room>, acts: seq<Act>, r: Room, ev: Event, v: View)
    returns (states': seq<Room>, acts': seq<Act>, r': Room)
    requires Last(states, acts, r) && Enabled(r, ev) && Scene(Input(r, ev), v) && v.sessions.Keys <= {KEY}
    ensures Last(states', acts', r') && Registered(r') && Scene(r', v) && Step(r, ev, 0, NO_DEMAND, r')
  {
    hide Inv, Pre, Registered, Input, Enabled, Scene, Recomputed, Last;
    LastGives(states, acts, r);
    hide Run;
    InvRegisters(r);
    InputKeepsPre(r, ev);
    PreRegisters(Input(r, ev));
    SceneSessions(Input(r, ev), v);
    if Quiet(r, ev) {
      r' := Input(r, ev);
    } else {
      r' := RecomputeExists(Input(r, ev), 0, NO_DEMAND);
      SceneStays(Input(r, ev), r', v);
    }
    RunGrows(states, acts, r, ev, r');
    states', acts' := states + [r'], acts + [Act(ev, 0, NO_DEMAND)];
  }

  // ---------------------------------------------------------------------------------------------
  // The events, on scenes
  // ---------------------------------------------------------------------------------------------

  function New(edge: Edge): Flags {
    Flags(edge, false, false, false, None)
  }

  const UP := Flags(EDGE, true, true, false, None)

  lemma LoneStep(states: seq<Room>, acts: seq<Act>, r: Room, ev: Event) returns (r': Room)
    requires Last(states, acts, r) && Enabled(r, ev) && !Quiet(r, ev) && Input(r, ev).sessions == map[]
    ensures Step(r, ev, 0, NO_DEMAND, r') && Registered(r') && Last(states + [r'], acts + [Act(ev, 0, NO_DEMAND)], r')
  {
    InputKeepsPre(r, ev);
    PreRegisters(Input(r, ev));
    hide Inv, Pre, Registered, Input, Enabled, Recomputed, Run;
    r' := RecomputeExists(Input(r, ev), 0, NO_DEMAND);
    RunGrows(states, acts, r, ev, r');
  }

  lemma LeaseTaken(r: Room, r': Room)
    requires r == NEW_ROOM && Step(r, SetLease(LEASE), 0, NO_DEMAND, r')
    ensures r'.lease == Some(LEASE) && r'.sessions == map[] && r'.table == map[] && r'.remote == map[]
    ensures r'.local == map[] && r'.epoch == 0
  {
    RecomputedRest(r.(lease := Some(LEASE)), r', 0, NO_DEMAND);
    hide Recomputed;
  }

  lemma KeyedOne(e: Edge)
    requires e.epoch == 1
    ensures Keyed(1, [e]) == map[e.Key() := e]
  {
    assert [e][..0] == [];
    hide Edge.Key;
  }

  lemma EdgesTaken(r: Room)
    requires Registered(r) && r.lease == Some(LEASE) && r.sessions == map[] && r.table == map[] && r.remote == map[]
    requires r.local == map[] && r.epoch == 0
    ensures Enabled(r, SetEdges(1, [EDGE])) && Scene(Input(r, SetEdges(1, [EDGE])), View(EDGE, map[], map[], false))
  {
    KeyedOne(EDGE);
  }

  lemma ShakesHands(r: Room, sid: SessionId, v: View)
    requires Registered(r) && Scene(r, v) && sid !in v.flags
    ensures Enabled(r, Handshake(sid, KEY))
    ensures Scene(Input(r, Handshake(sid, KEY)), v.(flags := v.flags[sid := New(v.edge)]))
  {}

  lemma RegistersRecord(r: Room, sid: SessionId, v: View, x: SessionId)
    requires Registered(r) && Scene(r, v) && sid in v.flags && v.flags[sid] == New(v.edge) && v.edge.Key() == KEY
    requires x in v.flags
    requires KEY in v.sessions ==> v.sessions[KEY] != sid
    ensures x in Superseding(r, sid).table
    ensures var prev := if KEY in v.sessions then Some(v.sessions[KEY]) else None;
      Matches(Superseding(r, sid).table[x], if x == sid then Flags(v.edge, true, false, false, prev) else v.flags[x])
  {
    hide Edge.Key, Superseding, Registered;
    assert Matches(r.table[sid], v.flags[sid]) && Matches(r.table[x], v.flags[x]);
    SupersedingRecords(r, sid, x);
  }

  lemma RegistersInput(r: Room, sid: SessionId, v: View)
    requires Registered(r) && Scene(r, v) && sid in v.flags && v.flags[sid] == New(v.edge) && v.edge.Key() == KEY
    ensures Enabled(r, Establish(sid)) && Input(r, Establish(sid)) == Superseding(r, sid)
    ensures var r' := Superseding(r, sid);
      r'.local == r.local && r'.edges == r.edges && r'.epoch == r.epoch && r'.lease == r.lease && r'.remote == r.remote
  {
    hide Edge.Key;
    assert Matches(r.table[sid], v.flags[sid]);
  }

  lemma Registers(r: Room, sid: SessionId, v: View)
    requires Registered(r) && Scene(r, v) && sid in v.flags && v.flags[sid] == New(v.edge) && v.edge.Key() == KEY
    requires v.sessions == map[]
               || (KEY in v.sessions && v.sessions == map[KEY := v.sessions[KEY]] && v.sessions[KEY] != sid)
    ensures Enabled(r, Establish(sid))
    ensures var prev := if v.sessions == map[] then None else Some(v.sessions[KEY]);
      Scene(Input(r, Establish(sid)),
          v.(sessions := map[KEY := sid], flags := v.flags[sid := Flags(v.edge, true, false, false, prev)]))
  {
    hide Edge.Key, Superseding, Registered, Enabled, Input, Matches;
    var r' := Superseding(r, sid);
    RegistersInput(r, sid, v);
    RegistersSessions(r, sid, v);
    forall x | x in v.flags
      ensures x in r'.table
      ensures Matches(r'.table[x], if x == sid
                then Flags(v.edge, true, false, false, if v.sessions == map[] then None else Some(v.sessions[KEY]))
                else v.flags[x])
    {
      RegistersRecord(r, sid, v, x);
    }
  }

  lemma RegistersSessions(r: Room, sid: SessionId, v: View)
    requires Registered(r) && Scene(r, v) && sid in v.flags && v.flags[sid] == New(v.edge) && v.edge.Key() == KEY
    requires v.sessions == map[] || (KEY in v.sessions && v.sessions == map[KEY := v.sessions[KEY]])
    ensures Superseding(r, sid).sessions == map[KEY := sid] && Superseding(r, sid).table.Keys == r.table.Keys
  {
    hide Edge.Key;
    assert Matches(r.table[sid], v.flags[sid]);
    SupersedingSessions(r, sid);
  }

  lemma StartsReading(r: Room, sid: SessionId, v: View)
    requires Registered(r) && Scene(r, v) && sid in v.flags && v.flags[sid] == Flags(v.edge, true, false, false, None)
    ensures Enabled(r, FinishEstablish(sid))
    ensures Scene(Input(r, FinishEstablish(sid)), v.(flags := v.flags[sid := Flags(v.edge, true, true, false, None)]))
  {
    hide Edge.Key;
    assert Matches(r.table[sid], v.flags[sid]);
  }

  lemma TrackComesUp(r: Room, v: View)
    requires Registered(r) && Scene(r, v) && v == View(EDGE, map[KEY := 1], map[1 := UP], false)
    ensures Enabled(r, TrackUp(1, TRACK, 7, PUB)) && Scene(Input(r, TrackUp(1, TRACK, 7, PUB)), v.(remote := true))
  {
    assert Matches(r.table[1], v.flags[1]);
  }

  /** The endpoint of the edge changes: connection 1 is dropped, not yet closed. */
  lemma EdgeMoves(r: Room)
    requires Registered(r) && Scene(r, View(EDGE, map[KEY := 1], map[1 := UP], true))
    ensures Enabled(r, SetEdges(1, [MOVED]))
    ensures Scene(Input(r, SetEdges(1, [MOVED])), View(MOVED, map[], map[1 := UP], true))
  {
    assert Matches(r.table[1], UP);
    KeyedOne(MOVED);
    assert !Survives(Keyed(1, [MOVED]), KEY, r.table[1]);
    var r' := WithEdges(r, 1, Keyed(1, [MOVED]));
    assert r'.sessions == map[] && r'.table == r.table;
  }

  lemma PeerAsks(r: Room, sid: SessionId, v: View)
    requires Registered(r) && Scene(r, v) && sid in v.flags && v.flags[sid].reading && !v.flags[sid].closed
    ensures Enabled(r, PeerWant(sid, EVERYTHING)) && Scene(Input(r, PeerWant(sid, EVERYTHING)), v)
    ensures var s := Input(r, PeerWant(sid, EVERYTHING)).table[sid];
              s.link.peerWantSeen && s.link.peerWant == EVERYTHING
  {
    hide Edge.Key;
    assert Matches(r.table[sid], v.flags[sid]);
  }

  /** The peer of the registered connection asks for everything: what came in over 1 goes back. */
  lemma EchoesBack(r: Room, r': Room, sid: SessionId, v: View)
    requires Inv(r) && Registered(r) && Enabled(r, PeerWant(sid, EVERYTHING))
    requires Step(r, PeerWant(sid, EVERYTHING), 0, NO_DEMAND, r')
    requires Scene(Input(r, PeerWant(sid, EVERYTHING)), v) && v.sessions == map[KEY := sid] && v.remote && sid != 1
    requires 1 in v.flags && v.flags[1].edge == EDGE && sid in v.flags
    requires var s := Input(r, PeerWant(sid, EVERYTHING)).table[sid];
               s.link.peerWantSeen && s.link.peerWant == EVERYTHING
    ensures Echo(r', KEY, TRACK)
  {
    var r1 := Input(r, PeerWant(sid, EVERYTHING));
    InputKeepsPre(r, PeerWant(sid, EVERYTHING));
    PreRegisters(r1);
    assert ForwardingAllowed(r1, 0) && Matches(r1.table[1], v.flags[1]);
    hide Inv, Pre, Recomputed, Registered, Edge.Key;
    EchoIff(r1, r', 0, NO_DEMAND, KEY, TRACK);
    assert Asked(EVERYTHING, PUB);
  }

  /** The last step of both runs. */
  lemma Finale(states: seq<Room>, acts: seq<Act>, r: Room, sid: SessionId, v: View)
    returns (states': seq<Room>, acts': seq<Act>)
    requires Last(states, acts, r) && Registered(r) && Scene(r, v)
    requires sid in v.flags && v.flags[sid].reading && !v.flags[sid].closed
    requires v.sessions == map[KEY := sid] && v.remote && sid != 1 && 1 in v.flags && v.flags[1].edge == EDGE
    ensures Run(states', acts') && Echo(states'[|states'| - 1], KEY, TRACK)
  {
    hide Scene, Input, Enabled, Step, Registered, Last, Quiet, Run, Inv, Echo;
    PeerAsks(r, sid, v);
    var r': Room;
    states', acts', r' := Go(states, acts, r, PeerWant(sid, EVERYTHING), v);
    LastGives(states, acts, r);
    LastGives(states', acts', r');
    EchoesBack(r, r', sid, v);
  }

  // ---------------------------------------------------------------------------------------------
  // The runs
  // ---------------------------------------------------------------------------------------------

  /** Lease and edge set. */
  lemma Opening() returns (states: seq<Room>, acts: seq<Act>, r: Room)
    ensures Last(states, acts, r) && Registered(r) && Scene(r, View(EDGE, map[], map[], false))
  {
    r := NEW_ROOM;
    states, acts := [r], [];
    NewRoomInv();
    assert Last(states, acts, r) by {
      hide Inv;
    }
    hide Last;
    var r1 := LoneStep(states, acts, r, SetLease(LEASE));
    states, acts := states + [r1], acts + [Act(SetLease(LEASE), 0, NO_DEMAND)];
    LeaseTaken(r, r1);
    EdgesTaken(r1);
    hide Scene, Input, Enabled, Step, Registered, Quiet;
    states, acts, r := Go(states, acts, r1, SetEdges(1, [EDGE]), View(EDGE, map[], map[], false));
  }

  /** Connection 1 is up and a track has come in over it. */
  lemma TrackIsIn() returns (states: seq<Room>, acts: seq<Act>, r: Room)
    ensures Last(states, acts, r) && Registered(r) && Scene(r, View(EDGE, map[KEY := 1], map[1 := UP], true))
  {
    hide Scene, Input, Enabled, Step, Registered, Last, Quiet;
    states, acts, r := Opening();
    var v := View(EDGE, map[], map[], false);
    ShakesHands(r, 1, v);
    v := v.(flags := v.flags[1 := New(EDGE)]);
    states, acts, r := Go(states, acts, r, Handshake(1, KEY), v);
    Registers(r, 1, v);
    v := v.(sessions := map[KEY := 1], flags := v.flags[1 := Flags(EDGE, true, false, false, None)]);
    states, acts, r := Go(states, acts, r, Establish(1), v);
    StartsReading(r, 1, v);
    v := v.(flags := v.flags[1 := UP]);
    states, acts, r := Go(states, acts, r, FinishEstablish(1), v);
    assert v == View(EDGE, map[KEY := 1], map[1 := UP], false);
    TrackComesUp(r, v);
    states, acts, r := Go(states, acts, r, TrackUp(1, TRACK, 7, PUB), v.(remote := true));
  }

  const OVER_1 := Flags(EDGE, true, false, false, Some(1))
  const OVER_2 := Flags(EDGE, true, false, false, Some(2))

  /** Connections 2 and then 3 register before 2 has closed 1. */
  lemma Overtaking() returns (states: seq<Room>, acts: seq<Act>, r: Room)
    ensures Last(states, acts, r) && Registered(r)
    ensures Scene(r, View(EDGE, map[KEY := 3], map[1 := UP, 2 := OVER_1, 3 := OVER_2], true))
  {
    hide Scene, Input, Enabled, Step, Registered, Last, Quiet;
    states, acts, r := TrackIsIn();
    var v := View(EDGE, map[KEY := 1], map[1 := UP], true);
    ShakesHands(r, 2, v);
    v := v.(flags := v.flags[2 := New(EDGE)]);
    states, acts, r := Go(states, acts, r, Handshake(2, KEY), v);
    ShakesHands(r, 3, v);
    v := v.(flags := v.flags[3 := New(EDGE)]);
    states, acts, r := Go(states, acts, r, Handshake(3, KEY), v);
    Registers(r, 2, v);
    v := v.(sessions := map[KEY := 2], flags := v.flags[2 := OVER_1]);
    states, acts, r := Go(states, acts, r, Establish(2), v);
    Registers(r, 3, v);
    v := v.(sessions := map[KEY := 3], flags := v.flags[3 := OVER_2]);
    states, acts, r := Go(states, acts, r, Establish(3), v);
    assert v.flags == map[1 := UP, 2 := OVER_1, 3 := OVER_2];
  }

  lemma OvertakerReads(r: Room)
    requires Registered(r) && Scene(r, View(EDGE, map[KEY := 3], map[1 := UP, 2 := OVER_1, 3 := OVER_2], true))
    ensures Enabled(r, FinishEstablish(3))
    ensures Scene(Input(r, FinishEstablish(3)),
                  View(EDGE, map[KEY := 3], map[1 := UP, 2 := OVER_1.(closed := true), 3 := OVER_2.(reading := true)],
                      true))
  {
    assert Matches(r.table[1], UP) && Matches(r.table[2], OVER_1) && Matches(r.table[3], OVER_2);
    var r1 := Closed(r, 2);
    ClosedRecords(r, 2, 3);
    ClosedRecords(r, 2, 1);
    assert r1.sessions == r.sessions && r1.table.Keys == {1, 2, 3} && TRACK in r1.remote
             && Matches(r1.table[2], OVER_1.(closed := true));
  }

  /** Three connections: 3 does not wait for the close of 1, which is up to 2. */
  lemma EchoIsReachable() returns (states: seq<Room>, acts: seq<Act>)
    ensures Run(states, acts) && Echo(states[|states| - 1], KEY, TRACK)
  {
    hide Scene, Input, Enabled, Step, Registered, Last, Quiet, Run, Echo;
    var r: Room;
    states, acts, r := Overtaking();
    OvertakerReads(r);
    var v := View(EDGE, map[KEY := 3], map[1 := UP, 2 := OVER_1.(closed := true), 3 := OVER_2.(reading := true)], true);
    states, acts, r := Go(states, acts, r, FinishEstablish(3), v);
    states, acts := Finale(states, acts, r, 3, v);
  }

  /** Connection 2 registers after the edge has moved and before the dropped connection 1 is closed:
      it supersedes nobody and reads at once. */
  lemma Moving() returns (states: seq<Room>, acts: seq<Act>, r: Room, v: View)
    ensures Last(states, acts, r) && Registered(r) && Scene(r, v)
    ensures v == View(MOVED, map[KEY := 2], map[1 := UP, 2 := Flags(MOVED, true, true, false, None)], true)
  {
    hide Scene, Input, Enabled, Step, Registered, Last, Quiet;
    states, acts, r := TrackIsIn();
    EdgeMoves(r);
    v := View(MOVED, map[], map[1 := UP], true);
    states, acts, r := Go(states, acts, r, SetEdges(1, [MOVED]), v);
    ShakesHands(r, 2, v);
    v := v.(flags := v.flags[2 := New(MOVED)]);
    states, acts, r := Go(states, acts, r, Handshake(2, KEY), v);
    Registers(r, 2, v);
    v := v.(sessions := map[KEY := 2], flags := v.flags[2 := Flags(MOVED, true, false, false, None)]);
    states, acts, r := Go(states, acts, r, Establish(2), v);
    StartsReading(r, 2, v);
    v := v.(flags := v.flags[2 := Flags(MOVED, true, true, false, None)]);
    states, acts, r := Go(states, acts, r, FinishEstablish(2), v);
  }

  lemma MovedEdgeEchoes() returns (states: seq<Room>, acts: seq<Act>)
    ensures Run(states, acts) && Echo(states[|states| - 1], KEY, TRACK)
  {
    hide Scene, Registered, Last, Run, Echo;
    var r: Room;
    var v: View;
    states, acts, r, v := Moving();
    states, acts := Finale(states, acts, r, 2, v);
  }
}
