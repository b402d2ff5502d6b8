/** Why a track is not sent back over the edge it came from, and the schedules in which it is: an
    edge registered anew while an earlier session of it is still to be closed. */
module CascadeEcho {
  import opened Options
  import opened Demands
  import opened CascadeRooms
  import opened CascadeRuns

  /** The session registered for `key` carries track k, whose only source here is a remote track that
      came in over that session or over an earlier session of the same edge. */
  ghost predicate Echo(r: Room, key: EdgeKey, k: TrackKey) {
    && Registered(r) && key in r.sessions && k in r.table[r.sessions[key]].out
    && k !in r.local && k in r.remote && SameEdgeOrigin(r, key, k)
  }

  ghost predicate SameEdgeOrigin(r: Room, key: EdgeKey, k: TrackKey)
    requires k in r.remote
  {
    r.remote[k].origin in r.table && r.table[r.remote[k].origin].edge.Key() == key
  }

  /** o has been in use, is off the register, and is still to be closed: superseded by a newer
      session, or dropped by a change of the edges. */
  ghost predicate Lingering(r: Room, o: SessionId) {
    o in r.table && r.table[o].started && !r.table[o].closed && !IsRegistered(r, o)
  }

  lemma CarriedIsDesired(r: Room, key: EdgeKey, k: TrackKey)
    requires Inv(r) && Registered(r) && key in r.sessions && k in r.table[r.sessions[key]].out && k !in r.local
    ensures k in r.remote && r.remote[k].origin != r.sessions[key] && r.table[r.sessions[key]].link.peerWantSeen
  {
    hide Pre, Registered;
    assert UpToDate(r, key);
    hide Asked;
  }

  /** A track is never echoed over the session it came from, and over a later session of that edge
      only while the origin lingers and is not the one that session has to see closed before it reads. */
  lemma EchoNeedsLingering(r: Room, key: EdgeKey, k: TrackKey)
    requires Inv(r) && Echo(r, key, k)
    ensures var o := r.remote[k].origin;
      o != r.sessions[key] && Lingering(r, o) && r.table[r.sessions[key]].prev != Some(o)
  {
    CarriedIsDesired(r, key, k);
    var o, sid := r.remote[k].origin, r.sessions[key];
    assert OriginOk(r, o) && SessionOk(r, o) && ReaderOk(r, sid);
    if Superseded(r, o) {
      var x :| x in r.table && r.table[x].prev == Some(o);
      assert ReaderOk(r, x);
    }
    hide SessionsInv, EdgesInv, Derived, OriginsInv, Edge.Key;
  }

  /** What one recomputation makes of a track that came in over the same edge: exactly when it echoes. */
  lemma EchoIff(r: Room, r': Room, now: int, demand: Demand, key: EdgeKey, k: TrackKey)
    requires Pre(r) && Registered(r) && Recomputed(r, r', now, demand) && key in r.sessions
    ensures var s := r.table[r.sessions[key]];
      Echo(r', key, k) <==>
        && ForwardingAllowed(r, now) && s.link.peerWantSeen
        && k !in r.local && k in r.remote
        && (var p := r.remote[k].pub;
            if p.kind.Audio? then s.link.peerWant.audio.Wants(p.uid) else s.link.peerWant.screen.Wants(p.uid))
        && r.remote[k].origin != r.sessions[key] && SameEdgeOrigin(r, key, k)
  {
    RegisteredIsUp(r, key);
    OutTracksAreExact(r, r', now, demand, key, k);
    RecomputedRest(r, r', now, demand);
    RecomputedRegister(r, r', now, demand);
    RecomputedKeepsPre(r, r', now, demand);
    assert Registered(r');
    hide Pre, Recomputed, Registered, Asked, Edge.Key;
    if k in r.remote && r.remote[k].origin in r.table {
      assert SameStanding(r.table[r.remote[k].origin], r'.table[r.remote[k].origin]);
    }
  }

  // ---------------------------------------------------------------------------------------------
  // Runs without overlapping registrations
  // ---------------------------------------------------------------------------------------------

  ghost predicate HasTrack(r: Room, o: SessionId) {
    exists k :: k in r.remote && r.remote[k].origin == o
  }

  /** A lingering session some remote track still came from. */
  ghost predicate Haunts(r: Room, o: SessionId) {
    Lingering(r, o) && HasTrack(r, o)
  }

  /** No remote track is left of an earlier session of this edge that is off the register. */
  ghost predicate Unhurried(r: Room, key: EdgeKey) {
    forall o | Haunts(r, o) :: r.table[o].edge.Key() != key
  }

  /** The registered session waits for whatever is left of its edge. */
  ghost predicate Calm(r: Room, key: EdgeKey)
    requires Registered(r)
  {
    key in r.sessions ==>
      forall o | Haunts(r, o) && r.table[o].edge.Key() == key :: r.table[r.sessions[key]].prev == Some(o)
  }

  /** Only registered sessions get new remote tracks. */
  ghost predicate Quieter(r: Room, r': Room) {
    forall k | k in r'.remote :: HasTrack(r, r'.remote[k].origin) || IsRegistered(r', r'.remote[k].origin)
  }

  /** Sessions only leave the register, and nobody newly supersedes anybody or comes into use. */
  ghost predicate Fades(r: Room, r': Room) {
    && (forall key | key in r'.sessions :: key in r.sessions && r'.sessions[key] == r.sessions[key])
    && (forall x | x in r.table :: x in r'.table && Aged(r.table[x], r'.table[x]))
    && (forall x | x in r'.table && x !in r.table :: !r'.table[x].started)
  }

  ghost predicate Aged(s: Session, s': Session) {
    && s'.prev == s.prev && s'.edge.Key() == s.edge.Key() && (s.closed ==> s'.closed)
    && (s'.started ==> s.started || s'.closed)
  }

  lemma FadesThenFades(a: Room, b: Room, c: Room)
    requires Fades(a, b) && Fades(b, c) && forall x | x in c.table && x !in a.table :: x !in b.table
    ensures Fades(a, c)
  {
    hide Edge.Key, Aged;
    forall x | x in a.table ensures x in c.table && Aged(a.table[x], c.table[x]) {
      AgedThenAged(a.table[x], b.table[x], c.table[x]);
    }
  }

  lemma AgedThenAged(a: Session, b: Session, c: Session)
    requires Aged(a, b) && Aged(b, c)
    ensures Aged(a, c)
  {}

  lemma FadesKeepsCalm(r: Room, r': Room, key: EdgeKey)
    requires Registered(r) && Registered(r') && Fades(r, r') && Quieter(r, r') && Calm(r, key)
    ensures Calm(r', key)
  {
    hide Edge.Key, HasTrack;
    if key in r'.sessions {
      RegisteredInTable(r, key);
      RegisteredInTable(r', key);
      forall o | Haunts(r', o) && r'.table[o].edge.Key() == key ensures r'.table[r'.sessions[key]].prev == Some(o) {
        TrackBefore(r, r', o);
        assert o in r.table && Aged(r.table[o], r'.table[o]);
        assert Haunts(r, o);
        assert Aged(r.table[r.sessions[key]], r'.table[r.sessions[key]]);
      }
    }
  }

  lemma TrackBefore(r: Room, r': Room, o: SessionId)
    requires Quieter(r, r') && Haunts(r', o)
    ensures HasTrack(r, o)
  {
    hide IsRegistered;
    var k :| k in r'.remote && r'.remote[k].origin == o;
  }

  lemma RegisteredInTable(r: Room, key: EdgeKey)
    requires Registered(r) && key in r.sessions
    ensures r.sessions[key] in r.table
  {}

  lemma ClosedFades(r: Room, sid: SessionId)
    requires sid in r.table
    ensures Fades(r, Closed(r, sid))
  {
    hide Edge.Key;
  }

  lemma SameRegisterFades(r: Room, r': Room)
    requires SameRegister(r, r')
    requires forall x | x in r.table && x in r'.table :: r'.table[x].started == r.table[x].started
    ensures Fades(r, r')
  {
    hide Edge.Key;
    forall x | x in r.table ensures x in r'.table && Aged(r.table[x], r'.table[x]) {
      assert SameStanding(r.table[x], r'.table[x]);
    }
  }

  lemma SameTableFades(r: Room, r': Room)
    requires r'.sessions == r.sessions && r'.table == r.table
    ensures Fades(r, r')
  {}

  lemma RecordFades(r: Room, sid: SessionId, s: Session)
    requires if sid in r.table then Aged(r.table[sid], s) else !s.started
    ensures Fades(r, r.(table := r.table[sid := s]))
  {
    hide Edge.Key;
  }

  lemma WithEdgesFades(r: Room, epoch: nat, next: map<EdgeKey, Edge>)
    requires Registered(r) && forall key | key in next :: next[key].Key() == key
    ensures Fades(r, WithEdges(r, epoch, next))
  {
    hide Edge.Key, Survives;
    var r' := WithEdges(r, epoch, next);
    assert forall key | key in r'.sessions :: key in r.sessions && r'.sessions[key] == r.sessions[key];
    assert r'.table.Keys == r.table.Keys;
    forall x | x in r.table ensures Aged(r.table[x], r'.table[x]) {
      WithEdgesRecord(r, epoch, next, x);
    }
  }

  lemma SetEdgesFades(r: Room, epoch: nat, es: seq<Edge>)
    requires Registered(r) && epoch >= r.epoch
    ensures Fades(r, Input(r, SetEdges(epoch, es)))
  {
    var next := Keyed(epoch, es);
    forall key | key in next ensures next[key].Key() == key {
      KeyedIsKeyed(epoch, es, key);
    }
    hide Keyed;
    WithEdgesFades(r, epoch, next);
  }

  /** A refused registration ends closed. */
  lemma RefusedFades(r: Room, sid: SessionId)
    requires sid in r.table && !r.table[sid].closed
    ensures var r1 := r.(table := r.table[sid := r.table[sid].(started := true)]); Fades(r, Closed(r1, sid))
  {
    hide Edge.Key;
  }

  lemma CloseThenRecordFades(r: Room, sid: SessionId, o: SessionId)
    requires sid in r.table && o in r.table
    ensures var r1 := Closed(r, o);
              sid in r1.table && Fades(r, r1.(table := r1.table[sid := r1.table[sid].(reading := true)]))
  {
    var r1 := Closed(r, o);
    assert r1.table.Keys == r.table.Keys;
    ClosedFades(r, o);
    hide Fades, Closed;
    var r2 := r1.(table := r1.table[sid := r1.table[sid].(reading := true)]);
    RecordFades(r1, sid, r1.table[sid].(reading := true));
    assert r2.table.Keys == r1.table.Keys;
    FadesThenFades(r, r1, r2);
  }

  /** Every input except a registration only lets sessions fade. */
  lemma InputFades(r: Room, ev: Event)
    requires Registered(r) && Enabled(r, ev) && !(ev.Establish? && StillDesired(r, r.table[ev.sid]))
    ensures Fades(r, Input(r, ev))
  {
    hide Fades, Closed, WithEdges, Keyed, Dropped, Superseding, StillDesired, Registered, ClassifyRemoteTrack;
    match ev
    case SetEdges(epoch, es) =>
      if epoch >= r.epoch {
        SetEdgesFades(r, epoch, es);
      } else {
        SameTableFades(r, r);
      }
    case Handshake(sid, _) => RecordFades(r, sid, Input(r, ev).table[sid]);
    case Establish(sid) => RefusedFades(r, sid);
    case FinishEstablish(sid) =>
      if HasPrev(r, sid) {
        CloseThenRecordFades(r, sid, r.table[sid].prev.value);
      } else {
        RecordFades(r, sid, r.table[sid].(reading := true));
      }
    case PeerWant(sid, want) => RecordFades(r, sid, Input(r, ev).table[sid]);
    case CloseSession(sid) => ClosedFades(r, sid);
    case _ => SameTableFades(r, Input(r, ev));
  }

  lemma SupersedingSessions(r: Room, sid: SessionId)
    requires Registered(r) && sid in r.table
    ensures Superseding(r, sid).sessions == r.sessions[r.table[sid].edge.Key() := sid]
  {
    hide Edge.Key;
    if r.table[sid].edge.Key() in r.sessions {
      RegisteredInTable(r, r.table[sid].edge.Key());
    }
    hide Registered;
  }

  lemma SupersedingRegister(r: Room, sid: SessionId)
    requires Registered(r) && sid in r.table
    requires r.table[sid].edge.Key() in r.sessions ==> r.sessions[r.table[sid].edge.Key()] != sid
    ensures var r' := Superseding(r, sid);
      Registered(r') && r'.table.Keys == r.table.Keys && r'.sessions == r.sessions[r.table[sid].edge.Key() := sid]
  {
    hide Edge.Key, Superseding;
    var r' := Superseding(r, sid);
    SupersedingSessions(r, sid);
    SupersedingRecords(r, sid, sid);
    forall key | key in r'.sessions
      ensures r'.sessions[key] in r'.table && r'.table[r'.sessions[key]].edge.Key() == key
    {
      SupersedingRecords(r, sid, r'.sessions[key]);
    }
  }

  lemma SupersedingIsCalm(r: Room, sid: SessionId, key: EdgeKey)
    requires Pre(r) && Registered(r) && sid in r.table && !r.table[sid].started && Calm(r, key)
    requires Unhurried(r, r.table[sid].edge.Key())
    ensures Registered(Superseding(r, sid)) && Calm(Superseding(r, sid), key)
  {
    assert SessionsInv(r);
    hide Pre, SessionsInv, Superseding, Edge.Key;
    var r' := Superseding(r, sid);
    Newcomer(r, sid);
    SupersedingRegister(r, sid);
    if key in r'.sessions {
      RegisteredInTable(r', key);
      hide Registered, Unhurried, Calm, Haunts;
      forall o | Haunts(r', o) && r'.table[o].edge.Key() == key ensures r'.table[r'.sessions[key]].prev == Some(o) {
        HauntingIsCalm(r, sid, key, o);
      }
    }
    hide Registered, Haunts, Unhurried;
  }

  /** After a registration what is left of that edge is the displaced session alone. */
  lemma HauntingIsCalm(r: Room, sid: SessionId, key: EdgeKey, o: SessionId)
    requires SessionsInv(r) && Registered(r) && sid in r.table && !r.table[sid].started && Calm(r, key)
    requires Unhurried(r, r.table[sid].edge.Key())
    requires var r' := Superseding(r, sid); key in r'.sessions && Haunts(r', o) && r'.table[o].edge.Key() == key
    ensures var r' := Superseding(r, sid); r'.sessions[key] in r'.table && r'.table[r'.sessions[key]].prev == Some(o)
  {
    hide Edge.Key, Superseding, SessionsInv;
    var r', mine := Superseding(r, sid), r.table[sid].edge.Key();
    Newcomer(r, sid);
    SupersedingRegister(r, sid);
    RegisteredInTable(r', key);
    SupersedingFields(r, sid, o);
    SupersedingFields(r, sid, r'.sessions[key]);
    SupersedingTracks(r, sid);
    hide Registered;
    if !IsRegistered(r, o) {
      assert Haunts(r, o);
    }
  }

  lemma SupersedingTracks(r: Room, sid: SessionId)
    requires Registered(r) && sid in r.table
    ensures Superseding(r, sid).remote == r.remote
  {}

  lemma SupersedingFields(r: Room, sid: SessionId, x: SessionId)
    requires Registered(r) && sid in r.table && x in r.table
    requires r.table[sid].edge.Key() in r.sessions ==> r.sessions[r.table[sid].edge.Key()] != sid
    ensures var r', key := Superseding(r, sid), r.table[sid].edge.Key();
      && x in r'.table && r'.table[x].edge == r.table[x].edge && r'.table[x].closed == r.table[x].closed
      && (x != sid ==> r'.table[x].prev == r.table[x].prev && r'.table[x].started == r.table[x].started)
      && (x == sid ==> r'.table[x].prev == if key in r.sessions then Some(r.sessions[key]) else None)
  {
    hide Superseding, Edge.Key;
    SupersedingRecords(r, sid, x);
  }

  /** The one thing a step must not do is register a session while a remote track is left of an earlier
      one of the same edge that is off the register and still to be closed. */
  ghost predicate Polite(r: Room, ev: Event) {
    ev.Establish? && ev.sid in r.table ==> Unhurried(r, r.table[ev.sid].edge.Key())
  }

  lemma InputKeepsCalm(r: Room, ev: Event, key: EdgeKey)
    requires Inv(r) && Registered(r) && Enabled(r, ev) && Polite(r, ev) && Calm(r, key)
    requires Registered(Input(r, ev))
    ensures Calm(Input(r, ev), key)
  {
    hide Calm, Fades, Closed, Superseding, Registered, Pre, Derived, Unhurried, WithEdges, Keyed, Dropped,
         ClassifyRemoteTrack,
         HasPrev, StillDesired;
    if ev.Establish? && StillDesired(r, r.table[ev.sid]) {
      SupersedingIsCalm(r, ev.sid, key);
    } else {
      InputFades(r, ev);
      InputIsQuieter(r, ev);
      hide Input;
      FadesKeepsCalm(r, Input(r, ev), key);
    }
  }

  lemma FewerTracksQuieter(r: Room, r': Room)
    requires forall k | k in r'.remote :: k in r.remote && r'.remote[k].origin == r.remote[k].origin
    ensures Quieter(r, r')
  {
    hide IsRegistered;
    forall k | k in r'.remote ensures HasTrack(r, r'.remote[k].origin) {
      assert r.remote[k].origin == r'.remote[k].origin;
    }
  }

  lemma TrackUpIsQuieter(r: Room, sid: SessionId, k: TrackKey, sp: Speaker)
    requires IsRegistered(r, sid) && sp.origin == sid
    ensures Quieter(r, r.(remote := r.remote[k := sp]))
  {
    hide Edge.Key;
    var r' := r.(remote := r.remote[k := sp]);
    forall j | j in r'.remote && j != k ensures HasTrack(r, r'.remote[j].origin) {
      assert r.remote[j].origin == r'.remote[j].origin;
    }
  }

  lemma InputIsQuieter(r: Room, ev: Event)
    requires Registered(r) && Enabled(r, ev) && !(ev.Establish? && StillDesired(r, r.table[ev.sid]))
    ensures Quieter(r, Input(r, ev))
  {
    hide Quieter, WithEdges, Keyed, Dropped, Superseding, StillDesired, Registered, IsRegistered, Edge.Key;
    match ev
    case TrackUp(sid, k, id, pub) =>
      if ClassifyRemoteTrack(r, sid, k) == Accept {
        TrackUpIsQuieter(r, sid, k, Speaker(id, pub, sid, {}));
      } else {
        FewerTracksQuieter(r, r);
      }
    case SetEdges(epoch, es) =>
      WithEdgesTracks(r, epoch, es);
      FewerTracksQuieter(r, Input(r, ev));
    case _ => FewerTracksQuieter(r, Input(r, ev));
  }

  lemma WithEdgesTracks(r: Room, epoch: nat, es: seq<Edge>)
    requires Registered(r)
    ensures Input(r, SetEdges(epoch, es)).remote == r.remote
  {}

  lemma RecomputedIsQuieter(r: Room, r': Room, now: int, demand: Demand)
    requires Registered(r) && Recomputed(r, r', now, demand)
    ensures Quieter(r, r')
  {
    RecomputedRest(r, r', now, demand);
    hide Recomputed, Registered;
    FewerTracksQuieter(r, r');
  }

  lemma StepKeepsCalm(r: Room, ev: Event, now: int, demand: Demand, r': Room, key: EdgeKey)
    requires Inv(r) && Step(r, ev, now, demand, r') && Polite(r, ev) && Calm(r, key)
    ensures Registered(r') && Calm(r', key)
  {
    StepKeepsInv(r, ev, now, demand, r');
    assert Registered(r');
    InputKeepsPre(r, ev);
    assert Registered(Input(r, ev));
    hide Calm, Fades, Inv, Pre, Input, Enabled, Polite, Registered, SameRegister;
    InputKeepsCalm(r, ev, key);
    if !Quiet(r, ev) {
      RecomputedRegister(Input(r, ev), r', now, demand);
      RecomputedStarts(Input(r, ev), r', now, demand);
      RecomputedIsQuieter(Input(r, ev), r', now, demand);
      hide Recomputed, Quieter;
      SameRegisterFades(Input(r, ev), r');
      FadesKeepsCalm(Input(r, ev), r', key);
    }
  }

  lemma RecomputedStarts(r: Room, r': Room, now: int, demand: Demand)
    requires Registered(r) && Recomputed(r, r', now, demand)
    ensures forall x | x in r.table :: x in r'.table && r'.table[x].started == r.table[x].started
  {
    hide Recomputed, Registered;
    forall x | x in r.table ensures x in r'.table && r'.table[x].started == r.table[x].started {
      RecomputedRecord(r, r', now, demand, x);
    }
  }

  lemma EchoIsNotCalm(r: Room, key: EdgeKey, k: TrackKey)
    requires Inv(r) && Echo(r, key, k)
    ensures !Calm(r, key)
  {
    EchoNeedsLingering(r, key, k);
    assert HasTrack(r, r.remote[k].origin);
    hide Inv, Edge.Key, Lingering;
  }

  lemma {:induction false} PoliteRunStaysCalm(states: seq<Room>, acts: seq<Act>, i: nat, key: EdgeKey)
    requires Run(states, acts) && i < |states|
    requires forall j | 0 <= j < |acts| :: Polite(states[j], acts[j].ev)
    ensures Inv(states[i]) && Registered(states[i]) && Calm(states[i], key)
  {
    hide Inv, Step, Registered, Calm, Polite;
    RunKeepsInv(states, acts, i);
    if i == 0 {
      NewRoomIsCalm(key);
    } else {
      PoliteRunStaysCalm(states, acts, i - 1, key);
      StepKeepsCalm(states[i - 1], acts[i - 1].ev, acts[i - 1].now, acts[i - 1].demand, states[i], key);
    }
  }

  lemma NewRoomIsCalm(key: EdgeKey)
    ensures Registered(NEW_ROOM) && Calm(NEW_ROOM, key)
  {}

  /** Across any run, reconnects and edge changes included, in which an edge is registered only when no
      remote track is left of its earlier sessions off the register: no session ever carries a track
      that came from that session or an earlier one of its edge. */
  lemma PoliteRunsNeverEcho(states: seq<Room>, acts: seq<Act>, i: nat, key: EdgeKey, k: TrackKey)
    requires Run(states, acts) && i < |states|
    requires forall j | 0 <= j < |acts| :: Polite(states[j], acts[j].ev)
    ensures !Echo(states[i], key, k)
  {
    PoliteRunStaysCalm(states, acts, i, key);
    hide Calm, Inv, Registered;
    if Echo(states[i], key, k) {
      EchoIsNotCalm(states[i], key, k);
    }
  }
}
