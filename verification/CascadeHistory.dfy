/** What a room's cascade state holds is what its events have said: each fact holds from the event that
    starts it to the event that ends it, and so does everything the sessions carry. */
module CascadeHistory {
  import opened Options
  import opened Demands
  import opened Tracks
  import opened CascadeRooms
  import opened CascadeRuns

  datatype Fact =
    | LeaseIs(lease: Lease)
    | EpochIs(epoch: nat)                                      // other than the initial 0
    | EdgeIs(key: EdgeKey, edge: Edge)
    | IsOn(key: EdgeKey, sid: SessionId)                       // sid is the registered session of that edge
    | IsClosed(sid: SessionId)
    | Asks(sid: SessionId, want: Demand)
    | LocalIs(k: TrackKey, pub: Pub)
    | RemoteIs(k: TrackKey, id: nat, pub: Pub, origin: SessionId)

  predicate Holds(r: Room, f: Fact) {
    match f
    case LeaseIs(l) => r.lease == Some(l)
    case EpochIs(e) => r.epoch == e != 0
    case EdgeIs(key, e) => key in r.edges && r.edges[key] == e
    case IsOn(key, sid) => key in r.sessions && r.sessions[key] == sid
    case IsClosed(sid) => sid in r.table && r.table[sid].closed
    case Asks(sid, w) => sid in r.table && r.table[sid].link.peerWantSeen && r.table[sid].link.peerWant == w
    case LocalIs(k, pub) => k in r.local && r.local[k] == pub
    case RemoteIs(k, id, pub, o) =>
      k in r.remote && r.remote[k].id == id && r.remote[k].pub == pub && r.remote[k].origin == o
  }

  // ---------------------------------------------------------------------------------------------
  // What an event says
  // ---------------------------------------------------------------------------------------------

  predicate IsKeyOf(key: EdgeKey, e: Edge) {
    key == e.parent + "|" + e.child
  }

  /** The last edge of the list with that key. */
  ghost predicate LastOf(es: seq<Edge>, key: EdgeKey, j: int) {
    0 <= j < |es| && IsKeyOf(key, es[j]) && forall m | j < m < |es| :: !IsKeyOf(key, es[m])
  }

  predicate TakesLease(r: Room, ev: Event) {
    ev.SetLease? && (r.lease.Some? ==> ev.lease.epoch >= r.lease.value.epoch)
  }

  predicate TakesEdges(r: Room, ev: Event) {
    ev.SetEdges? && ev.epoch >= r.epoch
  }

  /** An edge in force has the ends, the endpoint and the epoch the session was authorised for. */
  predicate TakesSession(r: Room, ev: Event) {
    && ev.Establish? && ev.sid in r.table
    && exists key | key in r.edges ::
         var e, f := r.edges[key], r.table[ev.sid].edge;
         e.parent == f.parent && e.child == f.child && e.endpoint == f.endpoint && e.epoch == f.epoch
  }

  /** The session is the registered one of its edge, and neither published here nor received over
      another session is the track. */
  predicate TakesTrack(r: Room, ev: Event) {
    && ev.TrackUp? && ev.k !in r.local && (ev.k in r.remote ==> r.remote[ev.k].origin == ev.sid)
    && exists key :: key in r.sessions && r.sessions[key] == ev.sid
  }

  predicate Closes(r: Room, ev: Event, sid: SessionId) {
    || ev == CloseSession(sid)
    || (ev.FinishEstablish? && ev.sid in r.table && r.table[ev.sid].prev == Some(sid))
    || (ev == Establish(sid) && !TakesSession(r, ev))
  }

  /** The new list keeps the session on: its last edge of that key has the same ends and endpoint. */
  ghost predicate Spares(r: Room, es: seq<Edge>, key: EdgeKey, sid: SessionId) {
    && sid in r.table
    && exists j | LastOf(es, key, j) ::
         && es[j].parent == r.table[sid].edge.parent && es[j].child == r.table[sid].edge.child
         && es[j].endpoint == r.table[sid].edge.endpoint
  }

  ghost predicate Starts(r: Room, ev: Event, f: Fact) {
    match f
    case LeaseIs(l) => TakesLease(r, ev) && ev.lease == l
    case EpochIs(e) => TakesEdges(r, ev) && ev.epoch == e != 0
    case EdgeIs(key, e) => TakesEdges(r, ev) && exists j :: LastOf(ev.es, key, j) && e == ev.es[j].(epoch := ev.epoch)
    case IsOn(key, sid) => TakesSession(r, ev) && ev.sid == sid && IsKeyOf(key, r.table[sid].edge)
    case IsClosed(sid) => Closes(r, ev, sid)
    case Asks(sid, w) => ev == PeerWant(sid, w)
    case LocalIs(k, pub) => ev == Publish(k, pub)
    case RemoteIs(k, id, pub, o) => TakesTrack(r, ev) && ev == TrackUp(o, k, id, pub)
  }

  /** The event, unless it starts f, makes f false. */
  ghost predicate Ends(r: Room, ev: Event, f: Fact) {
    match f
    case LeaseIs(_) => TakesLease(r, ev)
    case EpochIs(_) => TakesEdges(r, ev)
    case EdgeIs(_, _) => TakesEdges(r, ev)
    case IsOn(key, sid) =>
      || Closes(r, ev, sid)
      || (TakesSession(r, ev) && IsKeyOf(key, r.table[ev.sid].edge))
      || (TakesEdges(r, ev) && !Spares(r, ev.es, key, sid))
    case IsClosed(_) => false
    case Asks(sid, _) => ev.PeerWant? && ev.sid == sid
    case LocalIs(k, _) => (ev.Publish? && ev.k == k) || ev == Unpublish(k)
    case RemoteIs(k, id, _, o) => ev == TrackEnd(k, id) || Closes(r, ev, o) || (TakesTrack(r, ev) && ev.k == k)
  }

  /** Some event before i started f, and none since has ended it. */
  ghost predicate Said(states: seq<Room>, acts: seq<Act>, i: nat, f: Fact)
    requires i <= |acts| <= |states|
  {
    exists j :: 0 <= j < i && Starts(states[j], acts[j].ev, f) && forall m | j < m < i ::
        !Ends(states[m], acts[m].ev, f)
  }

  lemma SaidStep(states: seq<Room>, acts: seq<Act>, i: nat, f: Fact)
    requires i < |acts| <= |states|
    ensures Said(states, acts, i + 1, f) <==>
              Starts(states[i], acts[i].ev, f) || (Said(states, acts, i, f) && !Ends(states[i], acts[i].ev, f))
  {
    hide Starts, Ends;
    if Said(states, acts, i + 1, f) && !Starts(states[i], acts[i].ev, f) {
      var j :| 0 <= j < i + 1 && Starts(states[j], acts[j].ev, f)
               && forall m | j < m < i + 1 :: !Ends(states[m], acts[m].ev, f);
      assert j < i && !Ends(states[i], acts[i].ev, f);
    }
    if Said(states, acts, i, f) && !Ends(states[i], acts[i].ev, f) {
      var j :| 0 <= j < i && Starts(states[j], acts[j].ev, f) && forall m | j < m < i ::
            !Ends(states[m], acts[m].ev, f);
      assert forall m | j < m < i + 1 :: !Ends(states[m], acts[m].ev, f);
    }
  }

  // ---------------------------------------------------------------------------------------------
  // Event by event
  // ---------------------------------------------------------------------------------------------

  lemma KeyedLast(epoch: nat, es: seq<Edge>, key: EdgeKey)
    ensures key in Keyed(epoch, es) <==> exists j :: LastOf(es, key, j)
    ensures forall j | LastOf(es, key, j) :: key in Keyed(epoch, es) && Keyed(epoch, es)[key] == es[j].(epoch := epoch)
    decreases |es|
  {
    if es != [] {
      var last := |es| - 1;
      KeyedLast(epoch, es[..last], key);
      assert es[last].(epoch := epoch).Key() == key <==> IsKeyOf(key, es[last]);
      LastOfInit(es, key);
      hide IsKeyOf, LastOf, Edge.Key;
      if IsKeyOf(key, es[last]) {
        assert LastOf(es, key, last);
      } else if key in Keyed(epoch, es[..last]) {
        var j :| LastOf(es[..last], key, j);
        assert LastOf(es, key, j);
      }
    }
  }

  lemma LastOfInit(es: seq<Edge>, key: EdgeKey)
    requires es != []
    ensures var last := |es| - 1;
      forall j :: LastOf(es, key, j) <==> if IsKeyOf(key, es[last]) then j == last else LastOf(es[..last], key, j)
    ensures var init := es[..|es| - 1];
      forall j | LastOf(init, key, j) :: 0 <= j < |init| && init[j] == es[j]
  {
    hide IsKeyOf;
    var init := es[..|es| - 1];
    assert forall m | 0 <= m < |init| :: init[m] == es[m];
  }

  /** What closing session x leaves. */
  predicate Survives(f: Fact, x: SessionId) {
    !(f.IsOn? && f.sid == x) && !(f.RemoteIs? && f.origin == x)
  }

  lemma ReaderIn(r: Room, x: SessionId)
    requires Pre(r) && x in r.table
    ensures ReaderOk(r, x)
  {}

  lemma SessionIn(r: Room, x: SessionId)
    requires Pre(r) && x in r.table
    ensures SessionOk(r, x) && Registered(r)
  {}

  lemma OriginIn(r: Room, k: TrackKey)
    requires Pre(r) && k in r.remote
    ensures OriginOk(r, r.remote[k].origin)
  {}

  /** A closed session is off the register, and no track is left of it. */
  lemma ClosedHasNone(r: Room, x: SessionId)
    requires Pre(r) && x in r.table && r.table[x].closed
    ensures forall key | key in r.sessions :: r.sessions[key] != x
    ensures forall k | k in r.remote :: r.remote[k].origin != x
  {
    hide Pre, Edge.Key;
    SessionIn(r, x);
    forall k | k in r.remote ensures r.remote[k].origin != x {
      OriginIn(r, k);
    }
  }

  lemma ClosedParts(r: Room, x: SessionId)
    requires Registered(r) && x in r.table && !r.table[x].closed
    ensures var r' := Closed(r, x);
      && r' == r.(sessions := r'.sessions, remote := r'.remote, table := r.table[x := r'.table[x]],
           edgesUp := r'.edgesUp)
      && r'.table[x].closed && r'.table[x].link == r.table[x].link
      && (forall key :: key in r'.sessions <==> key in r.sessions && r.sessions[key] != x)
      && (forall key | key in r'.sessions :: r'.sessions[key] == r.sessions[key])
      && (forall k :: k in r'.remote <==> k in r.remote && r.remote[k].origin != x)
      && (forall k | k in r'.remote :: r'.remote[k] == r.remote[k])
  {
    hide Edge.Key;
  }

  lemma ClosedSays(r: Room, x: SessionId, f: Fact)
    requires Pre(r) && x in r.table
    ensures Holds(Closed(r, x), f) <==> f == IsClosed(x) || (Holds(r, f) && Survives(f, x))
  {
    SessionIn(r, x);
    hide Pre, Registered, SessionOk;
    if r.table[x].closed {
      ClosedHasNone(r, x);
    } else {
      ClosedParts(r, x);
      hide Closed;
    }
  }

  lemma TakesSessionIff(r: Room, sid: SessionId)
    requires Pre(r) && sid in r.table
    ensures TakesSession(r, Establish(sid)) <==> StillDesired(r, r.table[sid])
  {
    hide SessionsInv, OriginsInv, ReadersInv;
    var f := r.table[sid].edge;
    assert f.Key() == f.parent + "|" + f.child;
    if key :| key in r.edges && r.edges[key].parent == f.parent && r.edges[key].child == f.child
              && r.edges[key].endpoint == f.endpoint && r.edges[key].epoch == f.epoch {
      assert r.edges[key].Key() == key && r.edges[key].Key() == f.Key();
    }
  }

  lemma KeyIs(e: Edge, key: EdgeKey)
    ensures e.Key() == key <==> IsKeyOf(key, e)
  {}

  lemma SupersedingSays(r: Room, sid: SessionId, f: Fact)
    requires Pre(r) && Registered(r) && sid in r.table && !r.table[sid].started && !r.table[sid].closed
    ensures var key := r.table[sid].edge.Key();
      Holds(Superseding(r, sid), f) <==> f == IsOn(key, sid) || (Holds(r, f) && !(f.IsOn? && f.key == key))
  {
    hide Pre, Edge.Key, Registered;
    Newcome(r, sid);
    SupersedingRecords(r, sid, sid);
    if (f.IsClosed? || f.Asks?) && f.sid in r.table {
      SupersedingRecords(r, sid, f.sid);
    }
    SupersedingParts(r, sid);
    hide Superseding;
  }

  lemma Newcome(r: Room, sid: SessionId)
    requires Pre(r) && sid in r.table && !r.table[sid].started
    ensures r.table[sid].edge.Key() in r.sessions ==> r.sessions[r.table[sid].edge.Key()] != sid
  {
    Newcomer(r, sid);
  }

  lemma SupersedingParts(r: Room, sid: SessionId)
    requires Registered(r) && sid in r.table
    ensures var r' := Superseding(r, sid);
      && r' == r.(sessions := r.sessions[r.table[sid].edge.Key() := sid], table := r'.table, edgesUp := r'.edgesUp)
  {
    hide Edge.Key;
  }

  lemma OtherEvents(r: Room, ev: Event)
    ensures !ev.SetLease? ==> !TakesLease(r, ev)
    ensures !ev.SetEdges? ==> !TakesEdges(r, ev)
    ensures !ev.Establish? ==> !TakesSession(r, ev)
    ensures !ev.TrackUp? ==> !TakesTrack(r, ev)
    ensures forall x :: Closes(r, ev, x) ==> ev.CloseSession? || ev.FinishEstablish? || ev.Establish?
  {}

  lemma EstablishSays(r: Room, sid: SessionId, f: Fact)
    requires Pre(r) && Registered(r) && Enabled(r, Establish(sid))
    ensures var ev := Establish(sid);
      Holds(Input(r, ev), f) <==> Starts(r, ev, f) || (Holds(r, f) && !Ends(r, ev, f))
  {
    var s, ev := r.table[sid], Establish(sid);
    TakesSessionIff(r, sid);
    EstablishTable(r, sid, f);
    if StillDesired(r, s) {
      hide Pre, Superseding, TakesSession, StillDesired, Edge.Key, Registered, Starts, Ends, Holds;
      SupersedingSays(r, sid, f);
    } else {
      var r1 := r.(table := r.table[sid := s.(started := true)]);
      StartedIsPre(r, sid);
      hide Pre, Closed, TakesSession, StillDesired, Edge.Key, Registered, Starts, Ends, Holds;
      ClosedSays(r1, sid, f);
      Marked(r, sid, s.(started := true), f);
    }
  }

  lemma StartedIsPre(r: Room, sid: SessionId)
    requires Pre(r) && sid in r.table
    ensures Pre(r.(table := r.table[sid := r.table[sid].(started := true)]))
  {
    var s := r.table[sid].(started := true);
    ReaderIn(r, sid);
    hide Pre;
    assert ReaderOk(r.(table := r.table[sid := s]), sid);
    RecordKeepsPre(r, sid, s);
  }

  lemma EstablishTable(r: Room, sid: SessionId, f: Fact)
    requires sid in r.table
    ensures var ev, key := Establish(sid), r.table[sid].edge.Key();
      if TakesSession(r, ev)
      then (Starts(r, ev, f) <==> f == IsOn(key, sid)) && (Ends(r, ev, f) <==> f.IsOn? && f.key == key)
      else (Starts(r, ev, f) <==> f == IsClosed(sid)) && (Ends(r, ev, f) <==> !Survives(f, sid))
  {
    OtherEvents(r, Establish(sid));
    if f.IsOn? {
      KeyIs(r.table[sid].edge, f.key);
    }
    hide TakesSession, TakesTrack, TakesLease, TakesEdges, Edge.Key, IsKeyOf;
  }

  /** Neither its link nor whether it is closed changes in one record. */
  lemma Marked(r: Room, sid: SessionId, s: Session, f: Fact)
    requires sid in r.table && s.link == r.table[sid].link && s.closed == r.table[sid].closed
    ensures Holds(r.(table := r.table[sid := s]), f) <==> Holds(r, f)
  {}

  lemma FinishSays(r: Room, sid: SessionId, f: Fact)
    requires Pre(r) && Registered(r) && Enabled(r, FinishEstablish(sid))
    ensures var ev := FinishEstablish(sid);
      Holds(Input(r, ev), f) <==> Starts(r, ev, f) || (Holds(r, f) && !Ends(r, ev, f))
  {
    ReaderIn(r, sid);
    FinishTable(r, sid, f);
    hide Pre, Closed, Registered, Starts, Ends, Holds;
    if HasPrev(r, sid) {
      var o := r.table[sid].prev.value;
      ClosedSays(r, o, f);
      ClosedRecords(r, o, sid);
      var r1 := Closed(r, o);
      Marked(r1, sid, r1.table[sid].(reading := true), f);
    } else {
      Marked(r, sid, r.table[sid].(reading := true), f);
    }
  }

  lemma FinishTable(r: Room, sid: SessionId, f: Fact)
    requires sid in r.table
    ensures var ev, prev := FinishEstablish(sid), r.table[sid].prev;
      && (Starts(r, ev, f) <==> prev.Some? && f == IsClosed(prev.value))
      && (Ends(r, ev, f) <==> prev.Some? && !Survives(f, prev.value))
  {
    OtherEvents(r, FinishEstablish(sid));
    hide TakesSession, TakesTrack, TakesLease, TakesEdges;
  }

  lemma CloseSays(r: Room, sid: SessionId, f: Fact)
    requires Pre(r) && Registered(r) && Enabled(r, CloseSession(sid))
    ensures var ev := CloseSession(sid);
      Holds(Input(r, ev), f) <==> Starts(r, ev, f) || (Holds(r, f) && !Ends(r, ev, f))
  {
    ClosedSays(r, sid, f);
    CloseTable(r, sid, f);
    hide Pre, Registered, Closed, Holds, Starts, Ends;
  }

  lemma CloseTable(r: Room, sid: SessionId, f: Fact)
    ensures Starts(r, CloseSession(sid), f) <==> f == IsClosed(sid)
    ensures Ends(r, CloseSession(sid), f) <==> !Survives(f, sid)
  {
    OtherEvents(r, CloseSession(sid));
    hide TakesSession, TakesTrack, TakesLease, TakesEdges;
  }

  lemma EdgesSay(r: Room, epoch: nat, es: seq<Edge>, f: Fact)
    requires Pre(r) && Registered(r)
    ensures var ev := SetEdges(epoch, es);
      Holds(Input(r, ev), f) <==> Starts(r, ev, f) || (Holds(r, f) && !Ends(r, ev, f))
  {
    hide Pre, Edge.Key;
    var ev := SetEdges(epoch, es);
    OtherEvents(r, ev);
    hide TakesSession, TakesTrack, TakesLease, Closes;
    if epoch >= r.epoch {
      WithEdgesParts(r, epoch, Keyed(epoch, es));
      hide WithEdges;
      if f.IsOn? || f.EdgeIs? {
        KeyedLast(epoch, es, f.key);
      }
      if f.IsOn? && f.sid in r.table {
        SurvivesIff(r, epoch, es, f.key, f.sid);
      }
      hide Keyed, LastOf, Spares, CascadeRooms.Survives;
    }
  }

  lemma WithEdgesParts(r: Room, epoch: nat, next: map<EdgeKey, Edge>)
    requires Registered(r)
    ensures var r' := WithEdges(r, epoch, next);
      && r' == r.(epoch := epoch, edges := next, sessions := r'.sessions, table := r'.table)
      && r'.table.Keys == r.table.Keys
      && (forall x | x in r.table :: r'.table[x].link == r.table[x].link && r'.table[x].closed == r.table[x].closed)
      && (forall key :: key in r'.sessions <==>
            key in r.sessions && CascadeRooms.Survives(next, key, r.table[r.sessions[key]]))
      && (forall key | key in r'.sessions :: r'.sessions[key] == r.sessions[key])
  {
    hide Edge.Key, CascadeRooms.Survives;
  }

  lemma SurvivesIff(r: Room, epoch: nat, es: seq<Edge>, key: EdgeKey, sid: SessionId)
    requires sid in r.table
    ensures CascadeRooms.Survives(Keyed(epoch, es), key, r.table[sid]) <==> Spares(r, es, key, sid)
  {
    KeyedLast(epoch, es, key);
    hide Keyed, LastOf;
  }

  lemma TakesTrackIff(r: Room, ev: Event)
    requires Pre(r) && Registered(r) && ev.TrackUp? && ev.sid in r.table
    ensures TakesTrack(r, ev) <==> ClassifyRemoteTrack(r, ev.sid, ev.k) == Accept
  {
    SessionIn(r, ev.sid);
    hide Pre, Edge.Key;
  }

  lemma TrackUpSays(r: Room, sid: SessionId, k: TrackKey, id: nat, pub: Pub, f: Fact)
    requires Pre(r) && Registered(r) && Enabled(r, TrackUp(sid, k, id, pub))
    ensures var ev := TrackUp(sid, k, id, pub);
      Holds(Input(r, ev), f) <==> Starts(r, ev, f) || (Holds(r, f) && !Ends(r, ev, f))
  {
    var ev := TrackUp(sid, k, id, pub);
    TakesTrackIff(r, ev);
    hide Pre, Registered, ClassifyRemoteTrack, Holds;
    TrackUpTable(r, sid, k, id, pub, f);
    hide TakesTrack, Starts, Ends, Enabled;
    var r1 := r.(remote := r.remote[k := Speaker(id, pub, sid, {})]);
    assert Input(r, ev) == if TakesTrack(r, ev) then r1 else r;
    hide Input, Holds;
    TrackEntered(r, sid, k, id, pub, f);
  }

  lemma TrackEntered(r: Room, sid: SessionId, k: TrackKey, id: nat, pub: Pub, f: Fact)
    ensures Holds(r.(remote := r.remote[k := Speaker(id, pub, sid, {})]), f) <==>
              f == RemoteIs(k, id, pub, sid) || (Holds(r, f) && !(f.RemoteIs? && f.k == k))
  {}

  lemma TrackUpTable(r: Room, sid: SessionId, k: TrackKey, id: nat, pub: Pub, f: Fact)
    ensures var ev := TrackUp(sid, k, id, pub);
      && (Starts(r, ev, f) <==> TakesTrack(r, ev) && f == RemoteIs(k, id, pub, sid))
      && (Ends(r, ev, f) <==> TakesTrack(r, ev) && f.RemoteIs? && f.k == k)
  {
    OtherEvents(r, TrackUp(sid, k, id, pub));
    hide TakesTrack, TakesSession, TakesEdges, TakesLease, Closes;
  }

  lemma PublishSays(r: Room, k: TrackKey, pub: Pub, f: Fact)
    ensures Holds(r.(local := r.local[k := pub]), f) <==>
              Starts(r, Publish(k, pub), f) || (Holds(r, f) && !Ends(r, Publish(k, pub), f))
    ensures Holds(r.(local := r.local - {k}), f) <==>
              Starts(r, Unpublish(k), f) || (Holds(r, f) && !Ends(r, Unpublish(k), f))
  {
    OtherEvents(r, Publish(k, pub));
    OtherEvents(r, Unpublish(k));
    hide TakesTrack, TakesSession, TakesEdges, TakesLease, Closes;
  }

  lemma TrackEndSays(r: Room, k: TrackKey, id: nat, f: Fact)
    ensures Holds(if k in r.remote && r.remote[k].id == id then r.(remote := r.remote - {k}) else r, f) <==>
              Starts(r, TrackEnd(k, id), f) || (Holds(r, f) && !Ends(r, TrackEnd(k, id), f))
  {
    OtherEvents(r, TrackEnd(k, id));
    hide TakesTrack, TakesSession, TakesEdges, TakesLease, Closes;
  }

  lemma LeaseSays(r: Room, l: Lease, f: Fact)
    ensures Holds(if r.lease.Some? && l.epoch < r.lease.value.epoch then r else r.(lease := Some(l)), f) <==>
              Starts(r, SetLease(l), f) || (Holds(r, f) && !Ends(r, SetLease(l), f))
  {
    OtherEvents(r, SetLease(l));
    hide TakesTrack, TakesSession, TakesEdges, Closes;
  }

  lemma WantSays(r: Room, sid: SessionId, want: Demand, f: Fact)
    requires sid in r.table
    ensures Holds(WithWant(r, sid, want), f) <==>
              Starts(r, PeerWant(sid, want), f) || (Holds(r, f) && !Ends(r, PeerWant(sid, want), f))
  {
    OtherEvents(r, PeerWant(sid, want));
    hide TakesTrack, TakesSession, TakesEdges, TakesLease, Closes;
  }

  /** An event that changes none of this, or only makes a record nobody has asked anything of. */
  lemma IdleSays(r: Room, ev: Event, f: Fact)
    requires ev.DemandChange? || ev.Watchdog? || ev.Handshake?
    ensures !Starts(r, ev, f) && !Ends(r, ev, f)
  {
    OtherEvents(r, ev);
    hide TakesTrack, TakesSession, TakesEdges, TakesLease, Closes;
  }

  lemma NewRecordSays(r: Room, sid: SessionId, s: Session, f: Fact)
    requires sid !in r.table && !s.link.peerWantSeen && !s.closed
    ensures Holds(r.(table := r.table[sid := s]), f) <==> Holds(r, f)
  {}

  lemma InputSays(r: Room, ev: Event, f: Fact)
    requires Pre(r) && Registered(r) && Enabled(r, ev)
    ensures Holds(Input(r, ev), f) <==> Starts(r, ev, f) || (Holds(r, f) && !Ends(r, ev, f))
  {
    hide Pre, Registered, Holds, Starts, Ends, Closed, Superseding, StillDesired, WithEdges, Keyed, HasPrev,
         ClassifyRemoteTrack, WithWant;
    match ev
    case SetEdges(epoch, es) => EdgesSay(r, epoch, es, f);
    case Establish(sid) => EstablishSays(r, sid, f);
    case FinishEstablish(sid) => FinishSays(r, sid, f);
    case TrackUp(sid, k, id, pub) => TrackUpSays(r, sid, k, id, pub, f);
    case CloseSession(sid) => CloseSays(r, sid, f);
    case SetLease(l) => LeaseSays(r, l, f);
    case PeerWant(sid, want) => WantSays(r, sid, want, f);
    case TrackEnd(k, id) => TrackEndSays(r, k, id, f);
    case Publish(k, pub) => PublishSays(r, k, pub, f);
    case Unpublish(k) => PublishSays(r, k, Pub("", Audio), f);
    case Handshake(sid, _) =>
      IdleSays(r, ev, f);
      NewRecordSays(r, sid, Input(r, ev).table[sid], f);
    case DemandChange => IdleSays(r, ev, f);
    case Watchdog(_) => IdleSays(r, ev, f);
  }

  /** A recomputation touches none of this. */
  lemma RecomputedSays(r: Room, r': Room, now: int, demand: Demand, f: Fact)
    requires Registered(r) && Recomputed(r, r', now, demand)
    ensures Holds(r', f) <==> Holds(r, f)
  {
    RecomputedRest(r, r', now, demand);
    if (f.IsClosed? || f.Asks?) && f.sid in r.table {
      RecomputedRecord(r, r', now, demand, f.sid);
    }
    hide Recomputed, Registered;
  }

  lemma StepSays(r: Room, ev: Event, now: int, demand: Demand, r': Room, f: Fact)
    requires Inv(r) && Step(r, ev, now, demand, r')
    ensures Holds(r', f) <==> Starts(r, ev, f) || (Holds(r, f) && !Ends(r, ev, f))
  {
    assert Pre(r) && Registered(r) && Enabled(r, ev);
    InputSays(r, ev, f);
    hide Pre, Holds, Starts, Ends, Input, Enabled, Recomputed, Registered, Derived;
    if !Quiet(r, ev) {
      RecomputedSays(Input(r, ev), r', now, demand, f);
    }
  }

  /** In every run each fact holds exactly if an event has started it that no later event has ended. */
  lemma {:induction false} HistoryIsExact(states: seq<Room>, acts: seq<Act>, i: nat, f: Fact)
    requires Run(states, acts) && i < |states|
    ensures Holds(states[i], f) <==> Said(states, acts, i, f)
  {
    hide Inv, Step, Holds, Starts, Ends, Said;
    if i == 0 {
      NothingSaid(states, acts, f);
    } else {
      HistoryIsExact(states, acts, i - 1, f);
      RunKeepsInv(states, acts, i - 1);
      assert Step(states[i - 1], acts[i - 1].ev, acts[i - 1].now, acts[i - 1].demand, states[i - 1 + 1]);
      StepSays(states[i - 1], acts[i - 1].ev, acts[i - 1].now, acts[i - 1].demand, states[i], f);
      SaidStep(states, acts, i - 1, f);
    }
  }

  lemma NothingSaid(states: seq<Room>, acts: seq<Act>, f: Fact)
    requires |acts| <= |states| && 0 < |states| && states[0] == NEW_ROOM
    ensures !Holds(states[0], f) && !Said(states, acts, 0, f)
  {}

  // ---------------------------------------------------------------------------------------------
  // In terms of the events
  // ---------------------------------------------------------------------------------------------

  /** Audio is wanted by the audio half, both screen kinds by the screen half. */
  predicate IsWanted(w: Demand, pub: Pub) {
    match pub.kind
    case Audio => w.audio.Wants(pub.uid)
    case Screen => w.screen.Wants(pub.uid)
    case ScreenAudio => w.screen.Wants(pub.uid)
  }

  /** What has been said of a session's want and of one key is what the room holds. */
  lemma SaidOf(states: seq<Room>, acts: seq<Act>, i: nat, sid: SessionId, k: TrackKey)
    requires Run(states, acts) && i < |states| && sid in states[i].table
    ensures |states| == |acts| + 1
    ensures var r := states[i];
      && (forall w :: Said(states, acts, i, Asks(sid, w)) <==>
            r.table[sid].link.peerWantSeen && r.table[sid].link.peerWant == w)
      && (forall pub :: Said(states, acts, i, LocalIs(k, pub)) <==> k in r.local && r.local[k] == pub)
      && (forall id, pub, o :: Said(states, acts, i, RemoteIs(k, id, pub, o)) <==>
            k in r.remote && r.remote[k].id == id && r.remote[k].pub == pub && r.remote[k].origin == o)
  {
    assert |states| == |acts| + 1;
    hide Run, Said;
    var r := states[i];
    forall w ensures Said(states, acts, i, Asks(sid, w)) <==> Holds(r, Asks(sid, w)) {
      HistoryIsExact(states, acts, i, Asks(sid, w));
    }
    forall pub ensures Said(states, acts, i, LocalIs(k, pub)) <==> Holds(r, LocalIs(k, pub)) {
      HistoryIsExact(states, acts, i, LocalIs(k, pub));
    }
    forall id, pub, o
      ensures Said(states, acts, i, RemoteIs(k, id, pub, o)) <==> Holds(r, RemoteIs(k, id, pub, o))
    {
      HistoryIsExact(states, acts, i, RemoteIs(k, id, pub, o));
    }
  }

  /** What a registered session carries in any reachable state, while forwarding counts as authorised: what
      the last want of its peer accepts of the tracks last published here and not withdrawn, and of those
      that came up over another session, neither ended nor closed since. */
  lemma CarriedFollowsEvents(states: seq<Room>, acts: seq<Act>, i: nat, key: EdgeKey, sid: SessionId, k: TrackKey)
    requires Run(states, acts) && i < |states| && Said(states, acts, i, IsOn(key, sid))
    ensures sid in states[i].table
    ensures k in states[i].table[sid].out <==>
              && states[i].lastAllowed
              && exists w | Said(states, acts, i, Asks(sid, w)) ::
                   || (exists pub :: Said(states, acts, i, LocalIs(k, pub)) && IsWanted(w, pub))
                   || (exists id, pub, o ::
                         Said(states, acts, i, RemoteIs(k, id, pub, o)) && o != sid && IsWanted(w, pub))
  {
    HistoryIsExact(states, acts, i, IsOn(key, sid));
    OutTracksStayExact(states, acts, i, key, k);
    SaidOf(states, acts, i, sid, k);
    hide Run, Said;
    var r := states[i];
    if k in r.table[sid].out {
      var w := r.table[sid].link.peerWant;
      assert Said(states, acts, i, Asks(sid, w));
      assert k in r.local ==> Said(states, acts, i, LocalIs(k, r.local[k]));
      assert k in r.remote ==> Said(states, acts, i, RemoteIs(k, r.remote[k].id, r.remote[k].pub, r.remote[k].origin));
    }
  }

  /** The end of the track object registered under k. */
  predicate EndsTrack(r: Room, ev: Event, k: TrackKey) {
    ev.TrackEnd? && ev.k == k && k in r.remote && r.remote[k].id == ev.id
  }

  /** A remote track stays, from the session it came over, until it ends or that session is closed. */
  lemma {:induction false} TrackOutlasts(states: seq<Room>, acts: seq<Act>, i: nat, j: nat, k: TrackKey, o: SessionId)
    requires Run(states, acts) && i <= j < |states| && k in states[i].remote && states[i].remote[k].origin == o
    requires forall m | i <= m < j :: !EndsTrack(states[m], acts[m].ev, k) && !Closes(states[m], acts[m].ev, o)
    ensures k in states[j].remote && states[j].remote[k].origin == o
    decreases j
  {
    hide Step, EndsTrack, Closes;
    if i < j {
      TrackOutlasts(states, acts, i, j - 1, k, o);
      RunKeepsInv(states, acts, j - 1);
      assert Step(states[j - 1], acts[j - 1].ev, acts[j - 1].now, acts[j - 1].demand, states[j - 1 + 1]);
      TrackLasts(states[j - 1], acts[j - 1].ev, acts[j - 1].now, acts[j - 1].demand, states[j], k, o);
    }
  }

  lemma TrackLasts(r: Room, ev: Event, now: int, demand: Demand, r': Room, k: TrackKey, o: SessionId)
    requires Inv(r) && Step(r, ev, now, demand, r') && k in r.remote && r.remote[k].origin == o
    requires !EndsTrack(r, ev, k) && !Closes(r, ev, o)
    ensures k in r'.remote && r'.remote[k].origin == o
  {
    hide Inv, Step, Closes;
    var f := RemoteIs(k, r.remote[k].id, r.remote[k].pub, o);
    StepSays(r, ev, now, demand, r', f);
    if TakesTrack(r, ev) && ev.k == k {
      StepSays(r, ev, now, demand, r', RemoteIs(k, ev.id, ev.pub, ev.sid));
    }
  }
}
