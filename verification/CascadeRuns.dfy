/** Every run of one room's cascade state: which sessions may be registered, when forwarding is
    authorised, and why a track is not sent back over the edge it came from. */
module CascadeRuns {
  import opened Options
  import opened Demands
  import opened CascadeRooms
  import Net = WantNetwork

  datatype Event =
    | SetLease(lease: Lease)
    | SetEdges(epoch: nat, es: seq<Edge>)            // dropped sessions are closed by CloseSession events
    | Handshake(sid: SessionId, key: EdgeKey)        // authorised against the edges of that moment
    | Establish(sid: SessionId)                      // edgeEstablished up to its recompute
    | FinishEstablish(sid: SessionId)                // its deferred close, then the read loop starts
    | PeerWant(sid: SessionId, want: Demand)
    | TrackUp(sid: SessionId, k: TrackKey, id: nat, pub: Pub)
    | TrackEnd(k: TrackKey, id: nat)
    | CloseSession(sid: SessionId)
    | Publish(k: TrackKey, pub: Pub)
    | Unpublish(k: TrackKey)
    | DemandChange
    | Watchdog(seen: int)

  ghost predicate Enabled(r: Room, ev: Event) {
    match ev
    case Handshake(sid, key) => sid !in r.table && key in r.edges
    case Establish(sid) => sid in r.table && !r.table[sid].started && !r.table[sid].closed
    case FinishEstablish(sid) => sid in r.table && r.table[sid].started && !r.table[sid].reading
    case PeerWant(sid, _) => sid in r.table && r.table[sid].reading && !r.table[sid].closed
    case TrackUp(sid, _, _, _) => sid in r.table && r.table[sid].reading
    case CloseSession(sid) => sid in r.table && r.table[sid].started
    case _ => true
  }

  predicate HasPrev(r: Room, sid: SessionId)
    requires sid in r.table
  {
    r.table[sid].prev.Some? && r.table[sid].prev.value in r.table
  }

  /** The state an event leads to before the recomputation it triggers. */
  ghost function Input(r: Room, ev: Event): Room
    requires Enabled(r, ev) && Registered(r)
  {
    match ev
    case SetLease(l) => if r.lease.Some? && l.epoch < r.lease.value.epoch then r else r.(lease := Some(l))
    case SetEdges(epoch, es) => if epoch < r.epoch then r else WithEdges(r, epoch, Keyed(epoch, es))
    case Handshake(sid, key) =>
      r.(table := r.table[sid := Session(r.edges[key], false, false, false, false, false, None, Net.NEW_LINK, map[])])
    case Establish(sid) =>
      if StillDesired(r, r.table[sid]) then Superseding(r, sid)
      else Closed(r.(table := r.table[sid := r.table[sid].(started := true)]), sid)
    case FinishEstablish(sid) =>
      var r1 := if HasPrev(r, sid) then Closed(r, r.table[sid].prev.value) else r;
      r1.(table := r1.table[sid := r1.table[sid].(reading := true)])
    case PeerWant(sid, want) => WithWant(r, sid, want)
    case TrackUp(sid, k, id, pub) =>
      if ClassifyRemoteTrack(r, sid, k) == Accept then r.(remote := r.remote[k := Speaker(id, pub, sid, {})]) else r
    case TrackEnd(k, id) => if k in r.remote && r.remote[k].id == id then r.(remote := r.remote - {k}) else r
    case CloseSession(sid) => Closed(r, sid)
    case Publish(k, pub) => r.(local := r.local[k := pub])
    case Unpublish(k) => r.(local := r.local - {k})
    case DemandChange => r
    case Watchdog(_) => r
  }

  /** Events that stop short of a recomputation: refused ones, those that touch nothing in use, and
      the replacement of the edges, whose recomputations come with the closes that follow it. */
  ghost predicate Quiet(r: Room, ev: Event)
    requires Enabled(r, ev)
  {
    match ev
    case SetLease(l) => r.lease.Some? && l.epoch < r.lease.value.epoch
    case SetEdges(_, _) => true
    case Handshake(_, _) => true
    case FinishEstablish(sid) =>
      !HasPrev(r, sid) || r.table[r.table[sid].prev.value].closed
    case TrackUp(sid, k, _, _) => ClassifyRemoteTrack(r, sid, k) != Accept
    case CloseSession(sid) => r.table[sid].closed
    case Watchdog(seen) => ForwardingAllowed(r, seen) == r.lastAllowed
    case _ => false
  }

  ghost predicate Step(r: Room, ev: Event, now: int, demand: Demand, r': Room) {
    && Registered(r) && Enabled(r, ev)
    && if Quiet(r, ev) then r' == Input(r, ev)
       else Registered(Input(r, ev)) && Recomputed(Input(r, ev), r', now, demand)
  }

  // ---------------------------------------------------------------------------------------------
  // What holds in every reachable state
  // ---------------------------------------------------------------------------------------------

  /** Dropped by a change of the edges and not yet closed: still up, no longer registered. */
  function Leaving(r: Room): set<SessionId> {
    set sid | sid in r.table && r.table[sid].established && !IsRegistered(r, sid)
  }

  ghost predicate SessionsInv(r: Room) {
    && Registered(r)
    && (forall sid | sid in r.table :: SessionOk(r, sid))
    && r.edgesUp == |r.sessions| + |Leaving(r)|
  }

  /** A registered session is up, and one that is up has been started and is not closed. */
  ghost predicate SessionOk(r: Room, sid: SessionId)
    requires sid in r.table
  {
    var s := r.table[sid];
    (IsRegistered(r, sid) ==> s.established) && (s.established ==> !s.closed && s.started)
  }

  ghost predicate EdgesInv(r: Room) {
    && (forall key | key in r.edges :: r.edges[key].Key() == key && r.edges[key].epoch == r.epoch)
    && (forall key | key in r.sessions :: MatchesEdge(r, key))
  }

  /** The session registered for key is of the current edge: same ends, same endpoint, same epoch. */
  ghost predicate MatchesEdge(r: Room, key: EdgeKey) {
    && key in r.sessions && r.sessions[key] in r.table && key in r.edges
    && SameEdge(r.edges[key], r.table[r.sessions[key]].edge)
    && r.table[r.sessions[key]].edge.epoch == r.epoch
  }

  ghost predicate Superseded(r: Room, o: SessionId) {
    exists sid :: sid in r.table && r.table[sid].prev == Some(o)
  }

  /** Remote tracks come from sessions that are up, or superseded and not closed yet. */
  ghost predicate OriginsInv(r: Room) {
    forall k | k in r.remote :: OriginOk(r, r.remote[k].origin)
  }

  ghost predicate OriginOk(r: Room, o: SessionId) {
    o in r.table && !r.table[o].closed && (r.table[o].established || Superseded(r, o))
  }

  /** A session reads only after the one it superseded is closed, and has a want only if it reads. */
  ghost predicate ReadersInv(r: Room) {
    forall sid | sid in r.table :: ReaderOk(r, sid)
  }

  ghost predicate ReaderOk(r: Room, sid: SessionId)
    requires sid in r.table
  {
    var s := r.table[sid];
    && (s.link.peerWantSeen ==> s.reading)
    && (s.reading ==> s.started)
    && (s.prev.Some? ==>
          && s.started && s.prev.value != sid && s.prev.value in r.table && r.table[s.prev.value].started
          && r.table[s.prev.value].edge.Key() == s.edge.Key()
          && (s.reading ==> r.table[s.prev.value].closed))
  }

  /** What other sessions rely on only ever grows. */
  ghost predicate Later(s: Session, s': Session) {
    s'.edge.Key() == s.edge.Key() && (s.started ==> s'.started) && (s.closed ==> s'.closed)
  }

  lemma ReaderStays(r: Room, r': Room, sid: SessionId)
    requires sid in r.table && sid in r'.table && ReaderOk(r, sid)
    requires forall x | x in r.table :: x in r'.table && Later(r.table[x], r'.table[x])
    requires r'.table[sid].prev == r.table[sid].prev && r'.table[sid].reading == r.table[sid].reading
    requires r'.table[sid].link.peerWantSeen == r.table[sid].link.peerWantSeen
    ensures ReaderOk(r', sid)
  {
    hide Edge.Key;
  }

  ghost predicate Pre(r: Room) {
    SessionsInv(r) && EdgesInv(r) && OriginsInv(r) && ReadersInv(r)
  }

  /** The session is authorised exactly as last computed, and carries exactly what it should. */
  ghost predicate UpToDate(r: Room, key: EdgeKey)
    requires Registered(r) && key in r.sessions
  {
    var s := r.table[r.sessions[key]];
    s.active == r.lastAllowed && s.out.Keys == Desired(r, r.sessions[key], s, r.lastAllowed)
  }

  /** What the last recomputation left behind still describes the current state. */
  ghost predicate Derived(r: Room)
    requires Registered(r)
  {
    forall key | key in r.sessions :: UpToDate(r, key)
  }

  ghost predicate Inv(r: Room) {
    Pre(r) && Derived(r)
  }

  // ---------------------------------------------------------------------------------------------
  // Closing
  // ---------------------------------------------------------------------------------------------

  lemma RemoveKey(m: map<EdgeKey, SessionId>, k: EdgeKey)
    requires k in m
    ensures |m - {k}| == |m| - 1
  {
    assert (m - {k}).Keys == m.Keys - {k};
  }

  lemma RemoveOne(s: set<SessionId>, x: SessionId)
    ensures |s - {x}| == if x in s then |s| - 1 else |s|
  {
    if x !in s {
      assert s - {x} == s;
    }
  }

  lemma ClosedKeepsOk(r: Room, sid: SessionId, x: SessionId)
    requires Registered(r) && sid in r.table && x in r.table && SessionOk(r, x)
    ensures x in Closed(r, sid).table && SessionOk(Closed(r, sid), x)
  {
    hide Edge.Key;
  }

  lemma ClosedLeaving(r: Room, sid: SessionId)
    requires Registered(r) && sid in r.table && SessionOk(r, sid)
    ensures Registered(Closed(r, sid)) && Leaving(Closed(r, sid)) == Leaving(r) - {sid}
  {
    hide Edge.Key;
  }

  lemma ClosedCounts(r: Room, sid: SessionId)
    requires Registered(r) && sid in r.table && SessionOk(r, sid) && r.edgesUp == |r.sessions| + |Leaving(r)|
    ensures var r' := Closed(r, sid); Registered(r') && r'.edgesUp == |r'.sessions| + |Leaving(r')|
  {
    ClosedLeaving(r, sid);
    hide Edge.Key;
    RemoveOne(Leaving(r), sid);
    if IsRegistered(r, sid) {
      RemoveKey(r.sessions, r.table[sid].edge.Key());
    }
  }

  lemma ClosedKeepsSessions(r: Room, sid: SessionId)
    requires SessionsInv(r) && sid in r.table
    ensures SessionsInv(Closed(r, sid))
  {
    hide Registered, SessionOk;
    ClosedCounts(r, sid);
    assert Closed(r, sid).table.Keys == r.table.Keys;
    hide Closed, Leaving;
    forall x: SessionId | x in r.table ensures SessionOk(Closed(r, sid), x) {
      ClosedKeepsOk(r, sid, x);
    }
  }

  lemma SupersededStays(r: Room, r': Room)
    requires forall x: SessionId | x in r.table :: x in r'.table && r'.table[x].prev == r.table[x].prev
    ensures forall o: SessionId | Superseded(r, o) :: Superseded(r', o)
  {
    forall o: SessionId | Superseded(r, o) ensures Superseded(r', o) {
      var x :| x in r.table && r.table[x].prev == Some(o);
      assert r'.table[x].prev == Some(o);
    }
  }

  lemma ClosedKeepsOrigins(r: Room, sid: SessionId)
    requires OriginsInv(r) && sid in r.table
    ensures OriginsInv(Closed(r, sid))
  {
    var r' := Closed(r, sid);
    SupersededStays(r, r');
    forall k | k in r'.remote ensures OriginOk(r', r'.remote[k].origin) {
      assert OriginOk(r, r.remote[k].origin);
    }
  }

  lemma ClosedKeepsReaders(r: Room, sid: SessionId)
    requires ReadersInv(r) && sid in r.table
    ensures ReadersInv(Closed(r, sid))
  {
    hide Edge.Key, ReaderOk;
    var r' := Closed(r, sid);
    forall x: SessionId | x in r'.table ensures ReaderOk(r', x) {
      ReaderStays(r, r', x);
    }
  }

  lemma ClosedKeepsEdges(r: Room, sid: SessionId)
    requires Registered(r) && EdgesInv(r) && sid in r.table
    ensures EdgesInv(Closed(r, sid))
  {
    hide Edge.Key, SameEdge;
    var r' := Closed(r, sid);
    forall key | key in r'.sessions ensures MatchesEdge(r', key) {
      assert MatchesEdge(r, key);
    }
  }

  lemma ClosedKeepsPre(r: Room, sid: SessionId)
    requires Pre(r) && sid in r.table
    ensures Pre(Closed(r, sid))
  {
    ClosedKeepsSessions(r, sid);
    ClosedKeepsOrigins(r, sid);
    ClosedKeepsReaders(r, sid);
    ClosedKeepsEdges(r, sid);
  }

  // ---------------------------------------------------------------------------------------------
  // Replacing the edges
  // ---------------------------------------------------------------------------------------------

  lemma {:induction false} KeyedIsKeyed(epoch: nat, es: seq<Edge>, key: EdgeKey)
    requires key in Keyed(epoch, es)
    ensures Keyed(epoch, es)[key].Key() == key && Keyed(epoch, es)[key].epoch == epoch
    decreases |es|
  {
    hide Edge.Key;
    var e := es[|es| - 1].(epoch := epoch);
    if key != e.Key() {
      KeyedIsKeyed(epoch, es[..|es| - 1], key);
    }
  }

  /** Replacing edges touches only the edge of a record, never its key. */
  lemma WithEdgesRecord(r: Room, epoch: nat, next: map<EdgeKey, Edge>, sid: SessionId)
    requires Registered(r) && sid in r.table && forall key | key in next :: next[key].Key() == key
    ensures var r' := WithEdges(r, epoch, next);
      && sid in r'.table && r'.table[sid] == r.table[sid].(edge := r'.table[sid].edge)
      && r'.table[sid].edge.Key() == r.table[sid].edge.Key()
      && (IsRegistered(r', sid) <==> IsRegistered(r, sid) && sid !in Dropped(r, next))
  {
    hide Edge.Key, SameEdge;
    if IsRegistered(r, sid) {
      SurvivorKeepsKey(r, next, sid);
    }
  }

  lemma WithEdgesCounts(r: Room, epoch: nat, next: map<EdgeKey, Edge>)
    requires Registered(r)
    ensures |r.sessions| == |WithEdges(r, epoch, next).sessions| + |Dropped(r, next)|
  {
    hide Edge.Key, Survives;
    var kept := WithEdges(r, epoch, next).sessions;
    var gone := set key | key in r.sessions && !Survives(next, key, r.table[r.sessions[key]]);
    DroppedByKey(r, next, gone);
    SameSizeByKey(r, gone, Dropped(r, next));
    hide Registered;
    SplitKeys(r.sessions, kept, gone);
  }

  lemma SplitKeys(whole: map<EdgeKey, SessionId>, kept: map<EdgeKey, SessionId>, gone: set<EdgeKey>)
    requires kept.Keys + gone == whole.Keys && kept.Keys !! gone
    ensures |whole| == |kept| + |gone|
  {
    assert |whole.Keys| == |kept.Keys| + |gone|;
  }

  lemma DroppedByKey(r: Room, next: map<EdgeKey, Edge>, gone: set<EdgeKey>)
    requires Registered(r)
    requires forall key :: key in gone <==> key in r.sessions && !Survives(next, key, r.table[r.sessions[key]])
    ensures forall sid: SessionId :: sid in Dropped(r, next) <==>
              IsRegistered(r, sid) && r.table[sid].edge.Key() in gone
  {
    hide Edge.Key, Survives;
  }

  lemma WithEdgesKeepsOk(r: Room, epoch: nat, next: map<EdgeKey, Edge>, sid: SessionId)
    requires Registered(r) && sid in r.table && SessionOk(r, sid)
    requires forall key | key in next :: next[key].Key() == key
    ensures sid in WithEdges(r, epoch, next).table && SessionOk(WithEdges(r, epoch, next), sid)
  {
    WithEdgesRecord(r, epoch, next, sid);
    hide WithEdges, Dropped, IsRegistered, Edge.Key;
  }

  /** The dropped sessions join those on their way out. */
  lemma WithEdgesLeaving(r: Room, epoch: nat, next: map<EdgeKey, Edge>)
    requires Registered(r) && forall sid | sid in r.table :: SessionOk(r, sid)
    requires forall key | key in next :: next[key].Key() == key
    ensures Leaving(WithEdges(r, epoch, next)) == Leaving(r) + Dropped(r, next) && Leaving(r) !! Dropped(r, next)
  {
    var r' := WithEdges(r, epoch, next);
    forall sid: SessionId ensures sid in Leaving(r') <==> sid in Leaving(r) || sid in Dropped(r, next) {
      if sid in r.table {
        WithEdgesRecord(r, epoch, next, sid);
        assert SessionOk(r, sid);
        assert sid in Dropped(r, next) ==> IsRegistered(r, sid);
        hide WithEdges, Dropped, IsRegistered, Edge.Key;
      }
    }
  }

  lemma WithEdgesKeepsSessions(r: Room, epoch: nat, next: map<EdgeKey, Edge>)
    requires SessionsInv(r)
    requires forall key | key in next :: next[key].Key() == key
    ensures SessionsInv(WithEdges(r, epoch, next))
  {
    hide Edge.Key, Survives, SessionOk;
    var r' := WithEdges(r, epoch, next);
    WithEdgesCounts(r, epoch, next);
    WithEdgesRegister(r, epoch, next);
    WithEdgesLeaving(r, epoch, next);
    assert r'.edgesUp == r.edgesUp && r'.table.Keys == r.table.Keys;
    hide WithEdges, Dropped, Registered, Leaving;
    assert |Leaving(r')| == |Leaving(r)| + |Dropped(r, next)|;
    forall sid: SessionId | sid in r.table ensures SessionOk(r', sid) {
      WithEdgesKeepsOk(r, epoch, next, sid);
    }
  }

  lemma WithEdgesRegister(r: Room, epoch: nat, next: map<EdgeKey, Edge>)
    requires Registered(r) && forall key | key in next :: next[key].Key() == key
    ensures Registered(WithEdges(r, epoch, next))
  {
    hide Edge.Key;
    var r' := WithEdges(r, epoch, next);
    forall key | key in r'.sessions
      ensures r'.sessions[key] in r'.table && r'.table[r'.sessions[key]].edge.Key() == key
    {
      WithEdgesRecord(r, epoch, next, r.sessions[key]);
    }
  }

  lemma SurvivorKeepsKey(r: Room, next: map<EdgeKey, Edge>, sid: SessionId)
    requires IsRegistered(r, sid) && forall key | key in next :: next[key].Key() == key
    ensures var s := r.table[sid]; Survives(next, s.edge.Key(), s) ==> next[s.edge.Key()].Key() == s.edge.Key()
  {}

  /** Registered sessions and their keys are in one-to-one correspondence. */
  lemma {:induction false} SameSizeByKey(r: Room, keys: set<EdgeKey>, sids: set<SessionId>)
    requires Registered(r) && keys <= r.sessions.Keys
    requires forall sid :: sid in sids <==> IsRegistered(r, sid) && r.table[sid].edge.Key() in keys
    ensures |keys| == |sids|
    decreases keys
  {
    hide Edge.Key;
    if key :| key in keys {
      var sid := r.sessions[key];
      assert sid in sids;
      forall x ensures x in sids - {sid} <==> IsRegistered(r, x) && r.table[x].edge.Key() in keys - {key} {}
      SameSizeByKey(r, keys - {key}, sids - {sid});
    } else {
      assert sids == {};
    }
  }

  lemma WithEdgesKeepsRest(r: Room, epoch: nat, next: map<EdgeKey, Edge>)
    requires SessionsInv(r) && OriginsInv(r) && ReadersInv(r)
    requires forall key | key in next :: next[key].Key() == key && next[key].epoch == epoch
    ensures var r' := WithEdges(r, epoch, next); EdgesInv(r') && OriginsInv(r') && ReadersInv(r')
  {
    hide Edge.Key;
    var r' := WithEdges(r, epoch, next);
    forall sid: SessionId | sid in r.table
      ensures r'.table[sid] == r.table[sid].(edge := r'.table[sid].edge)
      ensures r'.table[sid].edge.Key() == r.table[sid].edge.Key()
    {
      WithEdgesRecord(r, epoch, next, sid);
    }
    WithEdgesMatch(r, epoch, next);
    SupersededStays(r, r');
    assert r'.remote == r.remote && r'.table.Keys == r.table.Keys;
    hide WithEdges, Superseded, MatchesEdge, ReaderOk;
    forall x: SessionId | x in r'.table ensures ReaderOk(r', x) {
      ReaderStays(r, r', x);
    }
    forall k | k in r'.remote ensures OriginOk(r', r'.remote[k].origin) {
      assert OriginOk(r, r.remote[k].origin);
    }
  }

  lemma WithEdgesMatch(r: Room, epoch: nat, next: map<EdgeKey, Edge>)
    requires Registered(r)
    requires forall key | key in next :: next[key].Key() == key && next[key].epoch == epoch
    ensures EdgesInv(WithEdges(r, epoch, next))
  {
    hide Edge.Key;
    var r' := WithEdges(r, epoch, next);
    forall key | key in r'.sessions ensures MatchesEdge(r', key) {
      assert IsRegistered(r, r.sessions[key]);
    }
  }

  lemma SetEdgesKeepsPre(r: Room, epoch: nat, es: seq<Edge>)
    requires Pre(r) && epoch >= r.epoch
    ensures Registered(r) && Pre(Input(r, SetEdges(epoch, es)))
  {
    var next := Keyed(epoch, es);
    forall key | key in next ensures next[key].Key() == key && next[key].epoch == epoch {
      KeyedIsKeyed(epoch, es, key);
    }
    WithEdgesKeepsSessions(r, epoch, next);
    WithEdgesKeepsRest(r, epoch, next);
  }

  // ---------------------------------------------------------------------------------------------
  // Registering a session
  // ---------------------------------------------------------------------------------------------

  lemma AddKey(m: map<EdgeKey, SessionId>, k: EdgeKey, v: SessionId)
    requires k !in m
    ensures |m[k := v]| == |m| + 1
  {
    assert m[k := v].Keys == m.Keys + {k};
    assert |m[k := v].Keys| == |m.Keys| + 1;
  }

  lemma DisplacedKeepsOk(r: Room, key: EdgeKey, x: SessionId)
    requires Registered(r) && key in r.sessions && x in r.table && SessionOk(r, x)
    ensures x in Displaced(r, key).table && SessionOk(Displaced(r, key), x)
    ensures Registered(Displaced(r, key))
  {
    hide Edge.Key;
  }

  lemma DisplacedLeaving(r: Room, key: EdgeKey)
    requires Registered(r) && key in r.sessions
    ensures Leaving(Displaced(r, key)) == Leaving(r)
  {
    hide Edge.Key;
  }

  lemma DisplacedKeepsSessions(r: Room, key: EdgeKey)
    requires SessionsInv(r) && key in r.sessions
    ensures SessionsInv(Displaced(r, key))
  {
    hide Edge.Key, SessionOk;
    var o := r.sessions[key];
    forall x: SessionId | x in r.table ensures Registered(Displaced(r, key)) && SessionOk(Displaced(r, key), x) {
      DisplacedKeepsOk(r, key, x);
    }
    RegisteredIsUp(r, key);
    RemoveKey(r.sessions, key);
    DisplacedLeaving(r, key);
    assert Displaced(r, key).table.Keys == r.table.Keys;
    hide Registered, Leaving;
  }

  lemma RegisteredIsUp(r: Room, key: EdgeKey)
    requires SessionsInv(r) && key in r.sessions
    ensures r.sessions[key] in r.table && r.table[r.sessions[key]].edge.Key() == key
    ensures r.table[r.sessions[key]].established && !r.table[r.sessions[key]].closed && r.table[r.sessions[key]].started
  {
    hide Edge.Key;
    assert SessionOk(r, r.sessions[key]);
  }

  lemma EnteredKeepsOk(r: Room, sid: SessionId, prev: Option<SessionId>, x: SessionId)
    requires Registered(r) && sid in r.table && x in r.table && SessionOk(r, x)
    requires r.table[sid].edge.Key() !in r.sessions && !r.table[sid].closed
    ensures x in Entered(r, sid, prev).table && SessionOk(Entered(r, sid, prev), x)
    ensures Registered(Entered(r, sid, prev))
  {
    hide Edge.Key;
  }

  lemma EnteredLeaving(r: Room, sid: SessionId, prev: Option<SessionId>)
    requires Registered(r) && sid in r.table && SessionOk(r, sid) && !r.table[sid].started
    requires r.table[sid].edge.Key() !in r.sessions
    ensures Leaving(Entered(r, sid, prev)) == Leaving(r)
  {
    hide Edge.Key;
  }

  lemma EnteredKeepsSessions(r: Room, sid: SessionId, prev: Option<SessionId>)
    requires SessionsInv(r) && sid in r.table && r.table[sid].edge.Key() !in r.sessions && !r.table[sid].closed
    requires !r.table[sid].started
    ensures SessionsInv(Entered(r, sid, prev))
  {
    hide Edge.Key, SessionOk;
    forall x: SessionId | x in r.table
      ensures Registered(Entered(r, sid, prev)) && SessionOk(Entered(r, sid, prev), x)
    {
      EnteredKeepsOk(r, sid, prev, x);
    }
    AddKey(r.sessions, r.table[sid].edge.Key(), sid);
    EnteredLeaving(r, sid, prev);
    assert Entered(r, sid, prev).table.Keys == r.table.Keys;
    hide Registered, Leaving;
  }

  /** What a session about to be established finds. */
  lemma Newcomer(r: Room, sid: SessionId)
    requires SessionsInv(r) && sid in r.table && !r.table[sid].started
    ensures r.table[sid].edge.Key() in r.sessions ==> r.sessions[r.table[sid].edge.Key()] != sid
  {
    if r.table[sid].edge.Key() in r.sessions {
      RegisteredIsUp(r, r.table[sid].edge.Key());
    }
  }

  lemma SupersedingKeepsSessions(r: Room, sid: SessionId)
    requires SessionsInv(r) && sid in r.table && !r.table[sid].started && !r.table[sid].closed
    ensures SessionsInv(Superseding(r, sid))
  {
    assert Registered(r);
    hide Edge.Key, SessionsInv, Entered;
    var key := r.table[sid].edge.Key();
    Newcomer(r, sid);
    if key in r.sessions {
      DisplacedKeepsSessions(r, key);
      EnteredKeepsSessions(Displaced(r, key), sid, Some(r.sessions[key]));
    } else {
      EnteredKeepsSessions(r, sid, None);
    }
  }

  lemma SupersedingKeepsEdges(r: Room, sid: SessionId)
    requires Registered(r) && EdgesInv(r) && sid in r.table && StillDesired(r, r.table[sid])
    ensures EdgesInv(Superseding(r, sid))
  {
    hide Edge.Key, SameEdge;
    var r' := Superseding(r, sid);
    forall key | key in r'.sessions ensures MatchesEdge(r', key) {
      if key in r.sessions {
        assert MatchesEdge(r, key);
      }
    }
  }

  /** The records of a superseding step: the newcomer, the displaced session, everyone else. */
  lemma SupersedingRecords(r: Room, sid: SessionId, x: SessionId)
    requires Registered(r) && sid in r.table && x in r.table
    requires r.table[sid].edge.Key() in r.sessions ==> r.sessions[r.table[sid].edge.Key()] != sid
    ensures var r', key := Superseding(r, sid), r.table[sid].edge.Key();
      && x in r'.table && r'.remote == r.remote && r'.table.Keys == r.table.Keys
      && r'.table[x] == (
        if x == sid then r.table[x].(established := true, started := true,
                                     prev := if key in r.sessions then Some(r.sessions[key]) else None)
        else if key in r.sessions && x == r.sessions[key] then r.table[x].(established := false)
        else r.table[x])
  {
    hide Edge.Key;
  }

  lemma SupersedingKeepsOrigin(r: Room, sid: SessionId, o: SessionId)
    requires SessionsInv(r) && sid in r.table && !r.table[sid].started && r.table[sid].prev.None? && OriginOk(r, o)
    ensures OriginOk(Superseding(r, sid), o)
  {
    assert Registered(r);
    hide Edge.Key, SessionsInv, Superseding, Registered;
    Newcomer(r, sid);
    var r' := Superseding(r, sid);
    SupersedingRecords(r, sid, o);
    SupersedingRecords(r, sid, sid);
    if Superseded(r, o) {
      var x :| x in r.table && r.table[x].prev == Some(o);
      SupersedingRecords(r, sid, x);
      assert r'.table[x].prev == Some(o);
    } else if r.table[sid].edge.Key() in r.sessions && o == r.sessions[r.table[sid].edge.Key()] {
      assert r'.table[sid].prev == Some(o);
    }
  }

  lemma SupersedingKeepsReader(r: Room, sid: SessionId, x: SessionId)
    requires SessionsInv(r) && sid in r.table && !r.table[sid].started && x in r.table && ReaderOk(r, x)
    ensures x in Superseding(r, sid).table && ReaderOk(Superseding(r, sid), x)
  {
    assert Registered(r);
    hide Edge.Key, SessionsInv, Superseding, Registered;
    Newcomer(r, sid);
    var key := r.table[sid].edge.Key();
    SupersedingRecords(r, sid, x);
    if key in r.sessions {
      RegisteredIsUp(r, key);
      SupersedingRecords(r, sid, r.sessions[key]);
    }
    if x != sid && r.table[x].prev.Some? {
      SupersedingRecords(r, sid, r.table[x].prev.value);
    }
  }

  lemma FreshSupersedesNobody(r: Room, sid: SessionId)
    requires sid in r.table && ReaderOk(r, sid) && !r.table[sid].started
    ensures r.table[sid].prev.None?
  {}

  lemma SupersedingKeepsRest(r: Room, sid: SessionId)
    requires SessionsInv(r) && Registered(r) && OriginsInv(r) && ReadersInv(r) && sid in r.table
    requires !r.table[sid].started
    ensures OriginsInv(Superseding(r, sid)) && ReadersInv(Superseding(r, sid))
  {
    hide SessionsInv, Superseding, ReaderOk, OriginOk, Registered;
    FreshSupersedesNobody(r, sid);
    Newcomer(r, sid);
    SupersedingRecords(r, sid, sid);
    forall k | k in r.remote ensures OriginOk(Superseding(r, sid), r.remote[k].origin) {
      SupersedingKeepsOrigin(r, sid, r.remote[k].origin);
    }
    forall x: SessionId | x in r.table ensures ReaderOk(Superseding(r, sid), x) {
      SupersedingKeepsReader(r, sid, x);
    }
  }

  lemma SupersedingKeepsPre(r: Room, sid: SessionId)
    requires Pre(r) && sid in r.table && !r.table[sid].started && !r.table[sid].closed && StillDesired(r, r.table[sid])
    ensures Pre(Superseding(r, sid))
  {
    assert Registered(r);
    hide SessionsInv, EdgesInv, OriginsInv, ReadersInv, Superseding, StillDesired, Registered;
    SupersedingKeepsSessions(r, sid);
    SupersedingKeepsEdges(r, sid);
    SupersedingKeepsRest(r, sid);
  }

  // ---------------------------------------------------------------------------------------------
  // Changes that leave the register alone
  // ---------------------------------------------------------------------------------------------

  ghost predicate SameStanding(s: Session, s': Session) {
    && s'.edge == s.edge && s'.established == s.established && s'.closed == s.closed && s'.prev == s.prev
    && (s.started ==> s'.started)
  }

  /** r' has the register of r, and its sessions have the same standing. */
  ghost predicate SameRegister(r: Room, r': Room) {
    && r'.sessions == r.sessions && r'.edges == r.edges && r'.epoch == r.epoch && r'.edgesUp == r.edgesUp
    && r'.table.Keys == r.table.Keys
    && (forall x | x in r.table :: SameStanding(r.table[x], r'.table[x]))
  }

  lemma StandingKeepsOk(r: Room, r': Room, x: SessionId)
    requires SameRegister(r, r') && x in r.table && SessionOk(r, x)
    ensures SessionOk(r', x)
  {
    hide Edge.Key;
    assert SameStanding(r.table[x], r'.table[x]);
  }

  lemma StandingLeaving(r: Room, r': Room)
    requires SameRegister(r, r')
    ensures Leaving(r') == Leaving(r)
  {
    hide Edge.Key;
    forall x: SessionId ensures x in Leaving(r') <==> x in Leaving(r) {
      if x in r.table {
        assert SameStanding(r.table[x], r'.table[x]);
      }
    }
  }

  lemma StandingKeepsSessions(r: Room, r': Room)
    requires SameRegister(r, r') && SessionsInv(r)
    ensures SessionsInv(r')
  {
    hide Edge.Key, SessionOk;
    forall key | key in r'.sessions
      ensures r'.sessions[key] in r'.table && r'.table[r'.sessions[key]].edge.Key() == key
    {
      assert SameStanding(r.table[r.sessions[key]], r'.table[r.sessions[key]]);
    }
    assert Registered(r');
    forall x: SessionId | x in r'.table ensures SessionOk(r', x) {
      StandingKeepsOk(r, r', x);
    }
    StandingLeaving(r, r');
    hide Registered, SameRegister, Leaving;
  }

  lemma StandingKeepsEdges(r: Room, r': Room)
    requires SameRegister(r, r') && EdgesInv(r)
    ensures EdgesInv(r')
  {
    hide Edge.Key, SameEdge;
    forall key | key in r'.sessions ensures MatchesEdge(r', key) {
      assert MatchesEdge(r, key);
      assert SameStanding(r.table[r.sessions[key]], r'.table[r.sessions[key]]);
    }
  }

  lemma StandingKeepsOrigin(r: Room, r': Room, o: SessionId)
    requires SameRegister(r, r') && OriginOk(r, o)
    ensures OriginOk(r', o)
  {
    assert SameStanding(r.table[o], r'.table[o]);
    if x :| x in r.table && r.table[x].prev == Some(o) {
      assert SameStanding(r.table[x], r'.table[x]);
      assert r'.table[x].prev == Some(o);
    }
  }

  lemma StandingKeepsReader(r: Room, r': Room, x: SessionId)
    requires SameRegister(r, r') && x in r.table && ReaderOk(r, x)
    requires r'.table[x].reading == r.table[x].reading && r'.table[x].link.peerWantSeen == r.table[x].link.peerWantSeen
    ensures ReaderOk(r', x)
  {
    hide Edge.Key;
    assert SameStanding(r.table[x], r'.table[x]);
    if r.table[x].prev.Some? {
      assert SameStanding(r.table[r.table[x].prev.value], r'.table[r.table[x].prev.value]);
    }
  }

  lemma StandingKeepsPre(r: Room, r': Room)
    requires Pre(r) && SameRegister(r, r')
    requires forall x | x in r.table :: ReaderOk(r', x)
    requires forall k | k in r'.remote :: OriginOk(r', r'.remote[k].origin)
    ensures Pre(r')
  {
    StandingKeepsSessions(r, r');
    StandingKeepsEdges(r, r');
    assert r'.table.Keys == r.table.Keys;
    hide SessionsInv, EdgesInv, SameRegister, ReaderOk, OriginOk;
  }

  lemma SameTableSameRegister(r: Room, r': Room)
    requires r'.sessions == r.sessions && r'.edges == r.edges && r'.epoch == r.epoch && r'.edgesUp == r.edgesUp
    requires r'.table == r.table
    ensures SameRegister(r, r')
  {}

  /** Nothing about the sessions changes; remote tracks may go. */
  lemma FewerRemotesKeepPre(r: Room, r': Room)
    requires Pre(r) && SameRegister(r, r') && r'.table == r.table
    requires forall k | k in r'.remote :: k in r.remote && r'.remote[k].origin == r.remote[k].origin
    ensures Pre(r')
  {
    hide SessionsInv, EdgesInv, ReaderOk, OriginOk, SameRegister;
    forall x: SessionId | x in r.table ensures ReaderOk(r', x) {
      StandingKeepsReader(r, r', x);
    }
    forall k | k in r'.remote ensures OriginOk(r', r'.remote[k].origin) {
      StandingKeepsOrigin(r, r', r.remote[k].origin);
    }
    StandingKeepsPre(r, r');
  }

  /** Changing one record in ways the register and the others do not depend on. */
  lemma RecordKeepsPre(r: Room, sid: SessionId, s: Session)
    requires Pre(r) && sid in r.table && SameStanding(r.table[sid], s)
    requires ReaderOk(r.(table := r.table[sid := s]), sid)
    ensures Pre(r.(table := r.table[sid := s]))
  {
    var r' := r.(table := r.table[sid := s]);
    assert SameRegister(r, r');
    assert forall x | x in r.table && x != sid :: r'.table[x] == r.table[x];
    hide SessionsInv, EdgesInv, ReaderOk, OriginOk, SameRegister, SameStanding;
    forall x: SessionId | x in r.table ensures ReaderOk(r', x) {
      if x != sid {
        StandingKeepsReader(r, r', x);
      }
    }
    forall k | k in r'.remote ensures OriginOk(r', r'.remote[k].origin) {
      StandingKeepsOrigin(r, r', r.remote[k].origin);
    }
    StandingKeepsPre(r, r');
  }

  lemma EstablishKeepsPre(r: Room, sid: SessionId)
    requires Pre(r) && Enabled(r, Establish(sid))
    ensures Pre(Input(r, Establish(sid)))
  {
    var s := r.table[sid];
    if StillDesired(r, s) {
      SupersedingKeepsPre(r, sid);
    } else {
      assert ReaderOk(r, sid);
      var r1 := r.(table := r.table[sid := s.(started := true)]);
      assert ReaderOk(r1, sid);
      RecordKeepsPre(r, sid, s.(started := true));
      hide Pre, Closed;
      ClosedKeepsPre(r1, sid);
    }
  }

  lemma ReadingKeepsPre(r: Room, sid: SessionId)
    requires Pre(r) && sid in r.table && r.table[sid].started
    requires HasPrev(r, sid) ==> r.table[r.table[sid].prev.value].closed
    ensures Pre(r.(table := r.table[sid := r.table[sid].(reading := true)]))
  {
    var s := r.table[sid].(reading := true);
    assert ReaderOk(r, sid);
    hide Pre, Edge.Key;
    assert ReaderOk(r.(table := r.table[sid := s]), sid);
    RecordKeepsPre(r, sid, s);
  }

  lemma ClosedRecords(r: Room, o: SessionId, sid: SessionId)
    requires o in r.table && sid in r.table && sid != o
    ensures var r' := Closed(r, o); r'.table.Keys == r.table.Keys && r'.table[sid] == r.table[sid] && r'.table[o].closed
  {}

  lemma FinishKeepsPre(r: Room, sid: SessionId)
    requires Pre(r) && Enabled(r, FinishEstablish(sid))
    ensures Pre(Input(r, FinishEstablish(sid)))
  {
    assert ReaderOk(r, sid);
    hide Pre, Closed, Edge.Key;
    if HasPrev(r, sid) {
      var o := r.table[sid].prev.value;
      ClosedKeepsPre(r, o);
      ClosedRecords(r, o, sid);
      hide ReaderOk;
      ReadingKeepsPre(Closed(r, o), sid);
    } else {
      ReadingKeepsPre(r, sid);
    }
  }

  ghost predicate Fresh(s: Session) {
    !s.established && !s.reading && !s.link.peerWantSeen && s.prev.None?
  }

  lemma NewRecordKeepsOk(r: Room, sid: SessionId, s: Session, x: SessionId)
    requires Registered(r) && sid !in r.table && Fresh(s) && (x in r.table ==> SessionOk(r, x) && ReaderOk(r, x))
    requires x in r.table || x == sid
    ensures var r' := r.(table := r.table[sid := s]); SessionOk(r', x) && ReaderOk(r', x)
  {
    hide Edge.Key;
  }

  lemma NewRecordLeaving(r: Room, sid: SessionId, s: Session)
    requires sid !in r.table && Fresh(s)
    ensures Leaving(r.(table := r.table[sid := s])) == Leaving(r)
  {
    hide Edge.Key;
  }

  lemma NewRecordKeepsSessions(r: Room, sid: SessionId, s: Session)
    requires SessionsInv(r) && ReadersInv(r) && sid !in r.table && Fresh(s)
    ensures var r' := r.(table := r.table[sid := s]); SessionsInv(r') && ReadersInv(r')
  {
    hide Edge.Key, SessionOk, ReaderOk, Fresh;
    var r' := r.(table := r.table[sid := s]);
    assert Registered(r');
    forall x: SessionId | x in r'.table ensures SessionOk(r', x) && ReaderOk(r', x) {
      NewRecordKeepsOk(r, sid, s, x);
    }
    NewRecordLeaving(r, sid, s);
    hide Registered, Leaving;
  }

  lemma NewRecordKeepsRest(r: Room, sid: SessionId, s: Session)
    requires EdgesInv(r) && OriginsInv(r) && sid !in r.table
    ensures var r' := r.(table := r.table[sid := s]); EdgesInv(r') && OriginsInv(r')
  {
    hide Edge.Key, SameEdge;
    var r' := r.(table := r.table[sid := s]);
    SupersededStays(r, r');
    forall key | key in r'.sessions ensures MatchesEdge(r', key) {
      assert MatchesEdge(r, key);
    }
    hide Superseded, MatchesEdge;
    forall k | k in r'.remote ensures OriginOk(r', r'.remote[k].origin) {
      assert OriginOk(r, r.remote[k].origin);
    }
  }

  lemma HandshakeKeepsPre(r: Room, sid: SessionId, key: EdgeKey)
    requires Pre(r) && Enabled(r, Handshake(sid, key))
    ensures Pre(Input(r, Handshake(sid, key)))
  {
    var s := Input(r, Handshake(sid, key)).table[sid];
    assert Fresh(s);
    hide SessionsInv, EdgesInv, OriginsInv, ReadersInv, Fresh;
    NewRecordKeepsSessions(r, sid, s);
    NewRecordKeepsRest(r, sid, s);
  }

  lemma PeerWantKeepsPre(r: Room, sid: SessionId, want: Demand)
    requires Pre(r) && Enabled(r, PeerWant(sid, want))
    ensures Pre(Input(r, PeerWant(sid, want)))
  {
    var s := r.table[sid];
    assert ReaderOk(r, sid);
    var s' := s.(link := s.link.(peerWant := want, peerWantSeen := true));
    assert ReaderOk(r.(table := r.table[sid := s']), sid);
    RecordKeepsPre(r, sid, s');
  }

  lemma TrackUpKeepsPre(r: Room, sid: SessionId, k: TrackKey, sp: Speaker)
    requires Pre(r) && sid in r.table && ClassifyRemoteTrack(r, sid, k) == Accept && sp.origin == sid
    ensures Pre(r.(remote := r.remote[k := sp]))
  {
    var r' := r.(remote := r.remote[k := sp]);
    assert SessionOk(r, sid) && IsRegistered(r, sid);
    assert OriginOk(r, sid);
    assert SameRegister(r, r');
    hide SessionsInv, EdgesInv, ReaderOk, OriginOk, SameRegister, ClassifyRemoteTrack;
    forall x: SessionId | x in r.table ensures ReaderOk(r', x) {
      StandingKeepsReader(r, r', x);
    }
    forall k' | k' in r'.remote ensures OriginOk(r', r'.remote[k'].origin) {
      StandingKeepsOrigin(r, r', r'.remote[k'].origin);
    }
    StandingKeepsPre(r, r');
  }

  /** Events that touch neither sessions nor origins. */
  predicate IsLocal(ev: Event) {
    ev.SetLease? || ev.TrackEnd? || ev.Publish? || ev.Unpublish? || ev.DemandChange? || ev.Watchdog?
  }

  lemma LocalKeepsPre(r: Room, ev: Event)
    requires Pre(r) && IsLocal(ev)
    ensures Registered(r) && Pre(Input(r, ev))
  {
    assert Registered(r);
    hide Pre, Registered, Closed, Superseding, StillDesired, WithEdges, Keyed, Dropped, HasPrev, ClassifyRemoteTrack;
    match ev
    case SetLease(l) => RestKeepsPre(r, Some(l), r.local, r.remote);
    case TrackEnd(k, _) => RestKeepsPre(r, r.lease, r.local, r.remote - {k});
    case Publish(k, pub) => RestKeepsPre(r, r.lease, r.local[k := pub], r.remote);
    case Unpublish(k) => RestKeepsPre(r, r.lease, r.local - {k}, r.remote);
    case DemandChange =>
    case Watchdog(_) =>
  }

  lemma RestKeepsPre(r: Room, lease: Option<Lease>, local: map<TrackKey, Pub>, remote: map<TrackKey, Speaker>)
    requires Pre(r)
    requires forall k | k in remote :: k in r.remote && remote[k] == r.remote[k]
    ensures Pre(r.(lease := lease, local := local, remote := remote))
  {
    var r' := r.(lease := lease, local := local, remote := remote);
    SameTableSameRegister(r, r');
    hide SameRegister, Pre;
    FewerRemotesKeepPre(r, r');
  }

  lemma InputKeepsPre(r: Room, ev: Event)
    requires Pre(r) && Enabled(r, ev)
    ensures Registered(r) && Pre(Input(r, ev))
  {
    assert Registered(r);
    if IsLocal(ev) {
      LocalKeepsPre(r, ev);
    } else if ev.SetEdges? {
      if ev.epoch >= r.epoch {
        SetEdgesKeepsPre(r, ev.epoch, ev.es);
      }
    } else {
      hide Pre, Closed, Superseding, StillDesired, ClassifyRemoteTrack, Registered, HasPrev, WithEdges, Keyed, Dropped;
      SessionEventKeepsPre(r, ev);
    }
  }

  lemma SessionEventKeepsPre(r: Room, ev: Event)
    requires Pre(r) && Registered(r) && Enabled(r, ev) && !IsLocal(ev) && !ev.SetEdges?
    ensures Pre(Input(r, ev))
  {
    hide Pre, Closed, Superseding, StillDesired, ClassifyRemoteTrack, Registered, HasPrev, WithEdges, Keyed, Dropped;
    match ev
    case Handshake(sid, key) => HandshakeKeepsPre(r, sid, key);
    case Establish(sid) => EstablishKeepsPre(r, sid);
    case FinishEstablish(sid) => FinishKeepsPre(r, sid);
    case PeerWant(sid, want) => PeerWantKeepsPre(r, sid, want);
    case TrackUp(sid, k, id, pub) =>
      if ClassifyRemoteTrack(r, sid, k) == Accept {
        TrackUpKeepsPre(r, sid, k, Speaker(id, pub, sid, {}));
      }
    case CloseSession(sid) =>
      ClosedKeepsPre(r, sid);
  }

  // ---------------------------------------------------------------------------------------------
  // Recomputing
  // ---------------------------------------------------------------------------------------------

  /** What a recomputation does to one record. */
  lemma RecomputedRecord(r: Room, r': Room, now: int, demand: Demand, x: SessionId)
    requires Registered(r) && Recomputed(r, r', now, demand) && x in r.table
    ensures x in r'.table && SameStanding(r.table[x], r'.table[x])
    ensures r'.table[x].reading == r.table[x].reading && r'.table[x].started == r.table[x].started
    ensures r'.table[x].link.peerWantSeen == r.table[x].link.peerWantSeen
    ensures r'.table[x].link.peerWant == r.table[x].link.peerWant
    ensures IsRegistered(r, x) && r.table[x].established ==>
              r'.table[x].active == ForwardingAllowed(r, now)
                  && r'.table[x].out == NewOut(r, x, r.table[x], ForwardingAllowed(r, now))
  {
    hide Net.AnnouncesAggregate, NewOut, ForwardingAllowed, Edge.Key, WithSinks, ActiveCounts, PrunedCounts;
    if IsRegistered(r, x) {
      var key := r.table[x].edge.Key();
      assert SessionRecomputed(r, key, ForwardingAllowed(r, now), demand, r'.table[x]);
      if r.table[x].established {
        Net.AnnouncesKeeps(AsNode(r, demand), key, r'.table[x].link);
      }
    }
  }

  lemma RecomputedRest(r: Room, r': Room, now: int, demand: Demand)
    requires Registered(r) && Recomputed(r, r', now, demand)
    ensures r'.sessions == r.sessions && r'.edges == r.edges && r'.epoch == r.epoch && r'.edgesUp == r.edgesUp
    ensures r'.lease == r.lease && r'.local == r.local && r'.lastAllowed == ForwardingAllowed(r, now)
    ensures r'.table.Keys == r.table.Keys && r'.remote.Keys == r.remote.Keys
    ensures forall k | k in r.remote :: r'.remote[k] == r.remote[k].(sinks := r'.remote[k].sinks)
  {
    hide SessionRecomputed, ForwardingAllowed, Edge.Key, ActiveCounts, PrunedCounts;
  }

  lemma RecomputedRegister(r: Room, r': Room, now: int, demand: Demand)
    requires Registered(r) && Recomputed(r, r', now, demand)
    ensures SameRegister(r, r')
  {
    RecomputedRest(r, r', now, demand);
    hide Recomputed, SameStanding;
    forall x | x in r.table ensures SameStanding(r.table[x], r'.table[x]) {
      RecomputedRecord(r, r', now, demand, x);
    }
  }

  lemma RecomputedKeepsPre(r: Room, r': Room, now: int, demand: Demand)
    requires Pre(r) && Registered(r) && Recomputed(r, r', now, demand)
    ensures Pre(r')
  {
    RecomputedRegister(r, r', now, demand);
    RecomputedRest(r, r', now, demand);
    hide Recomputed, SameRegister, SessionsInv, EdgesInv, OriginOk, ReaderOk, SameStanding, Registered;
    forall x: SessionId | x in r.table ensures ReaderOk(r', x) {
      RecomputedRecord(r, r', now, demand, x);
      StandingKeepsReader(r, r', x);
    }
    forall k | k in r'.remote ensures OriginOk(r', r'.remote[k].origin) {
      StandingKeepsOrigin(r, r', r.remote[k].origin);
    }
    StandingKeepsPre(r, r');
  }

  lemma DesiredStays(r: Room, r': Room, sid: SessionId, s: Session, s': Session, allowed: bool)
    requires r'.local == r.local && r'.remote.Keys == r.remote.Keys
    requires forall k | k in r.remote ::
               r'.remote[k].origin == r.remote[k].origin && r'.remote[k].pub == r.remote[k].pub
    requires s'.link.peerWantSeen == s.link.peerWantSeen && s'.link.peerWant == s.link.peerWant
    ensures Desired(r', sid, s', allowed) == Desired(r, sid, s, allowed)
  {
    hide Asked;
    assert Foreign(r'.remote, sid) == Foreign(r.remote, sid);
  }

  lemma RecomputedIsUpToDate(r: Room, r': Room, now: int, demand: Demand, key: EdgeKey)
    requires Pre(r) && Registered(r) && Recomputed(r, r', now, demand) && key in r.sessions
    ensures Registered(r') && key in r'.sessions && UpToDate(r', key)
  {
    RegisteredIsUp(r, key);
    RecomputedKeepsPre(r, r', now, demand);
    RecomputedRest(r, r', now, demand);
    RecomputedRecord(r, r', now, demand, r.sessions[key]);
    assert IsRegistered(r, r.sessions[key]);
    var sid, allowed := r.sessions[key], ForwardingAllowed(r, now);
    DesiredStays(r, r', sid, r.table[sid], r'.table[sid], allowed);
    assert NewOut(r, sid, r.table[sid], allowed).Keys == Desired(r, sid, r.table[sid], allowed);
    hide Pre, Recomputed, NewOut, Desired, ForwardingAllowed, SameStanding;
  }

  lemma RecomputedIsDerived(r: Room, r': Room, now: int, demand: Demand)
    requires Pre(r) && Registered(r) && Recomputed(r, r', now, demand)
    ensures Registered(r') && Derived(r')
  {
    RecomputedKeepsPre(r, r', now, demand);
    assert r'.sessions == r.sessions;
    assert Registered(r');
    hide Pre, Recomputed, UpToDate, Registered;
    forall key | key in r'.sessions ensures UpToDate(r', key) {
      RecomputedIsUpToDate(r, r', now, demand, key);
    }
  }

  lemma RecomputedKeepsInv(r: Room, r': Room, now: int, demand: Demand)
    requires Pre(r) && Registered(r) && Recomputed(r, r', now, demand)
    ensures Inv(r')
  {
    RecomputedKeepsPre(r, r', now, demand);
    RecomputedIsDerived(r, r', now, demand);
    RecomputedRest(r, r', now, demand);
    hide Pre, Recomputed, Derived, Registered;
  }

  // ---------------------------------------------------------------------------------------------
  // Every step, every run
  // ---------------------------------------------------------------------------------------------

  /** The records behind the register, and what they are derived from, are the same. */
  lemma UnchangedKeepsDerived(r: Room, r': Room)
    requires Registered(r) && Derived(r) && Registered(r')
    requires r'.local == r.local && r'.remote == r.remote && r'.lastAllowed == r.lastAllowed
    requires forall key | key in r'.sessions ::
               && key in r.sessions && r'.sessions[key] == r.sessions[key]
               && r'.table[r.sessions[key]].active == r.table[r.sessions[key]].active
               && r'.table[r.sessions[key]].out == r.table[r.sessions[key]].out
               && r'.table[r.sessions[key]].link == r.table[r.sessions[key]].link
    ensures Derived(r')
  {
    hide Edge.Key, Wanted, RemoteWanted;
    forall key | key in r'.sessions ensures UpToDate(r', key) {
      assert UpToDate(r, key);
    }
  }

  lemma WithEdgesKeepsDerived(r: Room, epoch: nat, es: seq<Edge>)
    requires Registered(r) && Derived(r)
    ensures var r' := WithEdges(r, epoch, Keyed(epoch, es)); Registered(r') && Derived(r')
  {
    var next := Keyed(epoch, es);
    forall key | key in next ensures next[key].Key() == key {
      KeyedIsKeyed(epoch, es, key);
    }
    hide Keyed, Edge.Key, Derived;
    WithEdgesRegister(r, epoch, next);
    var r' := WithEdges(r, epoch, next);
    forall key | key in r'.sessions
      ensures key in r.sessions && r'.sessions[key] == r.sessions[key]
      ensures r'.table[r.sessions[key]] == r.table[r.sessions[key]].(edge := r'.table[r.sessions[key]].edge)
    {
      WithEdgesRecord(r, epoch, next, r.sessions[key]);
    }
    hide Registered;
    UnchangedKeepsDerived(r, r');
  }

  lemma QuietKeepsDerived(r: Room, ev: Event)
    requires Inv(r) && Registered(r) && Enabled(r, ev) && Quiet(r, ev)
    ensures Registered(Input(r, ev)) && Derived(Input(r, ev))
  {
    hide Edge.Key, UpToDate, ForwardingAllowed, StillDesired, Superseding, WithEdges, Keyed, Dropped, Pre, SameEdge;
    if ev.SetEdges? {
      WithEdgesKeepsDerived(r, ev.epoch, ev.es);
    } else if ev.Handshake? || ev.FinishEstablish? {
      UnchangedKeepsDerived(r, Input(r, ev));
    }
  }

  /** Every step keeps the invariant. */
  lemma StepKeepsInv(r: Room, ev: Event, now: int, demand: Demand, r': Room)
    requires Inv(r) && Step(r, ev, now, demand, r')
    ensures Inv(r')
  {
    InputKeepsPre(r, ev);
    if Quiet(r, ev) {
      QuietKeepsDerived(r, ev);
    } else {
      hide Pre, Input, Enabled;
      RecomputedKeepsInv(Input(r, ev), r', now, demand);
    }
  }

  datatype Act = Act(ev: Event, now: int, demand: Demand)

  ghost predicate Run(states: seq<Room>, acts: seq<Act>) {
    && |states| == |acts| + 1
    && states[0] == NEW_ROOM
    && forall i | 0 <= i < |acts| :: Step(states[i], acts[i].ev, acts[i].now, acts[i].demand, states[i + 1])
  }

  lemma NewRoomInv()
    ensures Inv(NEW_ROOM)
  {}

  lemma {:induction false} RunKeepsInv(states: seq<Room>, acts: seq<Act>, i: nat)
    requires Run(states, acts) && i < |states|
    ensures Inv(states[i])
  {
    hide Inv, Step;
    if i == 0 {
      NewRoomInv();
    } else {
      RunKeepsInv(states, acts, i - 1);
      StepKeepsInv(states[i - 1], acts[i - 1].ev, acts[i - 1].now, acts[i - 1].demand, states[i]);
    }
  }

  /** In every reachable state each registered session is of an edge of the current set, with the
      same ends, endpoint and epoch; the edge gauge counts the registered sessions and those dropped
      by a change of the edges whose close is still to come. */
  lemma SessionsMatchEdges(states: seq<Room>, acts: seq<Act>, i: nat)
    requires Run(states, acts) && i < |states|
    ensures var r := states[i];
      && r.edgesUp == |r.sessions| + |Leaving(r)|
      && forall key | key in r.sessions ::
           && key in r.edges && r.sessions[key] in r.table
           && var e, f := r.table[r.sessions[key]].edge, r.edges[key];
              && e.parent == f.parent && e.child == f.child && e.endpoint == f.endpoint
              && e.epoch == f.epoch == r.epoch && e.Key() == key
  {
    RunKeepsInv(states, acts, i);
    hide Edge.Key, SessionOk, OriginsInv, ReadersInv, Derived;
    var r := states[i];
    forall key | key in r.sessions
      ensures key in r.edges && r.sessions[key] in r.table
      ensures var e, f := r.table[r.sessions[key]].edge, r.edges[key];
        && e.parent == f.parent && e.child == f.child && e.endpoint == f.endpoint
        && e.epoch == f.epoch == r.epoch && e.Key() == key
    {
      assert MatchesEdge(r, key);
    }
  }

  /** In every reachable state, not only after a recomputation, a registered session carries exactly
      the wanted local tracks and the wanted remote tracks of other origin, if authorised. */
  lemma OutTracksStayExact(states: seq<Room>, acts: seq<Act>, i: nat, key: EdgeKey, k: TrackKey)
    requires Run(states, acts) && i < |states| && key in states[i].sessions
    ensures states[i].sessions[key] in states[i].table
    ensures var r, sid := states[i], states[i].sessions[key];
      var want := r.table[sid].link.peerWant;
      k in r.table[sid].out <==>
        && r.lastAllowed && r.table[sid].link.peerWantSeen
        && ((k in r.local && var p := r.local[k];
             if p.kind.Audio? then want.audio.Wants(p.uid) else want.screen.Wants(p.uid)) ||
            (k in r.remote && r.remote[k].origin != sid && var p := r.remote[k].pub;
             if p.kind.Audio? then want.audio.Wants(p.uid) else want.screen.Wants(p.uid)))
  {
    RunKeepsInv(states, acts, i);
    hide Run;
    assert Registered(states[i]) && UpToDate(states[i], key);
    hide Pre, Asked, Edge.Key;
    var r, sid := states[i], states[i].sessions[key];
    NewOutIsExact(r, sid, r.table[sid], r.lastAllowed, k);
    forall p {
      AskedByKind(r.table[sid].link.peerWant, p);
    }
  }

  /** Re-applying the edges in force, whatever the epoch and tokens, drops no session. */
  lemma ReapplyingDropsNone(r: Room, next: map<EdgeKey, Edge>)
    requires Inv(r)
    requires forall key | key in r.edges ::
               && key in next && next[key].parent == r.edges[key].parent && next[key].child == r.edges[key].child
               && next[key].endpoint == r.edges[key].endpoint
    ensures Registered(r) && Dropped(r, next) == {}
    ensures forall epoch: nat :: WithEdges(r, epoch, next).sessions == r.sessions
  {
    hide Edge.Key, SessionOk, OriginsInv, ReadersInv, Derived;
    forall key | key in r.sessions ensures Survives(next, key, r.table[r.sessions[key]]) {
      assert MatchesEdge(r, key);
    }
  }

  lemma StepKeepsEpochs(r: Room, ev: Event, now: int, demand: Demand, r': Room)
    requires Step(r, ev, now, demand, r')
    ensures r.epoch <= r'.epoch
    ensures r.lease.Some? ==> r'.lease.Some? && r.lease.value.epoch <= r'.lease.value.epoch
  {
    InputKeepsEpochs(r, ev);
    hide Input, Enabled;
    if !Quiet(r, ev) {
      RecomputedRest(Input(r, ev), r', now, demand);
    }
  }

  lemma InputKeepsEpochs(r: Room, ev: Event)
    requires Registered(r) && Enabled(r, ev)
    ensures var r1 := Input(r, ev);
      && r.epoch <= r1.epoch
      && (r.lease.Some? ==> r1.lease.Some? && r.lease.value.epoch <= r1.lease.value.epoch)
  {
    hide Edge.Key, StillDesired, Keyed, Survives, IsRegistered, Registered;
    match ev
    case Establish(sid) =>
    case FinishEstablish(sid) =>
    case CloseSession(sid) =>
    case SetEdges(_, _) =>
    case _ =>
  }

  lemma {:induction false} EpochsNeverDecrease(states: seq<Room>, acts: seq<Act>, i: nat, j: nat)
    requires Run(states, acts) && i <= j < |states|
    ensures states[i].epoch <= states[j].epoch
    ensures states[i].lease.Some? ==>
              states[j].lease.Some? && states[i].lease.value.epoch <= states[j].lease.value.epoch
    decreases j
  {
    hide Step;
    if i < j {
      EpochsNeverDecrease(states, acts, i, j - 1);
      StepKeepsEpochs(states[j - 1], acts[j - 1].ev, acts[j - 1].now, acts[j - 1].demand, states[j]);
    }
  }

  /** A command of an older epoch leaves the room exactly as it was. */
  lemma RefusedChangesNothing(r: Room, ev: Event, now: int, demand: Demand, r': Room)
    requires Step(r, ev, now, demand, r')
    requires (ev.SetLease? && r.lease.Some? && ev.lease.epoch < r.lease.value.epoch)
               || (ev.SetEdges? && ev.epoch < r.epoch)
    ensures r' == r
  {}

  /** Action m recomputed, and nothing has since: its verdict on forwarding is the one in force at i. */
  ghost predicate InForce(states: seq<Room>, acts: seq<Act>, m: nat, i: nat)
    requires Run(states, acts)
  {
    m < i < |states| && !QuietAt(states, acts, m) && forall x | m < x < i :: QuietAt(states, acts, x)
  }

  ghost predicate QuietAt(states: seq<Room>, acts: seq<Act>, x: nat) {
    x < |acts| && x < |states| && Enabled(states[x], acts[x].ev) && Quiet(states[x], acts[x].ev)
  }

  lemma VerdictsInOrder(states: seq<Room>, acts: seq<Act>, m: nat, i: nat, n: nat, j: nat)
    requires Run(states, acts) && i <= j && InForce(states, acts, m, i) && InForce(states, acts, n, j)
    ensures m <= n
  {
    hide Run, QuietAt;
  }

  lemma QuietKeepsVerdict(r: Room, ev: Event, now: int, demand: Demand, r': Room)
    requires Step(r, ev, now, demand, r')
    ensures r'.lastAllowed == if Quiet(r, ev) then r.lastAllowed else ForwardingAllowed(r', now)
  {
    hide Edge.Key, StillDesired, Superseding, Keyed, Survives, IsRegistered, SameEdge, Recomputed, ForwardingAllowed,
         Registered;
    if !Quiet(r, ev) {
      RecomputedRest(Input(r, ev), r', now, demand);
      SameLeaseSameVerdict(Input(r, ev), r', now);
    }
  }

  lemma SameLeaseSameVerdict(r: Room, r': Room, now: int)
    requires r'.lease == r.lease && r'.epoch == r.epoch
    ensures ForwardingAllowed(r', now) == ForwardingAllowed(r, now)
  {}

  lemma RunShape(states: seq<Room>, acts: seq<Act>)
    requires Run(states, acts)
    ensures |states| == |acts| + 1 && states[0] == NEW_ROOM
  {
    hide Step;
  }

  lemma VerdictStep(states: seq<Room>, acts: seq<Act>, x: nat)
    requires Run(states, acts) && x < |acts|
    ensures states[x + 1].lastAllowed == if QuietAt(states, acts, x) then states[x].lastAllowed
              else ForwardingAllowed(states[x + 1], acts[x].now)
  {
    assert Step(states[x], acts[x].ev, acts[x].now, acts[x].demand, states[x + 1]) by {
      hide Step;
    }
    hide Run;
    assert Enabled(states[x], acts[x].ev) by {
      hide Recomputed, Input, Quiet, Enabled, Registered;
    }
    hide Step, ForwardingAllowed, Quiet, Enabled;
    QuietKeepsVerdict(states[x], acts[x].ev, acts[x].now, acts[x].demand, states[x + 1]);
  }

  /** Whenever forwarding counts as authorised, the last recomputation found it so: its lease was valid
      and of the edge epoch of that moment. */
  lemma {:induction false} VerdictHasSource(states: seq<Room>, acts: seq<Act>, i: nat) returns (m: nat)
    requires Run(states, acts) && i < |states| && states[i].lastAllowed
    ensures InForce(states, acts, m, i) && ForwardingAllowed(states[m + 1], acts[m].now)
    decreases i
  {
    hide Run, ForwardingAllowed, QuietAt;
    RunShape(states, acts);
    VerdictStep(states, acts, i - 1);
    if QuietAt(states, acts, i - 1) {
      m := VerdictHasSource(states, acts, i - 1);
    } else {
      m := i - 1;
    }
  }

  /** Forwarding is authorised epoch by epoch and never goes back: sessions active at i and at a later
      j are so by verdicts m and n of leases whose epochs are in order. */
  lemma AuthorisedEpochsNeverDecrease(states: seq<Room>, acts: seq<Act>, i: nat, j: nat, a: EdgeKey, b: EdgeKey)
    returns (m: nat, n: nat)
    requires Run(states, acts) && i <= j < |states|
    requires Registered(states[i]) && a in states[i].sessions && states[i].table[states[i].sessions[a]].active
    requires Registered(states[j]) && b in states[j].sessions && states[j].table[states[j].sessions[b]].active
    ensures InForce(states, acts, m, i) && ForwardingAllowed(states[m + 1], acts[m].now)
    ensures InForce(states, acts, n, j) && ForwardingAllowed(states[n + 1], acts[n].now)
    ensures m <= n && states[m + 1].lease.value.epoch <= states[n + 1].lease.value.epoch
    ensures states[m + 1].lease.value.epoch == states[m + 1].epoch <= states[i].table[states[i].sessions[a]].edge.epoch
  {
    RunKeepsInv(states, acts, i);
    RunKeepsInv(states, acts, j);
    ActiveAsAllowed(states[i]);
    ActiveAsAllowed(states[j]);
    assert MatchesEdge(states[i], a);
    m := VerdictHasSource(states, acts, i);
    n := VerdictHasSource(states, acts, j);
    hide Inv, Registered, Edge.Key, Step, QuietAt;
    VerdictsInOrder(states, acts, m, i, n, j);
    EpochsNeverDecrease(states, acts, m + 1, n + 1);
    EpochsNeverDecrease(states, acts, m + 1, i);
  }

  /** After a watchdog tick the stored verdict and every session's `active` agree with the lease, as
      seen by the tick itself or by the recomputation it started. */
  lemma WatchdogSettles(r: Room, seen: int, now: int, demand: Demand, r': Room)
    requires Inv(r) && Step(r, Watchdog(seen), now, demand, r')
    ensures r'.lastAllowed == ForwardingAllowed(r', if ForwardingAllowed(r, seen) == r.lastAllowed then seen else now)
    ensures Registered(r') && forall key | key in r'.sessions :: r'.table[r'.sessions[key]].active == r'.lastAllowed
  {
    StepKeepsInv(r, Watchdog(seen), now, demand, r');
    ActiveAsAllowed(r');
    WatchdogStep(r, seen, now, demand, r');
    hide Inv, Registered, Step, Recomputed;
    if ForwardingAllowed(r, seen) != r.lastAllowed {
      RecomputedRest(r, r', now, demand);
    }
  }

  lemma WatchdogStep(r: Room, seen: int, now: int, demand: Demand, r': Room)
    requires Step(r, Watchdog(seen), now, demand, r')
    ensures if ForwardingAllowed(r, seen) == r.lastAllowed then r' == r else Recomputed(r, r', now, demand)
  {
    hide Recomputed, Registered, ForwardingAllowed;
  }

  lemma ActiveAsAllowed(r: Room)
    requires Inv(r)
    ensures Registered(r) && forall key | key in r.sessions :: r.table[r.sessions[key]].active == r.lastAllowed
  {
    assert Registered(r);
    hide Pre, Desired, Registered;
    forall key | key in r.sessions ensures r.table[r.sessions[key]].active == r.lastAllowed {
      assert UpToDate(r, key);
    }
  }
}
