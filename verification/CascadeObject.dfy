/** The cascade state of a room as the object it is: critical sections that update it in place, and the
    handlers built from them, each of which is a step of the runs and so keeps their invariant. */
module CascadeObjects {
  import opened Options
  import opened Demands
  import opened CascadeRooms
  import opened CascadeRuns
  import opened CascadeHistory
  import opened Tracks

  /** The same remote tracks of the same sessions; where they are forwarded may have changed. */
  predicate SameTracks(a: map<TrackKey, Speaker>, b: map<TrackKey, Speaker>) {
    a.Keys == b.Keys && forall k | k in a :: b[k] == a[k].(sinks := b[k].sinks)
  }

  /** The same edge, standing and peer's want; what is sent over it may have changed. */
  ghost predicate Stands(s: Session, s': Session) {
    && SameStanding(s, s') && s'.started == s.started && s'.reading == s.reading
    && s'.link.peerWantSeen == s.link.peerWantSeen && s'.link.peerWant == s.link.peerWant
  }

  ghost predicate SameStandings(a: map<SessionId, Session>, b: map<SessionId, Session>) {
    a.Keys == b.Keys && forall x | x in a :: Stands(a[x], b[x])
  }

  class RoomState {
    var lease: Option<Lease>
    var epoch: nat
    var edges: map<EdgeKey, Edge>
    var sessions: map<EdgeKey, SessionId>
    var table: map<SessionId, Session>
    var local: map<TrackKey, Pub>
    var remote: map<TrackKey, Speaker>
    var lastAllowed: bool
    var activeTracks: int
    var prunedTracks: int
    var edgesUp: int

    ghost function View(): Room
      reads this
    {
      Room(lease, epoch, edges, sessions, table, local, remote, lastAllowed, activeTracks, prunedTracks, edgesUp)
    }

    /** Whatever a run of the room can lead to. */
    ghost predicate Valid()
      reads this
    {
      Inv(View())
    }

    constructor ()
      ensures Valid() && View() == NEW_ROOM
    {
      lease, epoch, edges, sessions, table := None, 0, map[], map[], map[];
      local, remote, lastAllowed, activeTracks, prunedTracks, edgesUp := map[], map[], false, 0, 0, 0;
    }

    // The critical sections, each against the state it must lead to.

    /** A lease of an older epoch than the current one is refused and changes nothing. */
    method ApplyLease(l: Lease) returns (ok: bool)
      modifies this`lease
      ensures ok <==> !(old(lease).Some? && l.epoch < old(lease).value.epoch)
      ensures View() == if ok then old(View()).(lease := Some(l)) else old(View())
    {
      if lease.Some? && l.epoch < lease.value.epoch {
        return false;
      }
      lease := Some(l);
      ok := true;
    }

    /** The registered sessions that survive keep their place; exactly the others are removed. */
    method ReplaceEdges(newEpoch: nat, es: seq<Edge>) returns (ok: bool, removed: set<SessionId>)
      requires Registered(View())
      modifies this
      ensures ok <==> newEpoch >= old(epoch)
      ensures !ok ==> View() == old(View()) && removed == {}
      ensures ok ==> View() == WithEdges(old(View()), newEpoch, Keyed(newEpoch, es))
      ensures ok ==> removed == Dropped(old(View()), Keyed(newEpoch, es))
    {
      if newEpoch < epoch {
        return false, {};
      }
      var next: map<EdgeKey, Edge> := map[];
      for i := 0 to |es|
        invariant next == Keyed(newEpoch, es[..i])
      {
        var e := es[i].(epoch := newEpoch);
        next := next[e.Key() := e];
        assert es[..i + 1][..i] == es[..i];
      }
      assert es[..|es|] == es;
      ghost var r := View();
      sessions, table, removed := DropUnmatched(
        Room(lease, epoch, edges, sessions, table, local, remote, lastAllowed, activeTracks, prunedTracks, edgesUp),
            next);
      epoch := newEpoch;
      edges := next;
      ok := true;
    }

    method Drop(sid: SessionId)
      requires sid in table
      modifies this
      ensures View() == Closed(old(View()), sid)
    {
      hide Edge.Key;
      var s := table[sid];
      if s.closed {
        return;
      }
      if s.edge.Key() in sessions && sessions[s.edge.Key()] == sid {
        sessions := sessions - {s.edge.Key()};
      }
      remote := RemoveOrigin(remote, sid);
      if s.established {
        edgesUp := edgesUp - 1;
      }
      table := table[sid := s.(closed := true, active := false, established := false, out := map[])];
    }

    /** edgeEstablished up to its recompute: refused if the edge has meanwhile been replaced; else sid
        is registered, and a session of the same edge loses its place (and is closed later). */
    method Enter(sid: SessionId) returns (ok: bool)
      requires Registered(View()) && sid in table
      modifies this
      ensures ok <==> StillDesired(old(View()), old(table)[sid])
      ensures View() == if ok then Superseding(old(View()), sid) else old(View())
    {
      hide Edge.Key;
      var s := table[sid];
      var key := s.edge.Key();
      if key !in edges || !SameEdge(edges[key], s.edge) || edges[key].epoch != s.edge.epoch {
        return false;
      }
      var prev: Option<SessionId> := None;
      if key in sessions && sessions[key] != sid {
        var was := sessions[key];
        prev := Some(was);
        sessions := sessions - {key};
        if table[was].established {
          edgesUp := edgesUp - 1;
        }
        table := table[was := table[was].(established := false)];
      }
      sessions := sessions[key := sid];
      table := table[sid := s.(established := true, started := true, prev := prev)];
      edgesUp := edgesUp + 1;
      ok := true;
    }

    /** The loop defence, then the track is entered, replacing one of the same session. */
    method AdmitTrack(sid: SessionId, k: TrackKey, id: nat, pub: Pub) returns (verdict: Verdict)
      requires sid in table
      modifies this`remote
      ensures verdict == ClassifyRemoteTrack(old(View()), sid, k)
      ensures View() == if verdict == Accept then old(View()).(remote := old(remote)[k := Speaker(id, pub, sid, {})])
                else old(View())
    {
      hide Edge.Key;
      var key := table[sid].edge.Key();
      if key !in sessions || sessions[key] != sid || table[sid].closed {
        return EdgeNotCurrent;
      }
      if k in local {
        return SpeakerIsLocal;
      }
      if k in remote && remote[k].origin != sid {
        return DuplicateOrigin;
      }
      remote := remote[k := Speaker(id, pub, sid, {})];
      return Accept;
    }

    /** Only the track object that is still registered is taken out. */
    method RemoveTrack(k: TrackKey, id: nat)
      modifies this`remote
      ensures View() == old(View()).(remote := if k in old(remote) && old(remote)[k].id == id then old(remote) - {k}
                else old(remote))
    {
      if k in remote && remote[k].id == id {
        remote := remote - {k};
      }
    }

    /** The whole recomputation, one session at a time. Afterwards an established session carries, with an
        unexpired lease of the edge epoch and a want seen, the local tracks and the remote tracks of other
        origin whose user that want accepts, audio by its audio half, the rest by its screen half. */
    method Recompute(now: int, demand: Demand)
      requires Registered(View())
      modifies this
      ensures Recomputed(old(View()), View(), now, demand)
      ensures sessions == old(sessions) && edges == old(edges) && epoch == old(epoch) && lease == old(lease)
      ensures local == old(local) && SameTracks(old(remote), remote) && SameStandings(old(table), table)
      ensures forall key | key in sessions && old(table)[sessions[key]].established ::
        var sid := sessions[key];
        var want := table[sid].link.peerWant;
        && want == old(table)[sid].link.peerWant
        && (forall k :: k in table[sid].out <==>
              && lease.Some? && lease.value.epoch == epoch && now < lease.value.expireMs
              && table[sid].link.peerWantSeen
              && ((k in local && var p := local[k];
                   if p.kind.Audio? then want.audio.Wants(p.uid) else want.screen.Wants(p.uid)) ||
                  (k in remote && remote[k].origin != sid && var p := remote[k].pub;
                   if p.kind.Audio? then want.audio.Wants(p.uid) else want.screen.Wants(p.uid))))
    {
      hide Edge.Key, SessionsRecomputed, WithSinks, ActiveCounts, PrunedCounts, ForwardingAllowed;
      var r := Room(lease, epoch, edges, sessions, table, local, remote, lastAllowed, activeTracks, prunedTracks,
            edgesUp);
      var allowed := ForwardingAllowed(r, now);
      lastAllowed := allowed;
      var t, act, pru := RecomputeTable(r, allowed, demand);
      table, activeTracks, prunedTracks := t, act, pru;
      remote := RebuildSinks(r.(table := t));
      SameCounts(r.(table := t), View());
      assert Recomputed(r, View(), now, demand);
      hide Recomputed;
      RecomputedRest(r, View(), now, demand);
      forall x | x in r.table {
        RecomputedRecord(r, View(), now, demand, x);
      }
      forall key, k | key in sessions && r.table[sessions[key]].established {
        OutTracksAreExact(r, View(), now, demand, key, k);
      }
    }

    // The handlers: a critical section and the recomputation that follows it. Each is a step of the
    // runs of CascadeRuns, so each keeps everything proved of those.

    /** SetAnchorLease: refused for an older epoch. */
    method SetAnchorLease(l: Lease, now: int, demand: Demand) returns (ok: bool)
      requires Valid()
      modifies this
      ensures Valid() && Step(old(View()), SetLease(l), now, demand, View())
      ensures ok <==> !(old(lease).Some? && l.epoch < old(lease).value.epoch)
      ensures !ok ==> View() == old(View())
      ensures ok ==> lease == Some(l) && lastAllowed == (l.epoch == epoch && now < l.expireMs)
      ensures local == old(local) && SameTracks(old(remote), remote) && SameStandings(old(table), table)
      ensures epoch == old(epoch) && edges == old(edges) && sessions == old(sessions)
    {
      hide Pre, Derived, Recomputed, Registered, SameTracks, SameStandings;
      ghost var r := View();
      SameSelf(r);
      StepStarts(r, SetLease(l));
      ok := ApplyLease(l);
      if ok {
        Recompute(now, demand);
        RecomputedVerdict(r.(lease := Some(l)), View(), now, demand);
      }
      StepKeepsInv(r, SetLease(l), now, demand, View());
      hide Step, Inv;
    }

    /** SetCascadeEdges, under the lock: the sessions returned are to be closed one by one. */
    method ApplyEdges(newEpoch: nat, es: seq<Edge>) returns (ok: bool, removed: set<SessionId>)
      requires Valid()
      modifies this
      ensures Valid() && Step(old(View()), SetEdges(newEpoch, es), 0, NO_DEMAND, View())
      ensures ok <==> newEpoch >= old(epoch)
      ensures !ok ==> View() == old(View()) && removed == {}
      ensures ok ==> removed == Dropped(old(View()), Keyed(newEpoch, es)) && removed <= Leaving(View())
      ensures ok ==> epoch == newEpoch && forall key ::
        && (key in edges <==> exists j :: LastOf(es, key, j))
        && (forall j | LastOf(es, key, j) :: edges[key] == es[j].(epoch := newEpoch))
      ensures ok ==> forall key ::
        (key in sessions <==>
           && key in old(sessions) && old(sessions)[key] in old(table) && key in edges
           && var e, f := old(table)[old(sessions)[key]].edge, edges[key];
              e.parent == f.parent && e.child == f.child && e.endpoint == f.endpoint)
      ensures forall key | key in sessions :: key in old(sessions) && sessions[key] == old(sessions)[key]
      ensures ok ==> forall key | key in sessions :: sessions[key] in table && table[sessions[key]].edge == edges[key]
      ensures forall x :: x in removed <==>
                exists key :: key in old(sessions) && old(sessions)[key] == x && key !in sessions
      ensures lease == old(lease) && local == old(local) && remote == old(remote)
    {
      hide Pre, Derived, Recomputed, Registered, Edge.Key;
      ghost var r := View();
      StepStarts(r, SetEdges(newEpoch, es));
      ok, removed := ReplaceEdges(newEpoch, es);
      StepKeepsInv(r, SetEdges(newEpoch, es), 0, NO_DEMAND, View());
      if ok {
        DroppedAreLeaving(r, newEpoch, es);
        EdgesReplaced(r, newEpoch, es);
      }
      hide Step, Inv, WithEdges, Dropped, Keyed;
    }

    /** close with onEdgeClosed, for a session that has been up: afterwards nothing comes from it and
        nothing goes to it. The tracks of every other session stay, and so do the local tracks, the lease,
        the edges and every other registration. */
    method OnEdgeClosed(sid: SessionId, now: int, demand: Demand)
      requires Valid() && sid in table && table[sid].started
      modifies this
      ensures Valid() && Step(old(View()), CloseSession(sid), now, demand, View())
      ensures sid in table && table[sid].closed && !IsRegistered(View(), sid)
      ensures forall k :: k in remote <==> k in old(remote) && old(remote)[k].origin != sid
      ensures forall k | k in remote ::
        remote[k].id == old(remote)[k].id && remote[k].pub == old(remote)[k].pub
        && remote[k].origin == old(remote)[k].origin
      ensures local == old(local) && lease == old(lease) && epoch == old(epoch) && edges == old(edges)
      ensures forall key :: key in sessions <==> key in old(sessions) && old(sessions)[key] != sid
      ensures forall key | key in sessions :: sessions[key] == old(sessions)[key]
      ensures forall x | x in old(table) && x != sid :: x in table && Stands(old(table)[x], table[x])
    {
      hide Pre, Derived, Recomputed, Registered, Edge.Key;
      ghost var r := View();
      StepStarts(r, CloseSession(sid));
      var was := table[sid].closed;
      Drop(sid);
      if was {
        ClosedHasNone(r, sid);
      } else {
        ClosedParts(r, sid);
        Recompute(now, demand);
      }
      StepKeepsInv(r, CloseSession(sid), now, demand, View());
      hide Step, Inv, Closed;
      ClosedIsOut(View(), sid);
    }

    /** edgeEstablished; a session refused because its edge has been replaced is closed at once. */
    method EdgeEstablished(sid: SessionId, now: int, demand: Demand) returns (ok: bool)
      requires Valid() && sid in table && !table[sid].started && !table[sid].closed
      modifies this
      ensures Valid() && Step(old(View()), Establish(sid), now, demand, View())
      ensures ok <==> exists key | key in old(edges) ::
                        var e, f := old(edges)[key], old(table)[sid].edge;
                        e.parent == f.parent && e.child == f.child && e.endpoint == f.endpoint && e.epoch == f.epoch
      ensures ok ==> sessions == old(sessions)[old(table)[sid].edge.Key() := sid]
      ensures !ok ==> sessions == old(sessions) && sid in table && table[sid].closed
      ensures lease == old(lease) && epoch == old(epoch) && edges == old(edges) && local == old(local)
      ensures SameTracks(old(remote), remote)
    {
      hide Pre, Derived, Recomputed, Registered, Edge.Key, SameEdge, SameTracks, SameStandings;
      ghost var r := View();
      StepStarts(r, Establish(sid));
      TakesSessionIff(r, sid);
      EstablishParts(r, sid);
      ok := Enter(sid);
      if !ok {
        table := table[sid := table[sid].(started := true)];
        Drop(sid);
      }
      ghost var r1 := View();
      Recompute(now, demand);
      StepKeepsInv(r, Establish(sid), now, demand, View());
      hide Step, Inv, Closed, Superseding, StillDesired;
      assert sid in r1.table;
      StandsAt(r1.table, table, sid);
    }

    /** onPeerWant: what the session carries afterwards is what the new want asks for. */
    method OnPeerWant(sid: SessionId, want: Demand, now: int, demand: Demand)
      requires Valid() && sid in table && table[sid].reading && !table[sid].closed
      modifies this
      ensures Valid() && Step(old(View()), PeerWant(sid, want), now, demand, View())
      ensures sid in table && table[sid].link.peerWant == want && table[sid].link.peerWantSeen
      ensures IsRegistered(View(), sid) ==>
                table[sid].out.Keys == Desired(View(), sid, table[sid], lastAllowed)
                && forall k :: k in table[sid].out <==>
                  && lease.Some? && lease.value.epoch == epoch && now < lease.value.expireMs
                  && ((k in local && var p := local[k];
                       if p.kind.Audio? then want.audio.Wants(p.uid) else want.screen.Wants(p.uid)) ||
                      (k in remote && remote[k].origin != sid && var p := remote[k].pub;
                       if p.kind.Audio? then want.audio.Wants(p.uid) else want.screen.Wants(p.uid)))
      ensures lease == old(lease) && epoch == old(epoch) && edges == old(edges) && local == old(local)
      ensures sessions == old(sessions) && SameTracks(old(remote), remote)
      ensures forall x | x in old(table) && x != sid :: x in table && Stands(old(table)[x], table[x])
    {
      hide Step, Pre, Derived, Input, Enabled, Recomputed, Registered, Edge.Key, SameTracks, SameStandings, Stands,
           Desired, StillDesired;
      ghost var r := View();
      WantTaken(r, sid, want);
      var s := table[sid].(link := table[sid].link.(peerWant := want, peerWantSeen := true));
      table := table[sid := s];
      ghost var r1 := View();
      assert r1 == WithWant(r, sid, want);
      Recompute(now, demand);
      WantIsStep(r, sid, want, now, demand, View());
      OtherStandings(r.table, s, table, sid);
      StandsFor(s, table[sid]);
      CarriesDesired(View(), sid);
      if IsRegistered(View(), sid) {
        ghost var key := s.edge.Key();
        assert key in sessions && sessions[key] == sid && r1.table[sessions[key]].established;
      }
    }

    /** onRemoteTrack: only a track the loop defence accepts changes anything. Refused is one over a session
        that is not the registered one of its edge, one published here, and one of another session's. */
    method OnRemoteTrack(sid: SessionId, k: TrackKey, id: nat, pub: Pub, now: int, demand: Demand)
      returns (verdict: Verdict)
      requires Valid() && sid in table && table[sid].reading
      modifies this
      ensures Valid() && Step(old(View()), TrackUp(sid, k, id, pub), now, demand, View())
      ensures verdict.EdgeNotCurrent? <==> forall key | key in old(sessions) :: old(sessions)[key] != sid
      ensures verdict.SpeakerIsLocal? ==> k in old(local)
      ensures verdict.DuplicateOrigin? ==> k !in old(local) && k in old(remote) && old(remote)[k].origin != sid
      ensures verdict.Accept? ==> k !in old(local) && (k in old(remote) ==> old(remote)[k].origin == sid)
      ensures verdict != Accept ==> View() == old(View())
      ensures verdict == Accept ==> k in remote && remote[k].id == id && remote[k].origin == sid && remote[k].pub == pub
      ensures SameTracks(old(remote) - {k}, remote - {k}) && SameStandings(old(table), table)
      ensures lease == old(lease) && epoch == old(epoch) && edges == old(edges) && local == old(local)
      ensures sessions == old(sessions)
    {
      hide Step, Pre, Derived, Input, ClassifyRemoteTrack, Recomputed, Registered, SameTracks, SameStandings, Edge.Key;
      ghost var r := View();
      StepStarts(r, TrackUp(sid, k, id, pub));
      VerdictOf(r, sid, k);
      SameSelf(r);
      verdict := AdmitTrack(sid, k, id, pub);
      ghost var r1 := View();
      if verdict == Accept {
        StillRegistered(r, r1);
        Recompute(now, demand);
        OthersStay(r.remote, r1.remote, remote, k);
      }
      TrackUpStep(r, sid, k, id, pub, now, demand, r1, View());
    }

    /** onRemoteSpeakerEnded: the track object is gone for good; one that has replaced it under the
        same key stays, and no session carries a key that no track has any more. */
    method OnRemoteSpeakerEnded(k: TrackKey, id: nat, now: int, demand: Demand)
      requires Valid()
      modifies this
      ensures Valid() && Step(old(View()), TrackEnd(k, id), now, demand, View())
      ensures k in remote ==> remote[k].id != id
      ensures k in old(remote) && old(remote)[k].id != id ==>
        k in remote && remote[k].id == old(remote)[k].id && remote[k].origin == old(remote)[k].origin
      ensures SameTracks(old(remote) - {k}, remote - {k}) && SameStandings(old(table), table)
      ensures lease == old(lease) && epoch == old(epoch) && edges == old(edges) && local == old(local)
      ensures sessions == old(sessions)
      ensures k !in remote && k !in local ==>
        forall key | key in sessions :: sessions[key] in table && k !in table[sessions[key]].out
    {
      hide Pre, Recomputed, Registered, Edge.Key, Derived;
      ghost var r := View();
      StepStarts(r, TrackEnd(k, id));
      RemoveTrack(k, id);
      hide SameTracks, SameStandings;
      ghost var r1 := View();
      Recompute(now, demand);
      OthersStay(r.remote, r1.remote, remote, k);
      StepKeepsInv(r, TrackEnd(k, id), now, demand, View());
      CarriesOnlyTracks(View(), k);
      hide Step, Inv;
    }

    /** OnPublishChanged: the local tracks gain or lose this one. */
    method OnPublishChanged(k: TrackKey, pub: Pub, active: bool, now: int, demand: Demand)
      requires Valid()
      modifies this
      ensures Valid() && Step(old(View()), if active then Publish(k, pub) else Unpublish(k), now, demand, View())
      ensures local == if active then old(local)[k := pub] else old(local) - {k}
      ensures lease == old(lease) && epoch == old(epoch) && edges == old(edges) && sessions == old(sessions)
      ensures SameTracks(old(remote), remote) && SameStandings(old(table), table)
      ensures !active && k !in remote ==>
                forall key | key in sessions :: sessions[key] in table && k !in table[sessions[key]].out
    {
      hide Pre, Recomputed, Registered, Edge.Key, Derived;
      ghost var r := View();
      ghost var ev := if active then Publish(k, pub) else Unpublish(k);
      StepStarts(r, ev);
      local := if active then local[k := pub] else local - {k};
      Recompute(now, demand);
      StepKeepsInv(r, ev, now, demand, View());
      CarriesOnlyTracks(View(), k);
      hide Step, Inv;
    }
  }

  lemma EdgesReplaced(r: Room, epoch: nat, es: seq<Edge>)
    requires Registered(r)
    ensures var r' := WithEdges(r, epoch, Keyed(epoch, es));
      && (forall key ::
            && (key in r'.edges <==> exists j :: LastOf(es, key, j))
            && (forall j | LastOf(es, key, j) :: r'.edges[key] == es[j].(epoch := epoch)))
      && (forall key ::
            (key in r'.sessions <==>
               && key in r.sessions && r.sessions[key] in r.table && key in r'.edges
               && var e, f := r.table[r.sessions[key]].edge, r'.edges[key];
                  e.parent == f.parent && e.child == f.child && e.endpoint == f.endpoint))
      && (forall key | key in r'.sessions ::
            && r'.sessions[key] == r.sessions[key] && r.sessions[key] in r'.table
            && r'.table[r.sessions[key]].edge == r'.edges[key])
      && (forall x :: x in Dropped(r, r'.edges) <==>
            exists key :: key in r.sessions && r.sessions[key] == x && key !in r'.sessions)
  {
    hide Edge.Key, LastOf, Keyed;
    forall key {
      KeyedLast(epoch, es, key);
    }
  }

  lemma StepStarts(r: Room, ev: Event)
    requires Inv(r) && Enabled(r, ev)
    ensures Registered(r) && Pre(Input(r, ev)) && Registered(Input(r, ev))
  {
    InputKeepsPre(r, ev);
    hide Enabled, Input;
  }

  lemma RecomputedVerdict(r: Room, r': Room, now: int, demand: Demand)
    requires Registered(r) && Recomputed(r, r', now, demand)
    ensures r'.lastAllowed == ForwardingAllowed(r, now) && r'.epoch == r.epoch
  {}

  lemma VerdictOf(r: Room, sid: SessionId, k: TrackKey)
    requires Inv(r) && sid in r.table
    ensures var v := ClassifyRemoteTrack(r, sid, k);
      && (v.EdgeNotCurrent? <==> forall key | key in r.sessions :: r.sessions[key] != sid)
      && (v.SpeakerIsLocal? ==> k in r.local)
      && (v.DuplicateOrigin? ==> k !in r.local && k in r.remote && r.remote[k].origin != sid)
      && (v.Accept? ==> k !in r.local && (k in r.remote ==> r.remote[k].origin == sid))
  {
    SessionIn(r, sid);
    hide Inv, Edge.Key;
  }

  /** A session that has not been registered yet holds no place and sends no track. */
  lemma NotYetUp(r: Room, sid: SessionId)
    requires Inv(r) && sid in r.table && !r.table[sid].started
    ensures Registered(r) && forall key | key in r.sessions :: r.sessions[key] != sid
    ensures forall k | k in r.remote :: r.remote[k].origin != sid
  {
    SessionIn(r, sid);
    hide Inv, Edge.Key;
    forall k | k in r.remote ensures r.remote[k].origin != sid {
      OriginStarted(r, k);
    }
  }

  lemma OriginStarted(r: Room, k: TrackKey)
    requires Inv(r) && k in r.remote
    ensures r.remote[k].origin in r.table && r.table[r.remote[k].origin].started
  {
    var o := r.remote[k].origin;
    hide Pre, Derived, Edge.Key;
    OriginIn(r, k);
    SessionIn(r, o);
    if Superseded(r, o) {
      var x :| x in r.table && r.table[x].prev == Some(o);
      ReaderIn(r, x);
    }
  }

  lemma WantTaken(r: Room, sid: SessionId, want: Demand)
    requires Inv(r) && sid in r.table && r.table[sid].reading && !r.table[sid].closed
    ensures Registered(r) && Registered(WithWant(r, sid, want))
    ensures IsRegistered(r, sid) ==> r.table[sid].established
  {
    hide Inv, Registered, Edge.Key;
    StepStarts(r, PeerWant(sid, want));
    if IsRegistered(r, sid) {
      UpIfRegistered(r, sid);
    }
  }

  lemma WantIsStep(r: Room, sid: SessionId, want: Demand, now: int, demand: Demand, r': Room)
    requires Inv(r) && Registered(r) && sid in r.table && r.table[sid].reading && !r.table[sid].closed
    requires Registered(WithWant(r, sid, want)) && Recomputed(WithWant(r, sid, want), r', now, demand)
    ensures Step(r, PeerWant(sid, want), now, demand, r') && Inv(r')
  {
    hide Inv, Registered, Recomputed, WithWant;
    StepKeepsInv(r, PeerWant(sid, want), now, demand, r');
  }

  lemma StandsFor(s: Session, s': Session)
    requires Stands(s, s')
    ensures s'.edge == s.edge && s'.link.peerWant == s.link.peerWant && s'.link.peerWantSeen == s.link.peerWantSeen
  {}

  lemma StandsAt(a: map<SessionId, Session>, b: map<SessionId, Session>, x: SessionId)
    requires x in a && SameStandings(a, b)
    ensures x in b && b[x].closed == a[x].closed
  {}

  lemma EstablishParts(r: Room, sid: SessionId)
    requires Inv(r) && sid in r.table && !r.table[sid].started && !r.table[sid].closed && Registered(r)
    ensures var r1 := Superseding(r, sid);
      && r1 == r.(sessions := r.sessions[r.table[sid].edge.Key() := sid], table := r1.table, edgesUp := r1.edgesUp)
      && sid in r1.table
    ensures var r2 := Closed(r.(table := r.table[sid := r.table[sid].(started := true)]), sid);
      r2 == r.(table := r2.table, edgesUp := r2.edgesUp) && sid in r2.table && r2.table[sid].closed
  {
    SupersedingParts(r, sid);
    NotYetUp(r, sid);
    hide Inv, Edge.Key;
    assert (map k | k in r.remote && r.remote[k].origin != sid :: r.remote[k]) == r.remote;
  }

  lemma TrackUpStep(r: Room, sid: SessionId, k: TrackKey, id: nat, pub: Pub, now: int, demand: Demand, r1: Room,
                    r': Room)
    requires Inv(r) && Registered(r) && Enabled(r, TrackUp(sid, k, id, pub))
    requires if ClassifyRemoteTrack(r, sid, k) == Accept
             then r1 == r.(remote := r.remote[k := Speaker(id, pub, sid, {})]) && Registered(r1) &&
                  Recomputed(r1, r', now, demand)
             else r' == r
    ensures Step(r, TrackUp(sid, k, id, pub), now, demand, r') && Inv(r')
  {
    hide Inv, Registered, Recomputed, ClassifyRemoteTrack;
    StepKeepsInv(r, TrackUp(sid, k, id, pub), now, demand, r');
  }

  lemma StillRegistered(r: Room, r': Room)
    requires Registered(r) && r'.sessions == r.sessions && r'.table == r.table
    ensures Registered(r')
  {}

  /** Entering one track, or taking it out, leaves the others. */
  lemma OthersStay(a: map<TrackKey, Speaker>, b: map<TrackKey, Speaker>, c: map<TrackKey, Speaker>, k: TrackKey)
    requires SameTracks(b, c) && b - {k} == a - {k}
    ensures SameTracks(a - {k}, c - {k})
    ensures k in b <==> k in c
    ensures k in b ==> c[k].id == b[k].id && c[k].origin == b[k].origin && c[k].pub == b[k].pub
  {}

  lemma SameSelf(r: Room)
    ensures SameTracks(r.remote, r.remote) && SameStandings(r.table, r.table)
    ensures forall k :: SameTracks(r.remote - {k}, r.remote - {k})
  {}

  lemma OtherStandings(a: map<SessionId, Session>, s: Session, c: map<SessionId, Session>, sid: SessionId)
    requires sid in a && SameStandings(a[sid := s], c)
    ensures sid in c && Stands(s, c[sid]) && forall x | x in a && x != sid :: x in c && Stands(a[x], c[x])
  {}

  lemma UpIfRegistered(r: Room, sid: SessionId)
    requires Inv(r) && IsRegistered(r, sid)
    ensures r.table[sid].established
  {
    SessionIn(r, sid);
  }

  lemma CarriesDesired(r: Room, sid: SessionId)
    requires Inv(r)
    ensures IsRegistered(r, sid) ==> r.table[sid].out.Keys == Desired(r, sid, r.table[sid], r.lastAllowed)
  {
    if IsRegistered(r, sid) {
      assert UpToDate(r, r.table[sid].edge.Key());
    }
  }

  lemma CarriesOnlyTracks(r: Room, k: TrackKey)
    requires Inv(r)
    ensures k !in r.remote && k !in r.local ==>
              forall key | key in r.sessions :: r.sessions[key] in r.table && k !in r.table[r.sessions[key]].out
  {
    forall key | k !in r.remote && k !in r.local && key in r.sessions
      ensures r.sessions[key] in r.table && k !in r.table[r.sessions[key]].out
    {
      assert UpToDate(r, key);
    }
  }

  lemma DroppedAreLeaving(r: Room, epoch: nat, es: seq<Edge>)
    requires Inv(r) && epoch >= r.epoch
    ensures Dropped(r, Keyed(epoch, es)) <= Leaving(WithEdges(r, epoch, Keyed(epoch, es)))
  {
    var next := Keyed(epoch, es);
    forall key | key in next ensures next[key].Key() == key {
      KeyedIsKeyed(epoch, es, key);
    }
    hide Edge.Key, Keyed;
    forall sid | sid in Dropped(r, next) ensures sid in Leaving(WithEdges(r, epoch, next)) {
      assert SessionOk(r, sid);
      WithEdgesRecord(r, epoch, next, sid);
    }
  }

  lemma ClosedIsOut(r: Room, sid: SessionId)
    requires Inv(r) && sid in r.table && r.table[sid].closed
    ensures !IsRegistered(r, sid) && forall k | k in r.remote :: r.remote[k].origin != sid
  {
    hide Edge.Key;
    assert SessionOk(r, sid);
    forall k | k in r.remote ensures r.remote[k].origin != sid {
      assert OriginOk(r, r.remote[k].origin);
    }
  }
}
