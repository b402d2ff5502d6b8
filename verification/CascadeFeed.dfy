/** Whether a carried track is fed: an out track is set up once, on the local publisher or as a relay,
    and kept by its key alone, so it can outlive the source it was set up on. */
module CascadeFeed {
  import opened Options
  import opened Wants
  import opened Demands
  import opened CascadeRooms
  import opened CascadeRuns
  import opened CascadeEcho
  import opened EchoGuard
  import Net = WantNetwork

  /** Packets go into the out track of k on edge `key`: from the local publisher it is attached to, or
      from the read loop of a remote track that has it among its sinks. */
  ghost predicate Fed(r: Room, key: EdgeKey, k: TrackKey)
    requires Registered(r) && key in r.sessions && k in r.table[r.sessions[key]].out
  {
    || (r.table[r.sessions[key]].out[k].local && k in r.local)
    || (k in r.remote && key in r.remote[k].sinks)
  }

  /** The edge carries k, which is published here or remote, and no packet of it ever gets in. */
  ghost predicate Starved(r: Room, key: EdgeKey, k: TrackKey) {
    Registered(r) && key in r.sessions && k in r.table[r.sessions[key]].out && !Fed(r, key, k)
  }

  // ---------------------------------------------------------------------------------------------
  // Sinks between recomputations
  // ---------------------------------------------------------------------------------------------

  ghost predicate SinksAt(r: Room, k: TrackKey, key: EdgeKey)
    requires Registered(r) && k in r.remote && key in r.sessions
  {
    key in r.remote[k].sinks <==> r.sessions[key] != r.remote[k].origin && k in r.table[r.sessions[key]].out
  }

  ghost predicate SinksInv(r: Room)
    requires Registered(r)
  {
    forall k, key | k in r.remote && key in r.sessions :: SinksAt(r, k, key)
  }

  /** Whoever stays registered keeps its out tracks, and whoever is new there has none. */
  ghost predicate SameOuts(r: Room, r': Room)
    requires Registered(r) && Registered(r')
  {
    forall key | key in r'.sessions :: SameOut(r, r', key)
  }

  ghost predicate SameOut(r: Room, r': Room, key: EdgeKey)
    requires Registered(r) && Registered(r') && key in r'.sessions
  {
    r'.table[r'.sessions[key]].out
      == if key in r.sessions && r.sessions[key] == r'.sessions[key] then r.table[r.sessions[key]].out else map[]
  }

  /** A session not yet in use has no out tracks. */
  ghost predicate NewHaveNone(r: Room) {
    forall sid | sid in r.table && !r.table[sid].started :: r.table[sid].out == map[]
  }

  lemma WithEdgesSameOuts(r: Room, epoch: nat, es: seq<Edge>)
    requires Registered(r)
    ensures var r' := WithEdges(r, epoch, Keyed(epoch, es)); Registered(r') && SameOuts(r, r')
    ensures NewHaveNone(r) ==> NewHaveNone(WithEdges(r, epoch, Keyed(epoch, es)))
  {
    var next := Keyed(epoch, es);
    forall key | key in next ensures next[key].Key() == key {
      KeyedIsKeyed(epoch, es, key);
    }
    hide Keyed, Edge.Key;
    WithEdgesRegister(r, epoch, next);
    var r' := WithEdges(r, epoch, next);
    forall key | key in r'.sessions ensures SameOut(r, r', key) {
      WithEdgesRecord(r, epoch, next, r.sessions[key]);
    }
  }

  lemma ClosedSameOuts(r: Room, sid: SessionId)
    requires Registered(r) && sid in r.table && Registered(Closed(r, sid))
    ensures SameOuts(r, Closed(r, sid)) && (NewHaveNone(r) ==> NewHaveNone(Closed(r, sid)))
  {
    hide Edge.Key;
  }

  lemma SupersedingSameOuts(r: Room, sid: SessionId)
    requires SessionsInv(r) && Registered(r) && sid in r.table && !r.table[sid].started && NewHaveNone(r)
    ensures Registered(Superseding(r, sid)) && SameOuts(r, Superseding(r, sid)) && NewHaveNone(Superseding(r, sid))
  {
    hide SessionsInv, Edge.Key, Superseding;
    var r' := Superseding(r, sid);
    Newcomer(r, sid);
    SupersedingRegister(r, sid);
    forall x | x in r'.table ensures r'.table[x].out == r.table[x].out && (r.table[x].started ==> r'.table[x].started) {
      SupersedingRecords(r, sid, x);
    }
  }

  lemma RecordSameOuts(r: Room, sid: SessionId, s: Session)
    requires Registered(r) && Registered(r.(table := r.table[sid := s]))
    requires if sid in r.table then s.out == r.table[sid].out && (r.table[sid].started ==> s.started)
               else s.out == map[]
    ensures var r' := r.(table := r.table[sid := s]); SameOuts(r, r') && (NewHaveNone(r) ==> NewHaveNone(r'))
  {
    hide Edge.Key;
  }

  lemma SameOutsThen(a: Room, b: Room, c: Room)
    requires Registered(a) && Registered(b) && Registered(c) && SameOuts(a, b) && SameOuts(b, c)
    requires forall key | key in c.sessions :: key in b.sessions && c.sessions[key] == b.sessions[key]
    ensures SameOuts(a, c)
  {
    hide Edge.Key;
    forall key | key in c.sessions ensures SameOut(a, c, key) {
      assert SameOut(b, c, key);
      if key in b.sessions {
        assert SameOut(a, b, key);
      }
    }
  }

  lemma EstablishSameOuts(r: Room, sid: SessionId)
    requires Pre(r) && Registered(r) && Enabled(r, Establish(sid)) && NewHaveNone(r)
    ensures var i := Input(r, Establish(sid)); Registered(i) && SameOuts(r, i) && NewHaveNone(i)
  {
    InputKeepsPre(r, Establish(sid));
    if StillDesired(r, r.table[sid]) {
      SupersedingSameOuts(r, sid);
    } else {
      hide Edge.Key, Closed, StillDesired, SessionsInv, EdgesInv, OriginsInv, ReadersInv;
      var r1 := r.(table := r.table[sid := r.table[sid].(started := true)]);
      PreRegistered(Input(r, Establish(sid)));
      RecordSameOuts(r, sid, r.table[sid].(started := true));
      ClosedSameOuts(r1, sid);
      ClosedSessions(r1, sid);
      SameOutsThen(r, r1, Closed(r1, sid));
    }
  }

  lemma ClosedSessions(r: Room, sid: SessionId)
    requires sid in r.table
    ensures forall key | key in Closed(r, sid).sessions ::
              key in r.sessions && Closed(r, sid).sessions[key] == r.sessions[key]
  {
    hide Edge.Key;
  }

  lemma PreRegistered(r: Room)
    requires Pre(r)
    ensures Registered(r)
  {}

  lemma FinishSameOuts(r: Room, sid: SessionId)
    requires Pre(r) && Registered(r) && Enabled(r, FinishEstablish(sid)) && NewHaveNone(r)
    ensures var i := Input(r, FinishEstablish(sid)); Registered(i) && SameOuts(r, i) && NewHaveNone(i)
  {
    InputKeepsPre(r, FinishEstablish(sid));
    PreRegistered(Input(r, FinishEstablish(sid)));
    hide Edge.Key, Closed, SessionsInv, EdgesInv, OriginsInv;
    assert ReaderOk(r, sid);
    hide ReadersInv;
    var r1 := if HasPrev(r, sid) then Closed(r, r.table[sid].prev.value) else r;
    if HasPrev(r, sid) {
      ClosedKeepsPre(r, r.table[sid].prev.value);
      hide Pre;
      PreRegistered(r1);
      ClosedSameOuts(r, r.table[sid].prev.value);
      ClosedRecords(r, r.table[sid].prev.value, sid);
    }
    hide Pre;
    RecordSameOuts(r1, sid, r1.table[sid].(reading := true));
    SameOutsThen(r, r1, Input(r, FinishEstablish(sid)));
  }

  lemma RecordEventSameOuts(r: Room, ev: Event)
    requires Registered(r) && Enabled(r, ev) && Registered(Input(r, ev)) && NewHaveNone(r)
    requires ev.Handshake? || ev.PeerWant? || ev.CloseSession?
    ensures var i := Input(r, ev); SameOuts(r, i) && NewHaveNone(i)
  {
    hide Edge.Key, Closed, SameOuts, NewHaveNone, Registered;
    if ev.CloseSession? {
      ClosedSameOuts(r, ev.sid);
    } else {
      RecordSameOuts(r, ev.sid, Input(r, ev).table[ev.sid]);
    }
  }

  lemma EdgesSameOuts(r: Room, epoch: nat, es: seq<Edge>)
    requires Registered(r) && NewHaveNone(r)
    ensures var i := Input(r, SetEdges(epoch, es)); Registered(i) && SameOuts(r, i) && NewHaveNone(i)
  {
    hide Registered, WithEdges, Keyed, SameOuts, NewHaveNone;
    if epoch < r.epoch {
      SameTableSameOuts(r, r);
    } else {
      WithEdgesSameOuts(r, epoch, es);
    }
  }

  lemma TableStays(r: Room, ev: Event)
    requires Registered(r) && Enabled(r, ev) && (IsLocal(ev) || ev.TrackUp?)
    ensures var i := Input(r, ev); i.table == r.table && i.sessions == r.sessions
  {
    hide Registered, ClassifyRemoteTrack;
  }

  /** No event's input gives a registered session out tracks; only recomputations do. */
  lemma InputSameOuts(r: Room, ev: Event)
    requires Pre(r) && Registered(r) && Enabled(r, ev) && NewHaveNone(r)
    ensures var i := Input(r, ev); Registered(i) && SameOuts(r, i) && NewHaveNone(i)
  {
    hide Pre, Input, Enabled, SameOuts, NewHaveNone, Registered;
    InputKeepsPre(r, ev);
    PreRegistered(Input(r, ev));
    match ev
    case SetEdges(epoch, es) => EdgesSameOuts(r, epoch, es);
    case Handshake(_, _) => RecordEventSameOuts(r, ev);
    case Establish(sid) => EstablishSameOuts(r, sid);
    case FinishEstablish(sid) => FinishSameOuts(r, sid);
    case PeerWant(_, _) => RecordEventSameOuts(r, ev);
    case CloseSession(_) => RecordEventSameOuts(r, ev);
    case _ =>
      TableStays(r, ev);
      SameTableSameOuts(r, Input(r, ev));
  }

  lemma SameTableSameOuts(r: Room, r': Room)
    requires Registered(r) && Registered(r') && r'.table == r.table && r'.sessions == r.sessions
    ensures SameOuts(r, r') && (NewHaveNone(r) ==> NewHaveNone(r'))
  {}

  lemma ClosedTracks(r: Room, sid: SessionId)
    requires sid in r.table
    ensures var r' := Closed(r, sid); r'.local == r.local && forall k | k in r'.remote :: k in r.remote
  {}

  lemma SupersedingKeepsTracks(r: Room, sid: SessionId)
    requires Registered(r) && sid in r.table
    ensures var r' := Superseding(r, sid); r'.local == r.local && r'.remote == r.remote
  {}

  /** What an event's input does to the tracks themselves. */
  lemma InputTracks(r: Room, ev: Event)
    requires Registered(r) && Enabled(r, ev)
    ensures var i := Input(r, ev);
      && i.local == (if ev.Publish? then r.local[ev.k := ev.pub] else if ev.Unpublish? then r.local - {ev.k}
           else r.local)
      && forall k | k in i.remote :: k in r.remote || (ev.TrackUp? && ev.k == k && k !in r.local)
  {
    hide Edge.Key, StillDesired, Keyed, Survives, IsRegistered, Registered, Closed, Superseding;
    match ev
    case Establish(sid) =>
      SupersedingKeepsTracks(r, sid);
      ClosedTracks(r.(table := r.table[sid := r.table[sid].(started := true)]), sid);
    case FinishEstablish(sid) =>
      if HasPrev(r, sid) {
        ClosedTracks(r, r.table[sid].prev.value);
      }
    case CloseSession(sid) => ClosedTracks(r, sid);
    case _ =>
  }

  // ---------------------------------------------------------------------------------------------
  // The sinks are right in every reachable state
  // ---------------------------------------------------------------------------------------------

  /** A step that stops short of a recomputation leaves tracks, sinks and out tracks alone. */
  lemma QuietFrame(r: Room, ev: Event)
    requires Pre(r) && Registered(r) && Enabled(r, ev) && Quiet(r, ev) && NewHaveNone(r)
    ensures var i := Input(r, ev); i.remote == r.remote && i.local == r.local
    ensures var i := Input(r, ev);
              forall key | key in i.sessions :: key in r.sessions && i.sessions[key] == r.sessions[key]
  {
    hide Pre, Edge.Key, StillDesired, Superseding, Keyed, Survives, IsRegistered, ForwardingAllowed;
  }

  lemma QuietKeepsSinks(r: Room, ev: Event)
    requires Pre(r) && Registered(r) && Enabled(r, ev) && Quiet(r, ev) && NewHaveNone(r) && SinksInv(r)
    ensures Registered(Input(r, ev)) && SinksInv(Input(r, ev))
  {
    hide Pre, Edge.Key, Input, Enabled, Quiet, Registered, NewHaveNone;
    QuietFrame(r, ev);
    InputSameOuts(r, ev);
    var i := Input(r, ev);
    forall k, key | k in i.remote && key in i.sessions ensures SinksAt(i, k, key) {
      assert SinksAt(r, k, key) && SameOut(r, i, key);
    }
  }

  lemma RecomputedSinks(r: Room, r': Room, now: int, demand: Demand)
    requires Registered(r) && Recomputed(r, r', now, demand)
    ensures Registered(r') && SinksInv(r')
  {
    RecomputedRest(r, r', now, demand);
    RecomputedRegisters(r, r', now, demand);
    hide Recomputed, Registered;
    forall k, key | k in r'.remote && key in r'.sessions ensures SinksAt(r', k, key) {
      SinksAreExact(r, r', now, demand, k, key);
    }
  }

  lemma RecomputedRegisters(r: Room, r': Room, now: int, demand: Demand)
    requires Registered(r) && Recomputed(r, r', now, demand)
    ensures Registered(r')
  {
    hide SessionsRecomputed, WithSinks, ActiveCounts, PrunedCounts, ForwardingAllowed, Edge.Key;
  }

  lemma RecomputedNew(r: Room, r': Room, now: int, demand: Demand)
    requires Pre(r) && Registered(r) && Recomputed(r, r', now, demand) && NewHaveNone(r)
    ensures NewHaveNone(r')
  {
    hide Edge.Key, NewOut, WithSinks, ActiveCounts, PrunedCounts, ForwardingAllowed, SessionRecomputed;
    forall sid | sid in r'.table && !r'.table[sid].started ensures r'.table[sid].out == map[] {
      assert SessionOk(r, sid);
      RecomputedRecord(r, r', now, demand, sid);
    }
  }

  /** All that feeding relies on. */
  ghost predicate FeedInv(r: Room) {
    Inv(r) && Registered(r) && NewHaveNone(r) && SinksInv(r)
  }

  lemma StepKeepsFeed(r: Room, ev: Event, now: int, demand: Demand, r': Room)
    requires FeedInv(r) && Step(r, ev, now, demand, r')
    ensures FeedInv(r')
  {
    hide Pre, Derived, Registered, NewHaveNone, SinksInv, Recomputed, Input, Enabled, Quiet;
    StepKeepsInv(r, ev, now, demand, r');
    InputSameOuts(r, ev);
    InputKeepsPre(r, ev);
    if Quiet(r, ev) {
      QuietKeepsSinks(r, ev);
    } else {
      RecomputedSinks(Input(r, ev), r', now, demand);
      RecomputedNew(Input(r, ev), r', now, demand);
    }
  }

  lemma NewRoomFeed()
    ensures FeedInv(NEW_ROOM)
  {}

  lemma {:induction false} RunKeepsFeed(states: seq<Room>, acts: seq<Act>, i: nat)
    requires Run(states, acts) && i < |states|
    ensures FeedInv(states[i])
  {
    hide FeedInv, Step;
    if i == 0 {
      NewRoomFeed();
    } else {
      RunKeepsFeed(states, acts, i - 1);
      StepKeepsFeed(states[i - 1], acts[i - 1].ev, acts[i - 1].now, acts[i - 1].demand, states[i]);
    }
  }

  /** In every reachable state a carried track is starved exactly when its out track was set up as a
      relay and no remote track of other origin is left to relay. */
  lemma StarvedIff(states: seq<Room>, acts: seq<Act>, i: nat, key: EdgeKey, k: TrackKey)
    requires Run(states, acts) && i < |states| && Registered(states[i]) && key in states[i].sessions
    requires k in states[i].table[states[i].sessions[key]].out
    ensures var r, sid := states[i], states[i].sessions[key];
      Starved(r, key, k) <==> !r.table[sid].out[k].local && !(k in r.remote && r.remote[k].origin != sid)
  {
    RunKeepsFeed(states, acts, i);
    FeedIff(states[i], key, k);
  }

  lemma FeedIff(r: Room, key: EdgeKey, k: TrackKey)
    requires FeedInv(r) && key in r.sessions && k in r.table[r.sessions[key]].out
    ensures Fed(r, key, k) <==>
              r.table[r.sessions[key]].out[k].local || (k in r.remote && r.remote[k].origin != r.sessions[key])
  {
    hide Pre, Registered;
    assert UpToDate(r, key);
    if k in r.remote {
      assert SinksAt(r, k, key);
    }
    hide Asked;
  }

  // ---------------------------------------------------------------------------------------------
  // Runs that publish with care
  // ---------------------------------------------------------------------------------------------

  /** A key is published only when no remote track of it is left. */
  predicate Careful(r: Room, ev: Event) {
    ev.Publish? ==> ev.k !in r.remote
  }

  /** Published and remote keys are apart, and every out track is set up on the source it has. */
  ghost predicate Settled(r: Room)
    requires Registered(r)
  {
    && r.local.Keys !! r.remote.Keys
    && forall key | key in r.sessions :: Honest(r, key)
  }

  ghost predicate Honest(r: Room, key: EdgeKey)
    requires Registered(r) && key in r.sessions
  {
    forall k | k in r.table[r.sessions[key]].out :: r.table[r.sessions[key]].out[k].local <==> k in r.local
  }

  lemma CarefulDisjoint(r: Room, ev: Event)
    requires Registered(r) && Enabled(r, ev) && Careful(r, ev) && r.local.Keys !! r.remote.Keys
    ensures Input(r, ev).local.Keys !! Input(r, ev).remote.Keys
  {
    hide Registered, Input, Enabled;
    InputTracks(r, ev);
  }

  /** Whether a carried key that stays desired is published does not change. */
  lemma CarefulKeepsSource(r: Room, ev: Event, key: EdgeKey, k: TrackKey)
    requires FeedInv(r) && Settled(r) && Enabled(r, ev) && Careful(r, ev)
    requires key in r.sessions && k in r.table[r.sessions[key]].out
    requires var i := Input(r, ev); k in i.local || k in i.remote
    ensures k in Input(r, ev).local <==> k in r.local
  {
    hide Pre, Registered, Input, Enabled, NewHaveNone, SinksInv, Asked;
    InputTracks(r, ev);
    assert UpToDate(r, key);
  }

  /** One out track after a recomputation: kept as it was set up, or new and set up on its source. */
  lemma NewOutAt(i: Room, sid: SessionId, s: Session, allowed: bool, k: TrackKey)
    requires i.local.Keys !! i.remote.Keys && k in NewOut(i, sid, s, allowed)
    ensures k in i.local || k in i.remote
    ensures NewOut(i, sid, s, allowed)[k].local <==> if k in s.out then s.out[k].local else k in i.local
  {
    hide Asked;
  }

  lemma CarefulHonest(r: Room, ev: Event, now: int, demand: Demand, r': Room, key: EdgeKey)
    requires FeedInv(r) && Settled(r) && Enabled(r, ev) && Careful(r, ev) && key in r'.sessions
    requires var i := Input(r, ev); Pre(i) && Registered(i) && Recomputed(i, r', now, demand)
    requires Registered(r') && SameOuts(r, Input(r, ev))
    ensures Honest(r', key)
  {
    var i := Input(r, ev);
    hide Inv, Pre, Registered, Input, Enabled, NewHaveNone, SinksInv, Recomputed, NewOut, Edge.Key, Honest;
    RecomputedRest(i, r', now, demand);
    RegisteredOnes(i, key);
    var sid := i.sessions[key];
    RecomputedRecord(i, r', now, demand, sid);
    CarefulDisjoint(r, ev);
    var out := NewOut(i, sid, i.table[sid], ForwardingAllowed(i, now));
    assert SameOut(r, i, key);
    forall k | k in out ensures out[k].local <==> k in i.local {
      NewOutAt(i, sid, i.table[sid], ForwardingAllowed(i, now), k);
      if k in i.table[sid].out {
        HonestAt(r, key, k);
        CarefulKeepsSource(r, ev, key, k);
      }
    }
    HonestOut(r', key, out);
  }

  lemma HonestAt(r: Room, key: EdgeKey, k: TrackKey)
    requires Registered(r) && Settled(r) && key in r.sessions && k in r.table[r.sessions[key]].out
    ensures r.table[r.sessions[key]].out[k].local <==> k in r.local
  {
    assert Honest(r, key);
  }

  lemma HonestOut(r: Room, key: EdgeKey, out: map<TrackKey, OutTrack>)
    requires Registered(r) && key in r.sessions && r.table[r.sessions[key]].out == out
    requires forall k | k in out :: out[k].local <==> k in r.local
    ensures Honest(r, key)
  {}

  lemma RegisteredOnes(r: Room, key: EdgeKey)
    requires Pre(r) && Registered(r) && key in r.sessions
    ensures r.sessions[key] in r.table && IsRegistered(r, r.sessions[key]) && r.table[r.sessions[key]].established
  {
    RegisteredIsUp(r, key);
  }

  lemma QuietHonest(r: Room, ev: Event)
    requires FeedInv(r) && Settled(r) && Enabled(r, ev) && Quiet(r, ev)
    ensures Registered(Input(r, ev)) && Settled(Input(r, ev))
  {
    hide Pre, Derived, Registered, Input, Enabled, NewHaveNone, SinksInv, Quiet;
    var i := Input(r, ev);
    QuietFrame(r, ev);
    InputSameOuts(r, ev);
    forall key | key in i.sessions ensures Honest(i, key) {
      assert SameOut(r, i, key) && Honest(r, key);
    }
  }

  lemma CarefulStep(r: Room, ev: Event, now: int, demand: Demand, r': Room)
    requires FeedInv(r) && Settled(r) && Step(r, ev, now, demand, r') && Careful(r, ev)
    ensures FeedInv(r') && Settled(r')
  {
    StepKeepsFeed(r, ev, now, demand, r');
    hide Inv, Pre, Registered, Input, Enabled, NewHaveNone, SinksInv, Quiet, Honest, Recomputed;
    var i := Input(r, ev);
    InvPre(r);
    InputKeepsPre(r, ev);
    InputSameOuts(r, ev);
    if Quiet(r, ev) {
      QuietHonest(r, ev);
    } else {
      CarefulDisjoint(r, ev);
      RecomputedRest(i, r', now, demand);
      forall key | key in r'.sessions ensures Honest(r', key) {
        CarefulHonest(r, ev, now, demand, r', key);
      }
    }
  }

  lemma InvPre(r: Room)
    requires Inv(r)
    ensures Pre(r)
  {}

  lemma {:induction false} CarefulRunSettles(states: seq<Room>, acts: seq<Act>, i: nat)
    requires Run(states, acts) && i < |states| && forall j | 0 <= j < |acts| :: Careful(states[j], acts[j].ev)
    ensures FeedInv(states[i]) && Registered(states[i]) && Settled(states[i])
  {
    hide FeedInv, Step, Settled, Careful, Registered;
    if i == 0 {
      NewRoomFeed();
      NewRoomSettled();
    } else {
      CarefulRunSettles(states, acts, i - 1);
      CarefulStep(states[i - 1], acts[i - 1].ev, acts[i - 1].now, acts[i - 1].demand, states[i]);
      FeedRegistered(states[i]);
    }
  }

  lemma NewRoomSettled()
    ensures Registered(NEW_ROOM) && Settled(NEW_ROOM)
  {}

  lemma FeedRegistered(r: Room)
    requires FeedInv(r)
    ensures Registered(r)
  {}

  lemma SettledIsFed(r: Room, key: EdgeKey, k: TrackKey)
    requires FeedInv(r) && Settled(r)
    ensures !Starved(r, key, k)
  {
    if key in r.sessions && k in r.table[r.sessions[key]].out {
      FeedIff(r, key, k);
      HonestAt(r, key, k);
      assert UpToDate(r, key);
      hide Pre, Registered, Asked, Fed;
    }
  }

  /** In a run that publishes with care every carried track is fed by the source it has. */
  lemma CarefulRunsFeed(states: seq<Room>, acts: seq<Act>, i: nat, key: EdgeKey, k: TrackKey)
    requires Run(states, acts) && i < |states| && forall j | 0 <= j < |acts| :: Careful(states[j], acts[j].ev)
    ensures !Starved(states[i], key, k)
  {
    hide Run, FeedInv, Settled, Starved, Careful;
    CarefulRunSettles(states, acts, i);
    SettledIsFed(states[i], key, k);
  }
}
