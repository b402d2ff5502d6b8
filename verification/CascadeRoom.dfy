/** One node's cascade state for one room: anchor lease, epoch-stamped edges, a session per edge,
    local and remote tracks, and the recomputation that derives everything sent from them. */
module CascadeRooms {
  import opened Options
  import opened Wants
  import opened Demands
  import opened Sums
  import opened Tracks
  import Net = WantNetwork

  type EdgeKey = string
  type TrackKey = string
  type SessionId = nat

  datatype Lease = Lease(anchor: string, epoch: nat, expireMs: int)

  datatype Edge = Edge(epoch: nat, parent: string, child: string, endpoint: string, token: string)
  {
    function Key(): EdgeKey {
      parent + "|" + child
    }
  }

  /** A changed endpoint needs a new connection; a rotated token does not. */
  predicate SameEdge(a: Edge, b: Edge) {
    a.parent == b.parent && a.child == b.child && a.endpoint == b.endpoint
  }

  datatype Pub = Pub(uid: Uid, kind: Kind)
  {
    /** Audio is demanded by the audio want, both screen kinds by the screen want. */
    function AsTopic(): Topic {
      Topic(kind != Audio, uid)
    }
  }

  datatype OutTrack = OutTrack(pub: Pub, local: bool)

  /** sinks: the edges on which this track is currently forwarded further. */
  datatype Speaker = Speaker(id: nat, pub: Pub, origin: SessionId, sinks: set<EdgeKey>)

  /** started: edgeEstablished has been called for it; reading: its read loop has started;
      prev: the session it superseded, if any. */
  datatype Session = Session(edge: Edge, established: bool, closed: bool, active: bool, started: bool, reading: bool,
                             prev: Option<SessionId>, link: Net.Link, out: map<TrackKey, OutTrack>)

  /** table holds every session object; sessions the registered one of each edge. */
  datatype Room = Room(
    lease: Option<Lease>, epoch: nat, edges: map<EdgeKey, Edge>,
    sessions: map<EdgeKey, SessionId>, table: map<SessionId, Session>,
    local: map<TrackKey, Pub>, remote: map<TrackKey, Speaker>,
    lastAllowed: bool, activeTracks: int, prunedTracks: int, edgesUp: int)

  const NEW_ROOM := Room(None, 0, map[], map[], map[], map[], map[], false, 0, 0, 0)

  /** Cross-node forwarding needs an unexpired lease of the current edge epoch. */
  predicate ForwardingAllowed(r: Room, now: int) {
    r.lease.Some? && r.lease.value.epoch == r.epoch && now < r.lease.value.expireMs
  }

  // ---------------------------------------------------------------------------------------------
  // What a recomputation must produce
  // ---------------------------------------------------------------------------------------------

  predicate Asked(want: Demand, p: Pub) {
    want.Accepts(p.AsTopic())
  }

  function Wanted(pubs: map<TrackKey, Pub>, want: Demand): set<TrackKey> {
    set k | k in pubs && Asked(want, pubs[k])
  }

  function Pruned(pubs: map<TrackKey, Pub>, want: Demand): set<TrackKey> {
    set k | k in pubs && !Asked(want, pubs[k])
  }

  /** Remote tracks that did not come in over session sid. */
  function Foreign(remote: map<TrackKey, Speaker>, sid: SessionId): map<TrackKey, Pub> {
    map k | k in remote && remote[k].origin != sid :: remote[k].pub
  }

  function RemoteWanted(remote: map<TrackKey, Speaker>, sid: SessionId, want: Demand): set<TrackKey> {
    Wanted(Foreign(remote, sid), want)
  }

  function RemotePruned(remote: map<TrackKey, Speaker>, sid: SessionId, want: Demand): set<TrackKey> {
    Pruned(Foreign(remote, sid), want)
  }

  /** The tracks the edge should carry: none before authorisation or before the peer's first want,
      and never one that came in over the same session. */
  function Desired(r: Room, sid: SessionId, s: Session, allowed: bool): set<TrackKey> {
    if allowed && s.link.peerWantSeen
    then Wanted(r.local, s.link.peerWant) + RemoteWanted(r.remote, sid, s.link.peerWant) else {}
  }

  function PrunedCount(r: Room, sid: SessionId, s: Session, allowed: bool): nat {
    if allowed && s.link.peerWantSeen
    then |Pruned(r.local, s.link.peerWant)| + |RemotePruned(r.remote, sid, s.link.peerWant)| else 0
  }

  /** A key that is both local and remote is set up as a remote one: remotes are entered last. */
  function Candidate(r: Room, sid: SessionId, s: Session, k: TrackKey): OutTrack
    requires k in Wanted(r.local, s.link.peerWant) + RemoteWanted(r.remote, sid, s.link.peerWant)
  {
    if k in RemoteWanted(r.remote, sid, s.link.peerWant) then OutTrack(r.remote[k].pub, false)
    else OutTrack(r.local[k], true)
  }

  function NewOut(r: Room, sid: SessionId, s: Session, allowed: bool): map<TrackKey, OutTrack> {
    map k | k in Desired(r, sid, s, allowed) :: if k in s.out then s.out[k] else Candidate(r, sid, s, k)
  }

  /** The node as the want protocol sees it: one link per established session. */
  function AsNode(r: Room, demand: Demand): Net.Node
    requires Registered(r)
  {
    Net.Node(demand, true,
             map key | key in r.sessions && r.table[r.sessions[key]].established :: r.table[r.sessions[key]].link)
  }

  predicate Registered(r: Room) {
    forall key | key in r.sessions :: r.sessions[key] in r.table && r.table[r.sessions[key]].edge.Key() == key
  }

  ghost predicate SessionRecomputed(r: Room, key: EdgeKey, allowed: bool, demand: Demand, s': Session)
    requires Registered(r) && key in r.sessions
  {
    var sid := r.sessions[key];
    var s := r.table[sid];
    if !s.established then s' == s.(active := false)
    else
      && s' == s.(active := allowed, out := NewOut(r, sid, s, allowed), link := s'.link)
      && Net.AnnouncesAggregate(AsNode(r, demand), key, s'.link)
  }

  function Sinks(r: Room, k: TrackKey): set<EdgeKey>
    requires Registered(r) && k in r.remote
  {
    set key | key in r.sessions && r.sessions[key] != r.remote[k].origin && k in r.table[r.sessions[key]].out
  }

  function WithSinks(r: Room): map<TrackKey, Speaker>
    requires Registered(r)
  {
    map k | k in r.remote :: r.remote[k].(sinks := Sinks(r, k))
  }

  ghost function ActiveCounts(r: Room): map<EdgeKey, int>
    requires Registered(r)
  {
    map key | key in r.sessions && r.table[r.sessions[key]].established :: |r.table[r.sessions[key]].out|
  }

  ghost function PrunedCounts(r: Room, allowed: bool): map<EdgeKey, int>
    requires Registered(r)
  {
    map key | key in r.sessions && r.table[r.sessions[key]].established ::
      PrunedCount(r, r.sessions[key], r.table[r.sessions[key]], allowed)
  }

  /** r' is r recomputed at time `now` with the given local demand. */
  ghost predicate Recomputed(r: Room, r': Room, now: int, demand: Demand)
    requires Registered(r)
  {
    var allowed := ForwardingAllowed(r, now);
    && SessionsRecomputed(r, r'.table, allowed, demand)
    && r' == r.(table := r'.table, remote := WithSinks(r.(table := r'.table)), lastAllowed := allowed,
                activeTracks := r'.activeTracks, prunedTracks := r'.prunedTracks)
    && r'.activeTracks == Sum(ActiveCounts(r'))
    && r'.prunedTracks == Sum(PrunedCounts(r, allowed))
  }

  ghost predicate SessionsRecomputed(r: Room, table: map<SessionId, Session>, allowed: bool, demand: Demand)
    requires Registered(r)
    ensures SessionsRecomputed(r, table, allowed, demand) ==> Registered(r.(table := table))
  {
    && table.Keys == r.table.Keys
    && (forall key | key in r.sessions :: SessionRecomputed(r, key, allowed, demand, table[r.sessions[key]]))
    && (forall sid | sid in r.table && !IsRegistered(r, sid) :: table[sid] == r.table[sid])
  }

  predicate IsRegistered(r: Room, sid: SessionId) {
    sid in r.table && r.table[sid].edge.Key() in r.sessions && r.sessions[r.table[sid].edge.Key()] == sid
  }

  // ---------------------------------------------------------------------------------------------
  // Conservation: every candidate of an authorised session is either carried or pruned
  // ---------------------------------------------------------------------------------------------

  lemma CandidatesSplit(pubs: map<TrackKey, Pub>, want: Demand)
    ensures |Wanted(pubs, want)| + |Pruned(pubs, want)| == |pubs|
  {
    SplitSize(pubs.Keys, Wanted(pubs, want), Pruned(pubs, want));
  }

  lemma EveryCandidateCountsOnce(r: Room, sid: SessionId, s: Session)
    requires r.local.Keys !! r.remote.Keys && s.link.peerWantSeen
    ensures |NewOut(r, sid, s, true)| + PrunedCount(r, sid, s, true) == |r.local| + |Foreign(r.remote, sid)|
  {
    var lw, rw := Wanted(r.local, s.link.peerWant), RemoteWanted(r.remote, sid, s.link.peerWant);
    CandidatesSplit(r.local, s.link.peerWant);
    CandidatesSplit(Foreign(r.remote, sid), s.link.peerWant);
    assert NewOut(r, sid, s, true).Keys == lw + rw;
    SplitSize(NewOut(r, sid, s, true).Keys, lw, rw);
  }

  lemma SplitSize(whole: set<TrackKey>, a: set<TrackKey>, b: set<TrackKey>)
    requires whole == a + b && a !! b
    ensures |whole| == |a| + |b|
  {}

  lemma NewOutIsExact(r: Room, sid: SessionId, s: Session, allowed: bool, k: TrackKey)
    ensures k in NewOut(r, sid, s, allowed) <==>
      && allowed && s.link.peerWantSeen
      && ((k in r.local && Asked(s.link.peerWant, r.local[k])) ||
          (k in r.remote && r.remote[k].origin != sid && Asked(s.link.peerWant, r.remote[k].pub)))
  {
    hide Asked;
  }

  lemma AskedByKind(want: Demand, p: Pub)
    ensures Asked(want, p) <==> if p.kind.Audio? then want.audio.Wants(p.uid) else want.screen.Wants(p.uid)
  {}

  /** The out tracks of a session, spelled out: an unexpired lease of the edge epoch, a want seen, and the
      local tracks and the remote tracks of other origin whose user that want accepts, audio tracks by its
      audio half, screens and their companion audio by its screen half. */
  lemma OutTracksAreExact(r: Room, r': Room, now: int, demand: Demand, key: EdgeKey, k: TrackKey)
    requires Registered(r) && Recomputed(r, r', now, demand) && key in r.sessions
    requires r.table[r.sessions[key]].established
    ensures var sid, s := r.sessions[key], r.table[r.sessions[key]];
      var want := s.link.peerWant;
      && sid in r'.table && r'.table[sid].link.peerWant == want
      && r'.table[sid].link.peerWantSeen == s.link.peerWantSeen
      && (k in r'.table[sid].out <==>
            && r.lease.Some? && r.lease.value.epoch == r.epoch && now < r.lease.value.expireMs
            && s.link.peerWantSeen
            && ((k in r.local && var p := r.local[k];
                 if p.kind.Audio? then want.audio.Wants(p.uid) else want.screen.Wants(p.uid)) ||
                (k in r.remote && r.remote[k].origin != sid && var p := r.remote[k].pub;
                 if p.kind.Audio? then want.audio.Wants(p.uid) else want.screen.Wants(p.uid))))
  {
    hide Asked, Net.Node.IsAggregate, Net.EdgeCoherent, Edge.Key, Sum, WithSinks, Net.AnnouncesAggregate, NewOut;
    var sid := r.sessions[key];
    assert SessionRecomputed(r, key, ForwardingAllowed(r, now), demand, r'.table[sid]);
    Net.AnnouncesKeeps(AsNode(r, demand), key, r'.table[sid].link);
    NewOutIsExact(r, sid, r.table[sid], ForwardingAllowed(r, now), k);
    forall p {
      AskedByKind(r.table[sid].link.peerWant, p);
    }
  }

  /** Some other established session's peer, once heard, wants t. */
  predicate WantedElsewhere(r: Room, key: EdgeKey, t: Topic)
    requires Registered(r)
  {
    exists o | o in r.sessions && o != key ::
      var s := r.table[r.sessions[o]];
      && s.established && s.link.peerWantSeen
      && if t.video then s.link.peerWant.screen.Wants(t.uid) else s.link.peerWant.audio.Wants(t.uid)
  }

  /** The want announced on an edge, spelled out: in either dimension a user is wanted exactly if the local
      listeners want it or the peer of another established session does; and a frame is sent exactly if
      none has been, or the last one sent does not say the same. */
  lemma WantsAreExact(r: Room, r': Room, now: int, demand: Demand, key: EdgeKey)
    requires Registered(r) && Recomputed(r, r', now, demand) && key in r.sessions
    requires r.table[r.sessions[key]].established
    ensures r.sessions[key] in r'.table && r'.table[r.sessions[key]].link.myWantSent
    ensures var was, link := r.table[r.sessions[key]].link, r'.table[r.sessions[key]].link;
      && (forall u :: link.myWant.audio.Wants(u) <==>
            demand.audio.Wants(u) || WantedElsewhere(r, key, Topic(false, u)))
      && (forall u :: link.myWant.screen.Wants(u) <==>
            demand.screen.Wants(u) || WantedElsewhere(r, key, Topic(true, u)))
      && link.out == (if was.myWantSent
                         && (forall u :: was.myWant.audio.Wants(u) <==> link.myWant.audio.Wants(u))
                         && (forall u :: was.myWant.screen.Wants(u) <==> link.myWant.screen.Wants(u))
                      then was.out else was.out + [link.myWant])
  {
    var sid := r.sessions[key];
    assert SessionRecomputed(r, key, ForwardingAllowed(r, now), demand, r'.table[sid]);
    hide Recomputed, NewOut, Edge.Key, ForwardingAllowed;
    var n := AsNode(r, demand);
    SentIfChanged(n, key, r'.table[sid].link);
    Net.AnnouncesKeeps(n, key, r'.table[sid].link);
    forall t: Topic ensures n.OtherWants(key, t) <==> WantedElsewhere(r, key, t) {
      ElsewhereIs(r, demand, key, t);
    }
    hide SessionRecomputed, Registered, WantedElsewhere, AsNode;
    var want := r'.table[sid].link.myWant;
    assert n.local == demand by {
      OwnDemand(r, demand);
    }
    forall u ensures want.audio.Wants(u) <==> demand.audio.Wants(u) || WantedElsewhere(r, key, Topic(false, u)) {
      assert want.Accepts(Topic(false, u)) <==> n.local.Accepts(Topic(false, u)) || n.OtherWants(key, Topic(false, u));
    }
    forall u ensures want.screen.Wants(u) <==> demand.screen.Wants(u) || WantedElsewhere(r, key, Topic(true, u)) {
      assert want.Accepts(Topic(true, u)) <==> n.local.Accepts(Topic(true, u)) || n.OtherWants(key, Topic(true, u));
    }
  }

  lemma OwnDemand(r: Room, demand: Demand)
    requires Registered(r)
    ensures AsNode(r, demand).local == demand
  {}

  lemma ElsewhereIs(r: Room, demand: Demand, key: EdgeKey, t: Topic)
    requires Registered(r)
    ensures AsNode(r, demand).OtherWants(key, t) <==> WantedElsewhere(r, key, t)
  {
    hide Edge.Key;
    var links := AsNode(r, demand).links;
    if o :| o in links && o != key && links[o].peerWantSeen && links[o].peerWant.Accepts(t) {
      assert o in r.sessions && r.table[r.sessions[o]].link == links[o];
    }
    if WantedElsewhere(r, key, t) {
      var o :| o in r.sessions && o != key && r.table[r.sessions[o]].established
               && r.table[r.sessions[o]].link.peerWantSeen && r.table[r.sessions[o]].link.peerWant.Accepts(t);
      assert o in links;
    }
  }

  lemma SentIfChanged(n: Net.Node, key: EdgeKey, l: Net.Link)
    requires key in n.links && Net.AnnouncesAggregate(n, key, l)
    ensures var was := n.links[key];
      l.out == if was.myWantSent
                  && (forall u :: was.myWant.audio.Wants(u) <==> l.myWant.audio.Wants(u))
                  && (forall u :: was.myWant.screen.Wants(u) <==> l.myWant.screen.Wants(u))
               then was.out else was.out + [l.myWant]
  {
    var w: Demand :| n.IsAggregate(key, w) && Net.Announces(w, n.links[key], l);
    hide Net.Node.IsAggregate;
    EqualIsExtensional(w.audio, n.links[key].myWant.audio);
    EqualIsExtensional(w.screen, n.links[key].myWant.screen);
  }

  /** What each established session could carry: everything, once it is authorised and asked. */
  ghost function CandidateCounts(r: Room, allowed: bool): map<EdgeKey, int>
    requires Registered(r)
  {
    map key | key in r.sessions && r.table[r.sessions[key]].established ::
      if allowed && r.table[r.sessions[key]].link.peerWantSeen then |r.local| + |Foreign(r.remote, r.sessions[key])|
      else 0
  }

  lemma SessionAddsUp(r: Room, r': Room, now: int, demand: Demand, key: EdgeKey)
    requires Registered(r) && Recomputed(r, r', now, demand) && key in r.sessions
    requires r.table[r.sessions[key]].established
    requires r.local.Keys !! r.remote.Keys
    ensures r.sessions[key] in r'.table && r'.table[r.sessions[key]].established
    ensures |r'.table[r.sessions[key]].out| + PrunedCount(r, r.sessions[key], r.table[r.sessions[key]],
              ForwardingAllowed(r, now))
            == CandidateCounts(r, ForwardingAllowed(r, now))[key]
  {
    hide Edge.Key, Sum, WithSinks, ActiveCounts, PrunedCounts, ForwardingAllowed, Net.AnnouncesAggregate, Candidate;
    var sid, s, allowed := r.sessions[key], r.table[r.sessions[key]], ForwardingAllowed(r, now);
    assert SessionRecomputed(r, key, allowed, demand, r'.table[sid]);
    if allowed && s.link.peerWantSeen {
      EveryCandidateCountsOnce(r, sid, s);
    } else {
      assert NewOut(r, sid, s, allowed) == map[];
    }
  }

  /** Over the whole room, carried and pruned tracks together count every candidate once. */
  lemma TotalsAddUp(r: Room, r': Room, now: int, demand: Demand)
    requires Registered(r) && Recomputed(r, r', now, demand) && r.local.Keys !! r.remote.Keys
    ensures r'.activeTracks + r'.prunedTracks == Sum(CandidateCounts(r, ForwardingAllowed(r, now)))
  {
    var allowed := ForwardingAllowed(r, now);
    assert Registered(r') && r'.sessions == r.sessions && SessionsRecomputed(r, r'.table, allowed, demand);
    SessionsStayEstablished(r, r'.table, allowed, demand);
    var c, a, p := CandidateCounts(r, allowed), ActiveCounts(r'), PrunedCounts(r, allowed);
    hide Edge.Key, Sum, PrunedCount, SessionsRecomputed, Foreign, ForwardingAllowed;
    assert c.Keys == a.Keys == p.Keys;
    forall key | key in c ensures c[key] == a[key] + p[key] {
      SessionAddsUp(r, r', now, demand, key);
    }
    SumPointwise(c, a, p);
  }

  /** A remote track is forwarded on exactly the other sessions that carry it. */
  lemma SinksAreExact(r: Room, r': Room, now: int, demand: Demand, k: TrackKey, key: EdgeKey)
    requires Registered(r) && Recomputed(r, r', now, demand) && k in r.remote
    ensures k in r'.remote && r'.remote[k].origin == r.remote[k].origin && Registered(r')
    ensures key in r'.remote[k].sinks <==>
              key in r'.sessions && r'.sessions[key] != r'.remote[k].origin && k in r'.table[r'.sessions[key]].out
  {}

  // ---------------------------------------------------------------------------------------------
  // The room object
  // ---------------------------------------------------------------------------------------------

  /** `next` of applyEdges: keyed, stamped with the epoch, the last of equal keys winning. */
  function Keyed(epoch: nat, es: seq<Edge>): map<EdgeKey, Edge>
    decreases |es|
  {
    if es == [] then map[] else
      var e := es[|es| - 1].(epoch := epoch);
      Keyed(epoch, es[..|es| - 1])[e.Key() := e]
  }

  predicate Survives(next: map<EdgeKey, Edge>, key: EdgeKey, s: Session) {
    key in next && SameEdge(s.edge, next[key])
  }

  /** applyEdges once the epoch is accepted: keep and refresh the matching sessions, drop the rest. */
  function WithEdges(r: Room, epoch: nat, next: map<EdgeKey, Edge>): Room
    requires Registered(r)
  {
    r.(epoch := epoch, edges := next,
       sessions := map key | key in r.sessions && Survives(next, key, r.table[r.sessions[key]]) :: r.sessions[key],
       table := map sid | sid in r.table ::
         var s := r.table[sid];
         if IsRegistered(r, sid) && Survives(next, s.edge.Key(), s) then s.(edge := next[s.edge.Key()]) else s)
  }

  function Dropped(r: Room, next: map<EdgeKey, Edge>): set<SessionId>
    requires Registered(r)
  {
    set sid | sid in r.table && IsRegistered(r, sid) && !Survives(next, r.table[sid].edge.Key(), r.table[sid])
  }

  function ClosedSession(s: Session): Session {
    s.(closed := true, active := false, established := false, out := map[])
  }

  /** close with onEdgeClosed: the session, its remote tracks and its out tracks go. */
  function Closed(r: Room, sid: SessionId): Room
    requires sid in r.table
  {
    var s := r.table[sid];
    if s.closed then r
    else
      r.(sessions := if IsRegistered(r, sid) then r.sessions - {s.edge.Key()} else r.sessions,
         remote := map k | k in r.remote && r.remote[k].origin != sid :: r.remote[k],
         table := r.table[sid := ClosedSession(s)],
         edgesUp := if s.established then r.edgesUp - 1 else r.edgesUp)
  }

  datatype Verdict = Accept | EdgeNotCurrent | SpeakerIsLocal | DuplicateOrigin

  /** Loop defence at the receiver. */
  function ClassifyRemoteTrack(r: Room, sid: SessionId, k: TrackKey): Verdict
    requires sid in r.table
  {
    if !IsRegistered(r, sid) || r.table[sid].closed then EdgeNotCurrent
    else if k in r.local then SpeakerIsLocal
    else if k in r.remote && r.remote[k].origin != sid then DuplicateOrigin
    else Accept
  }

  predicate StillDesired(r: Room, s: Session) {
    s.edge.Key() in r.edges && SameEdge(r.edges[s.edge.Key()], s.edge) && r.edges[s.edge.Key()].epoch == s.edge.epoch
  }

  /** Takes the session registered for key off the register, without closing it yet. */
  function Displaced(r: Room, key: EdgeKey): Room
    requires key in r.sessions && r.sessions[key] in r.table
  {
    var o := r.sessions[key];
    r.(sessions := r.sessions - {key}, table := r.table[o := r.table[o].(established := false)],
       edgesUp := if r.table[o].established then r.edgesUp - 1 else r.edgesUp)
  }

  function Entered(r: Room, sid: SessionId, prev: Option<SessionId>): Room
    requires sid in r.table
  {
    var s := r.table[sid];
    r.(sessions := r.sessions[s.edge.Key() := sid],
       table := r.table[sid := s.(established := true, started := true, prev := prev)], edgesUp := r.edgesUp + 1)
  }

  /** Registers sid, displacing a session of the same edge. */
  function Superseding(r: Room, sid: SessionId): Room
    requires sid in r.table && Registered(r)
  {
    var key := r.table[sid].edge.Key();
    if key in r.sessions && r.sessions[key] != sid then Entered(Displaced(r, key), sid, Some(r.sessions[key]))
    else Entered(r, sid, None)
  }

  function WithWant(r: Room, sid: SessionId, want: Demand): Room
    requires sid in r.table
  {
    var s := r.table[sid];
    r.(table := r.table[sid := s.(link := s.link.(peerWant := want, peerWantSeen := true))])
  }

  /** The record of sid once the edges outside `todo` have been gone through. */
  ghost function Refreshed(r: Room, next: map<EdgeKey, Edge>, todo: set<EdgeKey>, sid: SessionId): Session
    requires sid in r.table
  {
    var s := r.table[sid];
    if IsRegistered(r, sid) && s.edge.Key() !in todo && Survives(next, s.edge.Key(), s)
    then s.(edge := next[s.edge.Key()]) else s
  }

  ghost predicate WantedPast(links: map<EdgeKey, Net.Link>, todo: set<EdgeKey>, key: EdgeKey, t: Topic) {
    exists o :: o in links && o !in todo && o != key && links[o].peerWantSeen && links[o].peerWant.Accepts(t)
  }

  /** The loop that drops or refreshes the registered sessions against the new edges. */
  method DropUnmatched(r: Room, next: map<EdgeKey, Edge>)
    returns (sessions: map<EdgeKey, SessionId>, table: map<SessionId, Session>, removed: set<SessionId>)
    requires Registered(r)
    ensures sessions == WithEdges(r, r.epoch, next).sessions
    ensures table == WithEdges(r, r.epoch, next).table
    ensures removed == Dropped(r, next)
  {
    sessions, table, removed := r.sessions, r.table, {};
    var todo := sessions.Keys;
    assert GoneThrough(r, next, todo, sessions, table, removed);
    while todo != {}
      invariant todo <= r.sessions.Keys && GoneThrough(r, next, todo, sessions, table, removed)
      decreases todo
    {
      var key :| key in todo;
      var sid := r.sessions[key];
      ghost var s0, t0, d0 := sessions, table, removed;
      if key !in next || !SameEdge(r.table[sid].edge, next[key]) {
        removed := removed + {sid};
        sessions := sessions - {key};
      } else {
        table := table[sid := r.table[sid].(edge := next[key])];
      }
      GoOn(r, next, todo, s0, t0, d0, key);
      todo := todo - {key};
    }
    AllGoneThrough(r, next, sessions, table, removed);
  }

  /** The loop state when the edges outside `todo` have been gone through. */
  ghost predicate GoneThrough(r: Room, next: map<EdgeKey, Edge>, todo: set<EdgeKey>,
                              sessions: map<EdgeKey, SessionId>, table: map<SessionId, Session>,
                                  removed: set<SessionId>)
    requires Registered(r)
  {
    && SessionsGone(r, next, todo, sessions)
    && table.Keys == r.table.Keys
    && (forall sid | sid in r.table :: table[sid] == Refreshed(r, next, todo, sid))
    && (forall sid :: sid in removed <==> IsRemoved(r, next, todo, sid))
  }

  ghost predicate SessionsGone(r: Room, next: map<EdgeKey, Edge>, todo: set<EdgeKey>, sessions: map<EdgeKey, SessionId>)
    requires Registered(r)
  {
    && (forall key :: key in sessions <==>
         key in r.sessions && (key in todo || Survives(next, key, r.table[r.sessions[key]])))
    && (forall key | key in sessions :: sessions[key] == r.sessions[key])
  }

  ghost predicate IsRemoved(r: Room, next: map<EdgeKey, Edge>, todo: set<EdgeKey>, sid: SessionId) {
    IsRegistered(r, sid) && r.table[sid].edge.Key() !in todo && !Survives(next, r.table[sid].edge.Key(), r.table[sid])
  }

  lemma SessionsGoOn(r: Room, next: map<EdgeKey, Edge>, todo: set<EdgeKey>, sessions: map<EdgeKey, SessionId>,
                     key: EdgeKey)
    requires Registered(r) && key in todo && key in r.sessions && SessionsGone(r, next, todo, sessions)
    ensures if Survives(next, key, r.table[r.sessions[key]]) then SessionsGone(r, next, todo - {key}, sessions)
            else SessionsGone(r, next, todo - {key}, sessions - {key})
  {
    hide Edge.Key, Survives;
  }

  lemma RemovedGoOn(r: Room, next: map<EdgeKey, Edge>, todo: set<EdgeKey>, key: EdgeKey, sid: SessionId)
    requires Registered(r) && key in todo && key in r.sessions
    ensures IsRemoved(r, next, todo - {key}, sid) <==>
      IsRemoved(r, next, todo, sid) || (sid == r.sessions[key] && !Survives(next, key, r.table[r.sessions[key]]))
  {
    hide Edge.Key, Survives;
  }

  lemma GoOn(r: Room, next: map<EdgeKey, Edge>, todo: set<EdgeKey>, sessions: map<EdgeKey, SessionId>,
             table: map<SessionId, Session>, removed: set<SessionId>, key: EdgeKey)
    requires Registered(r) && key in todo && key in r.sessions && GoneThrough(r, next, todo, sessions, table, removed)
    ensures var sid := r.sessions[key];
      if Survives(next, key, r.table[sid])
      then GoneThrough(r, next, todo - {key}, sessions, table[sid := r.table[sid].(edge := next[key])], removed)
      else GoneThrough(r, next, todo - {key}, sessions - {key}, table, removed + {sid})
  {
    assert r.sessions[key] in r.table;
    hide Survives, Refreshed, IsRemoved, SessionsGone, Registered, IsRegistered, Edge.Key;
    RefreshedStep(r, next, todo, key);
    SessionsGoOn(r, next, todo, sessions, key);
    AllRemovedGoOn(r, next, todo, key);
  }

  lemma AllRemovedGoOn(r: Room, next: map<EdgeKey, Edge>, todo: set<EdgeKey>, key: EdgeKey)
    requires Registered(r) && key in todo && key in r.sessions
    ensures forall sid :: IsRemoved(r, next, todo - {key}, sid) <==>
      IsRemoved(r, next, todo, sid) || (sid == r.sessions[key] && !Survives(next, key, r.table[r.sessions[key]]))
  {
    hide Survives, IsRemoved;
    forall sid ensures IsRemoved(r, next, todo - {key}, sid) <==>
      IsRemoved(r, next, todo, sid) || (sid == r.sessions[key] && !Survives(next, key, r.table[r.sessions[key]]))
    {
      RemovedGoOn(r, next, todo, key, sid);
    }
  }

  lemma AllGoneThrough(r: Room, next: map<EdgeKey, Edge>, sessions: map<EdgeKey, SessionId>,
                       table: map<SessionId, Session>, removed: set<SessionId>)
    requires Registered(r) && GoneThrough(r, next, {}, sessions, table, removed)
    ensures sessions == WithEdges(r, r.epoch, next).sessions
    ensures table == WithEdges(r, r.epoch, next).table
    ensures removed == Dropped(r, next)
  {
    hide Edge.Key, Survives;
  }

  /** Going past one key refreshes at most the session registered under it. */
  lemma RefreshedStep(r: Room, next: map<EdgeKey, Edge>, todo: set<EdgeKey>, key: EdgeKey)
    requires Registered(r) && key in todo && key in r.sessions
    ensures var sid := r.sessions[key];
      && IsRegistered(r, sid)
      && (forall x | x in r.table && x != sid :: Refreshed(r, next, todo - {key}, x) == Refreshed(r, next, todo, x))
      && (forall x | x in r.table && x != sid && IsRegistered(r, x) :: r.table[x].edge.Key() != key)
      && Refreshed(r, next, todo, sid) == r.table[sid]
      && Refreshed(r, next, todo - {key}, sid)
           == (if Survives(next, key, r.table[sid]) then r.table[sid].(edge := next[key]) else r.table[sid])
  {
    hide Edge.Key, Survives;
  }

  /** A candidate loop of recompute for one session: what its peer asked for, and a count of
      what it did not. */
  method Collect(pubs: map<TrackKey, Pub>, want: Demand, isLocal: bool)
    returns (desired: map<TrackKey, OutTrack>, pruned: nat)
    ensures desired == map k | k in Wanted(pubs, want) :: OutTrack(pubs[k], isLocal)
    ensures pruned == |Pruned(pubs, want)|
  {
    hide Asked;
    desired, pruned := map[], 0;
    ghost var cut: set<TrackKey> := {};
    var todo := pubs.Keys;
    while todo != {}
      invariant todo <= pubs.Keys
      invariant forall k :: k in desired <==> k in pubs && k !in todo && Asked(want, pubs[k])
      invariant forall k | k in desired :: desired[k] == OutTrack(pubs[k], isLocal)
      invariant forall k :: k in cut <==> k in pubs && k !in todo && !Asked(want, pubs[k])
      invariant pruned == |cut|
      decreases todo
    {
      var k :| k in todo;
      todo := todo - {k};
      if Asked(want, pubs[k]) {
        desired := desired[k := OutTrack(pubs[k], isLocal)];
      } else {
        pruned := pruned + 1;
        cut := cut + {k};
      }
    }
    assert cut == Pruned(pubs, want);
  }

  /** The two diff loops: drop what is not desired, add what is missing, leave the rest alone. */
  method DiffOut(was: map<TrackKey, OutTrack>, desired: map<TrackKey, OutTrack>) returns (out: map<TrackKey, OutTrack>)
    ensures out == map k | k in desired :: if k in was then was[k] else desired[k]
  {
    out := was;
    var todo := was.Keys;
    while todo != {}
      invariant todo <= was.Keys
      invariant out == map k | k in was && (k in todo || k in desired) :: was[k]
      decreases todo
    {
      var k :| k in todo;
      todo := todo - {k};
      if k !in desired {
        out := out - {k};
      }
    }
    todo := desired.Keys;
    while todo != {}
      invariant todo <= desired.Keys
      invariant out == map k | k in desired && (k in was || k !in todo) :: if k in was then was[k] else desired[k]
      decreases todo
    {
      var k :| k in todo;
      todo := todo - {k};
      if k !in out {
        out := out[k := desired[k]];
      }
    }
  }

  /** The aggregation loop: local demand joined with what every other edge wants. */
  method AggregateWant(r: Room, key: EdgeKey, demand: Demand) returns (w: Demand)
    requires Registered(r)
    ensures AsNode(r, demand).IsAggregate(key, w)
  {
    ghost var links := AsNode(r, demand).links;
    w := demand;
    var todo := r.sessions.Keys;
    while todo != {}
      invariant todo <= r.sessions.Keys
      invariant forall t: Topic :: w.Accepts(t) <==> demand.Accepts(t) || WantedPast(links, todo, key, t)
      decreases todo
    {
      var o :| o in todo;
      var s := r.table[r.sessions[o]];
      ghost var w0 := w;
      if o != key && s.established && s.link.peerWantSeen {
        w := Both(w, s.link.peerWant);
      }
      forall t: Topic ensures w.Accepts(t) <==> demand.Accepts(t) || WantedPast(links, todo - {o}, key, t) {
        if o in links && o != key && links[o].peerWantSeen && links[o].peerWant.Accepts(t) {
          assert o !in todo - {o};
        }
        if o' :| o' in links && o' !in todo && o' != key && links[o'].peerWantSeen && links[o'].peerWant.Accepts(t) {
          assert o' !in todo - {o};
        }
      }
      todo := todo - {o};
    }
    forall t: Topic ensures w.Accepts(t) <==> demand.Accepts(t) || AsNode(r, demand).OtherWants(key, t) {}
  }
  /** The new session record of one edge, and how many of its candidates were pruned. */
  method RecomputeSession(r: Room, key: EdgeKey, allowed: bool, demand: Demand) returns (s': Session, pruned: nat)
    requires Registered(r) && key in r.sessions
    ensures SessionRecomputed(r, key, allowed, demand, s')
    ensures r.table[r.sessions[key]].established ==>
              pruned == PrunedCount(r, r.sessions[key], r.table[r.sessions[key]], allowed)
  {
    var sid := r.sessions[key];
    var s := r.table[sid];
    pruned := 0;
    if !s.established {
      s' := s.(active := false);
      return;
    }
    var out: map<TrackKey, OutTrack>;
    out, pruned := RecomputeOut(r, sid, s, allowed);
    hide NewOut, PrunedCount, Edge.Key, Net.Node.IsAggregate;
    var w := AggregateWant(r, key, demand);
    var link := s.link;
    if !link.myWantSent || !w.Equal(link.myWant) {
      link := link.(myWant := w, myWantSent := true, out := link.out + [w]);
    }
    s' := s.(active := allowed, out := out, link := link);
    assert Net.Announces(w, s.link, link);
  }

  method RecomputeOut(r: Room, sid: SessionId, s: Session, allowed: bool)
    returns (out: map<TrackKey, OutTrack>, pruned: nat)
    ensures out == NewOut(r, sid, s, allowed)
    ensures pruned == PrunedCount(r, sid, s, allowed)
  {
    hide Asked;
    pruned := 0;
    var desired: map<TrackKey, OutTrack> := map[];
    if allowed && s.link.peerWantSeen {
      var fromLocal, prunedLocal := Collect(r.local, s.link.peerWant, true);
      var fromRemote, prunedRemote := Collect(Foreign(r.remote, sid), s.link.peerWant, false);
      desired := fromLocal + fromRemote;
      pruned := prunedLocal + prunedRemote;
    }
    assert desired.Keys == Desired(r, sid, s, allowed);
    assert forall k | k in desired :: desired[k] == Candidate(r, sid, s, k);
    out := DiffOut(s.out, desired);
  }

  method RemoveOrigin(remote: map<TrackKey, Speaker>, sid: SessionId) returns (rest: map<TrackKey, Speaker>)
    ensures rest == map k | k in remote && remote[k].origin != sid :: remote[k]
  {
    rest := remote;
    var todo := remote.Keys;
    while todo != {}
      invariant todo <= remote.Keys
      invariant forall k :: k in rest <==> k in remote && (k in todo || remote[k].origin != sid)
      invariant forall k | k in rest :: rest[k] == remote[k]
      decreases todo
    {
      var k :| k in todo;
      todo := todo - {k};
      if remote[k].origin == sid {
        rest := rest - {k};
      }
    }
  }

  /** The session loop of recompute. Sessions read only their peers' wants from one another, and
      those do not change here, so the order does not matter. */
  method RecomputeTable(r: Room, allowed: bool, demand: Demand)
    returns (table: map<SessionId, Session>, act: int, pru: int)
    requires Registered(r)
    ensures SessionsRecomputed(r, table, allowed, demand)
    ensures act == Sum(ActiveCounts(r.(table := table)))
    ensures pru == Sum(PrunedCounts(r, allowed))
  {
    hide SessionRecomputed, PrunedCount, IsRegistered, Edge.Key;
    table, act, pru := r.table, 0, 0;
    ghost var actives: map<EdgeKey, int> := map[];
    ghost var pruneds: map<EdgeKey, int> := map[];
    var todo := r.sessions.Keys;
    while todo != {}
      invariant todo <= r.sessions.Keys
      invariant Worked(r, todo, allowed, demand, table)
      invariant Counted(r, todo, allowed, table, actives, pruneds)
      invariant act == Sum(actives) && pru == Sum(pruneds)
      decreases todo
    {
      hide Worked, Counted, SessionRecomputed, PrunedCount;
      var key :| key in todo;
      var sid := r.sessions[key];
      var s', pruned := RecomputeSession(r, key, allowed, demand);
      WorkOn(r, todo, allowed, demand, table, key, s');
      CountOn(r, todo, allowed, table, actives, pruneds, key, s', pruned);
      table := table[sid := s'];
      todo := todo - {key};
      if r.table[sid].established {
        SumAdd(actives, key, |s'.out|);
        SumAdd(pruneds, key, pruned);
        actives, pruneds := actives[key := |s'.out|], pruneds[key := pruned];
        act, pru := act + |s'.out|, pru + pruned;
      }
    }
    AllWorked(r, allowed, demand, table);
    SessionsStayEstablished(r, table, allowed, demand);
    AllCounted(r, allowed, table, actives, pruneds);
  }

  /** The loop state of recompute when the sessions in `todo` are still to come. */
  ghost predicate Worked(r: Room, todo: set<EdgeKey>, allowed: bool, demand: Demand, table: map<SessionId, Session>)
    requires Registered(r)
  {
    && table.Keys == r.table.Keys
    && (forall key | key in r.sessions && key !in todo ::
         SessionRecomputed(r, key, allowed, demand, table[r.sessions[key]]))
    && (forall sid | sid in r.table && (IsRegistered(r, sid) ==> r.table[sid].edge.Key() in todo) ::
         table[sid] == r.table[sid])
  }

  lemma WorkOn(r: Room, todo: set<EdgeKey>, allowed: bool, demand: Demand, table: map<SessionId, Session>,
               key: EdgeKey, s': Session)
    requires Registered(r) && key in todo && key in r.sessions && Worked(r, todo, allowed, demand, table)
    requires SessionRecomputed(r, key, allowed, demand, s')
    ensures Worked(r, todo - {key}, allowed, demand, table[r.sessions[key] := s'])
  {
    hide Edge.Key, SessionRecomputed;
    assert forall other | other in r.sessions && other != key :: r.sessions[other] != r.sessions[key];
    assert IsRegistered(r, r.sessions[key]);
  }

  lemma AllWorked(r: Room, allowed: bool, demand: Demand, table: map<SessionId, Session>)
    requires Registered(r) && Worked(r, {}, allowed, demand, table)
    ensures SessionsRecomputed(r, table, allowed, demand)
  {
    hide Edge.Key, SessionRecomputed;
  }

  ghost predicate Counted(r: Room, todo: set<EdgeKey>, allowed: bool, table: map<SessionId, Session>,
                          actives: map<EdgeKey, int>, pruneds: map<EdgeKey, int>)
    requires Registered(r)
  {
    && table.Keys == r.table.Keys
    && (forall key :: key in actives <==> key in r.sessions && key !in todo && r.table[r.sessions[key]].established)
    && pruneds.Keys == actives.Keys
    && (forall key | key in actives :: actives[key] == |table[r.sessions[key]].out|)
    && (forall key | key in actives ::
         pruneds[key] == PrunedCount(r, r.sessions[key], r.table[r.sessions[key]], allowed))
  }

  lemma CountOn(r: Room, todo: set<EdgeKey>, allowed: bool, table: map<SessionId, Session>,
                actives: map<EdgeKey, int>, pruneds: map<EdgeKey, int>, key: EdgeKey, s': Session, pruned: int)
    requires Registered(r) && key in todo && key in r.sessions && Counted(r, todo, allowed, table, actives, pruneds)
    requires r.table[r.sessions[key]].established ==>
               pruned == PrunedCount(r, r.sessions[key], r.table[r.sessions[key]], allowed)
    ensures key !in actives && key !in pruneds
    ensures if r.table[r.sessions[key]].established
            then Counted(r, todo - {key}, allowed, table[r.sessions[key] := s'], actives[key := |s'.out|],
                   pruneds[key := pruned])
            else Counted(r, todo - {key}, allowed, table[r.sessions[key] := s'], actives, pruneds)
  {
    hide Edge.Key, PrunedCount;
    var table' := table[r.sessions[key] := s'];
    assert forall other | other in r.sessions && other != key ::
             table'[r.sessions[other]] == table[r.sessions[other]] by {
      hide Counted;
      assert forall other | other in r.sessions && other != key :: r.sessions[other] != r.sessions[key];
    }
    assert table'.Keys == r.table.Keys;
    if r.table[r.sessions[key]].established {
      CountUp(r, todo, allowed, table, table', actives, pruneds, key, |s'.out|, pruned);
    }
  }

  lemma CountUp(r: Room, todo: set<EdgeKey>, allowed: bool, table: map<SessionId, Session>,
                table': map<SessionId, Session>,
                actives: map<EdgeKey, int>, pruneds: map<EdgeKey, int>, key: EdgeKey, carried: int, pruned: int)
    requires Registered(r) && key in todo && key in r.sessions && Counted(r, todo, allowed, table, actives, pruneds)
    requires r.table[r.sessions[key]].established && table'.Keys == r.table.Keys
    requires forall other | other in r.sessions && other != key :: table'[r.sessions[other]] == table[r.sessions[other]]
    requires carried == |table'[r.sessions[key]].out|
    requires pruned == PrunedCount(r, r.sessions[key], r.table[r.sessions[key]], allowed)
    ensures Counted(r, todo - {key}, allowed, table', actives[key := carried], pruneds[key := pruned])
  {
    hide Edge.Key, PrunedCount;
    assert forall other | other in actives :: other in r.sessions && other != key;
  }

  lemma AllCounted(r: Room, allowed: bool, table: map<SessionId, Session>, actives: map<EdgeKey, int>,
                   pruneds: map<EdgeKey, int>)
    requires Registered(r) && Registered(r.(table := table)) && Counted(r, {}, allowed, table, actives, pruneds)
    requires forall key | key in r.sessions ::
               table[r.sessions[key]].established == r.table[r.sessions[key]].established
    ensures actives == ActiveCounts(r.(table := table)) && pruneds == PrunedCounts(r, allowed)
  {
    hide Edge.Key, PrunedCount;
  }

  lemma SameCounts(r: Room, r': Room)
    requires Registered(r) && r'.sessions == r.sessions && r'.table == r.table
    ensures Registered(r') && ActiveCounts(r') == ActiveCounts(r)
  {}

  lemma SessionsStayEstablished(r: Room, table: map<SessionId, Session>, allowed: bool, demand: Demand)
    requires Registered(r) && SessionsRecomputed(r, table, allowed, demand)
    ensures forall key | key in r.sessions :: table[r.sessions[key]].established == r.table[r.sessions[key]].established
  {
    hide NewOut, Edge.Key, Net.AnnouncesAggregate;
    forall key | key in r.sessions
      ensures table[r.sessions[key]].established == r.table[r.sessions[key]].established
    {
      assert SessionRecomputed(r, key, allowed, demand, table[r.sessions[key]]);
    }
  }

  /** The sink-snapshot loops of recompute. */
  method RebuildSinks(r: Room) returns (remote: map<TrackKey, Speaker>)
    requires Registered(r)
    ensures remote == WithSinks(r)
  {
    hide Edge.Key, Sinks;
    remote := r.remote;
    var todo := r.remote.Keys;
    while todo != {}
      invariant todo <= r.remote.Keys && remote.Keys == r.remote.Keys
      invariant forall k | k in r.remote ::
                  remote[k] == if k in todo then r.remote[k] else r.remote[k].(sinks := Sinks(r, k))
      decreases todo
    {
      var k :| k in todo;
      todo := todo - {k};
      var sinks := CollectSinks(r, k);
      remote := remote[k := r.remote[k].(sinks := sinks)];
    }
  }

  method CollectSinks(r: Room, k: TrackKey) returns (sinks: set<EdgeKey>)
    requires Registered(r) && k in r.remote
    ensures sinks == Sinks(r, k)
  {
    hide Edge.Key;
    sinks := {};
    var todo := r.sessions.Keys;
    while todo != {}
      invariant todo <= r.sessions.Keys
      invariant forall key :: key in sinks <==>
        key in r.sessions && key !in todo && r.sessions[key] != r.remote[k].origin && k in r.table[r.sessions[key]].out
      decreases todo
    {
      var key :| key in todo;
      todo := todo - {key};
      if r.sessions[key] == r.remote[k].origin {
        continue;
      }
      if k in r.table[r.sessions[key]].out {
        sinks := sinks + {key};
      }
    }
  }
}
