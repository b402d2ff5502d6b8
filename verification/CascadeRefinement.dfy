/** One node's room state is what the network-wide models speak about: its recomputation is the
    step of the want protocol and of the media plane, and so is its verdict on an arriving track. */
module CascadeRefinement {
  import opened Options
  import opened Demands
  import opened CascadeRooms
  import opened CascadeRuns
  import Net = WantNetwork
  import Media = MediaRuns

  // ---------------------------------------------------------------------------------------------
  // The want protocol is what these steps look like from outside
  // ---------------------------------------------------------------------------------------------

  lemma NodeLinks(r: Room, demand: Demand)
    requires Pre(r) && Registered(r)
    ensures var n := AsNode(r, demand);
      n.links.Keys == r.sessions.Keys && forall key | key in r.sessions :: n.links[key] == r.table[r.sessions[key]].link
  {
    forall key | key in r.sessions ensures r.table[r.sessions[key]].established {
      RegisteredIsUp(r, key);
    }
    hide Pre, Edge.Key;
  }

  /** A recomputation of the room is a recomputation of its node in the want protocol. */
  lemma RecomputeRefines(r: Room, r': Room, now: int, demand: Demand)
    requires Pre(r) && Registered(r) && Recomputed(r, r', now, demand)
    ensures Registered(r') && Net.Recomputes(AsNode(r, demand), AsNode(r', demand))
  {
    RecomputedKeepsPre(r, r', now, demand);
    assert Registered(r');
    NodeLinks(r, demand);
    NodeLinks(r', demand);
    RecomputedRest(r, r', now, demand);
    var n, n' := AsNode(r, demand), AsNode(r', demand);
    assert n'.local == n.local && n'.ran;
    forall key | key in r.sessions ensures Net.AnnouncesAggregate(n, key, n'.links[key]) {
      RegisteredIsUp(r, key);
      hide Pre, AsNode, Net.AnnouncesAggregate, Edge.Key, NewOut;
      assert SessionRecomputed(r, key, ForwardingAllowed(r, now), demand, r'.table[r.sessions[key]]);
    }
    hide Pre, Recomputed, AsNode, Net.AnnouncesAggregate, Registered;
  }

  /** A want frame arriving on a registered session is a delivery of the want protocol. */
  lemma PeerWantRefines(r: Room, key: EdgeKey, want: Demand, now: int, demand: Demand, r': Room)
    requires Inv(r) && Registered(r) && key in r.sessions && Step(r, PeerWant(r.sessions[key], want), now, demand, r')
    ensures Registered(r') && key in AsNode(r, demand).links
    ensures Net.Recomputes(Net.Informed(AsNode(r, demand), key, want), AsNode(r', demand))
  {
    var sid := r.sessions[key];
    var r1 := WithWant(r, sid, want);
    PeerWantStep(r, sid, want, now, demand, r');
    hide Step, WithWant, Recomputed, Net.Recomputes, AsNode;
    RecomputeRefines(r1, r', now, demand);
    InformedNode(r, key, want, demand);
  }

  lemma PeerWantStep(r: Room, sid: SessionId, want: Demand, now: int, demand: Demand, r': Room)
    requires Inv(r) && Step(r, PeerWant(sid, want), now, demand, r')
    ensures sid in r.table && Pre(WithWant(r, sid, want)) && Registered(WithWant(r, sid, want))
    ensures Recomputed(WithWant(r, sid, want), r', now, demand)
  {
    InputKeepsPre(r, PeerWant(sid, want));
    hide Inv, Pre, Registered, Recomputed, WithWant;
  }

  lemma InformedNode(r: Room, key: EdgeKey, want: Demand, demand: Demand)
    requires Pre(r) && Registered(r) && key in r.sessions
    requires Pre(WithWant(r, r.sessions[key], want)) && Registered(WithWant(r, r.sessions[key], want))
    ensures key in AsNode(r, demand).links
    ensures AsNode(WithWant(r, r.sessions[key], want), demand) == Net.Informed(AsNode(r, demand), key, want)
  {
    hide Pre, Edge.Key;
    var sid := r.sessions[key];
    var r1 := WithWant(r, sid, want);
    NodeLinks(r, demand);
    NodeLinks(r1, demand);
    var n, n1 := AsNode(r, demand), AsNode(r1, demand);
    assert n1.local == n.local && n1.ran == n.ran;
    hide AsNode;
    forall other | other in r.sessions
      ensures n1.links[other] == if other == key then n.links[key].(peerWant := want, peerWantSeen := true)
                else n.links[other]
    {
      assert other != key ==> r.sessions[other] != sid;
    }
    hide Registered, WithWant;
    assert n1.links == Net.Informed(n, key, want).links;
  }

  // ---------------------------------------------------------------------------------------------
  // Neighbours instead of edge keys
  // ---------------------------------------------------------------------------------------------

  type NodeId = string

  /** The network-wide models name a link by the neighbour, the room by the edge's key. */
  type Peers = EdgeKey -> NodeId

  /** No neighbour is at the end of two registered edges. */
  ghost predicate Distinct(r: Room, peer: Peers) {
    forall a, b | a in r.sessions && b in r.sessions && peer(a) == peer(b) :: a == b
  }

  ghost predicate DistinctLinks(n: Net.Node, peer: Peers) {
    forall a, b | a in n.links && b in n.links && peer(a) == peer(b) :: a == b
  }

  /** n' is n with its links renamed. */
  ghost predicate Renames(n: Net.Node, n': Net.Node, peer: Peers) {
    && n'.local == n.local && n'.ran == n.ran
    && (forall m :: m in n'.links <==> exists key :: key in n.links && peer(key) == m)
    && (forall key | key in n.links :: peer(key) in n'.links && n'.links[peer(key)] == n.links[key])
  }

  lemma RenamedWants(n: Net.Node, n': Net.Node, peer: Peers, key: EdgeKey, t: Topic)
    requires Renames(n, n', peer) && DistinctLinks(n, peer) && key in n.links
    ensures n'.OtherWants(peer(key), t) <==> n.OtherWants(key, t)
  {
    if n.OtherWants(key, t) {
      var o :| o in n.links && o != key && n.links[o].peerWantSeen && n.links[o].peerWant.Accepts(t);
      assert peer(o) in n'.links && peer(o) != peer(key);
    }
    if n'.OtherWants(peer(key), t) {
      var m :| m in n'.links && m != peer(key) && n'.links[m].peerWantSeen && n'.links[m].peerWant.Accepts(t);
      var o :| o in n.links && peer(o) == m;
      assert n'.links[m] == n.links[o];
    }
  }

  lemma RenamedAnnounces(n: Net.Node, n': Net.Node, peer: Peers, key: EdgeKey, l: Net.Link)
    requires Renames(n, n', peer) && DistinctLinks(n, peer) && key in n.links && Net.AnnouncesAggregate(n, key, l)
    ensures peer(key) in n'.links && Net.AnnouncesAggregate(n', peer(key), l)
  {
    var w: Demand :| n.IsAggregate(key, w) && Net.Announces(w, n.links[key], l);
    forall t: Topic ensures w.Accepts(t) <==> n'.local.Accepts(t) || n'.OtherWants(peer(key), t) {
      RenamedWants(n, n', peer, key, t);
    }
    assert n'.IsAggregate(peer(key), w);
  }

  /** Recomputing is the same step under either naming. */
  lemma RenamedRecompute(n: Net.Node, n1: Net.Node, m: Net.Node, m1: Net.Node, peer: Peers)
    requires Net.Recomputes(n, n1) && DistinctLinks(n, peer) && Renames(n, m, peer) && Renames(n1, m1, peer)
    ensures Net.Recomputes(m, m1)
  {
    hide Net.AnnouncesAggregate;
    forall x | x in m.links ensures x in m1.links && Net.AnnouncesAggregate(m, x, m1.links[x]) {
      var key :| key in n.links && peer(key) == x;
      RenamedAnnounces(n, m, peer, key, n1.links[key]);
    }
    forall x | x in m1.links ensures x in m.links {
      var key :| key in n1.links && peer(key) == x;
    }
  }

  /** A recomputation of the room is a recomputation of its node, links named by neighbour. */
  lemma RecomputeRefinesNamed(r: Room, r': Room, now: int, demand: Demand, peer: Peers, n: Net.Node, n': Net.Node)
    requires Pre(r) && Registered(r) && Recomputed(r, r', now, demand) && Distinct(r, peer)
    requires Renames(AsNode(r, demand), n, peer) && Registered(r') && Renames(AsNode(r', demand), n', peer)
    ensures Net.Recomputes(n, n')
  {
    hide Pre, Recomputed, Registered, Net.Recomputes, Renames;
    RecomputeRefines(r, r', now, demand);
    NodeLinks(r, demand);
    hide AsNode;
    RenamedRecompute(AsNode(r, demand), AsNode(r', demand), n, n', peer);
  }

  // ---------------------------------------------------------------------------------------------
  // The media plane is what the recomputed sessions carry
  // ---------------------------------------------------------------------------------------------

  /** Every remote track came in over a session that is still registered. */
  ghost predicate OriginsCurrent(r: Room) {
    forall k | k in r.remote :: IsRegistered(r, r.remote[k].origin)
  }

  /** Tracks belong to the users the media plane takes them for. */
  ghost predicate Named(r: Room, of: Media.Topics) {
    && (forall k | k in r.local :: of(k) == Topic(!r.local[k].kind.Audio?, r.local[k].uid))
    && (forall k | k in r.remote :: of(k) == Topic(!r.remote[k].pub.kind.Audio?, r.remote[k].pub.uid))
  }

  /** rel is the room's place in the media plane: same tracks, origins named by neighbour. */
  ghost predicate IsRelay(r: Room, peer: Peers, rel: Media.Relay)
    requires OriginsCurrent(r)
  {
    && rel.local == r.local.Keys && rel.remote.Keys == r.remote.Keys
    && forall k | k in r.remote :: rel.remote[k] == peer(r.table[r.remote[k].origin].edge.Key())
  }

  lemma OriginByPeer(r: Room, peer: Peers, rel: Media.Relay, key: EdgeKey, k: TrackKey)
    requires Registered(r) && OriginsCurrent(r) && Distinct(r, peer) && IsRelay(r, peer, rel) && key in r.sessions
    requires k in r.remote
    ensures k in rel.remote && (rel.remote[k] != peer(key) <==> r.remote[k].origin != r.sessions[key])
  {
    hide Edge.Key;
    assert IsRegistered(r, r.remote[k].origin);
  }

  /** The out tracks of a recomputed session are those the media plane's recomputation sends. */
  lemma SendsAsRelay(r: Room, r': Room, now: int, demand: Demand, of: Media.Topics, peer: Peers, rel: Media.Relay,
                     n: Net.Node,
                     key: EdgeKey, k: TrackKey)
    requires Pre(r) && Registered(r) && Recomputed(r, r', now, demand) && key in r.sessions
    requires OriginsCurrent(r) && Distinct(r, peer) && Named(r, of) && IsRelay(r, peer, rel)
    requires Renames(AsNode(r, demand), n, peer)
    ensures r.sessions[key] in r'.table
    ensures k in r'.table[r.sessions[key]].out <==>
              ForwardingAllowed(r, now) && k in Media.Desired(of, n, rel, peer(key))
  {
    SessionsOf(r);
    hide Recomputed, Pre, SessionsInv, Edge.Key, ForwardingAllowed, Renames, OriginsCurrent, Registered;
    RegisteredIsUp(r, key);
    OutTracksAreExact(r, r', now, demand, key, k);
    PeerLink(r, demand, peer, n, key);
    if k in r.remote {
      OriginByPeer(r, peer, rel, key, k);
    }
    hide AsNode, Distinct;
  }

  lemma SameTopic(r: Room, of: Media.Topics, k: TrackKey)
    requires Named(r, of)
    ensures k in r.local && k in r.remote ==> r.local[k].AsTopic() == r.remote[k].pub.AsTopic()
  {}

  lemma CandidateIsLocal(r: Room, sid: SessionId, s: Session, k: TrackKey)
    requires k in NewOut(r, sid, s, true)
    requires k in r.local && k in r.remote ==> r.local[k].AsTopic() == r.remote[k].pub.AsTopic()
    ensures NewOut(r, sid, s, true)[k].local <==>
              if k in s.out then s.out[k].local else k in r.local && (k in r.remote ==> r.remote[k].origin == sid)
  {}

  /** Kept out tracks stay as they were set up, and new ones are set up on the local publisher exactly
      where the media plane's are. */
  lemma SetUpAsRelay(r: Room, r': Room, now: int, demand: Demand, of: Media.Topics, peer: Peers, rel: Media.Relay,
                     key: EdgeKey, k: TrackKey)
    requires Pre(r) && Registered(r) && Recomputed(r, r', now, demand) && key in r.sessions && Registered(r')
    requires OriginsCurrent(r) && Distinct(r, peer) && Named(r, of) && IsRelay(r, peer, rel)
    requires r.sessions[key] in r'.table && k in r'.table[r.sessions[key]].out
    ensures var was := r.table[r.sessions[key]].out;
      r'.table[r.sessions[key]].out[k].local <==> if k in was then was[k].local else k in Media.Attached(rel, peer(key))
  {
    var sid := r.sessions[key];
    RegisteredIsUp(r, key);
    assert IsRegistered(r, sid);
    SameTopic(r, of, k);
    hide Recomputed, Pre, Edge.Key, OriginsCurrent, Registered, NewOut, Candidate, Named, Pub.AsTopic, Asked;
    RecomputedRecord(r, r', now, demand, sid);
    NewOutIsExact(r, sid, r.table[sid], ForwardingAllowed(r, now), k);
    hide ForwardingAllowed;
    CandidateIsLocal(r, sid, r.table[sid], k);
    if k in r.remote {
      OriginByPeer(r, peer, rel, key, k);
    }
  }

  lemma SessionsOf(r: Room)
    requires Pre(r)
    ensures SessionsInv(r)
  {}

  lemma PeerLink(r: Room, demand: Demand, peer: Peers, n: Net.Node, key: EdgeKey)
    requires Pre(r) && Registered(r) && key in r.sessions && Renames(AsNode(r, demand), n, peer)
    ensures peer(key) in n.links && n.links[peer(key)] == r.table[r.sessions[key]].link
  {
    hide Pre;
    NodeLinks(r, demand);
    hide AsNode, Registered;
  }

  /** The loop defence of a registered session is that of the media plane. */
  lemma AcceptsAsRelay(r: Room, peer: Peers, rel: Media.Relay, key: EdgeKey, k: TrackKey)
    requires Pre(r) && Registered(r) && OriginsCurrent(r) && Distinct(r, peer) && IsRelay(r, peer, rel)
    requires key in r.sessions
    ensures ClassifyRemoteTrack(r, r.sessions[key], k) == Accept <==> !Media.Refused(rel, peer(key), k)
  {
    SessionsOf(r);
    RegisteredIsUp(r, key);
    if k in r.remote {
      OriginByPeer(r, peer, rel, key, k);
    }
    hide Pre, Edge.Key, OriginsCurrent, Distinct;
    assert SessionOk(r, r.sessions[key]);
  }

  // ---------------------------------------------------------------------------------------------
  // And what is published and received
  // ---------------------------------------------------------------------------------------------

  /** The sessions are where they were, and remote tracks come from registered ones. */
  lemma RelayTransfers(r: Room, r': Room, peer: Peers)
    requires OriginsCurrent(r) && r'.sessions == r.sessions && r'.table.Keys == r.table.Keys
    requires forall x | x in r.table :: r'.table[x].edge == r.table[x].edge
    requires forall k | k in r'.remote :: IsRegistered(r, r'.remote[k].origin)
    ensures OriginsCurrent(r')
    ensures forall k | k in r'.remote ::
              peer(r'.table[r'.remote[k].origin].edge.Key()) == peer(r.table[r'.remote[k].origin].edge.Key())
  {
    hide Edge.Key;
  }

  /** What a recomputation leaves of a room's place in the media plane: all of it. */
  lemma RecomputedRelay(r: Room, r': Room, now: int, demand: Demand, peer: Peers, rel: Media.Relay)
    requires Registered(r) && Recomputed(r, r', now, demand) && OriginsCurrent(r) && IsRelay(r, peer, rel)
    ensures OriginsCurrent(r') && IsRelay(r', peer, rel)
  {
    RecomputedRest(r, r', now, demand);
    forall x | x in r.table ensures r'.table[x].edge == r.table[x].edge {
      RecomputedRecord(r, r', now, demand, x);
    }
    hide Recomputed, Registered, Edge.Key, IsRegistered;
    RelayTransfers(r, r', peer);
  }

  lemma LocalRelay(r: Room, local: map<TrackKey, Pub>, now: int, demand: Demand, r': Room, peer: Peers,
                   rel: Media.Relay)
    requires OriginsCurrent(r) && IsRelay(r, peer, rel)
    requires Registered(r.(local := local)) && Recomputed(r.(local := local), r', now, demand)
    ensures OriginsCurrent(r') && IsRelay(r', peer, rel.(local := local.Keys, owed := true))
  {
    hide Recomputed, Registered, Edge.Key, IsRegistered;
    RelayTransfers(r, r.(local := local), peer);
    RecomputedRelay(r.(local := local), r', now, demand, peer, rel.(local := local.Keys, owed := true));
  }

  /** Publishing and withdrawing here is the media plane's event of the same name. */
  lemma PublishRefines(r: Room, k: TrackKey, pub: Pub, now: int, demand: Demand, r': Room, of: Media.Topics,
                       peer: Peers, x: Media.System, n: NodeId, x': Media.System)
    requires OriginsCurrent(r) && n in x.relays && IsRelay(r, peer, x.relays[n])
    requires Step(r, Publish(k, pub), now, demand, r') && Media.Step(of, x, Media.Publish(n, k), x')
    ensures OriginsCurrent(r') && n in x'.relays && IsRelay(r', peer, x'.relays[n])
  {
    assert r.local[k := pub].Keys == x.relays[n].local + {k};
    assert n in x'.relays && x'.relays[n] == x.relays[n].(local := r.local[k := pub].Keys, owed := true);
    hide Media.Step, OriginsCurrent, IsRelay;
    LocalStep(r, Publish(k, pub), now, demand, r');
    hide Step, Recomputed, Registered;
    LocalRelay(r, r.local[k := pub], now, demand, r', peer, x.relays[n]);
  }

  lemma UnpublishRefines(r: Room, k: TrackKey, now: int, demand: Demand, r': Room, of: Media.Topics, peer: Peers,
                         x: Media.System, n: NodeId, x': Media.System)
    requires OriginsCurrent(r) && n in x.relays && IsRelay(r, peer, x.relays[n])
    requires Step(r, Unpublish(k), now, demand, r') && Media.Step(of, x, Media.Unpublish(n, k), x')
    ensures OriginsCurrent(r') && n in x'.relays && IsRelay(r', peer, x'.relays[n])
  {
    assert (r.local - {k}).Keys == x.relays[n].local - {k};
    assert n in x'.relays && x'.relays[n] == x.relays[n].(local := (r.local - {k}).Keys, owed := true);
    hide Media.Step, OriginsCurrent, IsRelay;
    LocalStep(r, Unpublish(k), now, demand, r');
    hide Step, Recomputed, Registered;
    LocalRelay(r, r.local - {k}, now, demand, r', peer, x.relays[n]);
  }

  /** A track coming up over a registered session is the media plane's sign of that from that neighbour. */
  lemma TrackUpRefines(r: Room, key: EdgeKey, k: TrackKey, id: nat, pub: Pub, now: int, demand: Demand, r': Room,
                       peer: Peers, rel: Media.Relay)
    requires Pre(r) && Registered(r) && key in r.sessions
    requires Step(r, TrackUp(r.sessions[key], k, id, pub), now, demand, r')
    requires OriginsCurrent(r) && Distinct(r, peer) && IsRelay(r, peer, rel) && peer(key) in rel.ports
    ensures OriginsCurrent(r') && IsRelay(r', peer, Media.Seen(rel, peer(key), k, Media.Up))
  {
    hide Pre, Step, Media.Seen, Media.Refused, ClassifyRemoteTrack, Recomputed, Registered, Edge.Key, IsRegistered,
         Distinct;
    var sid := r.sessions[key];
    AcceptsAsRelay(r, peer, rel, key, k);
    RegisteredIsOn(r, key);
    TrackUpLeads(r, sid, k, id, pub, now, demand, r');
    SeenUp(rel, peer(key), k);
    OriginsAreIn(r);
    if ClassifyRemoteTrack(r, sid, k) == Accept {
      RemoteRelay(r, r.remote[k := Speaker(id, pub, sid, {})], now, demand, r', peer, rel,
                  Media.Seen(rel, peer(key), k, Media.Up));
    }
  }

  lemma OriginsAreIn(r: Room)
    requires OriginsCurrent(r)
    ensures forall k | k in r.remote :: r.remote[k].origin in r.table
  {}

  lemma RemoteRelay(r: Room, remote: map<TrackKey, Speaker>, now: int, demand: Demand, r': Room, peer: Peers,
                    rel: Media.Relay, rel1: Media.Relay)
    requires rel1.local == rel.local && rel1.remote.Keys == remote.Keys
    requires forall k | k in remote ::
               && remote[k].origin in r.table && IsRegistered(r, remote[k].origin)
               && rel1.remote[k] == peer(r.table[remote[k].origin].edge.Key())
    requires OriginsCurrent(r) && IsRelay(r, peer, rel)
    requires Registered(r.(remote := remote)) && Recomputed(r.(remote := remote), r', now, demand)
    ensures OriginsCurrent(r') && IsRelay(r', peer, rel1)
  {
    hide Recomputed, Registered, Edge.Key;
    RelayTransfers(r, r.(remote := remote), peer);
    hide IsRegistered;
    RecomputedRelay(r.(remote := remote), r', now, demand, peer, rel1);
  }

  lemma RegisteredIsOn(r: Room, key: EdgeKey)
    requires Pre(r) && Registered(r) && key in r.sessions
    ensures IsRegistered(r, r.sessions[key]) && r.sessions[key] in r.table && r.table[r.sessions[key]].edge.Key() == key
  {
    hide Edge.Key;
  }

  lemma SeenUp(rel: Media.Relay, a: NodeId, k: TrackKey)
    requires a in rel.ports
    ensures Media.Seen(rel, a, k, Media.Up).local == rel.local
    ensures Media.Seen(rel, a, k, Media.Up).remote == if Media.Refused(rel, a, k) then rel.remote
              else rel.remote[k := a]
  {}

  lemma TrackUpLeads(r: Room, sid: SessionId, k: TrackKey, id: nat, pub: Pub, now: int, demand: Demand, r': Room)
    requires Step(r, TrackUp(sid, k, id, pub), now, demand, r') && sid in r.table
    ensures if ClassifyRemoteTrack(r, sid, k) == Accept
            then var r1 := r.(remote := r.remote[k := Speaker(id, pub, sid, {})]);
              Registered(r1) && Recomputed(r1, r', now, demand)
            else r' == r
  {
    hide Recomputed, Registered, ClassifyRemoteTrack;
  }

  /** The end of a track that came up over a registered session, if the room still has that very track
      exactly when the media plane's node does not drain it: the plane's sign of the end. */
  lemma TrackEndRefines(r: Room, key: EdgeKey, k: TrackKey, id: nat, now: int, demand: Demand, r': Room,
                        peer: Peers, rel: Media.Relay)
    requires Pre(r) && Registered(r) && key in r.sessions && Step(r, TrackEnd(k, id), now, demand, r')
    requires OriginsCurrent(r) && Distinct(r, peer) && IsRelay(r, peer, rel) && peer(key) in rel.ports
    requires k in r.remote && r.remote[k].id == id <==>
               k in r.remote && r.remote[k].origin == r.sessions[key] && k !in rel.ports[peer(key)].drained
    ensures OriginsCurrent(r') && IsRelay(r', peer, Media.Seen(rel, peer(key), k, Media.End))
  {
    hide Pre, Step, Media.Seen, Recomputed, Registered, Edge.Key, IsRegistered, Distinct;
    LocalStep(r, TrackEnd(k, id), now, demand, r');
    var gone := k in r.remote && r.remote[k].id == id;
    if k in r.remote {
      OriginByPeer(r, peer, rel, key, k);
    }
    SeenEnd(rel, peer(key), k, gone);
    OriginsAreIn(r);
    RemoteRelay(r, if gone then r.remote - {k} else r.remote, now, demand, r', peer, rel,
                Media.Seen(rel, peer(key), k, Media.End));
  }

  lemma SeenEnd(rel: Media.Relay, a: NodeId, k: TrackKey, gone: bool)
    requires a in rel.ports && (gone <==> k in rel.remote && rel.remote[k] == a && k !in rel.ports[a].drained)
    ensures Media.Seen(rel, a, k, Media.End).local == rel.local
    ensures Media.Seen(rel, a, k, Media.End).remote == if gone then rel.remote - {k} else rel.remote
  {}

  lemma LocalStep(r: Room, ev: Event, now: int, demand: Demand, r': Room)
    requires Step(r, ev, now, demand, r') && (ev.Publish? || ev.Unpublish? || ev.TrackEnd?)
    ensures var r1 :=
        if ev.Publish? then r.(local := r.local[ev.k := ev.pub])
        else if ev.Unpublish? then r.(local := r.local - {ev.k})
        else r.(remote := if ev.k in r.remote && r.remote[ev.k].id == ev.id then r.remote - {ev.k} else r.remote);
      Registered(r1) && Recomputed(r1, r', now, demand)
  {
    hide Recomputed, Registered;
  }
}
