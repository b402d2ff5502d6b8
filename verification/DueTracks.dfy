/** From what a member is due to what its node is sent: the want a room announces on behalf of its
    members makes the neighbours carry every track a member should hear or see. */
module DueTracks {
  import opened Options
  import opened Tracks
  import opened Wants
  import opened Demands
  import opened Forests
  import Local = LocalDemand
  import opened CascadeRooms
  import opened CascadeRuns
  import Net = WantNetwork
  import Plane = RoomForwarding
  import Media = MediaRuns
  import Feed = MediaFeed
  import Del = Delivery
  import Rest = MediaDelivery
  import Past = MediaHistory

  /** Member s of the room ms is due the tracks of that user and kind, if they are received. */
  predicate IsDueTo(ms: map<Plane.Sid, Plane.Member>, s: Plane.Sid, uid: Uid, kind: Kind) {
    && s in ms && ms[s].uid != uid
    && (match kind
        case Audio => ms[s].caps.subscribeAudio && !(uid in ms[s].marks && ms[s].marks[uid].audio)
        case Screen => ms[s].caps.join && !(uid in ms[s].marks && ms[s].marks[uid].video)
        case ScreenAudio => ms[s].caps.join && !(uid in ms[s].marks && ms[s].marks[uid].video))
  }

  /** The want halves a room computes for its members. */
  ghost predicate WantsOf(ms: map<Plane.Sid, Plane.Member>, w: Demand) {
    Local.IsDemandOf(ms, false, w.audio) && Local.IsDemandOf(ms, true, w.screen)
  }

  lemma DueIsWanted(ms: map<Plane.Sid, Plane.Member>, w: Demand, s: Plane.Sid, uid: Uid, kind: Kind)
    requires WantsOf(ms, w) && IsDueTo(ms, s, uid, kind)
    ensures w.Accepts(Topic(!kind.Audio?, uid))
  {
    Local.PruningIsSound(ms, w.audio, w.screen, s, Plane.Remote(Plane.Key("", kind), uid, false, None));
  }

  /** What a recomputed node announces on an edge accepts whatever its own demand does. */
  lemma AnnouncedAccepts(b: Room, b': Room, now: int, w: Demand, key: EdgeKey, t: Topic)
    requires Pre(b) && Registered(b) && Recomputed(b, b', now, w) && key in b.sessions && w.Accepts(t)
    ensures b.sessions[key] in b'.table && b'.table[b.sessions[key]].link.myWant.Accepts(t)
  {
    RegisteredIsUp(b, key);
    hide Pre, AsNode, Net.AnnouncesAggregate, Edge.Key, NewOut;
    var sid := b.sessions[key];
    assert SessionRecomputed(b, key, ForwardingAllowed(b, now), w, b'.table[sid]);
    Net.AnnouncesKeeps(AsNode(b, w), key, b'.table[sid].link);
    OwnDemand(b, w);
  }

  /** The node of room ms recomputes and announces its want to the node a, which takes it with a valid
      lease: a then carries every track it has, not from there, that a member of ms is due. */
  lemma DueIsCarried(ms: map<Plane.Sid, Plane.Member>, w: Demand, s: Plane.Sid, b: Room, b': Room, nowB: int,
                     keyB: EdgeKey, a: Room, a': Room, nowA: int, demandA: Demand, keyA: EdgeKey, k: TrackKey,
                     pub: Pub)
    requires WantsOf(ms, w) && IsDueTo(ms, s, pub.uid, pub.kind)
    requires Pre(b) && Registered(b) && Recomputed(b, b', nowB, w) && keyB in b.sessions
    requires b.sessions[keyB] in b'.table
    requires Inv(a) && Registered(a) && keyA in a.sessions
    requires Step(a, PeerWant(a.sessions[keyA], b'.table[b.sessions[keyB]].link.myWant), nowA, demandA, a')
    requires a.lease.Some? && a.lease.value.epoch == a.epoch && nowA < a.lease.value.expireMs
    requires || (k in a.local && a.local[k] == pub)
             || (k in a.remote && a.remote[k].pub == pub && a.remote[k].origin != a.sessions[keyA])
    ensures a.sessions[keyA] in a'.table && k in a'.table[a.sessions[keyA]].out
  {
    var want := b'.table[b.sessions[keyB]].link.myWant;
    DueIsWanted(ms, w, s, pub.uid, pub.kind);
    AnnouncedAccepts(b, b', nowB, w, keyB, Topic(!pub.kind.Audio?, pub.uid));
    WantTaken(a, keyA, want, nowA, demandA, a', k, pub);
  }

  lemma WantTaken(a: Room, key: EdgeKey, want: Demand, now: int, demand: Demand, a': Room, k: TrackKey, pub: Pub)
    requires Inv(a) && Registered(a) && key in a.sessions && Step(a, PeerWant(a.sessions[key], want), now, demand, a')
    requires a.lease.Some? && a.lease.value.epoch == a.epoch && now < a.lease.value.expireMs
    requires want.Accepts(Topic(!pub.kind.Audio?, pub.uid))
    requires || (k in a.local && a.local[k] == pub)
             || (k in a.remote && a.remote[k].pub == pub && a.remote[k].origin != a.sessions[key])
    ensures a.sessions[key] in a'.table && k in a'.table[a.sessions[key]].out
  {
    var a1 := WithWant(a, a.sessions[key], want);
    WantTakenStep(a, key, want, now, demand, a');
    hide Inv, Step, Recomputed, Registered, Edge.Key;
    OutTracksAreExact(a1, a', now, demand, key, k);
  }

  lemma WantTakenStep(a: Room, key: EdgeKey, want: Demand, now: int, demand: Demand, a': Room)
    requires Inv(a) && Registered(a) && key in a.sessions && Step(a, PeerWant(a.sessions[key], want), now, demand, a')
    ensures var a1 := WithWant(a, a.sessions[key], want);
      && Registered(a1) && Recomputed(a1, a', now, demand) && a1.sessions == a.sessions
      && a.sessions[key] in a1.table && a1.table[a.sessions[key]].established
      && a1.table[a.sessions[key]].link.peerWant == want && a1.table[a.sessions[key]].link.peerWantSeen
  {
    RegisteredIsUp(a, key);
    hide Inv, Recomputed, Registered, Edge.Key;
  }

  /** Over the whole network, on a tree, after a run of free and careful publications that has come to rest:
      packets of what was published at n and not withdrawn reach every other node with a member due them. */
  lemma DuePacketsArrive(g: Topology, of: Media.Topics, xs: seq<Media.System>, evs: seq<Media.Event>, n: NodeId,
                         q: NodeId, k: TrackKey, j: nat, ms: map<Plane.Sid, Plane.Member>, s: Plane.Sid, kind: Kind)
    requires g.Tree() && Media.MediaRun(g, of, xs, evs) && Media.Courteous(g, xs, evs)
    requires Rest.Still(xs[|xs| - 1]) && forall i | 0 <= i < |evs| :: Feed.Careful(xs[i], evs[i])
    requires j < |evs| && evs[j] == Media.Publish(n, k) && forall m | j < m < |evs| :: evs[m] != Media.Unpublish(n, k)
    requires n != q && n in g.nodes && q in g.nodes && q in xs[|xs| - 1].net
    requires WantsOf(ms, xs[|xs| - 1].net[q].local)
    requires IsDueTo(ms, s, of(k).uid, kind) && of(k).video == !kind.Audio?
    ensures Feed.Reaches(g, xs[|xs| - 1], n, q, k)
  {
    var x := xs[|xs| - 1];
    Past.PublishesWhatItSaid(g, of, xs, evs, |evs|, n, k);
    DueIsWanted(ms, x.net[q].local, s, of(k).uid, kind);
    WalkTo(g, x.net, n, q, of(k));
    RelayNodes(g, of, xs, evs);
    hide Media.MediaRun, Media.Courteous, Rest.Still, Feed.Careful, Topology.Forest, Topology.Connected,
         Del.OnDemandedPath,
         Feed.Reaches, WantsOf, IsDueTo;
    Feed.PacketsAfterRun(g, of, xs, evs, n, q, k);
  }

  lemma RelayNodes(g: Topology, of: Media.Topics, xs: seq<Media.System>, evs: seq<Media.Event>)
    requires Media.MediaRun(g, of, xs, evs)
    ensures |xs| == |evs| + 1 && xs[|xs| - 1].relays.Keys == g.nodes
  {
    Media.MediaRunKeepsInv(g, of, xs, evs, |evs|);
  }

  lemma WalkTo(g: Topology, s: Net.Net, n: NodeId, q: NodeId, t: Topic)
    requires g.Connected() && n in g.nodes && q in g.nodes && n != q && q in s && s[q].local.Accepts(t)
    ensures Del.OnDemandedPath(g, s, n, q, t)
  {
    var p :| g.Walk(p) && p[0] == n && p[|p| - 1] == q;
    assert Del.DemandedPath(g, s, p, n, q, t, |p| - 1);
  }
}
