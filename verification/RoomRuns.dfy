/** The cached snapshots agree with the simple forwarding decision in every reachable state. */
module RoomRuns {
  import opened Options
  import opened Tracks
  import opened RoomForwarding

  datatype Event =
    | Join(sid: Sid, uid: Uid, caps: Caps)
    | Connect(sid: Sid)
    | TrackUp(sid: Sid)
    | TrackEnd(sid: Sid)
    | ScreenEnd(sid: Sid, kind: Kind)
    | ApplyCaps(sid: Sid, caps: Caps)
    | SetSubscription(sid: Sid, uid: Uid, mask: Marks, want: bool)
    | Leave(sid: Sid)
    | AddRemote(id: RemoteId, key: Key, uid: Uid)
    | CloseRemote(id: RemoteId)
    | AttachSink(sid: Sid, n: nat)
    | DetachSink(sid: Sid, n: nat)

  /** who: the user a session id belongs to. */
  predicate Enabled(r: Room, who: Sid -> Uid, ev: Event) {
    match ev
    case Join(s, uid, caps) => uid == who(s)
    case AddRemote(id, key, uid) => id !in r.remotes && uid == who(key.sid)
    case CloseRemote(id) => id in r.remotes
    case AttachSink(_, _) => true
    case DetachSink(_, _) => true
    case ScreenEnd(p, kind) => p in r.members && kind != Audio
    case _ => ev.sid in r.members
  }

  function Next(r: Room, ev: Event): Room
    requires Wired(r)
  {
    match ev
    case Join(s, uid, caps) => Joined(r, s, uid, caps)
    case AddRemote(id, key, uid) => RemoteAdded(r, id, key, uid)
    case CloseRemote(id) => if id in r.remotes then RemoteClosed(r, id) else r
    case AttachSink(p, n) => SinkAttached(r, p, n)
    case DetachSink(p, n) => SinkDetached(r, p, n)
    case Connect(s) => if s in r.members then Connected(r, s) else r
    case TrackUp(p) => if p in r.members then TrackStarted(r, p) else r
    case TrackEnd(p) => if p in r.members then TrackEnded(r, p) else r
    case ScreenEnd(p, kind) => ScreenEnded(r, p, kind)
    case ApplyCaps(p, caps) => if p in r.members then CapsApplied(r, p, caps) else r
    case SetSubscription(s, uid, mask, want) => if s in r.members then Resubscribed(r, s, uid, mask, want) else r
    case Leave(p) => if p in r.members then Left(r, p) else r
  }

  // ---------------------------------------------------------------------------------------------
  // Local publishers
  // ---------------------------------------------------------------------------------------------

  /** A packet of p, if one arrives now, is written to the down track s has of p. */
  predicate Written(r: Room, p: Sid, s: Sid)
    requires p in r.members && s in r.members
  {
    var pub, sub := r.members[p], r.members[s];
    && pub.publishing && pub.caps.publishAudio && pub.fanout.Some?
    && AudioKey(p) in sub.down && HandleOf(s, sub, AudioKey(p)) in pub.fanout.value
  }

  predicate Serves(r: Room, p: Sid, s: Sid)
    requires p in r.members && s in r.members
  {
    Written(r, p, s) <==> r.members[p].publishing && Wants(r.members[p], r.members[s])
  }

  /** p is wanted by s only where s has a track of p. */
  predicate Present(p: Sid, pub: Member, sub: Member) {
    pub.publishing && Wants(pub, sub) ==> AudioKey(p) in sub.down
  }

  /** Down tracks belong to the user of their session and are active unless unsubscribed. */
  predicate MemberOk(who: Sid -> Uid, s: Sid, m: Member) {
    && m.uid == who(s)
    && forall k | k in m.down ::
         && m.down[k].pubUid == who(k.sid)
         && m.down[k].active == !Unsubscribed(m, who(k.sid), k.kind)
  }

  predicate RemoteOk(who: Sid -> Uid, r: Room, id: RemoteId)
    requires id in r.remotes
  {
    var rp := r.remotes[id];
    && rp.uid == who(rp.key.sid)
    && (!rp.closed ==> rp.key in r.current && r.current[rp.key] == id)
    && (rp.closed ==> rp.fanout == None)
    && OwnHandles(rp)
  }

  /** A remote publisher writes only to down tracks of its own key. */
  predicate OwnHandles(rp: Remote) {
    rp.fanout.Some? ==> forall h | h in rp.fanout.value :: h.Down? && h.key == rp.key
  }

  ghost predicate Basic(r: Room, who: Sid -> Uid) {
    && Wired(r)
    && (forall s | s in r.members :: MemberOk(who, s, r.members[s]))
    && (forall id | id in r.remotes :: RemoteOk(who, r, id))
  }

  ghost predicate LocalInv(r: Room) {
    forall p, s | p in r.members && s in r.members && p != s && r.members[s].connected :: Serves(r, p, s)
  }

  lemma ServesIsPresent(r: Room, p: Sid, s: Sid)
    requires p in r.members && s in r.members && Serves(r, p, s)
    ensures Present(p, r.members[p], r.members[s])
  {}

  lemma RebuiltServes(r: Room, who: Sid -> Uid, ps: set<Sid>, p: Sid, s: Sid)
    requires p in r.members && s in r.members && p != s && p in ps
    requires MemberOk(who, p, r.members[p]) && MemberOk(who, s, r.members[s]) && Present(p, r.members[p], r.members[s])
    ensures var r' := RebuiltLocal(r, ps); p in r'.members && s in r'.members && Serves(r', p, s)
  {
    var r' := RebuiltLocal(r, ps);
    if AudioKey(p) in r.members[s].down {
      assert r.members[s].down[AudioKey(p)].active == !Unsubscribed(r.members[s], who(p), Audio);
      ListenerInFanout(r, p, s);
    }
  }

  lemma ListenerInFanout(r: Room, p: Sid, s: Sid)
    requires p in r.members && s in r.members && p != s && AudioKey(p) in r.members[s].down
    ensures HandleOf(s, r.members[s], AudioKey(p)) in Fanout(r, p) <==> Listens(p, r.members[p], r.members[s])
  {}

  predicate SamePublisher(m: Member, m': Member) {
    m'.publishing == m.publishing && m'.caps == m.caps && m'.uid == m.uid && m'.fanout == m.fanout
  }

  /** Nothing about hearing uid under key k has changed. */
  predicate SameSubscriber(m: Member, m': Member, k: Key, uid: Uid) {
    && m'.inst == m.inst && m'.caps == m.caps
    && Unsubscribed(m', uid, Audio) == Unsubscribed(m, uid, Audio)
    && (k in m'.down <==> k in m.down) && (k in m.down ==> m'.down[k].gen == m.down[k].gen)
  }

  lemma SameServes(r: Room, r': Room, p: Sid, s: Sid)
    requires p in r.members && s in r.members && p in r'.members && s in r'.members && Serves(r, p, s)
    requires SamePublisher(r.members[p], r'.members[p])
    requires SameSubscriber(r.members[s], r'.members[s], AudioKey(p), r.members[p].uid)
    ensures Serves(r', p, s)
  {}

  lemma SilentServes(r: Room, p: Sid, s: Sid)
    requires p in r.members && s in r.members
    requires !r.members[p].publishing || !r.members[p].caps.publishAudio
    ensures Serves(r, p, s)
  {}

  // ---------------------------------------------------------------------------------------------
  // Changes to one member
  // ---------------------------------------------------------------------------------------------

  lemma EnsureLocalKeepsOk(who: Sid -> Uid, p: Sid, pub: Member, s: Sid, sub: Member)
    requires pub.uid == who(p) && MemberOk(who, s, sub)
    ensures MemberOk(who, s, EnsureLocal(p, pub, sub)) && Present(p, pub, EnsureLocal(p, pub, sub))
  {}

  lemma EnsureRemoteKeepsOk(who: Sid -> Uid, id: RemoteId, rp: Remote, s: Sid, sub: Member)
    requires rp.uid == who(rp.key.sid) && MemberOk(who, s, sub)
    ensures MemberOk(who, s, EnsureRemote(id, rp, sub))
  {}

  lemma LocalTracksKeepsOk(who: Sid -> Uid, ms: map<Sid, Member>, s: Sid, ps: set<Sid>)
    requires s in ms && forall x | x in ms :: MemberOk(who, x, ms[x])
    ensures MemberOk(who, s, LocalTracks(ms, s, ps))
  {
    var m, m' := ms[s], LocalTracks(ms, s, ps);
    forall k | k in m'.down
      ensures m'.down[k].pubUid == who(k.sid) && m'.down[k].active == !Unsubscribed(m', who(k.sid), k.kind)
    {
      if k !in m.down {
        assert k in Offered(ms, s, ps);
        assert MemberOk(who, k.sid, ms[k.sid]);
      }
    }
  }

  lemma RemoteTracksKeepsOk(who: Sid -> Uid, r: Room, s: Sid, m: Member, keys: set<Key>)
    requires Wired(r) && MemberOk(who, s, m)
    requires forall id | id in r.remotes :: RemoteOk(who, r, id)
    ensures MemberOk(who, s, RemoteTracks(r, m, keys))
  {
    var m' := RemoteTracks(r, m, keys);
    forall k | k in m'.down
      ensures m'.down[k].pubUid == who(k.sid) && m'.down[k].active == !Unsubscribed(m', who(k.sid), k.kind)
    {
      if k in Granted(r, m, keys) {
        assert RemoteOk(who, r, r.current[k]);
        EnsureRemoteKeepsOk(who, r.current[k], r.remotes[r.current[k]], s, m);
      }
    }
  }

  lemma MarkedKeepsOk(who: Sid -> Uid, s: Sid, m: Member, uid: Uid, mask: Marks, want: bool)
    requires MemberOk(who, s, m)
    ensures MemberOk(who, s, Marked(m, uid, mask, want))
  {}

  lemma FewerKeepOk(who: Sid -> Uid, s: Sid, m: Member, p: Sid, k: Key)
    requires MemberOk(who, s, m)
    ensures MemberOk(who, s, Purged(m, p)) && MemberOk(who, s, Without(m, k)) && MemberOk(who, s, Stripped(m))
  {}

  /** LocalTracks leaves existing tracks alone and adds what is wanted of the publishers in ps. */
  lemma LocalTracksAt(ms: map<Sid, Member>, s: Sid, ps: set<Sid>, p: Sid)
    requires s in ms && p in ms && p != s
    ensures var m, m' := ms[s], LocalTracks(ms, s, ps);
      && (AudioKey(p) in m.down ==> AudioKey(p) in m'.down && m'.down[AudioKey(p)] == m.down[AudioKey(p)])
      && (p in ps ==> Present(p, ms[p], m'))
      && (p !in ps ==> (AudioKey(p) in m'.down <==> AudioKey(p) in m.down))
  {
    var m, m' := ms[s], LocalTracks(ms, s, ps);
    if p in ps && Lacks(p, ms[p], m) {
      assert AudioKey(p) in Offered(ms, s, ps);
    }
  }

  /** Taking tracks over for remote publishers does not disturb local ones. */
  lemma RemoteTracksServe(who: Sid -> Uid, r: Room, s: Sid, keys: set<Key>, p: Sid)
    requires Basic(r, who) && s in r.members && p in r.members && p != s && Serves(r, p, s)
    ensures Serves(WithMember(r, s, RemoteTracks(r, r.members[s], keys)), p, s)
  {
    var k, sub, pub := AudioKey(p), r.members[s], r.members[p];
    assert MemberOk(who, p, pub);
    if k in r.current {
      assert RemoteOk(who, r, r.current[k]);
    }
    hide Basic, MemberOk;
  }

  lemma EnsureRemoteServes(who: Sid -> Uid, r: Room, r': Room, id: RemoteId, rp: Remote, s: Sid, p: Sid)
    requires s in r.members && p in r.members && p != s && Serves(r, p, s) && MemberOk(who, p, r.members[p])
    requires rp.uid == who(rp.key.sid)
    requires s in r'.members && p in r'.members && r'.members[s] == EnsureRemote(id, rp, r.members[s])
    requires SamePublisher(r.members[p], r'.members[p])
    ensures Serves(r', p, s)
  {}

  // ---------------------------------------------------------------------------------------------
  // Local publishers, operation by operation
  // ---------------------------------------------------------------------------------------------

  /** As LocalInv, except for publishers in ps and subscribers in ss. */
  ghost predicate LocalBut(r: Room, ps: set<Sid>, ss: set<Sid>) {
    forall p, s | p in r.members && s in r.members && p != s && r.members[s].connected && p !in ps && s !in ss ::
        Serves(r, p, s)
  }

  ghost predicate AllPresent(r: Room) {
    forall p, s | p in r.members && s in r.members && p != s && r.members[s].connected ::
        Present(p, r.members[p], r.members[s])
  }

  lemma MemberBasic(r: Room, who: Sid -> Uid, s: Sid, m: Member)
    requires Basic(r, who) && MemberOk(who, s, m)
    ensures Basic(WithMember(r, s, m), who)
  {
    hide MemberOk;
    assert forall id | id in r.remotes :: RemoteOk(who, WithMember(r, s, m), id) == RemoteOk(who, r, id);
  }

  lemma RebuiltLocalBasic(r: Room, who: Sid -> Uid, ps: set<Sid>)
    requires Basic(r, who)
    ensures Basic(RebuiltLocal(r, ps), who)
  {
    var r' := RebuiltLocal(r, ps);
    forall s | s in r'.members ensures MemberOk(who, s, r'.members[s]) {
      assert MemberOk(who, s, r.members[s]);
    }
    hide MemberOk;
    assert forall id | id in r.remotes :: RemoteOk(who, r', id) == RemoteOk(who, r, id);
  }

  lemma RebuiltRemoteBasic(r: Room, who: Sid -> Uid, keys: set<Key>)
    requires Basic(r, who)
    ensures var r' := RebuiltRemote(r, keys); Basic(r', who) && r'.members == r.members && r'.current == r.current
  {
    hide MemberOk;
    var r' := RebuiltRemote(r, keys);
    forall id | id in r'.remotes ensures RemoteOk(who, r', id) {
      assert RemoteOk(who, r, id);
    }
  }

  /** Same members, same audio service. */
  lemma SameMembersServe(r: Room, r': Room)
    requires LocalInv(r) && r'.members == r.members
    ensures LocalInv(r')
  {
    forall p, s | p in r'.members && s in r'.members && p != s && r'.members[s].connected ensures Serves(r', p, s) {
      assert Serves(r, p, s);
    }
  }

  lemma RebuildServes(r: Room, who: Sid -> Uid, ps: set<Sid>)
    requires Basic(r, who) && LocalBut(r, ps, {})
    requires forall p, s | p in r.members && s in r.members && p != s && r.members[s].connected && p in ps ::
               Present(p, r.members[p], r.members[s])
    ensures LocalInv(RebuiltLocal(r, ps))
  {
    var r' := RebuiltLocal(r, ps);
    forall p, s | p in r'.members && s in r'.members && p != s && r'.members[s].connected ensures Serves(r', p, s) {
      if p in ps {
        assert MemberOk(who, p, r.members[p]) && MemberOk(who, s, r.members[s]);
        RebuiltServes(r, who, ps, p, s);
      } else {
        SameServes(r, r', p, s);
      }
    }
  }

  lemma AttachSubscribersServes(r: Room, who: Sid -> Uid, p: Sid)
    requires Basic(r, who) && p in r.members && LocalBut(r, {p}, {})
    ensures Basic(AttachedSubscribers(r, p), who) && LocalInv(AttachedSubscribers(r, p))
  {
    var r1 := r.(members := map s | s in r.members ::
          if s == p then r.members[s] else EnsureLocal(p, r.members[p], r.members[s]));
    forall s | s in r1.members
      ensures MemberOk(who, s, r1.members[s]) && (s != p ==> Present(p, r1.members[p], r1.members[s]))
    {
      assert MemberOk(who, s, r.members[s]) && MemberOk(who, p, r.members[p]);
      EnsureLocalKeepsOk(who, p, r.members[p], s, r.members[s]);
    }
    forall q, s | q in r1.members && s in r1.members && q != s && r1.members[s].connected && q !in {p}
      ensures Serves(r1, q, s)
    {
      SameServes(r, r1, q, s);
    }
    hide MemberOk;
    assert forall id | id in r.remotes :: RemoteOk(who, r1, id) == RemoteOk(who, r, id);
    assert Basic(r1, who);
    RebuiltLocalBasic(r1, who, {p});
    RebuildServes(r1, who, {p});
  }

  lemma DetachServes(r: Room, who: Sid -> Uid, p: Sid)
    requires Basic(r, who) && p in r.members && LocalBut(r, {p}, {})
    requires !r.members[p].publishing || !r.members[p].caps.publishAudio
    ensures Basic(Detached(r, p), who) && LocalInv(Detached(r, p))
  {
    var r' := Detached(r, p);
    forall s | s in r'.members ensures MemberOk(who, s, r'.members[s]) {
      assert MemberOk(who, s, r.members[s]);
      FewerKeepOk(who, s, r.members[s], p, AudioKey(p));
    }
    forall q, s | q in r'.members && s in r'.members && q != s && r'.members[s].connected ensures Serves(r', q, s) {
      if q == p {
        SilentServes(r', q, s);
      } else {
        SameServes(r, r', q, s);
      }
    }
    hide MemberOk;
    assert forall id | id in r.remotes :: RemoteOk(who, r', id) == RemoteOk(who, r, id);
  }

  lemma LeaveServes(r: Room, who: Sid -> Uid, x: Sid)
    requires Basic(r, who) && LocalInv(r)
    ensures Basic(Left(r, x), who) && LocalInv(Left(r, x))
  {
    var r1 := r.(members := map s | s in r.members && s != x :: Purged(r.members[s], x));
    forall s | s in r1.members ensures MemberOk(who, s, r1.members[s]) {
      assert MemberOk(who, s, r.members[s]);
      FewerKeepOk(who, s, r.members[s], x, AudioKey(x));
    }
    forall q, s | q in r1.members && s in r1.members && q != s && r1.members[s].connected ensures Serves(r1, q, s) {
      SameServes(r, r1, q, s);
    }
    hide MemberOk;
    assert forall id | id in r.remotes :: RemoteOk(who, r1, id) == RemoteOk(who, r, id);
    assert Basic(r1, who);
    RebuiltRemoteBasic(r1, who, r1.current.Keys);
    SameMembersServe(r1, Left(r, x));
  }

  /** Local tracks for s from the publishers in ps, then their snapshots. */
  lemma LocalTracksServe(r: Room, who: Sid -> Uid, s: Sid, ps: set<Sid>)
    requires Basic(r, who) && s in r.members && s !in ps
    requires LocalBut(r, ps, {s})
    requires forall p, x | p in ps && p in r.members && x in r.members && p != x && x != s && r.members[x].connected ::
               Serves(r, p, x)
    requires forall p | p in r.members && p != s && p !in ps && r.members[s].connected :: Serves(r, p, s)
    ensures var r' := RebuiltLocal(WithMember(r, s, LocalTracks(r.members, s, ps)), ps); Basic(r', who) && LocalInv(r')
  {
    var m := LocalTracks(r.members, s, ps);
    var r1 := WithMember(r, s, m);
    assert forall x | x in r.members :: MemberOk(who, x, r.members[x]);
    LocalTracksKeepsOk(who, r.members, s, ps);
    MemberBasic(r, who, s, m);
    forall p, x | p in r1.members && x in r1.members && p != x && r1.members[x].connected
      ensures if p in ps then Present(p, r1.members[p], r1.members[x]) else Serves(r1, p, x)
    {
      if x == s {
        LocalTracksAt(r.members, s, ps, p);
        if p !in ps {
          SameServes(r, r1, p, x);
        }
      } else {
        SameServes(r, r1, p, x);
        ServesIsPresent(r1, p, x);
      }
    }
    hide Basic, MemberOk, Present, Serves;
    RebuiltLocalBasic(r1, who, ps);
    RebuildServes(r1, who, ps);
  }

  lemma RemoteTracksServeAll(r: Room, who: Sid -> Uid, s: Sid, keys: set<Key>)
    requires Basic(r, who) && LocalInv(r) && s in r.members
    ensures var r' := WithMember(r, s, RemoteTracks(r, r.members[s], keys)); Basic(r', who) && LocalInv(r')
  {
    var m := RemoteTracks(r, r.members[s], keys);
    var r' := WithMember(r, s, m);
    assert MemberOk(who, s, r.members[s]);
    RemoteTracksKeepsOk(who, r, s, r.members[s], keys);
    MemberBasic(r, who, s, m);
    forall p, x | p in r'.members && x in r'.members && p != x && r'.members[x].connected ensures Serves(r', p, x) {
      assert Serves(r, p, x);
      if x == s {
        RemoteTracksServe(who, r, s, keys, p);
      } else {
        SameServes(r, r', p, x);
      }
    }
  }

  lemma AttachPublishersServes(r: Room, who: Sid -> Uid, s: Sid)
    requires Basic(r, who) && s in r.members && LocalBut(r, {}, {s})
    ensures Basic(AttachedPublishers(r, s), who) && LocalInv(AttachedPublishers(r, s))
  {
    var ps := Publishers(r.members, s);
    forall p | p in r.members && p != s && p !in ps && r.members[s].connected ensures Serves(r, p, s) {
      SilentServes(r, p, s);
    }
    LocalTracksServe(r, who, s, ps);
    var r1 := RebuiltLocal(WithMember(r, s, LocalTracks(r.members, s, ps)), ps);
    assert s in r1.members;
    hide LocalTracks, RebuiltLocal, Basic, LocalInv;
    assert Wired(r1) by {
      BasicIsWired(r1, who);
    }
    RemoteTracksServeAll(r1, who, s, r1.current.Keys);
    var r2 := WithMember(r1, s, RemoteTracks(r1, r1.members[s], r1.current.Keys));
    hide RemoteTracks;
    RebuiltRemoteBasic(r2, who, r2.current.Keys);
    SameMembersServe(r2, RebuiltRemote(r2, r2.current.Keys));
  }

  lemma BasicIsWired(r: Room, who: Sid -> Uid)
    requires Basic(r, who)
    ensures Wired(r)
  {}

  lemma EnterServes(r: Room, who: Sid -> Uid, s: Sid, m: Member)
    requires Basic(r, who) && LocalInv(r) && s !in r.members && MemberOk(who, s, m) && !m.publishing && !m.connected
    ensures Basic(WithMember(r, s, m), who) && LocalInv(WithMember(r, s, m))
  {
    var r' := WithMember(r, s, m);
    MemberBasic(r, who, s, m);
    hide Basic, MemberOk;
    forall p, x | p in r'.members && x in r'.members && p != x && r'.members[x].connected ensures Serves(r', p, x) {
      if p == s {
        SilentServes(r', p, x);
      } else {
        SameServes(r, r', p, x);
      }
    }
  }

  lemma InstServes(r: Room, who: Sid -> Uid, inst: nat)
    requires Basic(r, who) && LocalInv(r)
    ensures Basic(r.(nextInst := inst), who) && LocalInv(r.(nextInst := inst))
  {
    SameMembersServe(r, r.(nextInst := inst));
    hide MemberOk, Serves;
    assert forall id | id in r.remotes :: RemoteOk(who, r.(nextInst := inst), id) == RemoteOk(who, r, id);
  }

  lemma LeftIsGone(r: Room, s: Sid)
    ensures s !in Left(r, s).members
  {}

  lemma JoinServes(r: Room, who: Sid -> Uid, s: Sid, caps: Caps)
    requires Basic(r, who) && LocalInv(r)
    ensures Basic(Joined(r, s, who(s), caps), who) && LocalInv(Joined(r, s, who(s), caps))
  {
    hide Basic, LocalInv, Left;
    LeaveServes(r, who, s);
    LeftIsGone(r, s);
    var r1 := if s in r.members then Left(r, s) else r;
    var m := NewMember(r1.nextInst, who(s), caps);
    EnterServes(r1, who, s, m);
    InstServes(WithMember(r1, s, m), who, r1.nextInst + 1);
  }

  lemma ConnectServes(r: Room, who: Sid -> Uid, s: Sid)
    requires Basic(r, who) && LocalInv(r) && s in r.members
    ensures Basic(Connected(r, s), who) && LocalInv(Connected(r, s))
  {
    if !r.members[s].connected {
      var m := r.members[s].(connected := true);
      var r1 := WithMember(r, s, m);
      assert MemberOk(who, s, r.members[s]);
      assert MemberOk(who, s, m);
      MemberBasic(r, who, s, m);
      forall p, x | p in r1.members && x in r1.members && p != x && r1.members[x].connected && p !in {} && x !in {s}
        ensures Serves(r1, p, x)
      {
        SameServes(r, r1, p, x);
      }
      hide Basic, MemberOk;
      AttachPublishersServes(r1, who, s);
    }
  }

  lemma TrackStartServes(r: Room, who: Sid -> Uid, p: Sid)
    requires Basic(r, who) && LocalInv(r) && p in r.members
    ensures Basic(TrackStarted(r, p), who) && LocalInv(TrackStarted(r, p))
  {
    if !r.members[p].publishing {
      SwitchServes(r, who, p, r.members[p].(publishing := true));
      if r.members[p].caps.publishAudio {
        AttachSubscribersServes(WithMember(r, p, r.members[p].(publishing := true)), who, p);
      }
    }
  }

  lemma TrackEndServes(r: Room, who: Sid -> Uid, p: Sid)
    requires Basic(r, who) && LocalInv(r) && p in r.members
    ensures Basic(TrackEnded(r, p), who) && LocalInv(TrackEnded(r, p))
  {
    if r.members[p].publishing {
      SwitchServes(r, who, p, r.members[p].(publishing := false));
      if r.members[p].caps.publishAudio {
        DetachServes(WithMember(r, p, r.members[p].(publishing := false)), who, p);
      }
    }
  }

  /** No audio track is touched. */
  lemma ScreenEndServes(r: Room, who: Sid -> Uid, x: Sid, kind: Kind)
    requires Basic(r, who) && LocalInv(r) && kind != Audio
    ensures Basic(ScreenEnded(r, x, kind), who) && LocalInv(ScreenEnded(r, x, kind))
  {
    var r' := ScreenEnded(r, x, kind);
    forall s | s in r'.members ensures MemberOk(who, s, r'.members[s]) {
      assert MemberOk(who, s, r.members[s]);
      FewerKeepOk(who, s, r.members[s], x, Key(x, kind));
    }
    SameRemotesBasic(r, who, r');
    hide Basic, MemberOk;
    forall p, s | p in r'.members && s in r'.members && p != s && r'.members[s].connected ensures Serves(r', p, s) {
      SameServes(r, r', p, s);
    }
  }

  /** Changing what p publishes leaves the other publishers' service alone. */
  lemma SwitchServes(r: Room, who: Sid -> Uid, p: Sid, m: Member)
    requires Basic(r, who) && LocalInv(r) && p in r.members
    requires m == r.members[p].(publishing := m.publishing, fanout := m.fanout)
    ensures Basic(WithMember(r, p, m), who) && LocalBut(WithMember(r, p, m), {p}, {})
    ensures !m.caps.publishAudio || !m.publishing ==> LocalInv(WithMember(r, p, m))
  {
    var r1 := WithMember(r, p, m);
    assert MemberOk(who, p, r.members[p]);
    assert MemberOk(who, p, m);
    MemberBasic(r, who, p, m);
    forall q, s | q in r1.members && s in r1.members && q != s && r1.members[s].connected
        && (q != p || !m.caps.publishAudio || !m.publishing)
      ensures Serves(r1, q, s)
    {
      if q == p {
        SilentServes(r1, q, s);
      } else {
        SameServes(r, r1, q, s);
      }
    }
  }

  lemma AddRemoteServes(r: Room, who: Sid -> Uid, id: RemoteId, key: Key)
    requires Basic(r, who) && LocalInv(r) && id !in r.remotes
    ensures Basic(RemoteAdded(r, id, key, who(key.sid)), who) && LocalInv(RemoteAdded(r, id, key, who(key.sid)))
  {
    if key !in r.current {
      var rp := Remote(key, who(key.sid), false, None);
      var r1 := r.(remotes := r.remotes[id := rp], current := r.current[key := id],
                   members := map s | s in r.members :: EnsureRemote(id, rp, r.members[s]));
      forall s | s in r1.members ensures MemberOk(who, s, r1.members[s]) {
        assert MemberOk(who, s, r.members[s]);
        EnsureRemoteKeepsOk(who, id, rp, s, r.members[s]);
      }
      forall p, s | p in r1.members && s in r1.members && p != s && r1.members[s].connected ensures Serves(r1, p, s) {
        assert Serves(r, p, s) && MemberOk(who, p, r.members[p]);
        hide MemberOk, Serves;
        EnsureRemoteServes(who, r, r1, id, rp, s, p);
      }
      AddedRemoteOk(r, who, id, rp, r1);
      RebuiltRemoteBasic(r1, who, {key});
      SameMembersServe(r1, RebuiltRemote(r1, {key}));
    }
  }

  lemma AddedRemoteOk(r: Room, who: Sid -> Uid, id: RemoteId, rp: Remote, r1: Room)
    requires Basic(r, who) && id !in r.remotes && rp.key !in r.current && rp.uid == who(rp.key.sid) && !rp.closed
    requires rp.fanout == None
    requires r1.remotes == r.remotes[id := rp] && r1.current == r.current[rp.key := id]
    requires forall s | s in r1.members :: MemberOk(who, s, r1.members[s])
    ensures Basic(r1, who)
  {
    hide MemberOk;
    forall x | x in r1.remotes ensures RemoteOk(who, r1, x) {
      if x != id {
        assert RemoteOk(who, r, x);
      }
    }
  }

  lemma CloseRemoteServes(r: Room, who: Sid -> Uid, id: RemoteId)
    requires Basic(r, who) && LocalInv(r) && id in r.remotes
    ensures Basic(RemoteClosed(r, id), who) && LocalInv(RemoteClosed(r, id))
  {
    var r' := RemoteClosed(r, id);
    SameMembersServe(r, r');
    hide MemberOk, Serves;
    assert RemoteOk(who, r, id);
    forall x | x in r'.remotes ensures RemoteOk(who, r', x) {
      assert RemoteOk(who, r, x);
    }
  }

  lemma SinkServes(r: Room, who: Sid -> Uid, p: Sid, sinks: map<Sid, set<nat>>)
    requires Basic(r, who) && LocalInv(r)
    ensures var r' := RebuiltLocal(r.(sinks := sinks), {p}); Basic(r', who) && LocalInv(r')
  {
    var r1 := r.(sinks := sinks);
    SameMembersServe(r, r1);
    hide MemberOk;
    assert forall id | id in r.remotes :: RemoteOk(who, r1, id) == RemoteOk(who, r, id);
    assert Basic(r1, who);
    RebuiltLocalBasic(r1, who, {p});
    forall q, s | q in r1.members && s in r1.members && q != s && r1.members[s].connected
      ensures Present(q, r1.members[q], r1.members[s])
    {
      ServesIsPresent(r1, q, s);
    }
    RebuildServes(r1, who, {p});
  }

  // ---------------------------------------------------------------------------------------------
  // Caps: everyone keeps, or gets, the tracks the new caps call for, then everything is rebuilt
  // ---------------------------------------------------------------------------------------------

  /** Present, except for publisher p's subscribers and p's own tracks where the right is being gained. */
  ghost predicate PresentBut(r: Room, pub: set<Sid>, sub: set<Sid>) {
    forall p, s | p in r.members && s in r.members && p != s && r.members[s].connected && p !in pub && s !in sub ::
      Present(p, r.members[p], r.members[s])
  }

  lemma CapsSetPresent(r: Room, who: Sid -> Uid, x: Sid, caps: Caps)
    requires Basic(r, who) && LocalInv(r) && x in r.members
    ensures var r', was := CapsSet(r, x, caps), r.members[x].caps;
      && Basic(r', who)
      && PresentBut(r', if caps.publishAudio && !was.publishAudio then {x} else {},
                    if caps.subscribeAudio && !was.subscribeAudio then {x} else {})
  {
    var r', was := CapsSet(r, x, caps), r.members[x].caps;
    assert MemberOk(who, x, r.members[x]);
    assert MemberOk(who, x, r'.members[x]);
    MemberBasic(r, who, x, r'.members[x]);
    forall p, s | p in r'.members && s in r'.members && p != s && r'.members[s].connected
      ensures !(p == x && caps.publishAudio && !was.publishAudio)
                && !(s == x && caps.subscribeAudio && !was.subscribeAudio) ==>
                Present(p, r'.members[p], r'.members[s])
    {
      assert Serves(r, p, s);
      ServesIsPresent(r, p, s);
    }
  }

  /** p is still wanted by s only where s has a track. */
  predicate Kept(p: Sid, pub: Member, sub: Member, pub': Member, sub': Member) {
    && pub'.publishing == pub.publishing && pub'.caps == pub.caps && pub'.uid == pub.uid
    && sub'.caps == sub.caps && sub'.marks == sub.marks && sub'.connected == sub.connected
    && (AudioKey(p) in sub.down ==> AudioKey(p) in sub'.down)
  }

  lemma KeptPresent(p: Sid, pub: Member, sub: Member, pub': Member, sub': Member)
    requires Present(p, pub, sub) && Kept(p, pub, sub, pub', sub')
    ensures Present(p, pub', sub')
  {}

  lemma SameRemotesBasic(r: Room, who: Sid -> Uid, r': Room)
    requires Basic(r, who) && r'.remotes == r.remotes && r'.current == r.current
    requires forall s | s in r'.members :: MemberOk(who, s, r'.members[s])
    ensures Basic(r', who)
  {
    hide MemberOk;
    assert forall id | id in r.remotes :: RemoteOk(who, r', id) == RemoteOk(who, r, id);
  }

  lemma DetachPresent(r: Room, who: Sid -> Uid, x: Sid, sub: set<Sid>)
    requires Basic(r, who) && x in r.members && !r.members[x].caps.publishAudio && PresentBut(r, {}, sub)
    ensures var r' := Detached(r, x);
      Basic(r', who) && x in r'.members && r'.members[x].caps == r.members[x].caps && PresentBut(r', {}, sub)
  {
    var r' := Detached(r, x);
    forall s | s in r'.members ensures MemberOk(who, s, r'.members[s]) {
      assert MemberOk(who, s, r.members[s]);
      FewerKeepOk(who, s, r.members[s], x, AudioKey(x));
    }
    SameRemotesBasic(r, who, r');
    hide Basic, MemberOk;
    forall p, s | p in r'.members && s in r'.members && p != s && r'.members[s].connected && s !in sub
      ensures Present(p, r'.members[p], r'.members[s])
    {
      if p != x {
        KeptPresent(p, r.members[p], r.members[s], r'.members[p], r'.members[s]);
      }
    }
  }

  lemma SilencePresent(r: Room, who: Sid -> Uid, x: Sid, sub: set<Sid>)
    requires Basic(r, who) && x in r.members && PresentBut(r, {}, sub)
    ensures var r' := WithMember(r, x, r.members[x].(fanout := None));
      Basic(r', who) && x in r'.members && r'.members[x].caps == r.members[x].caps && PresentBut(r', {}, sub)
  {
    var m := r.members[x].(fanout := None);
    var r' := WithMember(r, x, m);
    assert MemberOk(who, x, r.members[x]);
    assert MemberOk(who, x, m);
    MemberBasic(r, who, x, m);
    hide Basic, MemberOk;
    forall p, s | p in r'.members && s in r'.members && p != s && r'.members[s].connected && s !in sub
      ensures Present(p, r'.members[p], r'.members[s])
    {
      KeptPresent(p, r.members[p], r.members[s], r'.members[p], r'.members[s]);
    }
  }

  lemma AttachPresent(r: Room, who: Sid -> Uid, x: Sid, sub: set<Sid>)
    requires Basic(r, who) && x in r.members && PresentBut(r, {x}, sub)
    ensures var r' := AttachedSubscribers(r, x);
      Basic(r', who) && x in r'.members && r'.members[x].caps == r.members[x].caps && PresentBut(r', {}, sub)
  {
    var r' := AttachedSubscribers(r, x);
    forall s | s in r'.members
      ensures MemberOk(who, s, r'.members[s]) && (s != x ==> Present(x, r'.members[x], r'.members[s]))
    {
      assert MemberOk(who, s, r.members[s]) && MemberOk(who, x, r.members[x]);
      EnsureLocalKeepsOk(who, x, r.members[x], s, r.members[s]);
    }
    SameRemotesBasic(r, who, r');
    hide Basic, MemberOk, Present;
    forall p, s | p in r'.members && s in r'.members && p != s && r'.members[s].connected && s !in sub
      ensures Present(p, r'.members[p], r'.members[s])
    {
      if p != x {
        KeptPresent(p, r.members[p], r.members[s], r'.members[p], r'.members[s]);
      }
    }
  }

  lemma PublishRightPresent(r: Room, who: Sid -> Uid, x: Sid, was: Caps, sub: set<Sid>)
    requires Basic(r, who) && x in r.members
    requires PresentBut(r, if r.members[x].caps.publishAudio && !was.publishAudio then {x} else {}, sub)
    ensures var r' := PublishRight(r, x, was);
      Basic(r', who) && x in r'.members && r'.members[x].caps == r.members[x].caps && PresentBut(r', {}, sub)
  {
    var m := r.members[x];
    if was.publishAudio && !m.caps.publishAudio {
      if m.publishing {
        DetachPresent(r, who, x, sub);
      } else {
        SilencePresent(r, who, x, sub);
      }
    } else if !was.publishAudio && m.caps.publishAudio {
      if m.publishing {
        AttachPresent(r, who, x, sub);
      } else {
        assert PresentBut(r, {}, sub);
      }
    }
  }

  lemma StripPresent(r: Room, who: Sid -> Uid, x: Sid)
    requires Basic(r, who) && x in r.members && !r.members[x].caps.subscribeAudio && PresentBut(r, {}, {})
    ensures var r' := WithMember(r, x, Stripped(r.members[x])); Basic(r', who) && PresentBut(r', {}, {})
  {
    var m := Stripped(r.members[x]);
    var r' := WithMember(r, x, m);
    assert MemberOk(who, x, r.members[x]);
    FewerKeepOk(who, x, r.members[x], x, AudioKey(x));
    MemberBasic(r, who, x, m);
    hide Basic, MemberOk;
    forall p, s | p in r'.members && s in r'.members && p != s && r'.members[s].connected
      ensures Present(p, r'.members[p], r'.members[s])
    {
      if s != x {
        KeptPresent(p, r.members[p], r.members[s], r'.members[p], r'.members[s]);
      }
    }
  }

  lemma RegainLocal(r: Room, who: Sid -> Uid, x: Sid)
    requires Basic(r, who) && x in r.members && PresentBut(r, {}, {x})
    ensures var ps := Publishers(r.members, x);
      var r1 := RebuiltLocal(WithMember(r, x, LocalTracks(r.members, x, ps)), ps);
      Basic(r1, who) && PresentBut(r1, {}, {}) && x in r1.members
  {
    var ps := Publishers(r.members, x);
    var m := LocalTracks(r.members, x, ps);
    var r1 := RebuiltLocal(WithMember(r, x, m), ps);
    assert forall s | s in r.members :: MemberOk(who, s, r.members[s]);
    LocalTracksKeepsOk(who, r.members, x, ps);
    MemberBasic(r, who, x, m);
    RebuiltLocalBasic(WithMember(r, x, m), who, ps);
    hide Basic, MemberOk;
    forall p, s | p in r1.members && s in r1.members && p != s && r1.members[s].connected
      ensures Present(p, r1.members[p], r1.members[s])
    {
      if s == x {
        LocalTracksAt(r.members, x, ps, p);
      } else {
        KeptPresent(p, r.members[p], r.members[s], r1.members[p], r1.members[s]);
      }
    }
  }

  lemma RegainRemote(r: Room, who: Sid -> Uid, x: Sid, keys: set<Key>)
    requires Basic(r, who) && x in r.members && PresentBut(r, {}, {})
    ensures var r' := WithMember(r, x, RemoteTracks(r, r.members[x], keys)); Basic(r', who) && PresentBut(r', {}, {})
  {
    var m := RemoteTracks(r, r.members[x], keys);
    assert MemberOk(who, x, r.members[x]);
    RemoteTracksKeepsOk(who, r, x, r.members[x], keys);
    MemberBasic(r, who, x, m);
    var r' := WithMember(r, x, m);
    hide Basic, MemberOk;
    forall p, s | p in r'.members && s in r'.members && p != s && r'.members[s].connected
      ensures Present(p, r'.members[p], r'.members[s])
    {
      KeptPresent(p, r.members[p], r.members[s], r'.members[p], r'.members[s]);
    }
  }

  lemma RegainPresent(r: Room, who: Sid -> Uid, x: Sid)
    requires Basic(r, who) && x in r.members && PresentBut(r, {}, {x})
    ensures var r' := AttachedPublishers(r, x); Basic(r', who) && PresentBut(r', {}, {})
  {
    var ps := Publishers(r.members, x);
    var r1 := RebuiltLocal(WithMember(r, x, LocalTracks(r.members, x, ps)), ps);
    RegainLocal(r, who, x);
    hide Basic, LocalTracks, RebuiltLocal, PresentBut;
    BasicIsWired(r1, who);
    RegainRemote(r1, who, x, r1.current.Keys);
    var r2 := WithMember(r1, x, RemoteTracks(r1, r1.members[x], r1.current.Keys));
    hide RemoteTracks;
    RebuiltRemoteBasic(r2, who, r2.current.Keys);
    SameMembersPresent(r2, RebuiltRemote(r2, r2.current.Keys));
  }

  lemma SameMembersPresent(r: Room, r': Room)
    requires PresentBut(r, {}, {}) && r'.members == r.members
    ensures PresentBut(r', {}, {})
  {}

  lemma SubscribeRightPresent(r: Room, who: Sid -> Uid, x: Sid, was: Caps)
    requires Basic(r, who) && x in r.members
    requires PresentBut(r, {}, if r.members[x].caps.subscribeAudio && !was.subscribeAudio then {x} else {})
    ensures Basic(SubscribeRight(r, x, was), who) && PresentBut(SubscribeRight(r, x, was), {}, {})
  {
    var m := r.members[x];
    if was.subscribeAudio && !m.caps.subscribeAudio {
      StripPresent(r, who, x);
    } else if !was.subscribeAudio && m.caps.subscribeAudio {
      RegainPresent(r, who, x);
    }
  }

  lemma CapsServe(r: Room, who: Sid -> Uid, x: Sid, caps: Caps)
    requires Basic(r, who) && LocalInv(r) && x in r.members
    ensures Basic(CapsApplied(r, x, caps), who) && LocalInv(CapsApplied(r, x, caps))
  {
    hide Basic, PresentBut, PublishRight, SubscribeRight, LocalInv, RebuiltLocal, RebuiltRemote;
    BasicIsWired(r, who);
    var was := r.members[x].caps;
    CapsSetPresent(r, who, x, caps);
    var r0 := CapsSet(r, x, caps);
    assert r0.members[x].caps == caps;
    BasicIsWired(r0, who);
    PublishRightPresent(r0, who, x, was, if caps.subscribeAudio && !was.subscribeAudio then {x} else {});
    var r1 := PublishRight(r0, x, was);
    BasicIsWired(r1, who);
    SubscribeRightPresent(r1, who, x, was);
    var r2 := SubscribeRight(r1, x, was);
    RebuildAllServes(r2, who);
  }

  lemma RebuildAllServes(r: Room, who: Sid -> Uid)
    requires Basic(r, who) && PresentBut(r, {}, {})
    ensures var r' := RebuiltRemote(RebuiltLocal(r, r.members.Keys), r.current.Keys); Basic(r', who) && LocalInv(r')
  {
    var r1 := RebuiltLocal(r, r.members.Keys);
    RebuiltLocalBasic(r, who, r.members.Keys);
    RebuildServes(r, who, r.members.Keys);
    hide Basic, RebuiltLocal;
    RebuiltRemoteBasic(r1, who, r.current.Keys);
    SameMembersServe(r1, RebuiltRemote(r1, r.current.Keys));
  }

  // ---------------------------------------------------------------------------------------------
  // Subscriptions
  // ---------------------------------------------------------------------------------------------

  /** After the marks, only publishers of that user, and only for the audio dimension, are affected. */
  lemma MarkServes(r: Room, who: Sid -> Uid, x: Sid, uid: Uid, mask: Marks, want: bool)
    requires Basic(r, who) && LocalInv(r) && x in r.members
    ensures var r' := WithMember(r, x, Marked(r.members[x], uid, mask, want));
      && Basic(r', who)
      && (forall p, s | p in r'.members && s in r'.members && p != s && r'.members[s].connected &&
            !(s == x && mask.audio && r'.members[p].uid == uid) :: Serves(r', p, s))
      && (!want ==> AllPresent(r'))
  {
    var m := Marked(r.members[x], uid, mask, want);
    var r' := WithMember(r, x, m);
    assert MemberOk(who, x, r.members[x]);
    MarkedKeepsOk(who, x, r.members[x], uid, mask, want);
    MemberBasic(r, who, x, m);
    hide Basic, MemberOk;
    forall p, s | p in r'.members && s in r'.members && p != s && r'.members[s].connected
      ensures !(s == x && mask.audio && r'.members[p].uid == uid) ==> Serves(r', p, s)
      ensures !want ==> Present(p, r'.members[p], r'.members[s])
    {
      assert Serves(r, p, s);
      if !(s == x && mask.audio && r'.members[p].uid == uid) {
        SameServes(r, r', p, s);
      }
      ServesIsPresent(r, p, s);
    }
  }

  lemma AudioResubscribeServes(r: Room, who: Sid -> Uid, x: Sid, uid: Uid, want: bool)
    requires Basic(r, who) && x in r.members && (!want ==> AllPresent(r))
    requires forall p, s | p in r.members && s in r.members && p != s && r.members[s].connected &&
               !(s == x && r.members[p].uid == uid) :: Serves(r, p, s)
    ensures var r' := AudioResubscribed(r, x, uid, want); Basic(r', who) && LocalInv(r') && x in r'.members
  {
    var ps := Others(r.members, x, uid);
    if want {
      LocalTracksServe(r, who, x, ps);
    } else {
      RebuiltLocalBasic(r, who, ps);
      RebuildServes(r, who, ps);
    }
  }

  lemma ResubscribeServes(r: Room, who: Sid -> Uid, x: Sid, uid: Uid, mask: Marks, want: bool)
    requires Basic(r, who) && LocalInv(r) && x in r.members
    ensures Basic(Resubscribed(r, x, uid, mask, want), who) && LocalInv(Resubscribed(r, x, uid, mask, want))
  {
    if !mask.Empty() {
      MarkServes(r, who, x, uid, mask, want);
      var r1 := WithMember(r, x, Marked(r.members[x], uid, mask, want));
      var r2 := if mask.audio then AudioResubscribed(r1, x, uid, want) else r1;
      if mask.audio {
        AudioResubscribeServes(r1, who, x, uid, want);
      }
      assert Basic(r2, who) && LocalInv(r2) && x in r2.members;
      hide Basic, LocalInv, Marked, AudioResubscribed, AllPresent;
      BasicIsWired(r2, who);
      RemoteHalfServes(r2, who, x, KeysOf(r2, uid, mask), want);
    }
  }

  lemma RemoteHalfServes(r: Room, who: Sid -> Uid, x: Sid, keys: set<Key>, want: bool)
    requires Basic(r, who) && LocalInv(r) && x in r.members
    ensures var r' := RebuiltRemote(if want then WithMember(r, x, RemoteTracks(r, r.members[x], keys)) else r, keys);
      Basic(r', who) && LocalInv(r')
  {
    if want {
      RemoteTracksServeAll(r, who, x, keys);
    }
    var r1 := if want then WithMember(r, x, RemoteTracks(r, r.members[x], keys)) else r;
    hide Basic, RemoteTracks;
    RebuiltRemoteBasic(r1, who, keys);
    SameMembersServe(r1, RebuiltRemote(r1, keys));
  }

  // ---------------------------------------------------------------------------------------------
  // Every step, every run
  // ---------------------------------------------------------------------------------------------

  lemma StepServes(r: Room, who: Sid -> Uid, ev: Event)
    requires Basic(r, who) && LocalInv(r) && Enabled(r, who, ev)
    ensures Basic(Next(r, ev), who) && LocalInv(Next(r, ev))
  {
    BasicIsWired(r, who);
    hide Basic, LocalInv, Joined, Connected, TrackStarted, TrackEnded, ScreenEnded, CapsApplied, Resubscribed, Left,
         RemoteAdded, RemoteClosed,
         RebuiltLocal;
    match ev
    case Join(s, uid, caps) => JoinServes(r, who, s, caps);
    case AddRemote(id, key, uid) => AddRemoteServes(r, who, id, key);
    case CloseRemote(id) => CloseRemoteServes(r, who, id);
    case AttachSink(p, n) =>
      if p in r.members {
        SinkServes(r, who, p, r.sinks[p := SinksOf(r, p) + {n}]);
      }
    case DetachSink(p, n) =>
      var rest := SinksOf(r, p) - {n};
      SinkServes(r, who, p, if rest == {} then r.sinks - {p} else r.sinks[p := rest]);
    case Connect(s) => ConnectServes(r, who, s);
    case TrackUp(p) => TrackStartServes(r, who, p);
    case TrackEnd(p) => TrackEndServes(r, who, p);
    case ScreenEnd(p, kind) => ScreenEndServes(r, who, p, kind);
    case ApplyCaps(p, caps) => CapsServe(r, who, p, caps);
    case SetSubscription(s, uid, mask, want) => ResubscribeServes(r, who, s, uid, mask, want);
    case Leave(p) => LeaveServes(r, who, p);
  }

  /** A run: every event applied to the state before it, sessions keeping their users. */
  ghost predicate Run(who: Sid -> Uid, states: seq<Room>, evs: seq<Event>) {
    && |states| == |evs| + 1
    && states[0] == NEW_ROOM
    && forall i | 0 <= i < |evs| ::
         Wired(states[i]) && Enabled(states[i], who, evs[i]) && states[i + 1] == Next(states[i], evs[i])
  }

  lemma {:induction false} RunServes(who: Sid -> Uid, states: seq<Room>, evs: seq<Event>, i: nat)
    requires Run(who, states, evs) && i < |states|
    ensures Basic(states[i], who) && LocalInv(states[i])
  {
    if i > 0 {
      RunServes(who, states, evs, i - 1);
      hide Basic, LocalInv, Next, Enabled;
      StepServes(states[i - 1], who, evs[i - 1]);
    }
  }

  /** In every reachable state a packet of p is written to the down track of another live, connected
      member exactly when p is publishing and ShouldForward says so on current caps and marks. */
  lemma CachedForwardingIsExact(who: Sid -> Uid, states: seq<Room>, evs: seq<Event>, i: nat, p: Sid, s: Sid)
    requires Run(who, states, evs) && i < |states|
    requires p in states[i].members && s in states[i].members && p != s && states[i].members[s].connected
    ensures var pub, sub := states[i].members[p], states[i].members[s];
      Written(states[i], p, s) <==>
        pub.publishing && ShouldForward(pub.caps, sub.caps, Unsubscribed(sub, pub.uid, Audio))
  {
    RunServes(who, states, evs, i);
    assert Serves(states[i], p, s);
  }
}
