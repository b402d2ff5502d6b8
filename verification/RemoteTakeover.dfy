/** Remote publishers that come and go under one key: their down tracks are kept and taken over, and
    the current one reaches exactly the members it should. */
module RemoteTakeover {
  import opened Options
  import opened Tracks
  import opened RoomForwarding
  import opened RoomRuns

  /** A packet handed to the remote publisher registered under k reaches the down track s has of it. */
  predicate RemoteWritten(r: Room, k: Key, s: Sid)
    requires Wired(r) && k in r.current && s in r.members
  {
    var rp, sub := r.remotes[r.current[k]], r.members[s];
    rp.fanout.Some? && k in sub.down && HandleOf(s, sub, k) in rp.fanout.value
  }

  predicate RemoteServes(r: Room, k: Key, s: Sid)
    requires Wired(r) && k in r.current && s in r.members
  {
    RemoteWritten(r, k, s) <==> RemoteShouldForward(r.remotes[r.current[k]], r.members[s])
  }

  /** Where forwarding is due, the down track is there and belongs to the current registration. */
  predicate Owned(id: RemoteId, rp: Remote, sub: Member) {
    RemoteShouldForward(rp, sub) ==> rp.key in sub.down && sub.down[rp.key].owner == Some(id)
  }

  predicate OwnedAt(r: Room, k: Key, s: Sid)
    requires Wired(r) && k in r.current && s in r.members
  {
    Owned(r.current[k], r.remotes[r.current[k]], r.members[s])
  }

  ghost predicate AllOwned(r: Room)
    requires Wired(r)
  {
    forall k, s | k in r.current && s in r.members && r.members[s].connected :: OwnedAt(r, k, s)
  }

  ghost predicate RemoteInv(r: Room)
    requires Wired(r)
  {
    && AllOwned(r)
    && forall k, s | k in r.current && s in r.members && r.members[s].connected :: RemoteServes(r, k, s)
  }

  /** Nothing that decides whether s hears key k of uid has changed. */
  predicate SameFor(m: Member, m': Member, k: Key, uid: Uid) {
    && m'.inst == m.inst && m'.caps.subscribeAudio == m.caps.subscribeAudio && m'.caps.join == m.caps.join
    && Unsubscribed(m', uid, k.kind) == Unsubscribed(m, uid, k.kind)
    && (k in m'.down <==> k in m.down) && (k in m.down ==> m'.down[k] == m.down[k])
  }

  /** The track of k is gone, and whether it is due is as before. */
  predicate Bereft(m: Member, m': Member, k: Key) {
    m'.caps == m.caps && m'.marks == m.marks && k !in m'.down
  }

  /** Registrations and who is connected are as before. */
  predicate SameCast(r: Room, r': Room) {
    && r'.current == r.current && r'.remotes == r.remotes
    && (forall s | s in r'.members && r'.members[s].connected :: s in r.members && r.members[s].connected)
    && (forall s | s in r.members && r.members[s].connected :: s in r'.members && r'.members[s].connected)
  }

  lemma SameRemoteServes(r: Room, r': Room, k: Key, s: Sid)
    requires Wired(r) && Wired(r') && k in r.current && k in r'.current && s in r.members && s in r'.members
    requires r'.current[k] == r.current[k] && r'.remotes[r.current[k]] == r.remotes[r.current[k]]
    requires SameFor(r.members[s], r'.members[s], k, r.remotes[r.current[k]].uid)
    ensures RemoteServes(r', k, s) <==> RemoteServes(r, k, s)
    ensures OwnedAt(r', k, s) <==> OwnedAt(r, k, s)
  {}

  lemma BereftIsUnserved(r: Room, r': Room, k: Key, s: Sid)
    requires Wired(r) && Wired(r') && k in r.current && k in r'.current && s in r.members && s in r'.members
    requires r'.current[k] == r.current[k] && r'.remotes[r.current[k]] == r.remotes[r.current[k]]
    requires Bereft(r.members[s], r'.members[s], k)
    ensures RemoteServes(r', k, s) <==> !RemoteShouldForward(r.remotes[r.current[k]], r.members[s])
    ensures OwnedAt(r', k, s) <==> !RemoteShouldForward(r.remotes[r.current[k]], r.members[s])
  {}

  /** A change that concerns no registered key. */
  lemma UntouchedServes(r: Room, r': Room)
    requires Wired(r) && Wired(r') && SameCast(r, r')
    requires forall k, s | k in r.current && s in r'.members && r'.members[s].connected ::
               SameFor(r.members[s], r'.members[s], k, r.remotes[r.current[k]].uid)
    ensures RemoteInv(r') <==> RemoteInv(r)
    ensures AllOwned(r') <==> AllOwned(r)
  {
    hide RemoteServes, OwnedAt, SameFor;
    forall k, s | k in r'.current && s in r'.members && r'.members[s].connected
      ensures RemoteServes(r', k, s) <==> RemoteServes(r, k, s)
      ensures OwnedAt(r', k, s) <==> OwnedAt(r, k, s)
    {
      SameRemoteServes(r, r', k, s);
    }
  }

  // ---------------------------------------------------------------------------------------------
  // Snapshots taken anew
  // ---------------------------------------------------------------------------------------------

  lemma RemoteListenerInFanout(ms: map<Sid, Member>, id: RemoteId, rp: Remote, s: Sid)
    requires s in ms && rp.key in ms[s].down
    ensures HandleOf(s, ms[s], rp.key) in RemoteFanout(ms, id, rp) <==> RemoteListens(id, rp, ms[s])
  {}

  /** s already has a down track of k, taken over by the publisher registered now. */
  predicate Holds(r: Room, k: Key, s: Sid)
    requires Wired(r) && k in r.current && s in r.members
  {
    k in r.members[s].down && r.members[s].down[k].owner == Some(r.current[k])
  }

  /** A snapshot just taken holds whom the publisher is due to and who holds its track. */
  lemma RebuiltWrites(r: Room, who: Sid -> Uid, keys: set<Key>, k: Key, s: Sid)
    requires Basic(r, who) && Wired(RebuiltRemote(r, keys)) && k in r.current && k in keys && s in r.members
    ensures RemoteWritten(RebuiltRemote(r, keys), k, s) <==>
              RemoteShouldForward(r.remotes[r.current[k]], r.members[s]) && Holds(r, k, s)
  {
    var id := r.current[k];
    assert MemberOk(who, s, r.members[s]) && RemoteOk(who, r, id);
    if k in r.members[s].down {
      RemoteListenerInFanout(r.members, id, r.remotes[id], s);
    }
  }

  lemma RebuiltAt(r: Room, who: Sid -> Uid, keys: set<Key>, k: Key, s: Sid)
    requires Basic(r, who) && Wired(r) && Wired(RebuiltRemote(r, keys)) && k in r.current && s in r.members
    requires k !in keys ==> RemoteServes(r, k, s)
    ensures var r' := RebuiltRemote(r, keys);
      && (OwnedAt(r', k, s) <==> OwnedAt(r, k, s))
      && (OwnedAt(r, k, s) ==> RemoteServes(r', k, s))
  {
    if k in keys {
      RebuiltWrites(r, who, keys, k, s);
    } else {
      SameRemoteServes(r, RebuiltRemote(r, keys), k, s);
    }
  }

  /** Rebuilding the snapshots of the keys in question, all others being served already, serves
      everybody exactly if everybody holds what is due. */
  lemma RebuildServesRemotes(r: Room, who: Sid -> Uid, keys: set<Key>)
    requires Basic(r, who) && Wired(r)
    requires forall k, s | k in r.current && k !in keys && s in r.members && r.members[s].connected ::
               RemoteServes(r, k, s)
    ensures var r' := RebuiltRemote(r, keys); Wired(r') && (RemoteInv(r') <==> AllOwned(r))
  {
    RebuiltRemoteBasic(r, who, keys);
    var r' := RebuiltRemote(r, keys);
    BasicIsWired(r', who);
    hide RebuiltRemote, Basic, RemoteServes, OwnedAt, Wired;
    forall k, s | k in r'.current && s in r'.members && r'.members[s].connected
      ensures OwnedAt(r', k, s) <==> OwnedAt(r, k, s)
      ensures OwnedAt(r, k, s) ==> RemoteServes(r', k, s)
    {
      RebuiltAt(r, who, keys, k, s);
    }
  }

  lemma RebuildAllServesRemotes(r: Room, who: Sid -> Uid)
    requires Basic(r, who) && Wired(r)
    ensures var r' := RebuiltRemote(RebuiltLocal(r, r.members.Keys), r.current.Keys);
      Wired(r') && (RemoteInv(r') <==> AllOwned(r))
  {
    var r1 := RebuiltLocal(r, r.members.Keys);
    RebuiltLocalBasic(r, who, r.members.Keys);
    assert Wired(r1);
    UntouchedServes(r, r1);
    hide Basic, RebuiltLocal, Wired, AllOwned;
    RebuildServesRemotes(r1, who, r.current.Keys);
  }

  // ---------------------------------------------------------------------------------------------
  // Members' tracks
  // ---------------------------------------------------------------------------------------------

  lemma RemoteTracksAt(r: Room, m: Member, keys: set<Key>, k: Key)
    requires Wired(r) && k in r.current
    ensures var m' := RemoteTracks(r, m, keys);
      if k in keys then Owned(r.current[k], r.remotes[r.current[k]], m')
      else SameFor(m, m', k, r.remotes[r.current[k]].uid)
  {}

  lemma EnsureRemoteAt(id: RemoteId, rp: Remote, m: Member)
    requires !rp.closed
    ensures Owned(id, rp, EnsureRemote(id, rp, m))
    ensures forall k, uid | k != rp.key :: SameFor(m, EnsureRemote(id, rp, m), k, uid)
  {}

  /** A local publisher that s wants is one whose remote copy is due to s, and whose track s holds
      already: attaching the local one changes nothing about any registered key. */
  lemma EnsureLocalAt(who: Sid -> Uid, p: Sid, pub: Member, m: Member, k: Key, id: RemoteId, rp: Remote)
    requires pub.uid == who(p) && rp.key == k && rp.uid == who(k.sid) && Owned(id, rp, m)
    ensures SameFor(m, EnsureLocal(p, pub, m), k, rp.uid)
  {}

  /** Member x takes over the tracks of the given keys; everyone else has theirs. */
  lemma TakeOver(r: Room, who: Sid -> Uid, x: Sid, keys: set<Key>)
    requires Basic(r, who) && Wired(r) && x in r.members
    requires forall k, s | k in r.current && s in r.members && r.members[s].connected && !(s == x && k in keys) ::
               OwnedAt(r, k, s)
    ensures var r' := WithMember(r, x, RemoteTracks(r, r.members[x], keys));
      Basic(r', who) && Wired(r') && AllOwned(r')
  {
    var m := RemoteTracks(r, r.members[x], keys);
    var r' := WithMember(r, x, m);
    assert MemberOk(who, x, r.members[x]);
    RemoteTracksKeepsOk(who, r, x, r.members[x], keys);
    MemberBasic(r, who, x, m);
    hide Basic, MemberOk;
    forall k, s | k in r'.current && s in r'.members && r'.members[s].connected ensures OwnedAt(r', k, s) {
      if s == x {
        RemoteTracksAt(r, r.members[x], keys, k);
        if k !in keys {
          SameRemoteServes(r, r', k, s);
        }
      } else {
        assert OwnedAt(r, k, s);
      }
    }
  }

  lemma TakeOverServes(r: Room, who: Sid -> Uid, x: Sid, keys: set<Key>)
    requires Basic(r, who) && Wired(r) && x in r.members
    requires forall k, s | k in r.current && s in r.members && r.members[s].connected && !(s == x && k in keys) ::
               OwnedAt(r, k, s)
    requires forall k, s | k in r.current && s in r.members && r.members[s].connected && k !in keys ::
               RemoteServes(r, k, s)
    ensures var r' := RebuiltRemote(WithMember(r, x, RemoteTracks(r, r.members[x], keys)), keys);
              Wired(r') && RemoteInv(r')
  {
    var r1 := WithMember(r, x, RemoteTracks(r, r.members[x], keys));
    TakeOver(r, who, x, keys);
    assert r1.members[x].connected == r.members[x].connected;
    hide RemoteTracks, Basic, OwnedAt;
    forall k, s | k in r1.current && k !in keys && s in r1.members && r1.members[s].connected
      ensures RemoteServes(r1, k, s)
    {
      assert RemoteServes(r, k, s);
      RemoteTracksAt(r, r.members[x], keys, k);
      SameRemoteServes(r, r1, k, s);
    }
    hide RemoteServes;
    RebuildServesRemotes(r1, who, keys);
  }

  // ---------------------------------------------------------------------------------------------
  // Operations that take nothing away
  // ---------------------------------------------------------------------------------------------

  /** The local half of attaching to x: only x's tracks and snapshots change. */
  lemma LocalHalfAt(r: Room, x: Sid, ps: set<Sid>, s: Sid)
    requires x in r.members && s in r.members
    ensures var r1 := RebuiltLocal(WithMember(r, x, LocalTracks(r.members, x, ps)), ps);
      && r1.current == r.current && r1.remotes == r.remotes && r1.members.Keys == r.members.Keys
      && r1.members[s].connected == r.members[s].connected && r1.members[s].marks == r.members[s].marks
      && r1.members[s].caps == r.members[s].caps && r1.members[s].inst == r.members[s].inst
      && (s != x ==> r1.members[s].down == r.members[s].down)
      && forall k | k !in Offered(r.members, x, ps) ::
           (k in r1.members[s].down <==> k in r.members[s].down)
           && (k in r.members[s].down ==> r1.members[s].down[k] == r.members[s].down[k])
  {
    hide Fanout, Offered;
  }

  lemma LocalHalfBasic(r: Room, who: Sid -> Uid, x: Sid, ps: set<Sid>)
    requires Basic(r, who) && Wired(r) && x in r.members
    ensures var r1 := RebuiltLocal(WithMember(r, x, LocalTracks(r.members, x, ps)), ps); Basic(r1, who) && Wired(r1)
  {
    var m := LocalTracks(r.members, x, ps);
    assert forall s | s in r.members :: MemberOk(who, s, r.members[s]);
    hide MemberOk;
    LocalTracksKeepsOk(who, r.members, x, ps);
    hide LocalTracks, RebuiltLocal;
    MemberBasic(r, who, x, m);
    RebuiltLocalBasic(WithMember(r, x, m), who, ps);
  }

  lemma AttachPublishersServesRemotes(r: Room, who: Sid -> Uid, x: Sid)
    requires Basic(r, who) && Wired(r) && x in r.members
    requires forall k, s | k in r.current && s in r.members && r.members[s].connected && s != x :: OwnedAt(r, k, s)
    ensures var r' := AttachedPublishers(r, x); Wired(r') && RemoteInv(r')
  {
    var ps := Publishers(r.members, x);
    var r1 := RebuiltLocal(WithMember(r, x, LocalTracks(r.members, x, ps)), ps);
    hide LocalTracks, RebuiltLocal, Basic, OwnedAt, RemoteTracks;
    LocalHalfBasic(r, who, x, ps);
    LocalHalfAt(r, x, ps, x);
    forall k, s | k in r1.current && s in r1.members && r1.members[s].connected && s != x ensures OwnedAt(r1, k, s) {
      LocalHalfAt(r, x, ps, s);
      SameRemoteServes(r, r1, k, s);
    }
    TakeOverServes(r1, who, x, r1.current.Keys);
  }

  lemma ConnectServesRemotes(r: Room, who: Sid -> Uid, x: Sid)
    requires Basic(r, who) && Wired(r) && RemoteInv(r) && x in r.members
    ensures var r' := Connected(r, x); Wired(r') && RemoteInv(r')
  {
    hide AttachedPublishers;
    if !r.members[x].connected {
      var m := r.members[x].(connected := true);
      var r1 := WithMember(r, x, m);
      assert MemberOk(who, x, r.members[x]);
      assert MemberOk(who, x, m);
      MemberBasic(r, who, x, m);
      hide Basic, MemberOk;
      forall k, s | k in r1.current && s in r1.members && r1.members[s].connected && s != x ensures OwnedAt(r1, k, s) {
        assert OwnedAt(r, k, s);
      }
      AttachPublishersServesRemotes(r1, who, x);
    }
  }

  lemma AttachedAt(r: Room, p: Sid, s: Sid)
    requires p in r.members && s in r.members
    ensures var r' := AttachedSubscribers(r, p);
      && r'.current == r.current && r'.remotes == r.remotes && r'.members.Keys == r.members.Keys
      && r'.members[s] == if s == p then r.members[s].(fanout := r'.members[s].fanout)
                          else EnsureLocal(p, r.members[p], r.members[s])
  {
    hide EnsureLocal, Fanout;
  }

  /** One registered key and one member, when p's subscribers are attached. */
  lemma AttachedSame(r: Room, who: Sid -> Uid, p: Sid, k: Key, s: Sid)
    requires Basic(r, who) && Wired(r) && p in r.members && s in r.members && k in r.current
    requires s != p ==> OwnedAt(r, k, s)
    ensures var r' := AttachedSubscribers(r, p);
      && r'.current == r.current && r'.remotes == r.remotes && r'.members.Keys == r.members.Keys
      && r'.members[s].connected == r.members[s].connected && r'.members[s].caps == r.members[s].caps
      && SameFor(r.members[s], r'.members[s], k, r.remotes[r.current[k]].uid)
  {
    hide AttachedSubscribers;
    AttachedAt(r, p, s);
    assert MemberOk(who, p, r.members[p]) && RemoteOk(who, r, r.current[k]);
    hide Basic, MemberOk;
    if s != p {
      EnsureLocalAt(who, p, r.members[p], r.members[s], k, r.current[k], r.remotes[r.current[k]]);
    }
  }

  lemma AttachSubscribersServesRemotes(r: Room, who: Sid -> Uid, p: Sid)
    requires Basic(r, who) && Wired(r) && RemoteInv(r) && p in r.members
    ensures var r' := AttachedSubscribers(r, p); Wired(r') && RemoteInv(r')
  {
    var r' := AttachedSubscribers(r, p);
    hide AttachedSubscribers, EnsureLocal, Basic, SameFor, OwnedAt, RemoteServes;
    AttachedAt(r, p, p);
    forall s | s in r.members ensures r'.members[s].connected == r.members[s].connected {
      AttachedAt(r, p, s);
      EnsureKeepsConnected(p, r.members[p], r.members[s]);
    }
    forall k, s | k in r.current && s in r'.members && r'.members[s].connected
      ensures SameFor(r.members[s], r'.members[s], k, r.remotes[r.current[k]].uid)
    {
      assert OwnedAt(r, k, s);
      AttachedSame(r, who, p, k, s);
    }
    UntouchedServes(r, r');
  }

  lemma EnsureKeepsConnected(p: Sid, pub: Member, m: Member)
    ensures EnsureLocal(p, pub, m).connected == m.connected
  {}

  lemma SwitchServesRemotes(r: Room, who: Sid -> Uid, p: Sid, publishing: bool)
    requires Basic(r, who) && Wired(r) && RemoteInv(r) && p in r.members
    ensures var r' := WithMember(r, p, r.members[p].(publishing := publishing));
      Basic(r', who) && Wired(r') && RemoteInv(r')
  {
    var m := r.members[p].(publishing := publishing);
    assert MemberOk(who, p, r.members[p]);
    assert MemberOk(who, p, m);
    MemberBasic(r, who, p, m);
    hide Basic, MemberOk;
    UntouchedServes(r, WithMember(r, p, m));
  }

  lemma TrackStartServesRemotes(r: Room, who: Sid -> Uid, p: Sid)
    requires Basic(r, who) && Wired(r) && RemoteInv(r) && p in r.members
    ensures var r' := TrackStarted(r, p); Wired(r') && RemoteInv(r')
  {
    hide AttachedSubscribers, RemoteInv, Basic;
    if !r.members[p].publishing {
      SwitchServesRemotes(r, who, p, true);
      AttachSubscribersServesRemotes(WithMember(r, p, r.members[p].(publishing := true)), who, p);
    }
  }

  lemma SinkServesRemotes(r: Room, p: Sid, sinks: map<Sid, set<nat>>)
    requires Wired(r) && RemoteInv(r)
    ensures var r' := RebuiltLocal(r.(sinks := sinks), {p}); Wired(r') && RemoteInv(r')
  {
    hide Fanout;
    UntouchedServes(r, RebuiltLocal(r.(sinks := sinks), {p}));
  }

  lemma AddServesRemotes(r: Room, who: Sid -> Uid, id: RemoteId, key: Key)
    requires Basic(r, who) && Wired(r) && RemoteInv(r) && id !in r.remotes
    ensures var r' := RemoteAdded(r, id, key, who(key.sid)); Wired(r') && RemoteInv(r')
  {
    if key !in r.current {
      var rp := Remote(key, who(key.sid), false, None);
      var r1 := r.(remotes := r.remotes[id := rp], current := r.current[key := id],
                   members := map s | s in r.members :: EnsureRemote(id, rp, r.members[s]));
      AddedBasic(r, who, id, rp, r1);
      AddedAll(r, r1, id, rp);
      hide Basic, RemoteInv, Wired, AllOwned, RemoteServes;
      RebuildServesRemotes(r1, who, {key});
    }
  }

  lemma AddedAll(r: Room, r1: Room, id: RemoteId, rp: Remote)
    requires Wired(r) && Wired(r1) && RemoteInv(r) && !rp.closed && id !in r.remotes && rp.key !in r.current
    requires r1.remotes == r.remotes[id := rp] && r1.current == r.current[rp.key := id]
    requires r1.members.Keys == r.members.Keys
    requires forall s | s in r.members :: r1.members[s] == EnsureRemote(id, rp, r.members[s])
    ensures AllOwned(r1)
    ensures forall k, s | k in r1.current && k !in {rp.key} && s in r1.members && r1.members[s].connected ::
              RemoteServes(r1, k, s)
  {
    hide RemoteInv, EnsureRemote, OwnedAt, RemoteServes;
    forall k, s | k in r1.current && s in r1.members && r1.members[s].connected
      ensures OwnedAt(r1, k, s) && (k != rp.key ==> RemoteServes(r1, k, s))
    {
      AddedAt(r, r1, id, rp, k, s);
    }
  }

  lemma AddedBasic(r: Room, who: Sid -> Uid, id: RemoteId, rp: Remote, r1: Room)
    requires Basic(r, who) && id !in r.remotes && rp.key !in r.current
    requires rp.uid == who(rp.key.sid) && !rp.closed && rp.fanout == None
    requires r1 == r.(remotes := r.remotes[id := rp], current := r.current[rp.key := id],
                      members := map s | s in r.members :: EnsureRemote(id, rp, r.members[s]))
    ensures Basic(r1, who) && Wired(r1)
  {
    forall s | s in r1.members ensures MemberOk(who, s, r1.members[s]) {
      assert MemberOk(who, s, r.members[s]);
      hide MemberOk, EnsureRemote;
      EnsureRemoteKeepsOk(who, id, rp, s, r.members[s]);
    }
    hide MemberOk, EnsureRemote;
    AddedRemoteOk(r, who, id, rp, r1);
  }

  lemma AddedAt(r: Room, r1: Room, id: RemoteId, rp: Remote, k: Key, s: Sid)
    requires Wired(r) && Wired(r1) && RemoteInv(r) && !rp.closed && id !in r.remotes && rp.key !in r.current
    requires r1.remotes == r.remotes[id := rp] && r1.current == r.current[rp.key := id]
    requires k in r1.current && s in r.members && s in r1.members
    requires r1.members[s] == EnsureRemote(id, rp, r.members[s]) && r1.members[s].connected
    ensures OwnedAt(r1, k, s) && (k != rp.key ==> RemoteServes(r1, k, s))
  {
    EnsureRemoteAt(id, rp, r.members[s]);
    assert r.members[s].connected;
    hide EnsureRemote;
    if k != rp.key {
      assert RemoteServes(r, k, s) && OwnedAt(r, k, s);
      SameRemoteServes(r, r1, k, s);
    }
  }

  lemma CloseServesRemotes(r: Room, who: Sid -> Uid, id: RemoteId)
    requires Basic(r, who) && Wired(r) && RemoteInv(r) && id in r.remotes
    ensures var r' := RemoteClosed(r, id); Wired(r') && RemoteInv(r')
  {
    var r' := RemoteClosed(r, id);
    assert RemoteOk(who, r, id);
    hide Basic;
    assert Wired(r');
    forall k, s | k in r'.current && s in r'.members && r'.members[s].connected
      ensures RemoteServes(r', k, s) && OwnedAt(r', k, s)
    {
      assert RemoteServes(r, k, s) && OwnedAt(r, k, s);
      SameRemoteServes(r, r', k, s);
    }
  }

  // ---------------------------------------------------------------------------------------------
  // Operations that take tracks away, whoever owns them
  // ---------------------------------------------------------------------------------------------

  /** Nobody connected, p apart, is due the remote publisher registered under k, if there is one. */
  predicate Spared(r: Room, p: Sid, k: Key)
    requires Wired(r)
  {
    k in r.current ==>
      forall s | s in r.members && s != p && r.members[s].connected ::
        !RemoteShouldForward(r.remotes[r.current[k]], r.members[s])
  }

  /** The same for every key of p's session. */
  predicate SparedAll(r: Room, p: Sid)
    requires Wired(r)
  {
    forall k | k in r.current && k.sid == p :: Spared(r, p, k)
  }

  /** Everybody but p loses the track of key, and nothing else changes for a registered key. */
  predicate Drops(r: Room, r': Room, p: Sid, key: Key)
    requires Wired(r)
  {
    && SameCast(r, r') && r'.members.Keys == r.members.Keys
    && forall k, s | k in r.current && s in r.members ::
         if s != p && k == key then Bereft(r.members[s], r'.members[s], k)
         else SameFor(r.members[s], r'.members[s], k, r.remotes[r.current[k]].uid)
  }

  lemma DropServesExactly(r: Room, r': Room, p: Sid, key: Key)
    requires Wired(r) && Wired(r') && RemoteInv(r) && Drops(r, r', p, key)
    ensures RemoteInv(r') <==> Spared(r, p, key)
  {
    hide RemoteServes, OwnedAt, RemoteShouldForward, SameFor, Bereft;
    forall k, s | k in r'.current && s in r'.members && r'.members[s].connected
      ensures var lost := s != p && k == key && RemoteShouldForward(r.remotes[r.current[k]], r.members[s]);
        (OwnedAt(r', k, s) <==> !lost) && (RemoteServes(r', k, s) <==> !lost)
    {
      if s != p && k == key {
        BereftIsUnserved(r, r', k, s);
      } else {
        assert OwnedAt(r, k, s) && RemoteServes(r, k, s);
        SameRemoteServes(r, r', k, s);
      }
    }
    if s :| key in r.current && s in r.members && s != p && r.members[s].connected
            && RemoteShouldForward(r.remotes[r.current[key]], r.members[s]) {
      assert !OwnedAt(r', key, s);
    }
  }

  lemma WithoutAt(m: Member, key: Key, k: Key, uid: Uid)
    ensures Bereft(m, Without(m, key), key) && Without(m, key).connected == m.connected
    ensures k != key ==> SameFor(m, Without(m, key), k, uid)
  {}

  lemma RemovalDrops(r: Room, r': Room, p: Sid, key: Key)
    requires Wired(r) && Wired(r') && p in r.members && r'.current == r.current && r'.remotes == r.remotes
    requires r'.members.Keys == r.members.Keys
    requires forall s | s in r.members ::
               r'.members[s] == if s == p then r.members[s].(fanout := r'.members[s].fanout)
                   else Without(r.members[s], key)
    ensures Drops(r, r', p, key)
  {
    hide Without, Bereft;
    forall s | s in r.members ensures r'.members[s].connected == r.members[s].connected {
      WithoutAt(r.members[s], key, key, "");
    }
    forall k, s | k in r.current && s in r.members
      ensures if s != p && k == key then Bereft(r.members[s], r'.members[s], k)
              else SameFor(r.members[s], r'.members[s], k, r.remotes[r.current[k]].uid)
    {
      WithoutAt(r.members[s], key, k, r.remotes[r.current[k]].uid);
    }
  }

  /** A screen's end keeps remote service if and only if no remote copy under its key is due. */
  lemma ScreenEndServesExactly(r: Room, p: Sid, kind: Kind)
    requires Wired(r) && RemoteInv(r) && p in r.members
    ensures var r' := ScreenEnded(r, p, kind); Wired(r') && (RemoteInv(r') <==> Spared(r, p, Key(p, kind)))
  {
    hide Without, RemoteInv, Spared, Drops;
    RemovalDrops(r, ScreenEnded(r, p, kind), p, Key(p, kind));
    DropServesExactly(r, ScreenEnded(r, p, kind), p, Key(p, kind));
  }

  lemma SwitchSpares(r: Room, p: Sid, publishing: bool, k: Key)
    requires Wired(r) && p in r.members
    ensures var r' := WithMember(r, p, r.members[p].(publishing := publishing));
      Wired(r') && (Spared(r', p, k) <==> Spared(r, p, k))
  {
    var r' := WithMember(r, p, r.members[p].(publishing := publishing));
    assert forall s | s in r.members && s != p :: r'.members[s] == r.members[s];
  }

  lemma TrackEndServesExactly(r: Room, who: Sid -> Uid, p: Sid)
    requires Basic(r, who) && Wired(r) && RemoteInv(r) && p in r.members
    ensures var r', m := TrackEnded(r, p), r.members[p];
      Wired(r') && (RemoteInv(r') <==> (m.publishing && m.caps.publishAudio ==> Spared(r, p, AudioKey(p))))
  {
    hide Without, RemoteInv, Basic, Spared, Drops;
    if r.members[p].publishing {
      SwitchServesRemotes(r, who, p, false);
      var r1 := WithMember(r, p, r.members[p].(publishing := false));
      if r.members[p].caps.publishAudio {
        RemovalDrops(r1, Detached(r1, p), p, AudioKey(p));
        DropServesExactly(r1, Detached(r1, p), p, AudioKey(p));
        SwitchSpares(r, p, false, AudioKey(p));
      }
    }
  }

  lemma PurgedAt(m: Member, p: Sid, k: Key, uid: Uid)
    ensures Purged(m, p).connected == m.connected
    ensures if k.sid == p then Bereft(m, Purged(m, p), k) else SameFor(m, Purged(m, p), k, uid)
  {}

  lemma PurgeOwns(r: Room, r': Room, p: Sid)
    requires Wired(r) && Wired(r') && AllOwned(r) && r'.current == r.current && r'.remotes == r.remotes
    requires r'.members == map s | s in r.members && s != p :: Purged(r.members[s], p)
    ensures AllOwned(r') <==> SparedAll(r, p)
  {
    hide Purged, OwnedAt, RemoteShouldForward, SameFor, Bereft;
    forall k, s | k in r'.current && s in r'.members
      ensures r'.members[s].connected == r.members[s].connected
      ensures r.members[s].connected ==>
                (OwnedAt(r', k, s) <==> !(k.sid == p && RemoteShouldForward(r.remotes[r.current[k]], r.members[s])))
    {
      PurgedAt(r.members[s], p, k, r.remotes[r.current[k]].uid);
      if r.members[s].connected {
        assert OwnedAt(r, k, s);
        if k.sid == p {
          BereftIsUnserved(r, r', k, s);
        } else {
          SameRemoteServes(r, r', k, s);
        }
      }
    }
    if !SparedAll(r, p) {
      var k :| k in r.current && k.sid == p && !Spared(r, p, k);
      var s :| s in r.members && s != p && r.members[s].connected
               && RemoteShouldForward(r.remotes[r.current[k]], r.members[s]);
      assert s in r'.members && !OwnedAt(r', k, s);
    }
  }

  /** A leave keeps remote service if and only if nobody else is due a key registered for that session. */
  lemma LeaveServesExactly(r: Room, who: Sid -> Uid, x: Sid)
    requires Basic(r, who) && Wired(r) && RemoteInv(r) && x in r.members
    ensures var r' := Left(r, x); Wired(r') && (RemoteInv(r') <==> SparedAll(r, x))
  {
    var r1 := r.(members := map s | s in r.members && s != x :: Purged(r.members[s], x));
    forall s | s in r1.members ensures MemberOk(who, s, r1.members[s]) {
      assert MemberOk(who, s, r.members[s]);
      FewerKeepOk(who, s, r.members[s], x, AudioKey(x));
    }
    SameRemotesBasic(r, who, r1);
    assert Wired(r1);
    hide MemberOk, Basic, OwnedAt, RemoteServes, Purged, SparedAll, Wired;
    PurgeOwns(r, r1, x);
    hide AllOwned;
    RebuildServesRemotes(r1, who, r1.current.Keys);
  }

  lemma EnterServesRemotes(r: Room, r': Room, x: Sid, m: Member)
    requires Wired(r) && x !in r.members && !m.connected
    requires r'.remotes == r.remotes && r'.current == r.current && r'.members == r.members[x := m]
    ensures Wired(r') && (RemoteInv(r') <==> RemoteInv(r))
  {
    UntouchedServes(r, r');
  }

  lemma JoinServesExactly(r: Room, who: Sid -> Uid, x: Sid, caps: Caps)
    requires Basic(r, who) && Wired(r) && RemoteInv(r)
    ensures var r' := Joined(r, x, who(x), caps);
      Wired(r') && (RemoteInv(r') <==> (x in r.members ==> SparedAll(r, x)))
  {
    hide Left, RemoteInv, Basic, Wired, SparedAll;
    if x in r.members {
      LeaveServesExactly(r, who, x);
      LeftIsGone(r, x);
    }
    var r1 := if x in r.members then Left(r, x) else r;
    EnterServesRemotes(r1, Joined(r, x, who(x), caps), x, NewMember(r1.nextInst, who(x), caps));
  }

  // ---------------------------------------------------------------------------------------------
  // Caps
  // ---------------------------------------------------------------------------------------------

  predicate GainsAudio(was: Caps, caps: Caps) {
    caps.subscribeAudio && !was.subscribeAudio
  }

  /** The update takes publish_audio from x while x publishes. */
  predicate Silences(m: Member, caps: Caps) {
    m.publishing && m.caps.publishAudio && !caps.publishAudio
  }

  /** Giving x these caps leaves x with all that it is due. Join is the right that screens are received
      by, and gaining it alone attaches nothing: x must hold every screen it is then due, unless the
      same update gains subscribe_audio, which attaches all that is registered. */
  predicate Grantable(r: Room, x: Sid, caps: Caps)
    requires Wired(r) && x in r.members
  {
    var m := r.members[x];
    m.connected && caps.join && !m.caps.join && !GainsAudio(m.caps, caps) ==>
      forall k | k in r.current && k.kind != Audio && !Unsubscribed(m, r.remotes[r.current[k]].uid, k.kind) ::
        Holds(r, k, x)
  }

  lemma PublishRightFrame(r: Room, x: Sid, was: Caps)
    requires x in r.members
    ensures var r' := PublishRight(r, x, was);
      && r'.current == r.current && r'.remotes == r.remotes && r'.members.Keys == r.members.Keys
      && r'.members[x] == r.members[x].(fanout := r'.members[x].fanout)
  {
    hide EnsureLocal, Without, Fanout;
  }

  /** One registered key and one member in the publishing half: silencing x takes AudioKey(x) from
      everybody else, and nothing else happens to a registered key. */
  lemma PublishRightAt(r: Room, who: Sid -> Uid, x: Sid, was: Caps, k: Key, s: Sid)
    requires Basic(r, who) && Wired(r) && x in r.members && s in r.members && k in r.current
    requires s != x ==> OwnedAt(r, k, s)
    ensures var r', m := PublishRight(r, x, was), r.members[x];
      && r'.current == r.current && r'.remotes == r.remotes && r'.members.Keys == r.members.Keys
      && r'.members[s].connected == r.members[s].connected
      && if s != x && k == AudioKey(x) && m.publishing && was.publishAudio && !m.caps.publishAudio
         then Bereft(r.members[s], r'.members[s], k)
         else SameFor(r.members[s], r'.members[s], k, r.remotes[r.current[k]].uid)
  {
    hide AttachedSubscribers, Without, Basic, OwnedAt;
    AttachedSame(r, who, x, k, s);
    WithoutAt(r.members[s], AudioKey(x), k, r.remotes[r.current[k]].uid);
    PublishRightFrame(r, x, was);
  }

  lemma PublishRightBasic(r: Room, who: Sid -> Uid, x: Sid, was: Caps)
    requires Basic(r, who) && x in r.members
    ensures Basic(PublishRight(r, x, was), who) && Wired(PublishRight(r, x, was))
  {
    var r' := PublishRight(r, x, was);
    forall s | s in r'.members ensures MemberOk(who, s, r'.members[s]) {
      assert MemberOk(who, s, r.members[s]) && MemberOk(who, x, r.members[x]);
      PublishRightMember(r, who, x, was, s);
    }
    assert r'.remotes == r.remotes && r'.current == r.current;
    hide PublishRight, MemberOk;
    SameRemotesBasic(r, who, r');
  }

  lemma PublishRightMember(r: Room, who: Sid -> Uid, x: Sid, was: Caps, s: Sid)
    requires x in r.members && s in PublishRight(r, x, was).members
    requires s in r.members && MemberOk(who, s, r.members[s]) && MemberOk(who, x, r.members[x])
    ensures MemberOk(who, s, PublishRight(r, x, was).members[s])
  {
    EnsureLocalKeepsOk(who, x, r.members[x], s, r.members[s]);
    FewerKeepOk(who, s, r.members[s], x, AudioKey(x));
    FlagsKeepOk(who, s, r.members[s], PublishRight(r, x, was).members[s].fanout);
    hide MemberOk, EnsureLocal, Without, Fanout;
  }

  lemma FlagsKeepOk(who: Sid -> Uid, s: Sid, m: Member, fanout: Option<set<Handle>>)
    requires MemberOk(who, s, m)
    ensures MemberOk(who, s, m.(fanout := fanout))
  {}

  /** The room after both halves of a caps update, before every snapshot is taken anew. */
  function CapsHalves(r: Room, x: Sid, caps: Caps): Room
    requires Wired(r) && x in r.members
  {
    SubscribeRight(PublishRight(CapsSet(r, x, caps), x, r.members[x].caps), x, r.members[x].caps)
  }

  lemma CapsHalvesBasic(r: Room, who: Sid -> Uid, x: Sid, caps: Caps)
    requires Basic(r, who) && LocalInv(r) && x in r.members
    ensures var r' := CapsHalves(r, x, caps); Basic(r', who) && r'.members.Keys == r.members.Keys
  {
    hide PublishRight, SubscribeRight, Basic, PresentBut, LocalInv;
    var was := r.members[x].caps;
    CapsSetPresent(r, who, x, caps);
    var r0 := CapsSet(r, x, caps);
    PublishRightPresent(r0, who, x, was, if GainsAudio(was, caps) then {x} else {});
    PublishRightFrame(r0, x, was);
    var r1 := PublishRight(r0, x, was);
    SubscribeRightPresent(r1, who, x, was);
    BasicIsWired(r1, who);
    SubscribeRightFrame(r1, x, was, x);
  }

  /** The subscribing half is about x's tracks and everybody's snapshots only. */
  lemma SubscribeRightFrame(r: Room, x: Sid, was: Caps, s: Sid)
    requires Wired(r) && x in r.members && s in r.members
    ensures var r' := SubscribeRight(r, x, was);
      && Wired(r') && r'.current == r.current && r'.members.Keys == r.members.Keys
      && (forall k | k in r.current :: r'.remotes[r.current[k]].uid == r.remotes[r.current[k]].uid)
      && r'.members[s].connected == r.members[s].connected && r'.members[s].marks == r.members[s].marks
      && r'.members[s].caps == r.members[s].caps
      && (s != x ==> r'.members[s].down == r.members[s].down)
  {
    hide AttachedPublishers;
    AttachedFrame(r, x, s);
  }

  lemma AttachedFrame(r: Room, x: Sid, s: Sid)
    requires Wired(r) && x in r.members && s in r.members
    ensures var r' := AttachedPublishers(r, x);
      && Wired(r') && r'.current == r.current && r'.members.Keys == r.members.Keys
      && (forall k | k in r.current :: r'.remotes[r.current[k]].uid == r.remotes[r.current[k]].uid)
      && r'.members[s].connected == r.members[s].connected && r'.members[s].marks == r.members[s].marks
      && r'.members[s].caps == r.members[s].caps
      && (s != x ==> r'.members[s].down == r.members[s].down)
  {
    var ps := Publishers(r.members, x);
    var r1 := RebuiltLocal(WithMember(r, x, LocalTracks(r.members, x, ps)), ps);
    LocalHalfAt(r, x, ps, s);
    hide LocalTracks, RebuiltLocal, RemoteFanout, Granted, EnsureRemote;
  }

  /** What x is due and what it holds of k once the subscribing half is through. */
  lemma SubscribeRightAt(r: Room, x: Sid, was: Caps, k: Key)
    requires Wired(r) && x in r.members && k in r.current
    ensures var r', m := SubscribeRight(r, x, was), r.members[x];
      && Wired(r') && r'.current == r.current && x in r'.members && r'.members[x].connected == m.connected
      && (RemoteShouldForward(r'.remotes[r'.current[k]], r'.members[x]) <==>
            RemoteShouldForward(r.remotes[r.current[k]], m))
      && (RemoteShouldForward(r.remotes[r.current[k]], m) ==>
            (Holds(r', k, x) <==> GainsAudio(was, m.caps) || Holds(r, k, x)))
  {
    SubscribeRightFrame(r, x, was, x);
    if GainsAudio(was, r.members[x].caps) && RemoteShouldForward(r.remotes[r.current[k]], r.members[x]) {
      AttachedHolds(r, x, k);
    }
    hide AttachedPublishers;
  }

  lemma AttachedHolds(r: Room, x: Sid, k: Key)
    requires Wired(r) && x in r.members && k in r.current
    requires RemoteShouldForward(r.remotes[r.current[k]], r.members[x])
    ensures var r' := AttachedPublishers(r, x);
      Wired(r') && k in r'.current && x in r'.members && Holds(r', k, x)
  {
    AttachedFrame(r, x, x);
    var ps := Publishers(r.members, x);
    var r1 := RebuiltLocal(WithMember(r, x, LocalTracks(r.members, x, ps)), ps);
    LocalHalfAt(r, x, ps, x);
    hide LocalTracks, RebuiltLocal;
    RemoteTracksAt(r1, r1.members[x], r1.current.Keys, k);
    hide RemoteTracks, RemoteFanout;
  }

  lemma CapsHalvesAt(r: Room, x: Sid, caps: Caps, k: Key)
    requires Wired(r) && x in r.members && k in r.current
    ensures var r', rp, m := CapsHalves(r, x, caps), r.remotes[r.current[k]], r.members[x];
      && Wired(r') && r'.current == r.current && x in r'.members && r'.members[x].connected == m.connected
      && (RemoteShouldForward(r'.remotes[r'.current[k]], r'.members[x]) <==> RemoteShouldForward(rp, m.(caps := caps)))
      && (RemoteShouldForward(rp, m.(caps := caps)) ==>
            (Holds(r', k, x) <==> GainsAudio(m.caps, caps) || Holds(r, k, x)))
  {
    hide PublishRight, SubscribeRight;
    var m := r.members[x];
    var r0 := CapsSet(r, x, caps);
    PublishRightFrame(r0, x, m.caps);
    var r1 := PublishRight(r0, x, m.caps);
    SubscribeRightAt(r1, x, m.caps, k);
  }

  /** Exactly what a caps update serves: x gets the packets of a registered publisher when it is due
      them and either gained subscribe_audio just now or already held the track. */
  lemma CapsServeExactly(r: Room, who: Sid -> Uid, x: Sid, caps: Caps, k: Key)
    requires Basic(r, who) && Wired(r) && LocalInv(r) && x in r.members && k in r.current
    ensures var r', rp, m := CapsApplied(r, x, caps), r.remotes[r.current[k]], r.members[x];
      && Wired(r') && r'.current == r.current && x in r'.members && r'.members[x].connected == m.connected
      && (RemoteShouldForward(r'.remotes[r'.current[k]], r'.members[x]) <==> RemoteShouldForward(rp, m.(caps := caps)))
      && (RemoteWritten(r', k, x) <==>
            RemoteShouldForward(rp, m.(caps := caps)) && (GainsAudio(m.caps, caps) || Holds(r, k, x)))
  {
    hide LocalInv, Basic, PublishRight, SubscribeRight;
    CapsHalvesBasic(r, who, x, caps);
    CapsHalvesAt(r, x, caps, k);
    var r2 := CapsHalves(r, x, caps);
    hide CapsHalves;
    RebuiltLocalBasic(r2, who, r2.members.Keys);
    var r3 := RebuiltLocal(r2, r2.members.Keys);
    assert r3.members[x] == r2.members[x].(fanout := r3.members[x].fanout);
    assert r3.current == r2.current && r3.remotes == r2.remotes;
    hide RebuiltLocal;
    RebuiltRemoteBasic(r3, who, r2.current.Keys);
    BasicIsWired(r3, who);
    BasicIsWired(RebuiltRemote(r3, r2.current.Keys), who);
    RebuiltWrites(r3, who, r2.current.Keys, k, x);
  }

  /** What another member s holds of k after both halves. */
  lemma CapsHalvesOther(r: Room, who: Sid -> Uid, x: Sid, caps: Caps, k: Key, s: Sid)
    requires Basic(r, who) && Wired(r) && x in r.members && k in r.current && s in r.members && s != x
    requires OwnedAt(r, k, s)
    ensures var r' := CapsHalves(r, x, caps);
      && Wired(r') && r'.current == r.current && s in r'.members && r'.members[s].connected == r.members[s].connected
      && (OwnedAt(r', k, s) <==>
            !(Silences(r.members[x], caps) && k == AudioKey(x)
              && RemoteShouldForward(r.remotes[r.current[k]], r.members[s])))
  {
    hide PublishRight, SubscribeRight;
    var was := r.members[x].caps;
    var r0 := CapsSet(r, x, caps);
    assert MemberOk(who, x, r.members[x]);
    assert MemberOk(who, x, r0.members[x]);
    MemberBasic(r, who, x, r0.members[x]);
    hide Basic, MemberOk;
    PublishRightAt(r0, who, x, was, k, s);
    var r1 := PublishRight(r0, x, was);
    SubscribeRightFrame(r1, x, was, s);
  }

  /** Both halves leave everybody with what is due if and only if the update is grantable and takes
      no due remote track from the others. */
  lemma CapsHalvesOwn(r: Room, who: Sid -> Uid, x: Sid, caps: Caps)
    requires Basic(r, who) && Wired(r) && RemoteInv(r) && x in r.members
    requires Wired(CapsHalves(r, x, caps)) && CapsHalves(r, x, caps).members.Keys == r.members.Keys
    requires CapsHalves(r, x, caps).current == r.current
    ensures AllOwned(CapsHalves(r, x, caps)) <==>
              Grantable(r, x, caps) && (Silences(r.members[x], caps) ==> Spared(r, x, AudioKey(x)))
  {
    hide CapsHalves, Basic, RemoteServes;
    var r', m := CapsHalves(r, x, caps), r.members[x];
    forall k | k in r.current
      ensures r'.members[x].connected == m.connected
      ensures m.connected ==> (OwnedAt(r', k, x) <==> !Ungranted(r, x, caps, k))
    {
      CapsHalvesAt(r, x, caps, k);
      if m.connected {
        assert OwnedAt(r, k, x);
      }
    }
    forall k, s | k in r.current && s in r.members && s != x && (r.members[s].connected || r'.members[s].connected)
      ensures r'.members[s].connected == r.members[s].connected
      ensures OwnedAt(r', k, s) <==>
                !(Silences(m, caps) && k == AudioKey(x) && RemoteShouldForward(r.remotes[r.current[k]], r.members[s]))
    {
      CapsHalvesConnected(r, x, caps, s);
      assert OwnedAt(r, k, s);
      CapsHalvesOther(r, who, x, caps, k, s);
    }
    hide OwnedAt, RemoteShouldForward, Wired;
    GrantableAt(r, x, caps);
    hide Grantable, Ungranted;
    if k :| m.connected && k in r.current && Ungranted(r, x, caps, k) {
      assert !OwnedAt(r', k, x);
    }
    if s :| Silences(m, caps) && AudioKey(x) in r.current && s in r.members && s != x && r.members[s].connected
            && RemoteShouldForward(r.remotes[r.current[AudioKey(x)]], r.members[s]) {
      assert !OwnedAt(r', AudioKey(x), s);
    }
  }

  lemma CapsHalvesConnected(r: Room, x: Sid, caps: Caps, s: Sid)
    requires Wired(r) && x in r.members && s in r.members
    ensures var r' := CapsHalves(r, x, caps); s in r'.members && r'.members[s].connected == r.members[s].connected
  {
    hide SubscribeRight;
    var r0, was := CapsSet(r, x, caps), r.members[x].caps;
    PublishRightConnected(r0, x, was, s);
    PublishRightFrame(r0, x, was);
    hide PublishRight;
    SubscribeRightFrame(PublishRight(r0, x, was), x, was, s);
  }

  lemma PublishRightConnected(r: Room, x: Sid, was: Caps, s: Sid)
    requires x in r.members && s in r.members
    ensures var r' := PublishRight(r, x, was); s in r'.members && r'.members[s].connected == r.members[s].connected
  {
    hide Fanout, Wants;
  }

  /** x, given these caps, is due k and neither holds it nor gets it. */
  predicate Ungranted(r: Room, x: Sid, caps: Caps, k: Key)
    requires Wired(r) && x in r.members && k in r.current
  {
    var m := r.members[x];
    RemoteShouldForward(r.remotes[r.current[k]], m.(caps := caps)) && !GainsAudio(m.caps, caps) && !Holds(r, k, x)
  }

  /** Grantable says it in terms of what can be read off before the call. */
  lemma GrantableAt(r: Room, x: Sid, caps: Caps)
    requires Wired(r) && x in r.members && AllOwned(r)
    ensures Grantable(r, x, caps) <==>
              (r.members[x].connected ==> forall k | k in r.current :: !Ungranted(r, x, caps, k))
  {
    var m := r.members[x];
    if m.connected {
      forall k | k in r.current
        ensures Ungranted(r, x, caps, k) <==>
                  && caps.join && !m.caps.join && !GainsAudio(m.caps, caps)
                  && k.kind != Audio && !Unsubscribed(m, r.remotes[r.current[k]].uid, k.kind) && !Holds(r, k, x)
      {
        assert OwnedAt(r, k, x);
      }
    }
  }

  /** The guard is exact: a caps update keeps every member served if and only if it is grantable and,
      if it silences x, no remote copy of x's audio is due to anybody else. */
  lemma GrantableIsExact(r: Room, who: Sid -> Uid, x: Sid, caps: Caps)
    requires Basic(r, who) && Wired(r) && LocalInv(r) && RemoteInv(r) && x in r.members
    ensures var r' := CapsApplied(r, x, caps);
      Wired(r') && (RemoteInv(r') <==>
        Grantable(r, x, caps) && (Silences(r.members[x], caps) ==> Spared(r, x, AudioKey(x))))
  {
    hide LocalInv, Basic, PublishRight, SubscribeRight, RemoteInv, Grantable, Spared, Silences, Wired;
    CapsHalvesBasic(r, who, x, caps);
    CapsHalvesFrame(r, x, caps);
    var r2 := CapsHalves(r, x, caps);
    BasicIsWired(r2, who);
    CapsHalvesOwn(r, who, x, caps);
    RebuildAllServesRemotes(r2, who);
  }

  lemma CapsHalvesFrame(r: Room, x: Sid, caps: Caps)
    requires Wired(r) && x in r.members
    ensures CapsHalves(r, x, caps).current == r.current
  {
    hide PublishRight, SubscribeRight;
    PublishRightFrame(CapsSet(r, x, caps), x, r.members[x].caps);
    SubscribeRightFrame(PublishRight(CapsSet(r, x, caps), x, r.members[x].caps), x, r.members[x].caps, x);
  }

  // ---------------------------------------------------------------------------------------------
  // Subscriptions
  // ---------------------------------------------------------------------------------------------

  predicate Concerns(k: Key, rp: Remote, uid: Uid, mask: Marks) {
    rp.uid == uid && if k.kind == Audio then mask.audio else mask.video
  }

  /** Marks of one user and dimension concern only that user's keys of that dimension. */
  lemma MarkedAt(who: Sid -> Uid, m: Member, s: Sid, k: Key, rp: Remote, uid: Uid, mask: Marks, want: bool,
                 id: RemoteId)
    requires MemberOk(who, s, m) && rp.key == k && rp.uid == who(k.sid)
    ensures !Concerns(k, rp, uid, mask) ==> SameFor(m, Marked(m, uid, mask, want), k, rp.uid)
    ensures Concerns(k, rp, uid, mask) && !want ==> Owned(id, rp, Marked(m, uid, mask, want))
  {}

  /** While x's subscription to uid is being changed: everything else is in place. */
  ghost predicate Changing(r: Room, x: Sid, uid: Uid, mask: Marks, want: bool)
    requires Wired(r)
  {
    forall k, s | k in r.current && s in r.members && r.members[s].connected :: ChangingAt(r, x, uid, mask, want, k, s)
  }

  predicate ChangingAt(r: Room, x: Sid, uid: Uid, mask: Marks, want: bool, k: Key, s: Sid)
    requires Wired(r) && k in r.current && s in r.members
  {
    var mine := Concerns(k, r.remotes[r.current[k]], uid, mask);
    && (!mine ==> RemoteServes(r, k, s))
    && (!(s == x && mine && want) ==> OwnedAt(r, k, s))
  }

  lemma MarkChanges(r: Room, who: Sid -> Uid, x: Sid, uid: Uid, mask: Marks, want: bool)
    requires Basic(r, who) && Wired(r) && RemoteInv(r) && x in r.members
    ensures var r' := WithMember(r, x, Marked(r.members[x], uid, mask, want));
      Basic(r', who) && Wired(r') && Changing(r', x, uid, mask, want)
  {
    var m := Marked(r.members[x], uid, mask, want);
    var r' := WithMember(r, x, m);
    assert MemberOk(who, x, r.members[x]);
    MarkedKeepsOk(who, x, r.members[x], uid, mask, want);
    MemberBasic(r, who, x, m);
    assert forall k | k in r.current :: RemoteOk(who, r, r.current[k]);
    assert m.connected == r.members[x].connected;
    hide Basic, MemberOk, Marked, Concerns;
    forall k, s | k in r'.current && s in r'.members && r'.members[s].connected
      ensures ChangingAt(r', x, uid, mask, want, k, s)
    {
      var id := r.current[k];
      assert RemoteServes(r, k, s) && OwnedAt(r, k, s) && RemoteOk(who, r, id);
      if s == x {
        MarkedAt(who, r.members[x], x, k, r.remotes[id], uid, mask, want, id);
        if !Concerns(k, r.remotes[id], uid, mask) {
          SameRemoteServes(r, r', k, s);
        }
      } else {
        SameRemoteServes(r, r', k, s);
      }
    }
  }

  /** A track x is offered of a local session of uid is, if also registered, one the change concerns. */
  lemma OfferedIsConcerned(r: Room, who: Sid -> Uid, x: Sid, uid: Uid, mask: Marks, k: Key)
    requires Basic(r, who) && Wired(r) && x in r.members && mask.audio && k in r.current
    requires k in Offered(r.members, x, Others(r.members, x, uid))
    ensures Concerns(k, r.remotes[r.current[k]], uid, mask)
  {
    assert MemberOk(who, k.sid, r.members[k.sid]) && RemoteOk(who, r, r.current[k]);
  }

  lemma AudioHalfBasic(r: Room, who: Sid -> Uid, x: Sid, uid: Uid, want: bool)
    requires Basic(r, who) && Wired(r) && x in r.members
    ensures var r' := AudioResubscribed(r, x, uid, want);
      && Basic(r', who) && Wired(r') && r'.current == r.current && r'.remotes == r.remotes
      && r'.members.Keys == r.members.Keys
  {
    hide Basic, RebuiltLocal, LocalTracks;
    var ps := Others(r.members, x, uid);
    if want {
      LocalHalfBasic(r, who, x, ps);
      LocalHalfAt(r, x, ps, x);
    } else {
      RebuiltLocalBasic(r, who, ps);
      BasicIsWired(RebuiltLocal(r, ps), who);
      RebuiltLocalAt(r, ps, x);
    }
  }

  lemma RebuiltLocalAt(r: Room, ps: set<Sid>, s: Sid)
    requires s in r.members
    ensures var r' := RebuiltLocal(r, ps);
      && r'.current == r.current && r'.remotes == r.remotes && r'.members.Keys == r.members.Keys
      && r'.members[s] == r.members[s].(fanout := r'.members[s].fanout)
  {
    hide Fanout;
  }

  lemma AudioHalfAt(r: Room, who: Sid -> Uid, x: Sid, uid: Uid, mask: Marks, want: bool, k: Key, s: Sid)
    requires Basic(r, who) && Wired(r) && x in r.members && s in r.members && mask.audio && k in r.current
    ensures var r' := AudioResubscribed(r, x, uid, want);
      && s in r'.members && r'.members[s].connected == r.members[s].connected
      && (!(s == x && want && Concerns(k, r.remotes[r.current[k]], uid, mask)) ==>
            SameFor(r.members[s], r'.members[s], k, r.remotes[r.current[k]].uid))
  {
    hide Basic, RebuiltLocal, LocalTracks, Concerns, Offered;
    var ps := Others(r.members, x, uid);
    if want {
      LocalHalfAt(r, x, ps, s);
      if k in Offered(r.members, x, ps) {
        OfferedIsConcerned(r, who, x, uid, mask, k);
      }
    } else {
      RebuiltLocalAt(r, ps, s);
    }
  }

  lemma AudioHalfChanges(r: Room, who: Sid -> Uid, x: Sid, uid: Uid, mask: Marks, want: bool)
    requires Basic(r, who) && Wired(r) && x in r.members && mask.audio && Changing(r, x, uid, mask, want)
    ensures var r' := AudioResubscribed(r, x, uid, want);
      Basic(r', who) && Wired(r') && x in r'.members && Changing(r', x, uid, mask, want)
  {
    hide Basic, AudioResubscribed, Concerns, RemoteServes, OwnedAt, SameFor;
    var r' := AudioResubscribed(r, x, uid, want);
    AudioHalfBasic(r, who, x, uid, want);
    forall k, s | k in r'.current && s in r'.members && r'.members[s].connected
      ensures ChangingAt(r', x, uid, mask, want, k, s)
    {
      AudioHalfAt(r, who, x, uid, mask, want, k, s);
      assert ChangingAt(r, x, uid, mask, want, k, s);
      if !(s == x && want && Concerns(k, r.remotes[r.current[k]], uid, mask)) {
        SameRemoteServes(r, r', k, s);
      }
    }
  }

  lemma RemoteHalfChanges(r: Room, who: Sid -> Uid, x: Sid, uid: Uid, mask: Marks, want: bool)
    requires Basic(r, who) && Wired(r) && x in r.members && Changing(r, x, uid, mask, want)
    ensures var keys := KeysOf(r, uid, mask);
      var r' := RebuiltRemote(if want then WithMember(r, x, RemoteTracks(r, r.members[x], keys)) else r, keys);
      Wired(r') && RemoteInv(r')
  {
    var keys := KeysOf(r, uid, mask);
    assert forall k | k in r.current :: k in keys <==> Concerns(k, r.remotes[r.current[k]], uid, mask);
    hide KeysOf, Basic, OwnedAt, RemoteServes, Concerns;
    forall k, s | k in r.current && s in r.members && r.members[s].connected
      ensures !(s == x && k in keys && want) ==> OwnedAt(r, k, s)
      ensures k !in keys ==> RemoteServes(r, k, s)
    {
      assert ChangingAt(r, x, uid, mask, want, k, s);
    }
    if want {
      TakeOverServes(r, who, x, keys);
    } else {
      RebuildServesRemotes(r, who, keys);
    }
  }

  lemma ResubscribeServesRemotes(r: Room, who: Sid -> Uid, x: Sid, uid: Uid, mask: Marks, want: bool)
    requires Basic(r, who) && Wired(r) && RemoteInv(r) && x in r.members
    ensures var r' := Resubscribed(r, x, uid, mask, want); Wired(r') && RemoteInv(r')
  {
    if !mask.Empty() {
      var r1 := WithMember(r, x, Marked(r.members[x], uid, mask, want));
      MarkChanges(r, who, x, uid, mask, want);
      hide Basic, Changing, RemoteInv, Marked, AudioResubscribed, Wired;
      if mask.audio {
        AudioHalfChanges(r1, who, x, uid, mask, want);
      }
      var r2 := if mask.audio then AudioResubscribed(r1, x, uid, want) else r1;
      RemoteHalfChanges(r2, who, x, uid, mask, want);
    }
  }

  // ---------------------------------------------------------------------------------------------
  // Every step, every run
  // ---------------------------------------------------------------------------------------------

  /** What the caller can check beforehand. An event that removes the down tracks of a local publisher
      removes them whoever owns them, so no remote publisher registered under such a key may be due to
      anybody else; and a caps update must be grantable. Every other event is harmless. */
  predicate Harmless(r: Room, ev: Event)
    requires Wired(r)
  {
    match ev
    case Join(s, _, _) => s in r.members ==> SparedAll(r, s)
    case Leave(p) => SparedAll(r, p)
    case TrackEnd(p) =>
      p in r.members && r.members[p].publishing && r.members[p].caps.publishAudio ==> Spared(r, p, AudioKey(p))
    case ScreenEnd(p, kind) => Spared(r, p, Key(p, kind))
    case ApplyCaps(p, caps) =>
      p in r.members ==>
        Grantable(r, p, caps) && (Silences(r.members[p], caps) ==> Spared(r, p, AudioKey(p)))
    case _ => true
  }

  /** A step keeps the service of remote publishers exact if and only if its event is harmless. */
  lemma StepServesRemotes(r: Room, who: Sid -> Uid, ev: Event)
    requires Basic(r, who) && Wired(r) && LocalInv(r) && RemoteInv(r) && Enabled(r, who, ev)
    ensures Wired(Next(r, ev)) && (RemoteInv(Next(r, ev)) <==> Harmless(r, ev))
  {
    hide Basic, LocalInv, RemoteInv, Wired, Joined, Connected, TrackStarted, TrackEnded, ScreenEnded, CapsApplied,
         Resubscribed, Left, RemoteAdded, RemoteClosed, RebuiltLocal, Spared, SparedAll, Grantable;
    match ev
    case Join(s, uid, caps) => JoinServesExactly(r, who, s, caps);
    case AddRemote(id, key, uid) => AddServesRemotes(r, who, id, key);
    case CloseRemote(id) => CloseServesRemotes(r, who, id);
    case AttachSink(p, n) =>
      if p in r.members {
        SinkServesRemotes(r, p, r.sinks[p := SinksOf(r, p) + {n}]);
      }
    case DetachSink(p, n) =>
      var rest := SinksOf(r, p) - {n};
      SinkServesRemotes(r, p, if rest == {} then r.sinks - {p} else r.sinks[p := rest]);
    case Connect(s) => ConnectServesRemotes(r, who, s);
    case TrackUp(p) => TrackStartServesRemotes(r, who, p);
    case TrackEnd(p) => TrackEndServesExactly(r, who, p);
    case ScreenEnd(p, kind) => ScreenEndServesExactly(r, p, kind);
    case ApplyCaps(p, caps) => GrantableIsExact(r, who, p, caps);
    case SetSubscription(s, uid, mask, want) => ResubscribeServesRemotes(r, who, s, uid, mask, want);
    case Leave(p) => LeaveServesExactly(r, who, p);
  }

  ghost predicate HarmlessTo(states: seq<Room>, evs: seq<Event>, n: nat)
    requires n <= |evs| <= |states|
  {
    forall j | 0 <= j < n :: Wired(states[j]) && Harmless(states[j], evs[j])
  }

  /** In every run, service is exact in every state so far if and only if every event so far was harmless. */
  lemma {:induction false} ServedIffHarmless(who: Sid -> Uid, states: seq<Room>, evs: seq<Event>, n: nat)
    requires Run(who, states, evs) && n <= |evs|
    ensures (forall i | 0 <= i <= n :: Wired(states[i]) && RemoteInv(states[i])) <==> HarmlessTo(states, evs, n)
  {
    if n > 0 {
      ServedIffHarmless(who, states, evs, n - 1);
      RunServes(who, states, evs, n - 1);
      RunServes(who, states, evs, n);
      BasicIsWired(states[n], who);
      hide Basic, LocalInv, RemoteInv, Wired, Next, Enabled, Harmless;
      if Wired(states[n - 1]) && RemoteInv(states[n - 1]) {
        StepServesRemotes(states[n - 1], who, evs[n - 1]);
      }
    } else {
      assert states[0].members == map[];
    }
  }

  /** Over any sequence of closes and re-registrations under one key, mixed with everything else: while
      every event is harmless, the registered publisher's packets reach exactly the live connected
      members that should get them. */
  lemma TakeOverIsExact(who: Sid -> Uid, states: seq<Room>, evs: seq<Event>, i: nat, k: Key, s: Sid)
    requires Run(who, states, evs) && i < |states| && HarmlessTo(states, evs, i)
    requires Wired(states[i]) && k in states[i].current && s in states[i].members && states[i].members[s].connected
    ensures RemoteWritten(states[i], k, s) <==>
              RemoteShouldForward(states[i].remotes[states[i].current[k]], states[i].members[s])
  {
    ServedIffHarmless(who, states, evs, i);
    assert RemoteServes(states[i], k, s);
  }

  /** No down track is in the snapshots of two live remote publishers. */
  lemma OneWriterPerTrack(who: Sid -> Uid, states: seq<Room>, evs: seq<Event>, i: nat, a: RemoteId, b: RemoteId,
                          h: Handle)
    requires Run(who, states, evs) && i < |states| && a in states[i].remotes && b in states[i].remotes
    requires var ra, rb := states[i].remotes[a], states[i].remotes[b];
      && !ra.closed && ra.fanout.Some? && h in ra.fanout.value
      && !rb.closed && rb.fanout.Some? && h in rb.fanout.value
    ensures a == b
  {
    RunServes(who, states, evs, i);
    assert RemoteOk(who, states[i], a) && RemoteOk(who, states[i], b);
    hide Run, LocalInv, MemberOk;
  }

  // ---------------------------------------------------------------------------------------------
  // Two runs that end unserved
  // ---------------------------------------------------------------------------------------------

  /** s alone in the room, with nothing published anywhere. */
  predicate Alone(r: Room, s: Sid, caps: Caps) {
    && r.members.Keys == {s} && r.remotes == map[] && r.current == map[]
    && var m := r.members[s]; !m.publishing && m.caps == caps && m.marks == map[] && m.down == map[]
  }

  lemma JoinAlone(s: Sid, uid: Uid, caps: Caps)
    ensures Alone(Joined(NEW_ROOM, s, uid, caps), s, caps)
  {}

  lemma AloneIsServed(r: Room, s: Sid, caps: Caps)
    requires Alone(r, s, caps)
    ensures Wired(r) && s in r.members && r.members.Keys == {s} && r.remotes == map[] && r.current == map[]
    ensures r.members[s].down == map[] && r.members[s].marks == map[] && r.members[s].caps == caps
    ensures !r.members[s].publishing
  {}

  lemma ConnectAlone(r: Room, s: Sid, caps: Caps)
    requires Alone(r, s, caps)
    ensures Wired(r) && s in r.members
    ensures var r' := Connected(r, s); Alone(r', s, caps) && r'.members[s].connected
  {
    hide Fanout, RemoteFanout;
  }

  lemma RegrantAlone(r: Room, s: Sid, caps: Caps, caps': Caps)
    requires Alone(r, s, caps) && r.members[s].connected && caps' == caps.(join := caps'.join)
    ensures var r' := CapsApplied(r, s, caps'); Alone(r', s, caps') && r'.members[s].connected
  {
    hide Fanout, RemoteFanout, Detached, AttachedSubscribers, AttachedPublishers, Stripped;
  }

  lemma AddBarred(r: Room, s: Sid, caps: Caps, id: RemoteId, key: Key, uid: Uid)
    requires Alone(r, s, caps) && !caps.join && key.kind != Audio
    ensures var r' := RemoteAdded(r, id, key, uid);
      && Wired(r') && r'.current == map[key := id] && r'.remotes[id].uid == uid
      && r'.members == r.members
  {
    hide RemoteFanout;
  }

  /** The failing run, for any member s that loses join and gets it back: a screen registered
      meanwhile is due to s at the end and is not written to it. Every event but the last is harmless. */
  lemma RegrantedJoinIsNotServed(who: Sid -> Uid, s: Sid, caps: Caps, id: RemoteId, key: Key)
    returns (states: seq<Room>, evs: seq<Event>)
    requires caps.join && key.kind != Audio
    ensures evs == [Join(s, who(s), caps), Connect(s), ApplyCaps(s, caps.(join := false)),
                    AddRemote(id, key, who(key.sid)), ApplyCaps(s, caps)]
    ensures Run(who, states, evs) && HarmlessTo(states, evs, 4)
    ensures var r := states[5];
      && Wired(r) && key in r.current && s in r.members && r.members[s].connected
      && RemoteShouldForward(r.remotes[r.current[key]], r.members[s]) && !RemoteWritten(r, key, s)
  {
    hide Joined, Connected, CapsApplied, RemoteAdded, Alone, Basic, LocalInv;
    var barred := caps.(join := false);
    evs := [Join(s, who(s), caps), Connect(s), ApplyCaps(s, barred), AddRemote(id, key, who(key.sid)),
        ApplyCaps(s, caps)];
    var r1 := Joined(NEW_ROOM, s, who(s), caps);
    JoinAlone(s, who(s), caps);
    ConnectAlone(r1, s, caps);
    AloneIsServed(r1, s, caps);
    var r2 := Connected(r1, s);
    RegrantAlone(r2, s, caps, barred);
    AloneIsServed(r2, s, caps);
    var r3 := CapsApplied(r2, s, barred);
    AloneIsServed(r3, s, barred);
    AddBarred(r3, s, barred, id, key, who(key.sid));
    var r4 := RemoteAdded(r3, id, key, who(key.sid));
    states := [NEW_ROOM, r1, r2, r3, r4, CapsApplied(r4, s, caps)];
    RunServes(who, states, evs, 4);
    CapsServeExactly(r4, who, s, caps, key);
  }

  /** A room in which the connected member s is due the registered key. */
  predicate Watched(r: Room, s: Sid, key: Key) {
    && Wired(r) && key in r.current && s in r.members && r.members[s].connected
    && RemoteShouldForward(r.remotes[r.current[key]], r.members[s])
  }

  lemma AddToAlone(r: Room, s: Sid, caps: Caps, id: RemoteId, key: Key, uid: Uid)
    requires Alone(r, s, caps) && r.members[s].connected
    requires (if key.kind == Audio then caps.subscribeAudio else caps.join)
    ensures var r' := RemoteAdded(r, id, key, uid); Watched(r', s, key) && r'.members.Keys == {s}
  {
    hide RemoteFanout;
  }

  lemma JoinWatched(r: Room, s: Sid, x: Sid, uid: Uid, caps: Caps, key: Key)
    requires Watched(r, s, key) && x !in r.members
    ensures var r' := Joined(r, x, uid, caps); Watched(r', s, key) && r'.members.Keys == r.members.Keys + {x}
  {}

  /** The leave of x takes the tracks of x's remote copy along, and s stays due. */
  lemma LeaveWatched(r: Room, s: Sid, x: Sid, key: Key)
    requires Watched(r, s, key) && s != x && key.sid == x
    ensures var r' := Left(r, x); Watched(r', s, key) && !RemoteWritten(r', key, s)
  {
    hide RemoteFanout;
  }

  /** A session that is a member here while a track of it is registered as remote: when the member
      leaves, the remote publisher loses its listener. Every event but the leave is harmless. */
  lemma MemberTakesTracksAlong(who: Sid -> Uid, s: Sid, x: Sid, caps: Caps, caps': Caps, id: RemoteId, key: Key)
    returns (states: seq<Room>, evs: seq<Event>)
    requires s != x && key.sid == x && (if key.kind == Audio then caps.subscribeAudio else caps.join)
    ensures evs == [Join(s, who(s), caps), Connect(s), AddRemote(id, key, who(x)), Join(x, who(x), caps'), Leave(x)]
    ensures Run(who, states, evs) && HarmlessTo(states, evs, 4)
    ensures var r := states[5];
      && Wired(r) && key in r.current && s in r.members && r.members[s].connected
      && RemoteShouldForward(r.remotes[r.current[key]], r.members[s]) && !RemoteWritten(r, key, s)
  {
    hide Joined, Connected, RemoteAdded, Left, Alone, RemoteWritten, RemoteShouldForward, Spared, SparedAll, Grantable;
    evs := [Join(s, who(s), caps), Connect(s), AddRemote(id, key, who(x)), Join(x, who(x), caps'), Leave(x)];
    var r1 := Joined(NEW_ROOM, s, who(s), caps);
    JoinAlone(s, who(s), caps);
    ConnectAlone(r1, s, caps);
    AloneIsServed(r1, s, caps);
    var r2 := Connected(r1, s);
    AloneIsServed(r2, s, caps);
    AddToAlone(r2, s, caps, id, key, who(x));
    var r3 := RemoteAdded(r2, id, key, who(x));
    JoinWatched(r3, s, x, who(x), caps', key);
    var r4 := Joined(r3, x, who(x), caps');
    LeaveWatched(r4, s, x, key);
    states := [NEW_ROOM, r1, r2, r3, r4, Left(r4, x)];
  }
}
