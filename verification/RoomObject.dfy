/** The room as the object it is: its loops over members, tracks and snapshots, and the operations
    built from them, each proved against the specification of RoomForwarding. */
module RoomObjects {
  import opened Options
  import opened Tracks
  import opened RoomForwarding
  import opened RoomRuns
  import opened SinkService
  import opened RemoteTakeover
  import opened RoomHistory

  // ---------------------------------------------------------------------------------------------
  // Snapshots
  // ---------------------------------------------------------------------------------------------

  method RebuildFanout(r: Room, p: Sid) returns (list: set<Handle>)
    requires p in r.members
    ensures list == Fanout(r, p)
  {
    list := {};
    var pub := r.members[p];
    var todo := r.members.Keys;
    while todo != {}
      invariant todo <= r.members.Keys
      invariant forall h :: h in list <==>
        exists s :: s in r.members && s !in todo && s != p && Listens(p, pub, r.members[s])
            && h == HandleOf(s, r.members[s], AudioKey(p))
      decreases todo
    {
      var s :| s in todo;
      todo := todo - {s};
      var sub := r.members[s];
      if s == p {
        continue;
      }
      var active := AudioKey(p) in sub.down && sub.down[AudioKey(p)].active;
      if active && ShouldForward(pub.caps, sub.caps, Unsubscribed(sub, pub.uid, Audio)) {
        list := list + {HandleOf(s, sub, AudioKey(p))};
      }
    }
    assert list == Listeners(r.members, p);
    if pub.caps.publishAudio {
      list := list + set n | n in SinksOf(r, p) :: Sink(n);
    }
  }

  method RebuildRemoteFanout(ms: map<Sid, Member>, id: RemoteId, rp: Remote) returns (list: set<Handle>)
    ensures list == RemoteFanout(ms, id, rp)
  {
    list := {};
    var todo := ms.Keys;
    while todo != {}
      invariant todo <= ms.Keys
      invariant forall h :: h in list <==>
        exists s :: s in ms && s !in todo && RemoteListens(id, rp, ms[s]) && h == HandleOf(s, ms[s], rp.key)
      decreases todo
    {
      var s :| s in todo;
      todo := todo - {s};
      var sub := ms[s];
      var active := rp.key in sub.down && sub.down[rp.key].owner == Some(id) && sub.down[rp.key].active;
      if active && RemoteShouldForward(rp, sub) {
        list := list + {HandleOf(s, sub, rp.key)};
      }
    }
  }

  /** Snapshots are taken from tracks, marks and caps, never from other snapshots: the order in
      which a loop rebuilds them does not matter. */
  lemma FanoutIgnoresSnapshots(r: Room, r': Room, p: Sid)
    requires p in r.members && r'.members.Keys == r.members.Keys && r'.sinks == r.sinks
    requires forall s | s in r.members :: r'.members[s] == r.members[s].(fanout := r'.members[s].fanout)
    ensures Fanout(r', p) == Fanout(r, p)
  {
    forall h ensures h in Listeners(r'.members, p) <==> h in Listeners(r.members, p) {
      if s :| s in r.members && s != p && Listens(p, r.members[p], r.members[s]) &&
              h == HandleOf(s, r.members[s], AudioKey(p)) {
        assert Listens(p, r'.members[p], r'.members[s]);
      }
    }
  }

  method RebuildLocal(r: Room, ps: set<Sid>) returns (r': Room)
    ensures r' == RebuiltLocal(r, ps)
  {
    hide Fanout;
    r' := r;
    var todo := set p | p in ps && p in r.members;
    while todo != {}
      invariant forall p | p in todo :: p in ps && p in r.members
      invariant r' == r.(members := r'.members) && r'.members.Keys == r.members.Keys
      invariant forall s | s in r.members ::
        r'.members[s] == if s in ps && s !in todo then r.members[s].(fanout := Some(Fanout(r, s))) else r.members[s]
      decreases todo
    {
      var p :| p in todo;
      todo := todo - {p};
      FanoutIgnoresSnapshots(r, r', p);
      var list := RebuildFanout(r', p);
      r' := WithMember(r', p, r'.members[p].(fanout := Some(list)));
    }
  }

  method RebuildRemotes(r: Room, keys: set<Key>) returns (r': Room)
    requires Wired(r)
    ensures r' == RebuiltRemote(r, keys)
  {
    hide RemoteFanout;
    r' := r;
    var todo := set k | k in keys && k in r.current;
    while todo != {}
      invariant forall k | k in todo :: k in keys && k in r.current
      invariant r' == r.(remotes := r'.remotes) && r'.remotes.Keys == r.remotes.Keys
      invariant forall id | id in r.remotes ::
        var rp := r.remotes[id];
        r'.remotes[id] == if rp.key in keys && rp.key !in todo && rp.key in r.current && r.current[rp.key] == id
            && !rp.closed
                          then rp.(fanout := Some(RemoteFanout(r.members, id, rp))) else rp
      decreases todo
    {
      var k :| k in todo;
      todo := todo - {k};
      var id := r.current[k];
      var list := RebuildRemoteFanout(r.members, id, r.remotes[id]);
      r' := r'.(remotes := r'.remotes[id := r'.remotes[id].(fanout := Some(list))]);
    }
  }

  /** No kinds named means both dimensions; unknown names select nothing. */
  method SubscriptionMask(kinds: seq<string>) returns (mask: Marks)
    ensures mask.audio <==> kinds == [] || "audio" in kinds
    ensures mask.video <==> kinds == [] || "video" in kinds || "screen" in kinds || "screen_audio" in kinds
  {
    if |kinds| == 0 {
      return Marks(true, true);
    }
    mask := Marks(false, false);
    for i := 0 to |kinds|
      invariant mask.audio <==> "audio" in kinds[..i]
      invariant mask.video <==> "video" in kinds[..i] || "screen" in kinds[..i] || "screen_audio" in kinds[..i]
    {
      assert kinds[..i + 1] == kinds[..i] + [kinds[i]];
      if kinds[i] == "audio" {
        mask := mask.(audio := true);
      } else if kinds[i] == "video" || kinds[i] == "screen" || kinds[i] == "screen_audio" {
        mask := mask.(video := true);
      }
    }
    assert kinds[..|kinds|] == kinds;
  }

  // ---------------------------------------------------------------------------------------------
  // Down tracks
  // ---------------------------------------------------------------------------------------------

  method EnsureSubscribers(r: Room, p: Sid) returns (r': Room)
    requires p in r.members
    ensures r' == AttachedSubscribers(r, p)
  {
    hide EnsureLocal;
    var ms := r.members;
    var todo := r.members.Keys;
    while todo != {}
      invariant todo <= r.members.Keys && ms.Keys == r.members.Keys
      invariant forall s | s in r.members ::
        ms[s] == if s in todo || s == p then r.members[s] else EnsureLocal(p, r.members[p], r.members[s])
      decreases todo
    {
      var s :| s in todo;
      todo := todo - {s};
      if s != p {
        ms := ms[s := EnsureLocal(p, ms[p], ms[s])];
      }
    }
    hide RebuiltLocal;
    assert ms == map s | s in r.members :: if s == p then r.members[s] else EnsureLocal(p, r.members[p], r.members[s]);
    r' := RebuildLocal(r.(members := ms), {p});
  }

  /** Every member but p loses its down track of the key. */
  method RemoveEverywhere(members: map<Sid, Member>, p: Sid, key: Key) returns (ms: map<Sid, Member>)
    ensures ms == map s | s in members :: if s == p then members[s] else Without(members[s], key)
  {
    hide Without;
    ms := members;
    var todo := members.Keys;
    while todo != {}
      invariant todo <= members.Keys && ms.Keys == members.Keys
      invariant forall s | s in members ::
        ms[s] == if s == p || s in todo then members[s] else Without(members[s], key)
      decreases todo
    {
      var s :| s in todo;
      todo := todo - {s};
      if s != p {
        ms := ms[s := Without(ms[s], key)];
      }
    }
  }

  method DetachPublisher(r: Room, p: Sid) returns (r': Room)
    requires p in r.members
    ensures r' == Detached(r, p)
  {
    hide Without;
    var ms := RemoveEverywhere(r.members, p, AudioKey(p));
    r' := r.(members := ms[p := ms[p].(fanout := None)]);
  }

  /** Member s gets the tracks it lacks of the local publishers in ps. */
  method EnsureLocalTracks(ms: map<Sid, Member>, s: Sid, ps: set<Sid>) returns (m: Member)
    requires s in ms
    ensures m == LocalTracks(ms, s, ps)
  {
    m := ms[s];
    var todo := set p | p in ps && p in ms && p != s;
    while todo != {}
      invariant forall p | p in todo :: p in ps && p in ms && p != s
      invariant m == ms[s].(down := m.down)
      invariant forall k :: k in m.down <==> k in ms[s].down || (k in Offered(ms, s, ps) && k.sid !in todo)
      invariant forall k | k in m.down ::
        m.down[k] == if k in ms[s].down then ms[s].down[k] else DownTrack(ms[k.sid].uid, ms[s].gen, true, None)
      decreases todo
    {
      var p :| p in todo;
      todo := todo - {p};
      assert Lacks(p, ms[p], m) <==> AudioKey(p) in Offered(ms, s, ps);
      m := EnsureLocal(p, ms[p], m);
    }
  }

  /** Member m takes over, or gets, the tracks of the registered remote publishers of the given keys. */
  method EnsureRemoteTracks(r: Room, m: Member, keys: set<Key>) returns (m': Member)
    requires Wired(r)
    ensures m' == RemoteTracks(r, m, keys)
  {
    hide RemoteShouldForward, EnsureRemote;
    ghost var goal := RemoteTracks(r, m, keys);
    ghost var granted := Granted(r, m, keys);
    assert goal == m.(down := goal.down) && goal.down.Keys == m.down.Keys + granted;
    assert forall k | k in m.down && k !in granted :: goal.down[k] == m.down[k];
    m' := m;
    var todo := set k | k in r.current && k in keys;
    while todo != {}
      invariant forall k | k in todo :: k in r.current && k in keys
      invariant m' == m.(down := m'.down)
      invariant forall k :: k in m'.down <==> k in m.down || (k in granted && k !in todo)
      invariant forall k | k in m'.down :: m'.down[k] == if k in todo then m.down[k] else goal.down[k]
      decreases todo
    {
      var k :| k in todo;
      todo := todo - {k};
      EnsureRemoteAtKey(r.current[k], r.remotes[r.current[k]], m, m');
      assert k in granted <==> RemoteShouldForward(r.remotes[r.current[k]], m);
      assert k in granted ==> goal.down[k] == EnsureRemote(r.current[k], r.remotes[r.current[k]], m).down[k];
      hide RemoteTracks, Granted, Wired;
      m' := EnsureRemote(r.current[k], r.remotes[r.current[k]], m');
    }
    assert m'.down == goal.down;
  }

  /** What happens at its own key does not depend on the other down tracks. */
  lemma EnsureRemoteAtKey(id: RemoteId, rp: Remote, m: Member, m': Member)
    requires m' == m.(down := m'.down) && !rp.closed
    requires rp.key in m'.down <==> rp.key in m.down
    requires rp.key in m.down ==> m'.down[rp.key] == m.down[rp.key]
    ensures var e := EnsureRemote(id, rp, m');
      if RemoteShouldForward(rp, m)
      then rp.key in EnsureRemote(id, rp, m).down
             && e == m'.(down := m'.down[rp.key := EnsureRemote(id, rp, m).down[rp.key]])
      else e == m'
  {}

  method EnsurePublishers(r: Room, s: Sid) returns (r': Room)
    requires Wired(r) && s in r.members
    ensures r' == AttachedPublishers(r, s)
  {
    hide LocalTracks, RemoteTracks, RebuiltLocal, RebuiltRemote;
    var ps := set p | p in r.members && p != s && r.members[p].publishing;
    var m := EnsureLocalTracks(r.members, s, ps);
    var r1 := RebuildLocal(WithMember(r, s, m), ps);
    LocalHalfIsWired(r, s, m, ps);
    var m2 := EnsureRemoteTracks(r1, r1.members[s], r1.current.Keys);
    r' := RebuildRemotes(WithMember(r1, s, m2), r1.current.Keys);
  }

  lemma LocalHalfIsWired(r: Room, s: Sid, m: Member, ps: set<Sid>)
    requires Wired(r)
    ensures var r1 := RebuiltLocal(WithMember(r, s, m), ps); Wired(r1) && s in r1.members
  {}

  /** The marks, then `active` on every down track of that user in the dimensions of the mask. */
  method Mark(m: Member, uid: Uid, mask: Marks, want: bool) returns (m': Member)
    ensures m' == Marked(m, uid, mask, want)
  {
    var cur := if uid in m.marks then m.marks[uid] else Marks(false, false);
    if mask.audio {
      cur := cur.(audio := !want);
    }
    if mask.video {
      cur := cur.(video := !want);
    }
    var down := SetActive(m.down, uid, mask, want);
    m' := m.(marks := if cur.Empty() then m.marks - {uid} else m.marks[uid := cur], down := down);
  }

  method SetActive(tracks: map<Key, DownTrack>, uid: Uid, mask: Marks, want: bool) returns (down: map<Key, DownTrack>)
    ensures down == map k | k in tracks ::
                      if tracks[k].pubUid == uid && (if k.kind == Audio then mask.audio else mask.video)
                      then tracks[k].(active := want) else tracks[k]
  {
    down := tracks;
    var todo := tracks.Keys;
    while todo != {}
      invariant todo <= tracks.Keys && down.Keys == tracks.Keys
      invariant forall k | k in tracks ::
        down[k] == if k !in todo && tracks[k].pubUid == uid && (if k.kind == Audio then mask.audio else mask.video)
                   then tracks[k].(active := want) else tracks[k]
      decreases todo
    {
      var k :| k in todo;
      todo := todo - {k};
      if down[k].pubUid == uid && (if k.kind == Audio then mask.audio else mask.video) {
        down := down[k := down[k].(active := want)];
      }
    }
  }

  // ---------------------------------------------------------------------------------------------
  // The object
  // ---------------------------------------------------------------------------------------------

  /** What one event keeps of the room's service, and when it keeps all of it. */
  lemma EventKeeps(r: Room, who: Sid -> Uid, ev: Event)
    requires Basic(r, who) && LocalInv(r) && SinkInv(r) && Enabled(r, who, ev)
    ensures Wired(r) && Basic(Next(r, ev), who) && Wired(Next(r, ev)) && LocalInv(Next(r, ev)) && SinkInv(Next(r, ev))
    ensures RemoteInv(r) ==> (RemoteInv(Next(r, ev)) <==> Harmless(r, ev))
  {
    hide Basic, LocalInv, SinkInv, RemoteInv, Wired, Next, Enabled, Harmless;
    BasicIsWired(r, who);
    StepServes(r, who, ev);
    StepServesSinks(r, who, ev);
    BasicIsWired(Next(r, ev), who);
    if RemoteInv(r) {
      StepServesRemotes(r, who, ev);
    }
  }

  /** The room. In every state it can be in, each local publisher's packets reach exactly the members
      and sinks they should (Valid), and each remote publisher's too (Complete); every operation keeps
      the former, and the latter as its contract says. */
  class RoomObject {
    var members: map<Sid, Member>
    var remotes: map<RemoteId, Remote>
    var current: map<Key, RemoteId>
    var sinks: map<Sid, set<nat>>
    var nextInst: nat
    ghost const who: Sid -> Uid

    ghost function View(): Room
      reads this
    {
      Room(members, remotes, current, sinks, nextInst)
    }

    ghost predicate Valid()
      reads this
    {
      Basic(View(), who) && LocalInv(View()) && SinkInv(View())
    }

    /** Every remote publisher is served exactly. */
    ghost predicate Complete()
      reads this
    {
      Wired(View()) && RemoteInv(View())
    }

    constructor (ghost who: Sid -> Uid)
      ensures Valid() && Complete() && View() == NEW_ROOM && this.who == who
    {
      members, remotes, current, sinks, nextInst := map[], map[], map[], map[], 0;
      this.who := who;
    }

    method Store(r: Room)
      modifies this
      ensures View() == r
    {
      members, remotes, current, sinks, nextInst := r.members, r.remotes, r.current, r.sinks, r.nextInst;
    }

    method OnAudioTrack(p: Sid)
      requires Valid() && p in members
      modifies this
      ensures Valid() && View() == TrackStarted(old(View()), p)
      ensures SamePeople(WithMember(old(View()), p, old(members)[p].(publishing := true)), View())
      ensures old(Complete()) ==> Complete()
    {
      hide Basic, LocalInv, SinkInv, RemoteInv, SamePeople;
      EventKeeps(View(), who, TrackUp(p));
      TrackPeople(View(), p);
      if members[p].publishing {
        return;
      }
      members := members[p := members[p].(publishing := true)];
      if members[p].caps.publishAudio {
        var r := EnsureSubscribers(Room(members, remotes, current, sinks, nextInst), p);
        Store(r);
      }
    }

    /** The tracks go whoever owns them: remote service survives if and only if no remote copy of p's
        audio is due to anybody else. */
    method OnAudioTrackEnded(p: Sid)
      requires Valid() && p in members
      modifies this
      ensures Valid() && Wired(old(View())) && View() == TrackEnded(old(View()), p)
      ensures SamePeople(WithMember(old(View()), p, old(members)[p].(publishing := false)), View())
      ensures old(Complete()) ==>
                (Complete() <==> (old(members[p].publishing && members[p].caps.publishAudio) ==>
                                    Spared(old(View()), p, AudioKey(p))))
    {
      hide Basic, LocalInv, SinkInv, RemoteInv, Spared, SamePeople;
      EventKeeps(View(), who, TrackEnd(p));
      TrackPeople(View(), p);
      if !members[p].publishing {
        return;
      }
      members := members[p := members[p].(publishing := false)];
      if members[p].caps.publishAudio {
        var r := DetachPublisher(Room(members, remotes, current, sinks, nextInst), p);
        Store(r);
      }
    }

    /** p's screen or its companion ends: every other member loses that track, with the same proviso. */
    method OnScreenEnded(p: Sid, kind: Kind)
      requires Valid() && p in members && kind != Audio
      modifies this
      ensures Valid() && Wired(old(View())) && View() == ScreenEnded(old(View()), p, kind)
      ensures SamePeople(old(View()), View())
      ensures forall s | s in members && s != p :: Key(p, kind) !in members[s].down
      ensures old(Complete()) ==> (Complete() <==> Spared(old(View()), p, Key(p, kind)))
    {
      hide Basic, LocalInv, SinkInv, RemoteInv, Spared, SamePeople;
      EventKeeps(View(), who, ScreenEnd(p, kind));
      ScreenEndedPeople(View(), p, kind);
      members := RemoveEverywhere(members, p, Key(p, kind));
    }

    method OnConnected(s: Sid)
      requires Valid() && s in members
      modifies this
      ensures Valid() && Wired(old(View())) && View() == Connected(old(View()), s)
      ensures SamePeople(WithMember(old(View()), s, old(members)[s].(connected := true)), View())
      ensures old(Complete()) ==> Complete()
    {
      hide Basic, LocalInv, SinkInv, RemoteInv, AttachedPublishers, SamePeople;
      EventKeeps(View(), who, Connect(s));
      ConnectPeople(View(), s);
      if members[s].connected {
        return;
      }
      members := members[s := members[s].(connected := true)];
      var r := EnsurePublishers(Room(members, remotes, current, sinks, nextInst), s);
      Store(r);
    }

    /** Subscribing clears, and unsubscribing sets, the marks of the masked dimensions of that user on s;
        every other mark of s, its rights and flags, and everybody else's stay. */
    method SetSubscription(s: Sid, uid: Uid, mask: Marks, want: bool)
      requires Valid() && s in members
      modifies this
      ensures Valid() && Wired(old(View())) && View() == Resubscribed(old(View()), s, uid, mask, want)
      ensures members.Keys == old(members).Keys && sinks == old(sinks) && current == old(current)
      ensures forall u, kind :: Unsubscribed(members[s], u, kind) <==>
                                  if u == uid && (if kind == Audio then mask.audio else mask.video) then !want
                                  else Unsubscribed(old(members)[s], u, kind)
      ensures SamePerson(old(members)[s].(marks := members[s].marks), members[s])
      ensures forall x | x in members && x != s :: SamePerson(old(members)[x], members[x])
      ensures forall x | x in members :: KeepsTracks(old(members)[x], members[x])
      ensures old(Complete()) ==> Complete()
    {
      hide Basic, LocalInv, SinkInv, RemoteInv, Resubscribed, Unsubscribed, KeepsTracks;
      EventKeeps(View(), who, Event.SetSubscription(s, uid, mask, want));
      SubscriptionMarks(View(), s, uid, mask, want);
      SubscriptionKeeps(View(), s, uid, mask, want);
      if mask.Empty() {
        EmptyMaskChangesNothing(View(), s, uid, mask, want);
        return;
      }
      var r := Room(members, remotes, current, sinks, nextInst);
      r := Resubscribe(r, s, uid, mask, want);
      Store(r);
    }

    /** Service of remote publishers survives a caps update if and only if the update is grantable and
        takes no due remote track along. */
    method ApplyCaps(p: Sid, caps: Caps)
      requires Valid() && p in members
      modifies this
      ensures Valid() && Wired(old(View())) && View() == CapsApplied(old(View()), p, caps)
      ensures SamePeople(WithMember(old(View()), p, old(members)[p].(caps := caps)), View())
      ensures old(Complete()) ==>
                (Complete() <==> && Grantable(old(View()), p, caps)
                                 && (Silences(old(members[p]), caps) ==> Spared(old(View()), p, AudioKey(p))))
    {
      hide Basic, LocalInv, SinkInv, RemoteInv, CapsApplied, Grantable, Spared, SamePeople;
      EventKeeps(View(), who, Event.ApplyCaps(p, caps));
      CapsPeople(View(), p, caps);
      var r := ReplaceCaps(Room(members, remotes, current, sinks, nextInst), p, caps);
      Store(r);
    }

    /** The new publisher, unless the key is taken. */
    method AddRemotePublisher(id: RemoteId, key: Key, uid: Uid) returns (ok: bool)
      requires Valid() && id !in remotes && uid == who(key.sid)
      modifies this
      ensures ok <==> key !in old(current)
      ensures Valid() && View() == RemoteAdded(old(View()), id, key, uid)
      ensures !ok ==> View() == old(View())
      ensures ok ==> forall s | s in old(members) :: s in members && KeepsTracks(old(members)[s], members[s])
      ensures ok ==> current == old(current)[key := id] && SamePeople(old(View()).(current := current), View())
      ensures old(Complete()) ==> Complete()
    {
      hide Basic, LocalInv, SinkInv, RemoteInv, RemoteAdded, SamePeople, KeepsTracks;
      EventKeeps(View(), who, AddRemote(id, key, uid));
      RemoteAddedPeople(View(), id, key, uid);
      if key !in current {
        TakenOver(View(), id, key, uid);
      }
      if key in current {
        TakenKeyChangesNothing(View(), id, key, uid);
        return false;
      }
      var r := Register(Room(members, remotes, current, sinks, nextInst), id, key, uid);
      Store(r);
      ok := true;
    }

    /** Remote service survives if and only if nobody else is due a remote track of p's session. */
    method RemoveParticipant(p: Sid)
      requires Valid() && p in members
      modifies this
      ensures Valid() && Wired(old(View())) && View() == Left(old(View()), p)
      ensures SamePeople(old(View()).(members := old(members) - {p}), View())
      ensures forall s, k | s in members && k in members[s].down :: k.sid != p
      ensures old(Complete()) ==> (Complete() <==> SparedAll(old(View()), p))
    {
      hide Basic, LocalInv, SinkInv, RemoteInv, Left, SparedAll, SamePeople;
      EventKeeps(View(), who, Leave(p));
      LeftPeople(View(), p);
      var r := PurgeMember(Room(members, remotes, current, sinks, nextInst), p);
      Store(r);
    }

    /** A session already in the room under that sid is removed first. */
    method AddParticipant(s: Sid, uid: Uid, caps: Caps)
      requires Valid() && uid == who(s)
      modifies this
      ensures Valid() && Wired(old(View())) && View() == Joined(old(View()), s, uid, caps)
      ensures s in members && members[s] == Member(old(nextInst), uid, caps, false, false, map[], map[], 0, None)
      ensures SamePeople(old(View()).(members := old(members) - {s}), View().(members := members - {s}))
      ensures old(Complete()) ==> (Complete() <==> (s in old(members) ==> SparedAll(old(View()), s)))
    {
      hide Basic, LocalInv, SinkInv, RemoteInv, Left, SparedAll, SamePerson;
      EventKeeps(View(), who, Join(s, uid, caps));
      LeftPeople(View(), s);
      if s in members {
        RemoveParticipant(s);
      } else {
        assert members - {s} == members;
        SamePeopleSelf(View());
      }
      ghost var rest := members;
      members := members[s := NewMember(nextInst, uid, caps)];
      assert members - {s} == rest;
      nextInst := nextInst + 1;
    }

    /** Refused when the publisher is not in the room. */
    method AttachCascadeSink(p: Sid, n: nat) returns (ok: bool)
      requires Valid()
      modifies this
      ensures ok <==> p in old(members)
      ensures Valid() && View() == SinkAttached(old(View()), p, n)
      ensures forall q, m :: q in sinks && m in sinks[q] <==>
                               (ok && q == p && m == n) || (q in old(sinks) && m in old(sinks)[q])
      ensures SamePeople(old(View()).(sinks := sinks), View())
      ensures old(Complete()) ==> Complete()
    {
      hide Basic, LocalInv, SinkInv, RemoteInv, Fanout, SamePeople;
      EventKeeps(View(), who, AttachSink(p, n));
      SinkPeople(View(), p, n);
      if p !in members {
        return false;
      }
      sinks := sinks[p := (if p in sinks then sinks[p] else {}) + {n}];
      var r := RebuildLocal(Room(members, remotes, current, sinks, nextInst), {p});
      Store(r);
      ok := true;
    }

    method DetachCascadeSink(p: Sid, n: nat)
      requires Valid()
      modifies this
      ensures Valid() && View() == SinkDetached(old(View()), p, n)
      ensures forall q, m :: q in sinks && m in sinks[q] <==>
                               q in old(sinks) && m in old(sinks)[q] && !(q == p && m == n)
      ensures SamePeople(old(View()).(sinks := sinks), View())
      ensures old(Complete()) ==> Complete()
    {
      hide Basic, LocalInv, SinkInv, RemoteInv, Fanout, SamePeople;
      EventKeeps(View(), who, DetachSink(p, n));
      SinkPeople(View(), p, n);
      var rest := (if p in sinks then sinks[p] else {}) - {n};
      sinks := if rest == {} then sinks - {p} else sinks[p := rest];
      var r := RebuildLocal(Room(members, remotes, current, sinks, nextInst), {p});
      Store(r);
    }

    /** The publisher falls silent and its key is free for the next registration; every member keeps
        its down track, so that one can be taken over without negotiation. */
    method CloseRemotePublisher(id: RemoteId)
      requires Valid() && id in remotes
      modifies this
      ensures Valid() && (old(Complete()) ==> Complete())
      ensures id in remotes && remotes[id].closed && remotes[id].fanout == None
      ensures forall k | k in current :: current[k] != id
      ensures members == old(members) && sinks == old(sinks)
      ensures forall k | k in old(current) && old(current)[k] != id :: k in current && current[k] == old(current)[k]
      ensures forall x | x in old(remotes) && x != id :: x in remotes && remotes[x] == old(remotes)[x]
    {
      hide LocalInv, SinkInv, RemoteInv, MemberOk;
      EventKeeps(View(), who, CloseRemote(id));
      assert RemoteOk(who, View(), id);
      var rp := remotes[id];
      if rp.closed {
        return;
      }
      if rp.key in current && current[rp.key] == id {
        current := current - {rp.key};
      }
      remotes := remotes[id := rp.(closed := true, fanout := None)];
    }
  }

  lemma EmptyMaskChangesNothing(r: Room, s: Sid, uid: Uid, mask: Marks, want: bool)
    requires Wired(r) && s in r.members && mask.Empty()
    ensures Resubscribed(r, s, uid, mask, want) == r
  {}

  lemma TakenKeyChangesNothing(r: Room, id: RemoteId, key: Key, uid: Uid)
    requires key in r.current
    ensures RemoteAdded(r, id, key, uid) == r
  {}

  method Resubscribe(r: Room, s: Sid, uid: Uid, mask: Marks, want: bool) returns (r': Room)
    requires Wired(r) && s in r.members && !mask.Empty()
    ensures r' == Resubscribed(r, s, uid, mask, want)
  {
    hide LocalTracks, RemoteTracks, Marked, RebuiltLocal, RebuiltRemote;
    var m := Mark(r.members[s], uid, mask, want);
    r' := WithMember(r, s, m);
    if mask.audio {
      var ps := set p | p in r'.members && p != s && r'.members[p].uid == uid;
      var rl := r';
      if want {
        var ml := EnsureLocalTracks(r'.members, s, ps);
        rl := WithMember(r', s, ml);
        LocalHalfIsWired(r', s, ml, ps);
      } else {
        LocalHalfIsWired(r, s, m, ps);
      }
      r' := RebuildLocal(rl, ps);
    }
    assert Wired(r') && s in r'.members;
    var keys := set k | k in r'.current && r'.remotes[r'.current[k]].uid == uid && if k.kind == Audio then mask.audio
          else mask.video;
    if want {
      var mr := EnsureRemoteTracks(r', r'.members[s], keys);
      r' := WithMember(r', s, mr);
    }
    r' := RebuildRemotes(r', keys);
  }

  method ReplaceCaps(r: Room, p: Sid, caps: Caps) returns (r': Room)
    requires Wired(r) && p in r.members
    ensures r' == CapsApplied(r, p, caps)
  {
    var was := r.members[p].caps;
    r' := WithMember(r, p, r.members[p].(caps := caps));
    if was.publishAudio && !caps.publishAudio {
      if r'.members[p].publishing {
        r' := DetachPublisher(r', p);
      } else {
        r' := WithMember(r', p, r'.members[p].(fanout := None));
      }
    }
    if !was.publishAudio && caps.publishAudio && r'.members[p].publishing {
      r' := EnsureSubscribers(r', p);
    }
    ghost var r1 := PublishRight(CapsSet(r, p, caps), p, was);
    assert r' == r1;
    PublishRightIsWired(CapsSet(r, p, caps), p, was);
    hide PublishRight, AttachedPublishers, RebuiltLocal, RebuiltRemote;
    if was.subscribeAudio && !caps.subscribeAudio {
      var stripped := Strip(r'.members[p]);
      r' := WithMember(r', p, stripped);
    }
    if !was.subscribeAudio && caps.subscribeAudio {
      r' := EnsurePublishers(r', p);
    }
    assert r' == SubscribeRight(r1, p, was);
    SubscribeRightIsWired(r1, p, was);
    hide SubscribeRight;
    r' := RebuildLocal(r', r'.members.Keys);
    RebuildIsWired(SubscribeRight(r1, p, was));
    r' := RebuildRemotes(r', r'.current.Keys);
  }

  lemma PublishRightIsWired(r: Room, p: Sid, was: Caps)
    requires Wired(r) && p in r.members
    ensures var r' := PublishRight(r, p, was);
      Wired(r') && p in r'.members && r'.members[p].caps == r.members[p].caps && r'.current == r.current
  {}

  lemma SubscribeRightIsWired(r: Room, p: Sid, was: Caps)
    requires Wired(r) && p in r.members
    ensures Wired(SubscribeRight(r, p, was))
  {
    hide LocalTracks, RemoteTracks, RemoteFanout, Fanout, Stripped;
  }

  lemma RebuildIsWired(r: Room)
    requires Wired(r)
    ensures Wired(RebuiltLocal(r, r.members.Keys)) && RebuiltLocal(r, r.members.Keys).current == r.current
  {}

  /** Every audio down track removed, one by one. */
  method Strip(m: Member) returns (m': Member)
    ensures m' == Stripped(m)
  {
    var down, removed := m.down, 0;
    var audio := set k | k in m.down && k.kind == Audio;
    var todo := audio;
    while todo != {}
      invariant todo <= audio && removed == |audio| - |todo|
      invariant forall k :: k in down <==> k in m.down && (k.kind != Audio || k in todo)
      invariant forall k | k in down :: down[k] == m.down[k]
      decreases todo
    {
      var k :| k in todo;
      todo := todo - {k};
      down, removed := down - {k}, removed + 1;
    }
    assert down == map k | k in m.down && k.kind != Audio :: m.down[k];
    m' := m.(down := down, gen := m.gen + removed);
  }

  method PurgeMember(r: Room, p: Sid) returns (r': Room)
    requires Wired(r) && p in r.members
    ensures r' == Left(r, p)
  {
    hide Purged, RemoteFanout;
    var ms := r.members - {p};
    var todo := r.members.Keys - {p};
    while todo != {}
      invariant todo <= r.members.Keys - {p} && ms.Keys == r.members.Keys - {p}
      invariant forall s | s in r.members && s != p ::
                  ms[s] == if s in todo then r.members[s] else Purged(r.members[s], p)
      decreases todo
    {
      var s :| s in todo;
      todo := todo - {s};
      ms := ms[s := Purged(ms[s], p)];
    }
    assert ms == map s | s in r.members && s != p :: Purged(r.members[s], p);
    hide RebuiltRemote;
    r' := RebuildRemotes(r.(members := ms), r.current.Keys);
  }

  method Register(r: Room, id: RemoteId, key: Key, uid: Uid) returns (r': Room)
    requires Wired(r) && id !in r.remotes && key !in r.current
    ensures r' == RemoteAdded(r, id, key, uid)
  {
    hide EnsureRemote, RemoteFanout;
    var rp := Remote(key, uid, false, None);
    var ms := r.members;
    var todo := r.members.Keys;
    while todo != {}
      invariant todo <= r.members.Keys && ms.Keys == r.members.Keys
      invariant forall s | s in r.members ::
                  ms[s] == if s in todo then r.members[s] else EnsureRemote(id, rp, r.members[s])
      decreases todo
    {
      var s :| s in todo;
      todo := todo - {s};
      ms := ms[s := EnsureRemote(id, rp, ms[s])];
    }
    assert ms == map s | s in r.members :: EnsureRemote(id, rp, r.members[s]);
    var r1 := r.(remotes := r.remotes[id := rp], current := r.current[key := id], members := ms);
    hide RebuiltRemote;
    r' := RebuildRemotes(r1, {key});
  }
}
