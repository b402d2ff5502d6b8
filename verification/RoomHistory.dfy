/** What a room knows of its members, publishers and sinks is what the events have said: each fact holds
    from the event that starts it to the event that ends it. With the service theorems this says, in terms
    of the events alone, whom every packet reaches. */
module RoomHistory {
  import opened Options
  import opened Tracks
  import opened RoomForwarding
  import opened RoomRuns
  import opened SinkService
  import opened RemoteTakeover

  datatype Fact =
    | InRoom(sid: Sid)
    | HasCaps(sid: Sid, caps: Caps)
    | IsConnected(sid: Sid)
    | IsPublishing(sid: Sid)
    | IsMuted(sid: Sid, uid: Uid, kind: Kind)     // sid has unsubscribed uid in the dimension of that kind
    | IsSunk(sid: Sid, n: nat)
    | IsRegistered(id: RemoteId, key: Key)

  predicate Holds(r: Room, f: Fact) {
    match f
    case InRoom(s) => s in r.members
    case HasCaps(s, caps) => s in r.members && r.members[s].caps == caps
    case IsConnected(s) => s in r.members && r.members[s].connected
    case IsPublishing(s) => s in r.members && r.members[s].publishing
    case IsMuted(s, uid, kind) => s in r.members && Unsubscribed(r.members[s], uid, kind)
    case IsSunk(s, n) => s in r.sinks && n in r.sinks[s]
    case IsRegistered(id, key) => key in r.current && r.current[key] == id
  }

  /** The event, coming in r, makes f true. A sink is attached to a member only, and a key is registered
      only if it is free. */
  predicate Starts(r: Room, ev: Event, f: Fact) {
    match f
    case InRoom(s) => ev.Join? && ev.sid == s
    case HasCaps(s, caps) => (ev.Join? || ev.ApplyCaps?) && ev.sid == s && ev.caps == caps
    case IsConnected(s) => ev == Connect(s)
    case IsPublishing(s) => ev == TrackUp(s)
    case IsMuted(s, uid, kind) => Decides(ev, s, uid, kind) && !ev.want
    case IsSunk(s, n) => ev == AttachSink(s, n) && s in r.members
    case IsRegistered(id, key) => ev.AddRemote? && ev.id == id && ev.key == key && key !in r.current
  }

  /** The event, unless it starts f, makes f false. */
  predicate Ends(ev: Event, f: Fact) {
    match f
    case InRoom(s) => ev == Leave(s)
    case HasCaps(s, _) => ev == Leave(s) || ((ev.Join? || ev.ApplyCaps?) && ev.sid == s)
    case IsConnected(s) => ev == Leave(s) || (ev.Join? && ev.sid == s)
    case IsPublishing(s) => ev == TrackEnd(s) || ev == Leave(s) || (ev.Join? && ev.sid == s)
    case IsMuted(s, uid, kind) => Decides(ev, s, uid, kind) || ev == Leave(s) || (ev.Join? && ev.sid == s)
    case IsSunk(s, n) => ev == DetachSink(s, n)
    case IsRegistered(id, _) => ev == CloseRemote(id)
  }

  /** A subscription change of s that names user uid and the dimension of that kind. */
  predicate Decides(ev: Event, s: Sid, uid: Uid, kind: Kind) {
    && ev.SetSubscription? && ev.sid == s && ev.uid == uid
    && match kind
       case Audio => ev.mask.audio
       case Screen => ev.mask.video
       case ScreenAudio => ev.mask.video
  }

  /** Some event before i started f, and none since has ended it. */
  ghost predicate Said(states: seq<Room>, evs: seq<Event>, i: nat, f: Fact)
    requires i <= |evs| <= |states|
  {
    exists j :: 0 <= j < i && Starts(states[j], evs[j], f) && forall m | j < m < i :: !Ends(evs[m], f)
  }

  lemma SaidStep(states: seq<Room>, evs: seq<Event>, i: nat, f: Fact)
    requires i < |evs| <= |states|
    ensures Said(states, evs, i + 1, f) <==>
              Starts(states[i], evs[i], f) || (Said(states, evs, i, f) && !Ends(evs[i], f))
  {
    hide Starts, Ends;
    if Said(states, evs, i + 1, f) && !Starts(states[i], evs[i], f) {
      var j :| 0 <= j < i + 1 && Starts(states[j], evs[j], f) && forall m | j < m < i + 1 :: !Ends(evs[m], f);
      assert j < i && !Ends(evs[i], f);
    }
    if Said(states, evs, i, f) && !Ends(evs[i], f) {
      var j :| 0 <= j < i && Starts(states[j], evs[j], f) && forall m | j < m < i :: !Ends(evs[m], f);
      assert forall m | j < m < i + 1 :: !Ends(evs[m], f);
    }
  }

  // ---------------------------------------------------------------------------------------------
  // What the operations leave alone
  // ---------------------------------------------------------------------------------------------

  /** Rights, marks and flags are as before. */
  predicate SamePerson(m: Member, m': Member) {
    && m'.uid == m.uid && m'.caps == m.caps && m'.connected == m.connected && m'.publishing == m.publishing
    && m'.marks == m.marks
  }

  /** Nobody's rights, marks or flags have changed, except perhaps x's; nor has who is here. */
  predicate SamePeople(r: Room, r': Room) {
    && r'.members.Keys == r.members.Keys && r'.sinks == r.sinks && r'.current == r.current
    && forall s | s in r.members :: SamePerson(r.members[s], r'.members[s])
  }

  lemma TracksArePersonal(p: Sid, pub: Member, id: RemoteId, rp: Remote, m: Member, k: Key)
    ensures SamePerson(m, EnsureLocal(p, pub, m)) && SamePerson(m, EnsureRemote(id, rp, m))
    ensures SamePerson(m, Without(m, k)) && SamePerson(m, Purged(m, p)) && SamePerson(m, Stripped(m))
  {}

  lemma OfferedTracks(ms: map<Sid, Member>, s: Sid, ps: set<Sid>)
    requires s in ms
    ensures SamePerson(ms[s], LocalTracks(ms, s, ps))
  {}

  lemma GrantedTracks(r: Room, m: Member, keys: set<Key>)
    requires Wired(r)
    ensures SamePerson(m, RemoteTracks(r, m, keys))
  {}

  lemma RebuiltPeople(r: Room, ps: set<Sid>, keys: set<Key>)
    ensures SamePeople(r, RebuiltLocal(r, ps)) && SamePeople(r, RebuiltRemote(r, keys))
  {}

  lemma SamePeopleThen(a: Room, b: Room, c: Room)
    requires SamePeople(a, b) && SamePeople(b, c)
    ensures SamePeople(a, c)
  {}

  lemma OneMember(r: Room, s: Sid, m: Member)
    requires s in r.members && SamePerson(r.members[s], m)
    ensures SamePeople(r, WithMember(r, s, m))
  {}

  lemma AttachedSubscribersPeople(r: Room, p: Sid)
    requires p in r.members
    ensures SamePeople(r, AttachedSubscribers(r, p))
  {
    hide EnsureLocal, Fanout;
    var r1 := r.(members := map s | s in r.members ::
          if s == p then r.members[s] else EnsureLocal(p, r.members[p], r.members[s]));
    forall s | s in r.members ensures SamePerson(r.members[s], r1.members[s]) {
      TracksArePersonal(p, r.members[p], 0, Remote(AudioKey(p), "", true, None), r.members[s], AudioKey(p));
    }
    RebuiltPeople(r1, {p}, {});
  }

  lemma DetachedPeople(r: Room, p: Sid)
    requires p in r.members
    ensures SamePeople(r, Detached(r, p))
  {
    hide Without;
    var r' := Detached(r, p);
    forall s | s in r.members ensures SamePerson(r.members[s], r'.members[s]) {
      TracksArePersonal(p, r.members[p], 0, Remote(AudioKey(p), "", true, None), r.members[s], AudioKey(p));
    }
  }

  lemma ScreenEndedPeople(r: Room, p: Sid, kind: Kind)
    requires p in r.members
    ensures SamePeople(r, ScreenEnded(r, p, kind))
  {
    hide Without;
    var r' := ScreenEnded(r, p, kind);
    forall s | s in r.members ensures SamePerson(r.members[s], r'.members[s]) {
      TracksArePersonal(p, r.members[p], 0, Remote(AudioKey(p), "", true, None), r.members[s], Key(p, kind));
    }
  }

  lemma AttachedPublishersPeople(r: Room, s: Sid)
    requires Wired(r) && s in r.members
    ensures SamePeople(r, AttachedPublishers(r, s))
  {
    hide LocalTracks, RemoteTracks, RebuiltLocal, RebuiltRemote, SamePeople;
    var ps := Publishers(r.members, s);
    var r0 := WithMember(r, s, LocalTracks(r.members, s, ps));
    OfferedTracks(r.members, s, ps);
    OneMember(r, s, LocalTracks(r.members, s, ps));
    var r1 := RebuiltLocal(r0, ps);
    RebuiltPeople(r0, ps, {});
    SamePeopleThen(r, r0, r1);
    LocalRebuildIsWired(r, s, LocalTracks(r.members, s, ps), ps);
    var r2 := WithMember(r1, s, RemoteTracks(r1, r1.members[s], r1.current.Keys));
    GrantedTracks(r1, r1.members[s], r1.current.Keys);
    OneMember(r1, s, RemoteTracks(r1, r1.members[s], r1.current.Keys));
    SamePeopleThen(r, r1, r2);
    RebuiltPeople(r2, {}, r2.current.Keys);
    SamePeopleThen(r, r2, RebuiltRemote(r2, r2.current.Keys));
  }

  lemma LocalRebuildIsWired(r: Room, s: Sid, m: Member, ps: set<Sid>)
    requires Wired(r)
    ensures var r1 := RebuiltLocal(WithMember(r, s, m), ps); Wired(r1) && s in r1.members
  {}

  lemma PublishRightPeople(r: Room, p: Sid, was: Caps)
    requires Wired(r) && p in r.members
    ensures SamePeople(r, PublishRight(r, p, was)) && Wired(PublishRight(r, p, was))
  {
    AttachedSubscribersPeople(r, p);
    DetachedPeople(r, p);
    assert SamePerson(r.members[p], r.members[p].(fanout := None));
    OneMember(r, p, r.members[p].(fanout := None));
    hide SamePeople;
  }

  lemma SubscribeRightPeople(r: Room, p: Sid, was: Caps)
    requires Wired(r) && p in r.members
    ensures SamePeople(r, SubscribeRight(r, p, was))
  {
    AttachedPublishersPeople(r, p);
    TracksArePersonal(p, r.members[p], 0, Remote(AudioKey(p), "", true, None), r.members[p], AudioKey(p));
    OneMember(r, p, Stripped(r.members[p]));
    hide Stripped, AttachedPublishers;
  }

  /** A caps update changes one member's caps. */
  lemma CapsPeople(r: Room, p: Sid, caps: Caps)
    requires Wired(r) && p in r.members
    ensures SamePeople(CapsSet(r, p, caps), CapsApplied(r, p, caps))
  {
    hide SamePeople, PublishRight, SubscribeRight, RebuiltLocal, RebuiltRemote;
    var was, r0 := r.members[p].caps, CapsSet(r, p, caps);
    PublishRightPeople(r0, p, was);
    var r1 := PublishRight(r0, p, was);
    SamePeopleMembers(r0, r1);
    SubscribeRightPeople(r1, p, was);
    var r2 := SubscribeRight(r1, p, was);
    SamePeopleThen(r0, r1, r2);
    var r3 := RebuiltLocal(r2, r2.members.Keys);
    RebuiltPeople(r2, r2.members.Keys, {});
    RebuiltPeople(r3, {}, r2.current.Keys);
    SamePeopleThen(r0, r2, r3);
    SamePeopleThen(r0, r3, RebuiltRemote(r3, r2.current.Keys));
  }

  lemma SamePeopleMembers(r: Room, r': Room)
    requires SamePeople(r, r')
    ensures r'.members.Keys == r.members.Keys && r'.current == r.current && r'.sinks == r.sinks
  {}

  /** A subscription change sets one member's marks. */
  lemma ResubscribedPeople(r: Room, s: Sid, uid: Uid, mask: Marks, want: bool)
    requires Wired(r) && s in r.members && !mask.Empty()
    ensures SamePeople(WithMember(r, s, Marked(r.members[s], uid, mask, want)), Resubscribed(r, s, uid, mask, want))
  {
    hide SamePeople, LocalTracks, RemoteTracks, RebuiltLocal, RebuiltRemote, Marked, KeysOf;
    var r1 := WithMember(r, s, Marked(r.members[s], uid, mask, want));
    assert Wired(r1);
    SamePeopleSelf(r1);
    var r2 := if mask.audio then AudioResubscribed(r1, s, uid, want) else r1;
    if mask.audio {
      AudioPeople(r1, s, uid, want);
    }
    SamePeopleMembers(r1, r2);
    var keys := KeysOf(r2, uid, mask);
    GrantedTracks(r2, r2.members[s], keys);
    OneMember(r2, s, RemoteTracks(r2, r2.members[s], keys));
    SamePeopleSelf(r2);
    var r3 := if want then WithMember(r2, s, RemoteTracks(r2, r2.members[s], keys)) else r2;
    RebuiltPeople(r3, {}, keys);
    SamePeopleThen(r1, r2, r3);
    SamePeopleThen(r1, r3, RebuiltRemote(r3, keys));
  }

  lemma SamePeopleSelf(r: Room)
    ensures SamePeople(r, r)
  {}

  lemma AudioPeople(r: Room, s: Sid, uid: Uid, want: bool)
    requires Wired(r) && s in r.members
    ensures SamePeople(r, AudioResubscribed(r, s, uid, want)) && Wired(AudioResubscribed(r, s, uid, want))
  {
    hide SamePeople, LocalTracks;
    var ps := Others(r.members, s, uid);
    OfferedTracks(r.members, s, ps);
    OneMember(r, s, LocalTracks(r.members, s, ps));
    SamePeopleSelf(r);
    var r1 := if want then WithMember(r, s, LocalTracks(r.members, s, ps)) else r;
    RebuiltPeople(r1, ps, {});
    SamePeopleThen(r, r1, RebuiltLocal(r1, ps));
  }

  /** Every down-track object m has is one m' has: nothing is renegotiated away. */
  predicate KeepsTracks(m: Member, m': Member) {
    forall k | k in m.down :: k in m'.down && m'.down[k].gen == m.down[k].gen && m'.down[k].pubUid == m.down[k].pubUid
  }

  lemma TakenOver(r: Room, id: RemoteId, key: Key, uid: Uid)
    requires key !in r.current
    ensures forall s | s in r.members ::
              && s in RemoteAdded(r, id, key, uid).members
              && KeepsTracks(r.members[s], RemoteAdded(r, id, key, uid).members[s])
  {}

  lemma MarkedKeeps(m: Member, uid: Uid, mask: Marks, want: bool)
    ensures KeepsTracks(m, Marked(m, uid, mask, want))
  {}

  lemma LocalKeeps(r: Room, s: Sid, uid: Uid, want: bool)
    requires s in r.members
    ensures var r' := AudioResubscribed(r, s, uid, want);
      forall x | x in r.members :: x in r'.members && KeepsTracks(r.members[x], r'.members[x])
  {
    hide Fanout, Lacks;
  }

  lemma RemoteKeeps(r: Room, m: Member, keys: set<Key>)
    requires Wired(r)
    ensures KeepsTracks(m, RemoteTracks(r, m, keys))
  {}

  lemma SubscriptionKeeps(r: Room, s: Sid, uid: Uid, mask: Marks, want: bool)
    requires Wired(r) && s in r.members
    ensures var r' := Resubscribed(r, s, uid, mask, want);
      forall x | x in r.members :: x in r'.members && KeepsTracks(r.members[x], r'.members[x])
  {
    hide RemoteTracks, AudioResubscribed, Marked, RemoteFanout, KeepsTracks;
    var r1 := WithMember(r, s, Marked(r.members[s], uid, mask, want));
    MarkedKeeps(r.members[s], uid, mask, want);
    var r2 := if mask.audio then AudioResubscribed(r1, s, uid, want) else r1;
    LocalKeeps(r1, s, uid, want);
    AudioPeople(r1, s, uid, want);
    var keys := KeysOf(r2, uid, mask);
    RemoteKeeps(r2, r2.members[s], keys);
    forall x | x in r.members ensures x in r2.members && KeepsTracks(r.members[x], r2.members[x]) {
      KeepsOn(r.members[x], r1.members[x], r2.members[x]);
    }
    KeepsOn(r.members[s], r2.members[s], RemoteTracks(r2, r2.members[s], keys));
  }

  lemma KeepsOn(a: Member, b: Member, c: Member)
    ensures KeepsTracks(a, a) && (KeepsTracks(a, b) && KeepsTracks(b, c) ==> KeepsTracks(a, c))
  {}

  lemma LeftPeople(r: Room, x: Sid)
    ensures SamePeople(r.(members := r.members - {x}), Left(r, x)) && Left(r, x).nextInst == r.nextInst
    ensures forall s, k | s in Left(r, x).members && k in Left(r, x).members[s].down :: k.sid != x
  {}

  lemma RemoteAddedPeople(r: Room, id: RemoteId, key: Key, uid: Uid)
    ensures var r' := RemoteAdded(r, id, key, uid);
      SamePeople(r.(current := r'.current), r') && r'.current == if key in r.current then r.current
                                                                 else r.current[key := id]
  {
    hide EnsureRemote, RemoteFanout;
    forall s, rp | s in r.members ensures SamePerson(r.members[s], EnsureRemote(id, rp, r.members[s])) {
      TracksArePersonal(s, r.members[s], id, rp, r.members[s], key);
    }
  }

  lemma SinkPeople(r: Room, p: Sid, n: nat)
    ensures var r' := SinkAttached(r, p, n);
      && SamePeople(r.(sinks := r'.sinks), r')
      && forall q, m :: q in r'.sinks && m in r'.sinks[q] <==>
                          (p in r.members && q == p && m == n) || (q in r.sinks && m in r.sinks[q])
    ensures var r' := SinkDetached(r, p, n);
      && SamePeople(r.(sinks := r'.sinks), r')
      && forall q, m :: q in r'.sinks && m in r'.sinks[q] <==> q in r.sinks && m in r.sinks[q] && !(q == p && m == n)
  {
    hide RebuiltLocal;
    var rest := SinksOf(r, p) - {n};
    RebuiltPeople(r.(sinks := r.sinks[p := SinksOf(r, p) + {n}]), {p}, {});
    RebuiltPeople(r.(sinks := if rest == {} then r.sinks - {p} else r.sinks[p := rest]), {p}, {});
    SinkSets(r.sinks, p, n);
  }

  lemma SinkSets(sinks: map<Sid, set<nat>>, p: Sid, n: nat)
    ensures var rest := (if p in sinks then sinks[p] else {}) - {n};
      var down := if rest == {} then sinks - {p} else sinks[p := rest];
      forall q, m :: q in down && m in down[q] <==> q in sinks && m in sinks[q] && !(q == p && m == n)
  {
    var rest := (if p in sinks then sinks[p] else {}) - {n};
    var down := if rest == {} then sinks - {p} else sinks[p := rest];
    forall q, m ensures q in down && m in down[q] <==> q in sinks && m in sinks[q] && !(q == p && m == n) {
      assert m in rest <==> p in sinks && m in sinks[p] && m != n;
    }
  }

  // ---------------------------------------------------------------------------------------------
  // Event by event
  // ---------------------------------------------------------------------------------------------

  lemma SamePeopleHold(r: Room, r': Room, f: Fact)
    requires SamePeople(r, r')
    ensures Holds(r', f) <==> Holds(r, f)
  {
    var s := if f.IsRegistered? then "" else f.sid;
    if s in r.members {
      assert SamePerson(r.members[s], r'.members[s]);
    }
  }

  lemma LeftSays(r: Room, x: Sid, f: Fact)
    requires x in r.members
    ensures Holds(Left(r, x), f) <==> Holds(r, f) && !Ends(Leave(x), f)
  {
    hide Purged, RemoteFanout;
    forall s | s in r.members && s != x ensures SamePerson(r.members[s], Purged(r.members[s], x)) {
      TracksArePersonal(x, r.members[x], 0, Remote(AudioKey(x), "", true, None), r.members[s], AudioKey(x));
    }
  }

  lemma JoinedSays(r: Room, s: Sid, uid: Uid, caps: Caps, f: Fact)
    ensures Holds(Joined(r, s, uid, caps), f) <==>
              Starts(r, Join(s, uid, caps), f) || (Holds(r, f) && !Ends(Join(s, uid, caps), f))
  {
    hide Left;
    if s in r.members {
      LeftSays(r, s, f);
      LeftIsGone(r, s);
    }
    hide Holds, Ends, Starts;
    var r1 := if s in r.members then Left(r, s) else r;
    assert s !in r1.members;
    EnteredSays(r, r1, s, uid, caps, f);
  }

  lemma EnteredSays(r: Room, r1: Room, s: Sid, uid: Uid, caps: Caps, f: Fact)
    requires s !in r1.members
    requires Holds(r1, f) <==> Holds(r, f) && (s in r.members ==> !Ends(Leave(s), f))
    ensures var r' := WithMember(r1, s, NewMember(r1.nextInst, uid, caps)).(nextInst := r1.nextInst + 1);
      Holds(r', f) <==> Starts(r, Join(s, uid, caps), f) || (Holds(r, f) && !Ends(Join(s, uid, caps), f))
  {}

  lemma RemoteAddedSays(r: Room, id: RemoteId, key: Key, uid: Uid, f: Fact)
    ensures Holds(RemoteAdded(r, id, key, uid), f) <==>
              Starts(r, AddRemote(id, key, uid), f) || (Holds(r, f) && !Ends(AddRemote(id, key, uid), f))
  {
    hide EnsureRemote, RemoteFanout;
    forall s, rp | s in r.members ensures SamePerson(r.members[s], EnsureRemote(id, rp, r.members[s])) {
      TracksArePersonal(s, r.members[s], id, rp, r.members[s], key);
    }
  }

  lemma RemoteClosedSays(r: Room, who: Sid -> Uid, id: RemoteId, f: Fact)
    requires Basic(r, who) && id in r.remotes
    ensures Holds(RemoteClosed(r, id), f) <==> Holds(r, f) && !Ends(CloseRemote(id), f)
  {
    assert RemoteOk(who, r, id);
    hide MemberOk, OwnHandles;
  }

  lemma SinksSay(r: Room, p: Sid, n: nat, f: Fact)
    ensures Holds(SinkAttached(r, p, n), f) <==> Starts(r, AttachSink(p, n), f) || Holds(r, f)
    ensures Holds(SinkDetached(r, p, n), f) <==> Holds(r, f) && !Ends(DetachSink(p, n), f)
  {
    hide RebuiltLocal, SamePeople, Starts, Ends, Holds;
    var rest := SinksOf(r, p) - {n};
    var up := r.(sinks := r.sinks[p := SinksOf(r, p) + {n}]);
    var down := r.(sinks := if rest == {} then r.sinks - {p} else r.sinks[p := rest]);
    RebuiltPeople(up, {p}, {});
    RebuiltPeople(down, {p}, {});
    SamePeopleHold(up, RebuiltLocal(up, {p}), f);
    SamePeopleHold(down, RebuiltLocal(down, {p}), f);
    SinkTable(r, p, n, up, down, f);
  }

  lemma SinkTable(r: Room, p: Sid, n: nat, up: Room, down: Room, f: Fact)
    requires up == r.(sinks := r.sinks[p := SinksOf(r, p) + {n}])
    requires var rest := SinksOf(r, p) - {n};
      down == r.(sinks := if rest == {} then r.sinks - {p} else r.sinks[p := rest])
    ensures p in r.members ==> (Holds(up, f) <==> Starts(r, AttachSink(p, n), f) || Holds(r, f))
    ensures p !in r.members ==> !Starts(r, AttachSink(p, n), f)
    ensures Holds(down, f) <==> Holds(r, f) && !Ends(DetachSink(p, n), f)
  {}

  lemma MarkedSays(m: Member, uid: Uid, mask: Marks, want: bool, u: Uid, kind: Kind)
    ensures var m' := Marked(m, uid, mask, want);
      && m'.caps == m.caps && m'.connected == m.connected && m'.publishing == m.publishing
      && (Unsubscribed(m', u, kind) <==>
            if u == uid && (if kind == Audio then mask.audio else mask.video) then !want else Unsubscribed(m, u, kind))
  {}

  lemma SubscriptionSays(r: Room, s: Sid, uid: Uid, mask: Marks, want: bool, f: Fact)
    requires Wired(r) && s in r.members
    ensures var ev := SetSubscription(s, uid, mask, want);
      Holds(Resubscribed(r, s, uid, mask, want), f) <==> Starts(r, ev, f) || (Holds(r, f) && !Ends(ev, f))
  {
    hide Resubscribed, Marked;
    var r1 := WithMember(r, s, Marked(r.members[s], uid, mask, want));
    if f.IsMuted? {
      MarkedSays(r.members[s], uid, mask, want, f.uid, f.kind);
    } else {
      MarkedSays(r.members[s], uid, mask, want, uid, Audio);
    }
    if mask.Empty() {
      NoSubscription(r, s, uid, mask, want);
    } else {
      ResubscribedPeople(r, s, uid, mask, want);
      SamePeopleHold(r1, Resubscribed(r, s, uid, mask, want), f);
    }
    hide SamePeople;
  }

  /** What a subscription change does to marks: the masked dimensions of that user on s, nothing else. */
  lemma SubscriptionMarks(r: Room, s: Sid, uid: Uid, mask: Marks, want: bool)
    requires Wired(r) && s in r.members
    ensures var r' := Resubscribed(r, s, uid, mask, want);
      && r'.members.Keys == r.members.Keys && r'.sinks == r.sinks && r'.current == r.current
      && (forall x | x in r.members && x != s :: SamePerson(r.members[x], r'.members[x]))
      && SamePerson(r.members[s].(marks := r'.members[s].marks), r'.members[s])
      && forall u, kind :: Unsubscribed(r'.members[s], u, kind) <==>
                             if u == uid && (if kind == Audio then mask.audio else mask.video) then !want
                             else Unsubscribed(r.members[s], u, kind)
  {
    hide Resubscribed, Marked, Unsubscribed;
    var m := Marked(r.members[s], uid, mask, want);
    if mask.Empty() {
      NoSubscription(r, s, uid, mask, want);
    } else {
      ResubscribedPeople(r, s, uid, mask, want);
      SameMarks(m, Resubscribed(r, s, uid, mask, want).members[s]);
    }
    forall u, kind {
      MarkedSays(r.members[s], uid, mask, want, u, kind);
    }
    MarkedPerson(r.members[s], uid, mask, want);
  }

  lemma SameMarks(m: Member, m': Member)
    requires SamePerson(m, m')
    ensures forall u, kind :: Unsubscribed(m', u, kind) <==> Unsubscribed(m, u, kind)
  {}

  lemma MarkedPerson(m: Member, uid: Uid, mask: Marks, want: bool)
    ensures SamePerson(m.(marks := Marked(m, uid, mask, want).marks), Marked(m, uid, mask, want))
  {}

  lemma NoSubscription(r: Room, s: Sid, uid: Uid, mask: Marks, want: bool)
    requires Wired(r) && s in r.members && mask.Empty()
    ensures Resubscribed(r, s, uid, mask, want) == r
  {}

  /** A change of one member's flags or caps. */
  predicate Changes(r: Room, s: Sid, m: Member, ev: Event)
    requires s in r.members
  {
    match ev
    case Connect(x) => x == s && m == r.members[s].(connected := true)
    case TrackUp(x) => x == s && m == r.members[s].(publishing := true)
    case TrackEnd(x) => x == s && m == r.members[s].(publishing := false)
    case ApplyCaps(x, caps) => x == s && m == r.members[s].(caps := caps)
    case _ => false
  }

  lemma FlagAlone(r: Room, s: Sid, m: Member, ev: Event, f: Fact)
    requires s in r.members && Changes(r, s, m, ev)
    ensures Holds(WithMember(r, s, m), f) <==> Starts(r, ev, f) || (Holds(r, f) && !Ends(ev, f))
  {}

  /** And then of tracks and snapshots only. */
  lemma FlagSays(r: Room, s: Sid, m: Member, r': Room, ev: Event, f: Fact)
    requires s in r.members && Changes(r, s, m, ev) && SamePeople(WithMember(r, s, m), r')
    ensures Holds(r', f) <==> Starts(r, ev, f) || (Holds(r, f) && !Ends(ev, f))
  {
    hide SamePeople, Holds, Starts, Ends, Changes;
    FlagAlone(r, s, m, ev, f);
    SamePeopleHold(WithMember(r, s, m), r', f);
  }

  lemma ConnectPeople(r: Room, s: Sid)
    requires Wired(r) && s in r.members
    ensures SamePeople(WithMember(r, s, r.members[s].(connected := true)), Connected(r, s))
  {
    hide AttachedPublishers, SamePeople;
    var r1 := WithMember(r, s, r.members[s].(connected := true));
    if r.members[s].connected {
      assert r1 == r;
      SamePeopleSelf(r);
    } else {
      AttachedPublishersPeople(r1, s);
    }
  }

  lemma ConnectSays(r: Room, s: Sid, f: Fact)
    requires Wired(r) && s in r.members
    ensures Holds(Connected(r, s), f) <==> Starts(r, Connect(s), f) || Holds(r, f)
  {
    hide Connected, SamePeople;
    ConnectPeople(r, s);
    FlagSays(r, s, r.members[s].(connected := true), Connected(r, s), Connect(s), f);
  }

  lemma TrackPeople(r: Room, p: Sid)
    requires p in r.members
    ensures SamePeople(WithMember(r, p, r.members[p].(publishing := true)), TrackStarted(r, p))
    ensures SamePeople(WithMember(r, p, r.members[p].(publishing := false)), TrackEnded(r, p))
  {
    hide AttachedSubscribers, Detached, SamePeople;
    var up, down := r.members[p].(publishing := true), r.members[p].(publishing := false);
    AttachedSubscribersPeople(WithMember(r, p, up), p);
    DetachedPeople(WithMember(r, p, down), p);
    SamePeopleSelf(WithMember(r, p, up));
    SamePeopleSelf(WithMember(r, p, down));
    assert r.members[p].publishing ==> WithMember(r, p, up) == r;
    assert !r.members[p].publishing ==> WithMember(r, p, down) == r;
  }

  lemma TracksSay(r: Room, p: Sid, f: Fact)
    requires p in r.members
    ensures Holds(TrackStarted(r, p), f) <==> Starts(r, TrackUp(p), f) || Holds(r, f)
    ensures Holds(TrackEnded(r, p), f) <==> Holds(r, f) && !Ends(TrackEnd(p), f)
  {
    hide TrackStarted, TrackEnded, SamePeople;
    TrackPeople(r, p);
    FlagSays(r, p, r.members[p].(publishing := true), TrackStarted(r, p), TrackUp(p), f);
    FlagSays(r, p, r.members[p].(publishing := false), TrackEnded(r, p), TrackEnd(p), f);
  }

  lemma StepSays(r: Room, who: Sid -> Uid, ev: Event, f: Fact)
    requires Basic(r, who) && Wired(r) && Enabled(r, who, ev)
    ensures Holds(Next(r, ev), f) <==> Starts(r, ev, f) || (Holds(r, f) && !Ends(ev, f))
  {
    hide Basic, Joined, Connected, TrackStarted, TrackEnded, ScreenEnded, CapsApplied, Resubscribed, Left, RemoteAdded,
         RemoteClosed, SinkAttached, SinkDetached, Wired, Holds, SamePeople;
    match ev
    case Join(s, uid, caps) => JoinedSays(r, s, uid, caps, f);
    case AddRemote(id, key, uid) => RemoteAddedSays(r, id, key, uid, f);
    case CloseRemote(id) => RemoteClosedSays(r, who, id, f);
    case AttachSink(p, n) => SinksSay(r, p, n, f);
    case DetachSink(p, n) => SinksSay(r, p, n, f);
    case Connect(s) => ConnectSays(r, s, f);
    case TrackUp(p) => TracksSay(r, p, f);
    case TrackEnd(p) => TracksSay(r, p, f);
    case ScreenEnd(p, kind) =>
      ScreenEndedPeople(r, p, kind);
      SamePeopleHold(r, ScreenEnded(r, p, kind), f);
    case ApplyCaps(p, caps) =>
      CapsPeople(r, p, caps);
      FlagSays(r, p, r.members[p].(caps := caps), CapsApplied(r, p, caps), ev, f);
    case SetSubscription(s, uid, mask, want) => SubscriptionSays(r, s, uid, mask, want, f);
    case Leave(p) => LeftSays(r, p, f);
  }

  /** In every run each fact holds exactly if an event has started it that no later event has ended. */
  lemma {:induction false} HistoryIsExact(who: Sid -> Uid, states: seq<Room>, evs: seq<Event>, i: nat, f: Fact)
    requires Run(who, states, evs) && i < |states|
    ensures Holds(states[i], f) <==> Said(states, evs, i, f)
  {
    hide Basic, LocalInv, Next, Enabled, Holds, Starts, Ends, Said;
    if i == 0 {
      NothingSaid(states, evs, f);
    } else {
      HistoryIsExact(who, states, evs, i - 1, f);
      RunServes(who, states, evs, i - 1);
      StepSays(states[i - 1], who, evs[i - 1], f);
      SaidStep(states, evs, i - 1, f);
    }
  }

  lemma NothingSaid(states: seq<Room>, evs: seq<Event>, f: Fact)
    requires |evs| <= |states| && 0 < |states| && states[0] == NEW_ROOM
    ensures !Holds(states[0], f) && !Said(states, evs, 0, f)
  {}

  // ---------------------------------------------------------------------------------------------
  // Whom packets reach, in terms of the events
  // ---------------------------------------------------------------------------------------------

  lemma InTheRoom(who: Sid -> Uid, states: seq<Room>, evs: seq<Event>, i: nat, s: Sid)
    requires Run(who, states, evs) && i < |states| && Said(states, evs, i, InRoom(s))
    ensures s in states[i].members
    ensures forall caps :: Said(states, evs, i, HasCaps(s, caps)) <==> caps == states[i].members[s].caps
    ensures Said(states, evs, i, IsConnected(s)) <==> states[i].members[s].connected
    ensures Said(states, evs, i, IsPublishing(s)) <==> states[i].members[s].publishing
    ensures forall uid, kind :: Said(states, evs, i, IsMuted(s, uid, kind)) <==>
              Unsubscribed(states[i].members[s], uid, kind)
  {
    hide Said, Unsubscribed;
    assert |states| == |evs| + 1;
    hide Run;
    HistoryIsExact(who, states, evs, i, InRoom(s));
    forall caps ensures Said(states, evs, i, HasCaps(s, caps)) <==> caps == states[i].members[s].caps {
      HistoryIsExact(who, states, evs, i, HasCaps(s, caps));
    }
    HistoryIsExact(who, states, evs, i, IsConnected(s));
    HistoryIsExact(who, states, evs, i, IsPublishing(s));
    forall uid, kind
      ensures Said(states, evs, i, IsMuted(s, uid, kind)) <==> Unsubscribed(states[i].members[s], uid, kind)
    {
      HistoryIsExact(who, states, evs, i, IsMuted(s, uid, kind));
    }
  }

  /** A packet of p is written to the down track of another connected member s exactly if p's last audio
      track has not ended, the caps last given to p let it publish and those last given to s let it
      subscribe, and the last subscription change of s that names p's user and audio was no unsubscribe. */
  lemma PacketsFollowEvents(who: Sid -> Uid, states: seq<Room>, evs: seq<Event>, i: nat, p: Sid, s: Sid)
    requires Run(who, states, evs) && i < |states| && p != s
    requires Said(states, evs, i, InRoom(p)) && Said(states, evs, i, InRoom(s)) && Said(states, evs, i, IsConnected(s))
    ensures p in states[i].members && s in states[i].members
    ensures Written(states[i], p, s) <==>
              && Said(states, evs, i, IsPublishing(p))
              && (exists c :: Said(states, evs, i, HasCaps(p, c)) && c.publishAudio)
              && (exists c :: Said(states, evs, i, HasCaps(s, c)) && c.subscribeAudio)
              && !Said(states, evs, i, IsMuted(s, who(p), Audio))
  {
    hide Said, Written, Unsubscribed;
    InTheRoom(who, states, evs, i, p);
    InTheRoom(who, states, evs, i, s);
    UserOf(who, states, evs, i, p);
    CachedForwardingIsExact(who, states, evs, i, p, s);
    hide Run;
    assert Said(states, evs, i, HasCaps(p, states[i].members[p].caps));
    assert Said(states, evs, i, HasCaps(s, states[i].members[s].caps));
  }

  lemma UserOf(who: Sid -> Uid, states: seq<Room>, evs: seq<Event>, i: nat, p: Sid)
    requires Run(who, states, evs) && i < |states| && p in states[i].members
    ensures states[i].members[p].uid == who(p)
  {
    RunServes(who, states, evs, i);
    assert MemberOk(who, p, states[i].members[p]);
  }

  /** A packet of p reaches sink n exactly if p publishes with the right to, and n was attached last. */
  lemma SinksFollowEvents(who: Sid -> Uid, states: seq<Room>, evs: seq<Event>, i: nat, p: Sid, n: nat)
    requires Run(who, states, evs) && i < |states| && Said(states, evs, i, InRoom(p))
    ensures p in states[i].members
    ensures SinkWritten(states[i], p, n) <==>
              && Said(states, evs, i, IsPublishing(p))
              && (exists c :: Said(states, evs, i, HasCaps(p, c)) && c.publishAudio)
              && Said(states, evs, i, IsSunk(p, n))
  {
    hide Said, SinkWritten, Unsubscribed;
    InTheRoom(who, states, evs, i, p);
    SinksAreExact(who, states, evs, i, p, n);
    HistoryIsExact(who, states, evs, i, IsSunk(p, n));
    hide Run;
    assert Said(states, evs, i, HasCaps(p, states[i].members[p].caps));
  }

  /** While every event is harmless, a packet of the remote publisher registered last under k reaches
      the connected member s exactly if the caps last given to s let it hear, or see, and s has not
      unsubscribed that user in that dimension. */
  lemma RemotesFollowEvents(who: Sid -> Uid, states: seq<Room>, evs: seq<Event>, i: nat, id: RemoteId, k: Key, s: Sid)
    requires Run(who, states, evs) && i < |states| && HarmlessTo(states, evs, i)
    requires Said(states, evs, i, IsRegistered(id, k))
    requires Said(states, evs, i, InRoom(s)) && Said(states, evs, i, IsConnected(s))
    ensures Wired(states[i]) && k in states[i].current && states[i].current[k] == id && s in states[i].members
    ensures RemoteWritten(states[i], k, s) <==>
              && (exists c :: Said(states, evs, i, HasCaps(s, c)) &&
                    if k.kind == Audio then c.subscribeAudio else c.join)
              && !Said(states, evs, i, IsMuted(s, who(k.sid), k.kind))
  {
    hide Said, RemoteWritten, Unsubscribed;
    InTheRoom(who, states, evs, i, s);
    HistoryIsExact(who, states, evs, i, IsRegistered(id, k));
    RemoteUserOf(who, states, evs, i, k);
    TakeOverIsExact(who, states, evs, i, k, s);
    hide Run;
    assert Said(states, evs, i, HasCaps(s, states[i].members[s].caps));
  }

  lemma RemoteUserOf(who: Sid -> Uid, states: seq<Room>, evs: seq<Event>, i: nat, k: Key)
    requires Run(who, states, evs) && i < |states| && k in states[i].current
    ensures Wired(states[i]) && states[i].remotes[states[i].current[k]].uid == who(k.sid)
  {
    RunServes(who, states, evs, i);
    assert RemoteOk(who, states[i], states[i].current[k]);
  }
}
