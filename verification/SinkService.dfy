/** Cascade sinks ride on the same snapshots: a local publisher's packets reach exactly the sinks
    attached to it, in every reachable state. */
module SinkService {
  import opened Options
  import opened Tracks
  import opened RoomForwarding
  import opened RoomRuns

  /** A packet of p is written to sink n. */
  predicate SinkWritten(r: Room, p: Sid, n: nat)
    requires p in r.members
  {
    var pub := r.members[p];
    pub.publishing && pub.caps.publishAudio && pub.fanout.Some? && Sink(n) in pub.fanout.value
  }

  ghost predicate SinksServed(m: Member, sinks: set<nat>) {
    m.publishing && m.caps.publishAudio ==> m.fanout.Some? && forall n: nat :: Sink(n) in m.fanout.value <==> n in sinks
  }

  ghost predicate SinkInv(r: Room) {
    forall p | p in r.members :: SinksServed(r.members[p], SinksOf(r, p))
  }

  lemma FanoutServesSinks(r: Room, p: Sid)
    requires p in r.members
    ensures SinksServed(r.members[p].(fanout := Some(Fanout(r, p))), SinksOf(r, p))
  {
    forall n: nat | r.members[p].caps.publishAudio ensures Sink(n) in Fanout(r, p) <==> n in SinksOf(r, p) {}
  }

  /** Members keep what decides about their sinks. */
  predicate SameSource(m: Member, m': Member) {
    m'.publishing == m.publishing && m'.caps.publishAudio == m.caps.publishAudio && m'.fanout == m.fanout
  }

  lemma SameSourceServes(m: Member, m': Member, sinks: set<nat>)
    requires SinksServed(m, sinks) && SameSource(m, m')
    ensures SinksServed(m', sinks)
  {}

  lemma SilentSource(m: Member, sinks: set<nat>)
    requires !m.publishing || !m.caps.publishAudio
    ensures SinksServed(m, sinks)
  {}

  /** Rebuilding serves the publishers in ps, provided the others are served. */
  lemma RebuiltServesSinks(r: Room, ps: set<Sid>)
    requires forall p | p in r.members && p !in ps :: SinksServed(r.members[p], SinksOf(r, p))
    ensures SinkInv(RebuiltLocal(r, ps))
  {
    var r' := RebuiltLocal(r, ps);
    hide SinksServed, Fanout;
    forall p | p in r'.members ensures SinksServed(r'.members[p], SinksOf(r', p)) {
      FanoutServesSinks(r, p);
    }
  }

  lemma SourcesServe(r: Room, r': Room)
    requires SinkInv(r) && r'.sinks == r.sinks
    requires forall p | p in r'.members :: p in r.members && SameSource(r.members[p], r'.members[p])
    ensures SinkInv(r')
  {
    hide SinksServed, SameSource;
    forall p | p in r'.members ensures SinksServed(r'.members[p], SinksOf(r', p)) {
      SameSourceServes(r.members[p], r'.members[p], SinksOf(r, p));
    }
  }

  lemma MemberServes(r: Room, s: Sid, m: Member)
    requires (forall p | p in r.members && p != s :: SinksServed(r.members[p], SinksOf(r, p)))
    requires SinksServed(m, SinksOf(r, s))
    ensures SinkInv(WithMember(r, s, m))
  {
    hide SinksServed;
  }

  lemma AttachedPublishersServesSinks(r: Room, s: Sid)
    requires Wired(r) && SinkInv(r) && s in r.members
    ensures SinkInv(AttachedPublishers(r, s))
  {
    var ps := Publishers(r.members, s);
    var r1 := WithMember(r, s, LocalTracks(r.members, s, ps));
    SourcesServe(r, r1);
    hide SinksServed;
    RebuiltServesSinks(r1, ps);
    var r2 := RebuiltLocal(r1, ps);
    assert Wired(r2) && s in r2.members;
    hide RebuiltLocal, LocalTracks, Wired;
    SourcesServe(r2, WithMember(r2, s, RemoteTracks(r2, r2.members[s], r2.current.Keys)));
    SourcesServe(r2, AttachedPublishers(r, s));
  }

  lemma AttachedSubscribersServesSinks(r: Room, p: Sid)
    requires p in r.members && forall x | x in r.members && x != p :: SinksServed(r.members[x], SinksOf(r, x))
    ensures SinkInv(AttachedSubscribers(r, p))
  {
    var r1 := r.(members := map s | s in r.members ::
          if s == p then r.members[s] else EnsureLocal(p, r.members[p], r.members[s]));
    forall x | x in r1.members && x !in {p} ensures SinksServed(r1.members[x], SinksOf(r1, x)) {
      SameSourceServes(r.members[x], r1.members[x], SinksOf(r, x));
    }
    hide SinksServed;
    RebuiltServesSinks(r1, {p});
  }

  lemma DetachedServesSinks(r: Room, p: Sid)
    requires p in r.members && (!r.members[p].publishing || !r.members[p].caps.publishAudio)
    requires forall x | x in r.members && x != p :: SinksServed(r.members[x], SinksOf(r, x))
    ensures SinkInv(Detached(r, p))
  {
    var r' := Detached(r, p);
    forall x | x in r'.members ensures SinksServed(r'.members[x], SinksOf(r', x)) {
      if x == p {
        SilentSource(r'.members[x], SinksOf(r', x));
      } else {
        SameSourceServes(r.members[x], r'.members[x], SinksOf(r, x));
      }
    }
  }

  lemma CapsServeSinks(r: Room, p: Sid, caps: Caps)
    requires Wired(r) && p in r.members
    ensures SinkInv(CapsApplied(r, p, caps))
  {
    hide SinksServed;
    var was := r.members[p].caps;
    var r1 := PublishRight(CapsSet(r, p, caps), p, was);
    assert Wired(r1) && p in r1.members;
    hide PublishRight, SubscribeRight;
    var r2 := SubscribeRight(r1, p, was);
    RebuiltServesSinks(r2, r2.members.Keys);
    SourcesServe(RebuiltLocal(r2, r2.members.Keys), CapsApplied(r, p, caps));
  }

  lemma AudioHalfServesSinks(r: Room, s: Sid, uid: Uid, want: bool)
    requires Wired(r) && SinkInv(r) && s in r.members
    ensures var r' := AudioResubscribed(r, s, uid, want); SinkInv(r') && Wired(r') && s in r'.members
  {
    var ps := Others(r.members, s, uid);
    var r1 := if want then WithMember(r, s, LocalTracks(r.members, s, ps)) else r;
    SourcesServe(r, r1);
    hide SinksServed, LocalTracks;
    RebuiltServesSinks(r1, ps);
  }

  lemma RemoteHalfServesSinks(r: Room, s: Sid, keys: set<Key>, want: bool)
    requires Wired(r) && SinkInv(r) && s in r.members
    ensures SinkInv(RebuiltRemote(if want then WithMember(r, s, RemoteTracks(r, r.members[s], keys)) else r, keys))
  {
    hide SinksServed;
    SourcesServe(r, RebuiltRemote(if want then WithMember(r, s, RemoteTracks(r, r.members[s], keys)) else r, keys));
  }

  lemma ResubscribeServesSinks(r: Room, s: Sid, uid: Uid, mask: Marks, want: bool)
    requires Wired(r) && SinkInv(r) && s in r.members
    ensures SinkInv(Resubscribed(r, s, uid, mask, want))
  {
    if !mask.Empty() {
      var r1 := WithMember(r, s, Marked(r.members[s], uid, mask, want));
      SourcesServe(r, r1);
      assert Wired(r1);
      hide SinkInv, Marked, AudioResubscribed, Wired;
      if mask.audio {
        AudioHalfServesSinks(r1, s, uid, want);
      }
      var r2 := if mask.audio then AudioResubscribed(r1, s, uid, want) else r1;
      RemoteHalfServesSinks(r2, s, KeysOf(r2, uid, mask), want);
    }
  }

  lemma LeaveServesSinks(r: Room, x: Sid)
    requires SinkInv(r)
    ensures SinkInv(Left(r, x))
  {
    SourcesServe(r, Left(r, x));
  }

  lemma JoinServesSinks(r: Room, s: Sid, uid: Uid, caps: Caps)
    requires SinkInv(r)
    ensures SinkInv(Joined(r, s, uid, caps))
  {
    LeaveServesSinks(r, s);
    var r1 := if s in r.members then Left(r, s) else r;
    hide Left;
    SilentSource(NewMember(r1.nextInst, uid, caps), SinksOf(r1, s));
    hide SinksServed;
    MemberServes(r1, s, NewMember(r1.nextInst, uid, caps));
  }

  lemma SinkChangeServes(r: Room, p: Sid, sinks: map<Sid, set<nat>>)
    requires SinkInv(r) && forall x | x in r.members && x != p :: SinksOf(r.(sinks := sinks), x) == SinksOf(r, x)
    ensures SinkInv(RebuiltLocal(r.(sinks := sinks), {p}))
  {
    hide SinksServed;
    RebuiltServesSinks(r.(sinks := sinks), {p});
  }

  lemma TrackServesSinks(r: Room, p: Sid)
    requires SinkInv(r) && p in r.members
    ensures SinkInv(TrackStarted(r, p)) && SinkInv(TrackEnded(r, p))
  {
    var up, down := r.members[p].(publishing := true), r.members[p].(publishing := false);
    AttachedSubscribersServesSinks(WithMember(r, p, up), p);
    DetachedServesSinks(WithMember(r, p, down), p);
    SilentSource(down, SinksOf(r, p));
    if !up.caps.publishAudio {
      SilentSource(up, SinksOf(r, p));
      MemberServes(r, p, up);
    }
    MemberServes(r, p, down);
  }

  lemma AddRemoteServesSinks(r: Room, id: RemoteId, key: Key, uid: Uid)
    requires SinkInv(r)
    ensures SinkInv(RemoteAdded(r, id, key, uid))
  {
    hide SinksServed, RemoteFanout;
    SourcesServe(r, RemoteAdded(r, id, key, uid));
  }

  lemma CloseRemoteServesSinks(r: Room, id: RemoteId)
    requires SinkInv(r) && id in r.remotes
    ensures SinkInv(RemoteClosed(r, id))
  {
    hide SinksServed;
    SourcesServe(r, RemoteClosed(r, id));
  }

  lemma ConnectServesSinks(r: Room, s: Sid)
    requires Wired(r) && SinkInv(r) && s in r.members
    ensures SinkInv(Connected(r, s))
  {
    hide SinksServed, AttachedPublishers;
    if !r.members[s].connected {
      var r1 := WithMember(r, s, r.members[s].(connected := true));
      SourcesServe(r, r1);
      AttachedPublishersServesSinks(r1, s);
    }
  }

  lemma StepServesSinks(r: Room, who: Sid -> Uid, ev: Event)
    requires Wired(r) && SinkInv(r) && Enabled(r, who, ev)
    ensures SinkInv(Next(r, ev))
  {
    hide SinkInv, Wired, Joined, Connected, TrackStarted, TrackEnded, CapsApplied, Resubscribed, Left, RemoteAdded,
         RemoteClosed,
         RebuiltLocal;
    match ev
    case Join(s, uid, caps) => JoinServesSinks(r, s, uid, caps);
    case AddRemote(id, key, uid) => AddRemoteServesSinks(r, id, key, uid);
    case CloseRemote(id) => CloseRemoteServesSinks(r, id);
    case AttachSink(p, n) =>
      if p in r.members {
        SinkChangeServes(r, p, r.sinks[p := SinksOf(r, p) + {n}]);
      }
    case DetachSink(p, n) =>
      var rest := SinksOf(r, p) - {n};
      SinkChangeServes(r, p, if rest == {} then r.sinks - {p} else r.sinks[p := rest]);
    case Connect(s) => ConnectServesSinks(r, s);
    case TrackUp(p) => TrackServesSinks(r, p);
    case TrackEnd(p) => TrackServesSinks(r, p);
    case ScreenEnd(p, kind) => SourcesServe(r, ScreenEnded(r, p, kind));
    case ApplyCaps(p, caps) => CapsServeSinks(r, p, caps);
    case SetSubscription(s, uid, mask, want) => ResubscribeServesSinks(r, s, uid, mask, want);
    case Leave(p) => LeaveServesSinks(r, p);
  }

  lemma {:induction false} RunServesSinks(who: Sid -> Uid, states: seq<Room>, evs: seq<Event>, i: nat)
    requires Run(who, states, evs) && i < |states|
    ensures SinkInv(states[i])
  {
    if i > 0 {
      RunServesSinks(who, states, evs, i - 1);
      hide SinkInv, Next, Enabled;
      StepServesSinks(states[i - 1], who, evs[i - 1]);
    }
  }

  /** In every reachable state a publisher's packets reach exactly its attached sinks, while it is
      publishing and holds the right to. */
  lemma SinksAreExact(who: Sid -> Uid, states: seq<Room>, evs: seq<Event>, i: nat, p: Sid, n: nat)
    requires Run(who, states, evs) && i < |states| && p in states[i].members
    ensures SinkWritten(states[i], p, n) <==>
              states[i].members[p].publishing && states[i].members[p].caps.publishAudio && n in SinksOf(states[i], p)
  {
    RunServesSinks(who, states, evs, i);
    assert SinksServed(states[i].members[p], SinksOf(states[i], p));
  }
}
