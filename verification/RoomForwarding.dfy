/** The forwarding plane of one room: down tracks, unsubscribe marks and caps on one side, the
    cached fanout snapshots that packets are written to on the other. */
module RoomForwarding {
  import opened Options
  import opened Tracks

  type Sid = string
  type Uid = string
  type RemoteId = nat

  datatype Caps = Caps(join: bool, publishAudio: bool, subscribeAudio: bool, publishScreen: bool)

  /** Marked true: that dimension of a publisher is unsubscribed. */
  datatype Marks = Marks(audio: bool, video: bool)
  {
    predicate Empty() {
      !audio && !video
    }
  }

  datatype Key = Key(sid: Sid, kind: Kind)

  function AudioKey(sid: Sid): Key {
    Key(sid, Audio)
  }

  /** A snapshot entry: one particular down-track object, or a cascade sink. A down track is told
      apart from earlier ones of the same member and key by `gen`, a member from an earlier one
      with the same sid by `inst`. */
  datatype Handle = Down(sid: Sid, inst: nat, key: Key, gen: nat) | Sink(id: nat)

  datatype DownTrack = DownTrack(pubUid: Uid, gen: nat, active: bool, owner: Option<RemoteId>)

  /** gen counts the down tracks removed so far. */
  datatype Member = Member(inst: nat, uid: Uid, caps: Caps, connected: bool, publishing: bool, marks: map<Uid, Marks>,
                           down: map<Key, DownTrack>, gen: nat, fanout: Option<set<Handle>>)

  datatype Remote = Remote(key: Key, uid: Uid, closed: bool, fanout: Option<set<Handle>>)

  /** remotes holds every RemotePublisher object; current the registered one of each key. */
  datatype Room = Room(members: map<Sid, Member>, remotes: map<RemoteId, Remote>, current: map<Key, RemoteId>,
                       sinks: map<Sid, set<nat>>, nextInst: nat)

  const NEW_ROOM := Room(map[], map[], map[], map[], 0)

  predicate Wired(r: Room) {
    forall k | k in r.current ::
        r.current[k] in r.remotes && r.remotes[r.current[k]].key == k && !r.remotes[r.current[k]].closed
  }

  // ---------------------------------------------------------------------------------------------
  // The forwarding decisions
  // ---------------------------------------------------------------------------------------------

  predicate ShouldForward(pub: Caps, sub: Caps, unsubscribed: bool) {
    pub.publishAudio && sub.subscribeAudio && !unsubscribed
  }

  predicate Unsubscribed(m: Member, uid: Uid, kind: Kind) {
    uid in m.marks && if kind == Audio then m.marks[uid].audio else m.marks[uid].video
  }

  /** Authorisation happened at the source node, so a remote publisher counts as holding its cap. */
  predicate RemoteShouldForward(rp: Remote, sub: Member) {
    && (if rp.key.kind == Audio then sub.caps.subscribeAudio else sub.caps.join)
    && !Unsubscribed(sub, rp.uid, rp.key.kind)
  }

  predicate Wants(pub: Member, sub: Member) {
    ShouldForward(pub.caps, sub.caps, Unsubscribed(sub, pub.uid, Audio))
  }

  // ---------------------------------------------------------------------------------------------
  // Snapshots
  // ---------------------------------------------------------------------------------------------

  function HandleOf(s: Sid, m: Member, k: Key): Handle
    requires k in m.down
  {
    Down(s, m.inst, k, m.down[k].gen)
  }

  predicate Listens(p: Sid, pub: Member, sub: Member) {
    AudioKey(p) in sub.down && sub.down[AudioKey(p)].active && Wants(pub, sub)
  }

  function SinksOf(r: Room, p: Sid): set<nat> {
    if p in r.sinks then r.sinks[p] else {}
  }

  function Listeners(ms: map<Sid, Member>, p: Sid): set<Handle>
    requires p in ms
  {
    set s | s in ms && s != p && Listens(p, ms[p], ms[s]) :: HandleOf(s, ms[s], AudioKey(p))
  }

  function Fanout(r: Room, p: Sid): set<Handle>
    requires p in r.members
  {
    Listeners(r.members, p) + (if r.members[p].caps.publishAudio then set n | n in SinksOf(r, p) :: Sink(n) else {})
  }

  predicate RemoteListens(id: RemoteId, rp: Remote, sub: Member) {
    && rp.key in sub.down && sub.down[rp.key].owner == Some(id) && sub.down[rp.key].active
    && RemoteShouldForward(rp, sub)
  }

  function RemoteFanout(ms: map<Sid, Member>, id: RemoteId, rp: Remote): set<Handle> {
    set s | s in ms && RemoteListens(id, rp, ms[s]) :: HandleOf(s, ms[s], rp.key)
  }

  /** The snapshots of the publishers in ps taken anew. */
  function RebuiltLocal(r: Room, ps: set<Sid>): Room {
    r.(members := map s | s in r.members ::
        if s in ps then r.members[s].(fanout := Some(Fanout(r, s))) else r.members[s])
  }

  /** The snapshots of the registered remote publishers of the given keys taken anew. */
  function RebuiltRemote(r: Room, keys: set<Key>): Room {
    r.(remotes := map id | id in r.remotes ::
         var rp := r.remotes[id];
         if rp.key in keys && rp.key in r.current && r.current[rp.key] == id && !rp.closed
         then rp.(fanout := Some(RemoteFanout(r.members, id, rp))) else rp)
  }

  // ---------------------------------------------------------------------------------------------
  // Down tracks
  // ---------------------------------------------------------------------------------------------

  predicate Lacks(p: Sid, pub: Member, sub: Member) {
    pub.publishing && Wants(pub, sub) && AudioKey(p) !in sub.down
  }

  function EnsureLocal(p: Sid, pub: Member, sub: Member): Member {
    if Lacks(p, pub, sub) then sub.(down := sub.down[AudioKey(p) := DownTrack(pub.uid, sub.gen, true, None)]) else sub
  }

  /** An existing down track of the key is taken over, not replaced. */
  function EnsureRemote(id: RemoteId, rp: Remote, sub: Member): Member {
    if rp.closed || !RemoteShouldForward(rp, sub) then sub
    else
      var active := !Unsubscribed(sub, rp.uid, rp.key.kind);
      if rp.key in sub.down
      then sub.(down := sub.down[rp.key := sub.down[rp.key].(owner := Some(id), active := active)])
      else sub.(down := sub.down[rp.key := DownTrack(rp.uid, sub.gen, active, Some(id))])
  }

  function Without(m: Member, k: Key): Member {
    if k in m.down then m.(down := m.down - {k}, gen := m.gen + 1) else m
  }

  function AttachedSubscribers(r: Room, p: Sid): Room
    requires p in r.members
  {
    RebuiltLocal(r.(members := map s | s in r.members ::
                      if s == p then r.members[s] else EnsureLocal(p, r.members[p], r.members[s])), {p})
  }

  function Detached(r: Room, p: Sid): Room {
    r.(members := map s | s in r.members ::
         if s == p then r.members[s].(fanout := None) else Without(r.members[s], AudioKey(p)))
  }

  /** The keys of the publishers in ps that s should have a track of. */
  function Offered(ms: map<Sid, Member>, s: Sid, ps: set<Sid>): set<Key>
    requires s in ms
  {
    set p | p in ms && p in ps && p != s && Lacks(p, ms[p], ms[s]) :: AudioKey(p)
  }

  function LocalTracks(ms: map<Sid, Member>, s: Sid, ps: set<Sid>): Member
    requires s in ms
  {
    var m := ms[s];
    m.(down := map k | k in m.down.Keys + Offered(ms, s, ps) ::
         if k in m.down then m.down[k] else DownTrack(ms[k.sid].uid, m.gen, true, None))
  }

  /** The keys of registered remote publishers that member m should have a track of. */
  function Granted(r: Room, m: Member, keys: set<Key>): set<Key>
    requires Wired(r)
  {
    set k | k in r.current && k in keys && RemoteShouldForward(r.remotes[r.current[k]], m)
  }

  function RemoteTracks(r: Room, m: Member, keys: set<Key>): Member
    requires Wired(r)
  {
    m.(down := map k | k in m.down.Keys + Granted(r, m, keys) ::
         if k in Granted(r, m, keys) then EnsureRemote(r.current[k], r.remotes[r.current[k]], m).down[k] else m.down[k])
  }

  function WithMember(r: Room, s: Sid, m: Member): Room {
    r.(members := r.members[s := m])
  }

  function Publishers(ms: map<Sid, Member>, s: Sid): set<Sid> {
    set p | p in ms && p != s && ms[p].publishing
  }

  /** attachPublishersToSubscriber: local publishers first, then the cascaded ones. */
  function AttachedPublishers(r: Room, s: Sid): Room
    requires Wired(r) && s in r.members
  {
    var ps := Publishers(r.members, s);
    var r1 := RebuiltLocal(WithMember(r, s, LocalTracks(r.members, s, ps)), ps);
    var r2 := WithMember(r1, s, RemoteTracks(r1, r1.members[s], r1.current.Keys));
    RebuiltRemote(r2, r2.current.Keys)
  }

  // ---------------------------------------------------------------------------------------------
  // What each operation does
  // ---------------------------------------------------------------------------------------------

  function NewMember(inst: nat, uid: Uid, caps: Caps): Member {
    Member(inst, uid, caps, false, false, map[], map[], 0, None)
  }

  /** Every down track of a departed session goes, audio and screen. */
  function Purged(m: Member, p: Sid): Member {
    m.(down := map k | k in m.down && k.sid != p :: m.down[k],
       gen := m.gen + |set k | k in m.down && k.sid == p|)
  }

  function Left(r: Room, p: Sid): Room {
    var r1 := r.(members := map s | s in r.members && s != p :: Purged(r.members[s], p));
    RebuiltRemote(r1, r1.current.Keys)
  }

  /** A member of the same sid gives way first. */
  function Joined(r: Room, s: Sid, uid: Uid, caps: Caps): Room {
    var r1 := if s in r.members then Left(r, s) else r;
    WithMember(r1, s, NewMember(r1.nextInst, uid, caps)).(nextInst := r1.nextInst + 1)
  }

  function Connected(r: Room, s: Sid): Room
    requires Wired(r) && s in r.members
  {
    if r.members[s].connected then r
    else AttachedPublishers(WithMember(r, s, r.members[s].(connected := true)), s)
  }

  /** A second audio track is a screen companion and does not come here. */
  function TrackStarted(r: Room, p: Sid): Room
    requires p in r.members
  {
    if r.members[p].publishing then r
    else
      var r1 := WithMember(r, p, r.members[p].(publishing := true));
      if r.members[p].caps.publishAudio then AttachedSubscribers(r1, p) else r1
  }

  function TrackEnded(r: Room, p: Sid): Room
    requires p in r.members
  {
    if !r.members[p].publishing then r
    else
      var r1 := WithMember(r, p, r.members[p].(publishing := false));
      if r.members[p].caps.publishAudio then Detached(r1, p) else r1
  }

  /** p's screen, or its companion audio, ends: every other member loses the down track under that
      key, whoever owns it. */
  function ScreenEnded(r: Room, p: Sid, kind: Kind): Room {
    r.(members := map s | s in r.members :: if s == p then r.members[s] else Without(r.members[s], Key(p, kind)))
  }

  /** The subscription is gone: so are all audio down tracks. */
  function Stripped(m: Member): Member {
    m.(down := map k | k in m.down && k.kind != Audio :: m.down[k],
       gen := m.gen + |set k | k in m.down && k.kind == Audio|)
  }

  function CapsSet(r: Room, p: Sid, caps: Caps): Room
    requires p in r.members
  {
    WithMember(r, p, r.members[p].(caps := caps))
  }

  /** The publishing half of applyCaps, caps already replaced. */
  function PublishRight(r: Room, p: Sid, was: Caps): Room
    requires p in r.members
  {
    var m := r.members[p];
    if was.publishAudio && !m.caps.publishAudio
    then (if m.publishing then Detached(r, p) else WithMember(r, p, m.(fanout := None)))
    else if !was.publishAudio && m.caps.publishAudio && m.publishing then AttachedSubscribers(r, p)
    else r
  }

  /** The subscribing half. */
  function SubscribeRight(r: Room, p: Sid, was: Caps): Room
    requires Wired(r) && p in r.members
  {
    var m := r.members[p];
    if was.subscribeAudio && !m.caps.subscribeAudio then WithMember(r, p, Stripped(m))
    else if !was.subscribeAudio && m.caps.subscribeAudio then AttachedPublishers(r, p)
    else r
  }

  function CapsApplied(r: Room, p: Sid, caps: Caps): Room
    requires Wired(r) && p in r.members
  {
    var was := r.members[p].caps;
    var r1 := PublishRight(CapsSet(r, p, caps), p, was);
    var r2 := SubscribeRight(r1, p, was);
    RebuiltRemote(RebuiltLocal(r2, r2.members.Keys), r2.current.Keys)
  }

  function Marked(m: Member, uid: Uid, mask: Marks, want: bool): Member {
    var was := if uid in m.marks then m.marks[uid] else Marks(false, false);
    var now := Marks(if mask.audio then !want else was.audio, if mask.video then !want else was.video);
    m.(marks := if now.Empty() then m.marks - {uid} else m.marks[uid := now],
       down := map k | k in m.down ::
         if m.down[k].pubUid == uid && (if k.kind == Audio then mask.audio else mask.video)
         then m.down[k].(active := want) else m.down[k])
  }

  function Others(ms: map<Sid, Member>, s: Sid, uid: Uid): set<Sid> {
    set p | p in ms && p != s && ms[p].uid == uid
  }

  function KeysOf(r: Room, uid: Uid, mask: Marks): set<Key>
    requires Wired(r)
  {
    set k | k in r.current && r.remotes[r.current[k]].uid == uid && if k.kind == Audio then mask.audio else mask.video
  }

  /** The local half of setSubscription. */
  function AudioResubscribed(r: Room, s: Sid, uid: Uid, want: bool): Room
    requires s in r.members
  {
    var ps := Others(r.members, s, uid);
    RebuiltLocal(if want then WithMember(r, s, LocalTracks(r.members, s, ps)) else r, ps)
  }

  function Resubscribed(r: Room, s: Sid, uid: Uid, mask: Marks, want: bool): Room
    requires Wired(r) && s in r.members
  {
    if mask.Empty() then r
    else
      var r1 := WithMember(r, s, Marked(r.members[s], uid, mask, want));
      var r2 := if mask.audio then AudioResubscribed(r1, s, uid, want) else r1;
      var keys := KeysOf(r2, uid, mask);
      RebuiltRemote(if want then WithMember(r2, s, RemoteTracks(r2, r2.members[s], keys)) else r2, keys)
  }

  /** A second registration under the same key is refused. */
  function RemoteAdded(r: Room, id: RemoteId, key: Key, uid: Uid): Room {
    if key in r.current then r
    else
      var rp := Remote(key, uid, false, None);
      RebuiltRemote(r.(remotes := r.remotes[id := rp], current := r.current[key := id],
                       members := map s | s in r.members :: EnsureRemote(id, rp, r.members[s])), {key})
  }

  /** Down tracks stay, for the next registration to take over. */
  function RemoteClosed(r: Room, id: RemoteId): Room
    requires id in r.remotes
  {
    var rp := r.remotes[id];
    if rp.closed then r
    else
      r.(remotes := r.remotes[id := rp.(closed := true, fanout := None)],
         current := if rp.key in r.current && r.current[rp.key] == id then r.current - {rp.key} else r.current)
  }

  /** Refused when the publisher is not in the room. */
  function SinkAttached(r: Room, p: Sid, n: nat): Room {
    if p in r.members then RebuiltLocal(r.(sinks := r.sinks[p := SinksOf(r, p) + {n}]), {p}) else r
  }

  function SinkDetached(r: Room, p: Sid, n: nat): Room {
    var rest := SinksOf(r, p) - {n};
    RebuiltLocal(r.(sinks := if rest == {} then r.sinks - {p} else r.sinks[p := rest]), {p})
  }
}
