/** The race between registering a remote track in the local room and the track ending: every
    thread of the cascade manager, at the granularity of its critical sections and atomic swaps,
    with the recompute that ends each of them. */
module RemoteRegistration {
  import opened Options

  type Key = string
  type SpeakerId = nat
  type PubId = nat
  type ThreadId = nat

  /** Where a thread stands. `retry`: the registration is one that a recompute makes. */
  datatype Pc =
    | AddPub(spk: SpeakerId, retry: bool)               // about to call AddRemotePublisher
    | StoreRp(spk: SpeakerId, pub: PubId, retry: bool)  // registered in the room, about to store the handle
    | CheckStale(spk: SpeakerId, retry: bool)           // stored, about to compare with the current speaker
    | SwapRp(spk: SpeakerId)                            // about to take the handle out and close it
    | ClosePub(pub: PubId)                              // Close: about to mark the publisher closed
    | UnlistPub(pub: PubId)                             // Close: marked, about to delete it from the room
    | Scan                                              // recompute: about to look for speakers without a handle

  /** What a thread has left to do after its present piece of work. */
  datatype Job =
    | Swap(spk: SpeakerId)      // take out and close the handle of an ended speaker
    | Register(spk: SpeakerId)  // register the speaker that just came up
    | Rescan                    // recompute
    | Attempt(spk: SpeakerId)   // register a speaker the recompute found without a handle

  datatype Proc = Proc(pc: Pc, jobs: seq<Job>)

  /** speakers: the current remote speaker of each key; rp: the handles the speakers hold;
      remotePubs: the room's table. keyOf and pubKey never change once set. Of the schedule so far,
      staled: the keys for which a recompute's registration was found stale; bare: the keys whose
      publisher such a registration's clean-up removed, with no recompute and no registration of the
      key since. */
  datatype State = State(
    speakers: map<Key, SpeakerId>, keyOf: map<SpeakerId, Key>, rp: map<SpeakerId, PubId>,
    remotePubs: map<Key, PubId>, pubKey: map<PubId, Key>, closed: set<PubId>,
    threads: map<ThreadId, Proc>, staled: set<Key>, bare: set<Key>)

  const EMPTY := State(map[], map[], map[], map[], map[], {}, map[], {}, {})

  // ---------------------------------------------------------------------------------------------
  // Atomic steps
  // ---------------------------------------------------------------------------------------------

  function Put(s: State, t: ThreadId, pc: Pc, jobs: seq<Job>): State {
    s.(threads := s.threads[t := Proc(pc, jobs)])
  }

  function FirstPc(j: Job): Pc {
    match j
    case Swap(spk) => SwapRp(spk)
    case Register(spk) => AddPub(spk, false)
    case Rescan => Scan
    case Attempt(spk) => AddPub(spk, true)
  }

  /** The thread takes up its next job, or ends. */
  function Proceed(s: State, t: ThreadId, jobs: seq<Job>): State {
    if jobs == [] then s.(threads := s.threads - {t}) else Put(s, t, FirstPc(jobs[0]), jobs[1..])
  }

  /** onRemoteTrack's critical section: a re-hang on the same edge replaces the old speaker and
      takes its handle, to be closed before the new speaker registers. A recompute ends the thread. */
  function TrackUp(s: State, t: ThreadId, k: Key, spk: SpeakerId): State {
    var s1 := s.(speakers := s.speakers[k := spk], keyOf := s.keyOf[spk := k]);
    if k in s.speakers && s.speakers[k] in s.rp then
      var prev := s.speakers[k];
      Put(s1.(rp := s.rp - {prev}), t, ClosePub(s.rp[prev]), [Register(spk), Rescan])
    else Put(s1, t, AddPub(spk, false), [Rescan])
  }

  function Swaps(spks: seq<SpeakerId>): seq<Job> {
    seq(|spks|, i requires 0 <= i < |spks| => Swap(spks[i]))
  }

  /** The critical section of a track end, or of an edge close, which ends several speakers at once. */
  function TrackEnd(s: State, t: ThreadId, spks: seq<SpeakerId>): State {
    Proceed(s.(speakers := map k | k in s.speakers && s.speakers[k] !in spks :: s.speakers[k]), t,
        Swaps(spks) + [Rescan])
  }

  /** AddRemotePublisher: refused when the key is already registered; p is the new publisher. */
  function DoAdd(s: State, t: ThreadId, spk: SpeakerId, retry: bool, jobs: seq<Job>, p: PubId): State
    requires spk in s.keyOf
  {
    var k := s.keyOf[spk];
    if k in s.remotePubs then Proceed(s, t, jobs)
    else Put(s.(remotePubs := s.remotePubs[k := p], pubKey := s.pubKey[p := k], bare := s.bare - {k}), t,
           StoreRp(spk, p, retry), jobs)
  }

  function DoStore(s: State, t: ThreadId, spk: SpeakerId, pub: PubId, retry: bool, jobs: seq<Job>): State {
    Put(s.(rp := s.rp[spk := pub]), t, CheckStale(spk, retry), jobs)
  }

  function DoCheck(s: State, t: ThreadId, spk: SpeakerId, retry: bool, jobs: seq<Job>): State
    requires spk in s.keyOf
  {
    var k := s.keyOf[spk];
    if k in s.speakers && s.speakers[k] == spk then Proceed(s, t, jobs)
    else Put(s.(staled := if retry then s.staled + {k} else s.staled), t, SwapRp(spk), jobs)
  }

  function DoSwap(s: State, t: ThreadId, spk: SpeakerId, jobs: seq<Job>): State {
    if spk in s.rp then Put(s.(rp := s.rp - {spk}), t, ClosePub(s.rp[spk]), jobs) else Proceed(s, t, jobs)
  }

  function DoClose(s: State, t: ThreadId, pub: PubId, jobs: seq<Job>): State {
    if pub in s.closed then Proceed(s, t, jobs) else Put(s.(closed := s.closed + {pub}), t, UnlistPub(pub), jobs)
  }

  /** A clean-up with no recompute to follow leaves its key bare. */
  function DoUnlist(s: State, t: ThreadId, pub: PubId, jobs: seq<Job>): State
    requires pub in s.pubKey
  {
    var k := s.pubKey[pub];
    var gone := k in s.remotePubs && s.remotePubs[k] == pub;
    Proceed(s.(remotePubs := if gone then s.remotePubs - {k} else s.remotePubs,
               bare := if gone && Rescan !in jobs then s.bare + {k} else s.bare), t, jobs)
  }

  /** The current speakers without a handle. */
  function Handleless(s: State): set<SpeakerId> {
    set k | k in s.speakers && s.speakers[k] !in s.rp :: s.speakers[k]
  }

  function Attempts(order: seq<SpeakerId>): seq<Job> {
    seq(|order|, i requires 0 <= i < |order| => Attempt(order[i]))
  }

  /** recompute lists the current speakers without a handle, in any order, to try each of them. */
  function DoScan(s: State, t: ThreadId, order: seq<SpeakerId>): State {
    Proceed(s.(bare := {}), t, Attempts(order))
  }

  /** One step of thread t; p is the identity of the publisher it may create, order what it finds. */
  function Advance(s: State, t: ThreadId, p: PubId, order: seq<SpeakerId>): State
    requires t in s.threads && ReadyToRun(s, s.threads[t])
  {
    var jobs := s.threads[t].jobs;
    match s.threads[t].pc
    case AddPub(spk, retry) => DoAdd(s, t, spk, retry, jobs, p)
    case StoreRp(spk, pub, retry) => DoStore(s, t, spk, pub, retry, jobs)
    case CheckStale(spk, retry) => DoCheck(s, t, spk, retry, jobs)
    case SwapRp(spk) => DoSwap(s, t, spk, jobs)
    case ClosePub(pub) => DoClose(s, t, pub, jobs)
    case UnlistPub(pub) => DoUnlist(s, t, pub, jobs)
    case Scan => DoScan(s, t, order)
  }

  function SpeakerOf(pc: Pc): Option<SpeakerId> {
    match pc
    case AddPub(spk, _) => Some(spk)
    case StoreRp(spk, _, _) => Some(spk)
    case CheckStale(spk, _) => Some(spk)
    case SwapRp(spk) => Some(spk)
    case _ => None
  }

  function PubOf(pc: Pc): Option<PubId> {
    match pc
    case StoreRp(_, pub, _) => Some(pub)
    case ClosePub(pub) => Some(pub)
    case UnlistPub(pub) => Some(pub)
    case _ => None
  }

  predicate KnownJob(s: State, j: Job) {
    j.Rescan? || j.spk in s.keyOf
  }

  /** The identities the thread refers to have their keys on record. */
  predicate ReadyToRun(s: State, p: Proc) {
    && (SpeakerOf(p.pc).Some? ==> SpeakerOf(p.pc).value in s.keyOf)
    && (PubOf(p.pc).Some? ==> PubOf(p.pc).value in s.pubKey)
    && forall j | j in p.jobs :: KnownJob(s, j)
  }

  /** Every identity in use has its key on record. */
  ghost predicate WellKeyed(s: State) {
    && (forall t | t in s.threads :: ReadyToRun(s, s.threads[t]))
    && (forall spk | spk in s.rp :: spk in s.keyOf && s.rp[spk] in s.pubKey)
    && (forall k | k in s.speakers :: s.speakers[k] in s.keyOf && s.keyOf[s.speakers[k]] == k)
  }

  datatype Action =
    | Up(t: ThreadId, k: Key, spk: SpeakerId)
    | End(t: ThreadId, spks: seq<SpeakerId>)
    | Recompute(t: ThreadId)
    | Go(t: ThreadId, p: PubId, order: seq<SpeakerId>)

  predicate Lists(order: seq<SpeakerId>, spks: set<SpeakerId>) {
    (forall x | x in order :: x in spks) && (forall x | x in spks :: x in order)
  }

  /** New threads, speakers and publishers have new identities. */
  ghost predicate Enabled(s: State, a: Action) {
    match a
    case Up(t, k, spk) => t !in s.threads && spk !in s.keyOf
    case End(t, spks) => t !in s.threads && forall x | x in spks :: x in s.keyOf
    case Recompute(t) => t !in s.threads
    case Go(t, p, order) =>
      && t in s.threads && ReadyToRun(s, s.threads[t]) && p !in s.pubKey
      && (s.threads[t].pc.Scan? ==> Lists(order, Handleless(s)))
  }

  function Step(s: State, a: Action): State
    requires Enabled(s, a)
  {
    match a
    case Up(t, k, spk) => TrackUp(s, t, k, spk)
    case End(t, spks) => TrackEnd(s, t, spks)
    case Recompute(t) => Put(s, t, Scan, [])
    case Go(t, p, order) => Advance(s, t, p, order)
  }

  // ---------------------------------------------------------------------------------------------
  // Who holds a publisher
  // ---------------------------------------------------------------------------------------------

  /** A publisher is in the hands of a thread or in the handle of a speaker. */
  datatype Holder = Thread(t: ThreadId) | Speaker(spk: SpeakerId)

  function Held(s: State, h: Holder): Option<PubId> {
    match h
    case Thread(t) => if t in s.threads then PubOf(s.threads[t].pc) else None
    case Speaker(spk) => if spk in s.rp then Some(s.rp[spk]) else None
  }

  predicate Current(s: State, spk: SpeakerId) {
    spk in s.keyOf && s.keyOf[spk] in s.speakers && s.speakers[s.keyOf[spk]] == spk
  }

  /** The thread will still take x's handle out, or decide to. */
  predicate Watches(p: Proc, x: SpeakerId) {
    (p.pc.CheckStale? && p.pc.spk == x) || p.pc == SwapRp(x) || Swap(x) in p.jobs
  }

  ghost predicate Watched(s: State, x: SpeakerId) {
    exists t :: t in s.threads && Watches(s.threads[t], x)
  }

  /** A handle in the making or at rest belongs to the key of its speaker. */
  ghost predicate KeysAgree(s: State)
    requires WellKeyed(s)
  {
    && (forall t | t in s.threads && s.threads[t].pc.StoreRp? ::
          assert ReadyToRun(s, s.threads[t]);
          s.keyOf[s.threads[t].pc.spk] == s.pubKey[s.threads[t].pc.pub])
    && (forall spk | spk in s.rp :: s.keyOf[spk] == s.pubKey[s.rp[spk]])
  }

  /** Whatever is held is listed in the room under its key. */
  ghost predicate HeldIsListed(s: State) {
    forall h | Held(s, h).Some? ::
      var p := Held(s, h).value;
      p in s.pubKey && s.pubKey[p] in s.remotePubs && s.remotePubs[s.pubKey[p]] == p
  }

  /** No publisher is in two hands. */
  ghost predicate HeldOnce(s: State) {
    forall h, h' | Held(s, h).Some? && Held(s, h') == Held(s, h) :: h == h'
  }

  ghost predicate ListedIsHeld(s: State) {
    forall k | k in s.remotePubs ::
      s.remotePubs[k] in s.pubKey && s.pubKey[s.remotePubs[k]] == k && exists h :: Held(s, h) == Some(s.remotePubs[k])
  }

  /** A publisher is marked closed only by the thread that then unlists it. */
  ghost predicate ClosedIsLeaving(s: State) {
    forall h | Held(s, h).Some? && Held(s, h).value in s.closed ::
      h.Thread? && s.threads[h.t].pc.UnlistPub?
  }

  ghost predicate StaleIsWatched(s: State) {
    forall spk | spk in s.rp :: Current(s, spk) || Watched(s, spk)
  }

  ghost predicate Keyed(s: State) {
    WellKeyed(s) && KeysAgree(s) && s.closed <= s.pubKey.Keys
  }

  ghost predicate Holding(s: State) {
    HeldIsListed(s) && HeldOnce(s) && ListedIsHeld(s) && ClosedIsLeaving(s)
  }

  ghost predicate Inv(s: State) {
    Keyed(s) && Holding(s) && StaleIsWatched(s) && Owing(s)
  }

  // ---------------------------------------------------------------------------------------------
  // Keys
  // ---------------------------------------------------------------------------------------------

  /** Learning a new speaker's key disturbs no thread. */
  lemma LearnKey(s: State, k: Key, spk: SpeakerId)
    requires Keyed(s) && spk !in s.keyOf
    ensures Keyed(s.(speakers := s.speakers[k := spk], keyOf := s.keyOf[spk := k]))
  {
    var s' := s.(speakers := s.speakers[k := spk], keyOf := s.keyOf[spk := k]);
    forall u | u in s'.threads ensures ReadyToRun(s', s'.threads[u]) {
      assert ReadyToRun(s, s.threads[u]);
    }
  }

  /** A thread that is not about to store may take up any work on known identities. */
  lemma PutKeyed(s: State, t: ThreadId, pc: Pc, jobs: seq<Job>)
    requires Keyed(s) && ReadyToRun(s, Proc(pc, jobs)) && !pc.StoreRp?
    ensures Keyed(Put(s, t, pc, jobs))
  {
    var s' := Put(s, t, pc, jobs);
    forall u | u in s'.threads ensures ReadyToRun(s', s'.threads[u]) {
      assert u != t ==> ReadyToRun(s, s.threads[u]);
    }
  }

  lemma ProceedKeyed(s: State, t: ThreadId, jobs: seq<Job>)
    requires Keyed(s) && forall j | j in jobs :: KnownJob(s, j)
    ensures Keyed(Proceed(s, t, jobs))
  {
    if jobs == [] {
      var s' := Proceed(s, t, jobs);
      forall u | u in s'.threads ensures ReadyToRun(s', s'.threads[u]) {
        assert ReadyToRun(s, s.threads[u]);
      }
    } else {
      assert KnownJob(s, jobs[0]);
      PutKeyed(s, t, FirstPc(jobs[0]), jobs[1..]);
    }
  }

  /** Fewer handles, fewer current speakers, another table: no identity is new. */
  lemma FewerKeyed(s: State, s': State)
    requires Keyed(s) && s'.keyOf == s.keyOf && s'.pubKey == s.pubKey && s'.threads == s.threads
    requires s'.closed <= s.pubKey.Keys
    requires forall x | x in s'.rp :: x in s.rp && s'.rp[x] == s.rp[x]
    requires forall k | k in s'.speakers :: k in s.speakers && s'.speakers[k] == s.speakers[k]
    ensures Keyed(s')
  {
    forall u | u in s'.threads ensures ReadyToRun(s', s'.threads[u]) {
      assert ReadyToRun(s, s.threads[u]);
    }
  }

  lemma UpKeepsKeyed(s: State, t: ThreadId, k: Key, spk: SpeakerId)
    requires Keyed(s) && spk !in s.keyOf
    ensures Keyed(TrackUp(s, t, k, spk))
  {
    LearnKey(s, k, spk);
    var s1 := s.(speakers := s.speakers[k := spk], keyOf := s.keyOf[spk := k]);
    if k in s.speakers && s.speakers[k] in s.rp {
      var prev := s.speakers[k];
      assert s.rp[prev] in s.pubKey && s1.closed <= s1.pubKey.Keys;
      hide Keyed;
      FewerKeyed(s1, s1.(rp := s.rp - {prev}));
      PutKeyed(s1.(rp := s.rp - {prev}), t, ClosePub(s.rp[prev]), [Register(spk), Rescan]);
    } else {
      hide Keyed;
      PutKeyed(s1, t, AddPub(spk, false), [Rescan]);
    }
  }

  lemma EndKeepsKeyed(s: State, t: ThreadId, spks: seq<SpeakerId>)
    requires Keyed(s) && forall x | x in spks :: x in s.keyOf
    ensures Keyed(TrackEnd(s, t, spks))
  {
    var s1 := s.(speakers := map k | k in s.speakers && s.speakers[k] !in spks :: s.speakers[k]);
    FewerKeyed(s, s1);
    ProceedKeyed(s1, t, Swaps(spks) + [Rescan]);
  }

  lemma AdvanceKeepsKeyed(s: State, t: ThreadId, p: PubId, order: seq<SpeakerId>)
    requires Keyed(s) && t in s.threads && ReadyToRun(s, s.threads[t]) && p !in s.pubKey
    requires s.threads[t].pc.Scan? ==> Lists(order, Handleless(s))
    ensures Keyed(Advance(s, t, p, order))
  {
    var jobs := s.threads[t].jobs;
    match s.threads[t].pc
    case AddPub(spk, retry) =>
      if s.keyOf[spk] in s.remotePubs {
        ProceedKeyed(s, t, jobs);
      } else {
        AddKeepsKeyed(s, t, p);
      }
    case StoreRp(spk, pub, retry) => StoreKeepsKeyed(s, t);
    case CheckStale(spk, retry) =>
      if Current(s, spk) {
        ProceedKeyed(s, t, jobs);
      } else {
        var s1 := s.(staled := if retry then s.staled + {s.keyOf[spk]} else s.staled);
        FewerKeyed(s, s1);
        PutKeyed(s1, t, SwapRp(spk), jobs);
      }
    case SwapRp(spk) =>
      if spk in s.rp {
        FewerKeyed(s, s.(rp := s.rp - {spk}));
        PutKeyed(s.(rp := s.rp - {spk}), t, ClosePub(s.rp[spk]), jobs);
      } else {
        ProceedKeyed(s, t, jobs);
      }
    case ClosePub(pub) =>
      if pub in s.closed {
        ProceedKeyed(s, t, jobs);
      } else {
        FewerKeyed(s, s.(closed := s.closed + {pub}));
        PutKeyed(s.(closed := s.closed + {pub}), t, UnlistPub(pub), jobs);
      }
    case UnlistPub(pub) => UnlistKeepsKeyed(s, t);
    case Scan =>
      FewerKeyed(s, s.(bare := {}));
      ScannedIsKnown(s, order);
      ProceedKeyed(s.(bare := {}), t, Attempts(order));
  }

  lemma ScannedIsKnown(s: State, order: seq<SpeakerId>)
    requires WellKeyed(s) && Lists(order, Handleless(s))
    ensures forall j | j in Attempts(order) :: KnownJob(s, j)
  {
    forall j | j in Attempts(order) ensures KnownJob(s, j) {
      assert j.spk in order;
    }
  }

  lemma AddKeepsKeyed(s: State, t: ThreadId, p: PubId)
    requires Keyed(s) && t in s.threads && s.threads[t].pc.AddPub? && ReadyToRun(s, s.threads[t]) && p !in s.pubKey
    ensures Keyed(DoAdd(s, t, s.threads[t].pc.spk, s.threads[t].pc.retry, s.threads[t].jobs, p))
  {
    var s' := DoAdd(s, t, s.threads[t].pc.spk, s.threads[t].pc.retry, s.threads[t].jobs, p);
    if s.keyOf[s.threads[t].pc.spk] in s.remotePubs {
      ProceedKeyed(s, t, s.threads[t].jobs);
    } else {
      forall u | u in s'.threads ensures ReadyToRun(s', s'.threads[u]) {
        assert ReadyToRun(s, s.threads[u]);
      }
    }
  }

  lemma StoreKeepsKeyed(s: State, t: ThreadId)
    requires Keyed(s) && t in s.threads && s.threads[t].pc.StoreRp? && ReadyToRun(s, s.threads[t])
    ensures Keyed(DoStore(s, t, s.threads[t].pc.spk, s.threads[t].pc.pub, s.threads[t].pc.retry, s.threads[t].jobs))
  {
    var s' := DoStore(s, t, s.threads[t].pc.spk, s.threads[t].pc.pub, s.threads[t].pc.retry, s.threads[t].jobs);
    forall u | u in s'.threads ensures ReadyToRun(s', s'.threads[u]) {
      assert ReadyToRun(s, s.threads[u]);
    }
  }

  lemma UnlistKeepsKeyed(s: State, t: ThreadId)
    requires Keyed(s) && t in s.threads && s.threads[t].pc.UnlistPub? && ReadyToRun(s, s.threads[t])
    ensures Keyed(DoUnlist(s, t, s.threads[t].pc.pub, s.threads[t].jobs))
  {
    var pub, jobs := s.threads[t].pc.pub, s.threads[t].jobs;
    var k := s.pubKey[pub];
    var gone := k in s.remotePubs && s.remotePubs[k] == pub;
    var s1 := s.(remotePubs := if gone then s.remotePubs - {k} else s.remotePubs,
                 bare := if gone && Rescan !in jobs then s.bare + {k} else s.bare);
    FewerKeyed(s, s1);
    ProceedKeyed(s1, t, jobs);
  }

  // ---------------------------------------------------------------------------------------------
  // Hands
  // ---------------------------------------------------------------------------------------------

  /** The same hands hold the same publishers. */
  lemma SameHands(s: State, s': State)
    requires Holding(s) && (forall h :: Held(s', h) == Held(s, h)) && s'.pubKey == s.pubKey
    requires s'.remotePubs == s.remotePubs && s'.closed == s.closed
    requires forall t | t in s.threads && s.threads[t].pc.UnlistPub? :: t in s'.threads && s'.threads[t] == s.threads[t]
    ensures Holding(s')
  {
    assert ClosedIsLeaving(s');
    hide Held, ClosedIsLeaving;
    forall k | k in s'.remotePubs ensures exists h :: Held(s', h) == Some(s'.remotePubs[k]) {
      var h :| Held(s, h) == Some(s.remotePubs[k]);
      assert Held(s', h) == Some(s'.remotePubs[k]);
    }
  }

  /** A step that moves one publisher from one hand to another and nothing else. */
  lemma HandOver(s: State, s': State, from: Holder, to: Holder)
    requires HeldIsListed(s) && HeldOnce(s) && ListedIsHeld(s)
    requires Held(s, from).Some? && Held(s, to).None? && from != to
    requires Held(s', to) == Held(s, from) && Held(s', from).None?
    requires forall h | h != from && h != to :: Held(s', h) == Held(s, h)
    requires s'.pubKey == s.pubKey && s'.remotePubs == s.remotePubs
    ensures HeldIsListed(s') && HeldOnce(s') && ListedIsHeld(s')
  {
    forall k | k in s'.remotePubs ensures exists h :: Held(s', h) == Some(s'.remotePubs[k]) {
      var h :| Held(s, h) == Some(s.remotePubs[k]);
      assert Held(s', if h == from then to else h) == Some(s'.remotePubs[k]);
    }
    forall h, h' | Held(s', h).Some? && Held(s', h') == Held(s', h) ensures h == h' {
      var g := if h == to then from else h;
      var g' := if h' == to then from else h';
      assert Held(s, g) == Held(s', h) && Held(s, g') == Held(s', h');
    }
  }

  /** Two different hands never hold publishers of the same key. */
  lemma OnlyHolderOfKey(s: State, h: Holder, h': Holder)
    requires HeldIsListed(s) && HeldOnce(s) && Held(s, h).Some? && h != h'
    ensures Held(s, h').Some? ==> s.pubKey[Held(s, h').value] != s.pubKey[Held(s, h).value]
  {
    if Held(s, h').Some? {
      assert s.remotePubs[s.pubKey[Held(s, h').value]] == Held(s, h').value != Held(s, h).value;
    }
  }

  /** A thread that holds nothing takes up work that holds nothing. */
  lemma EmptyHanded(s: State, s': State, t: ThreadId)
    requires Holding(s) && (t in s.threads ==> PubOf(s.threads[t].pc).None?)
    requires (t in s'.threads ==> PubOf(s'.threads[t].pc).None?)
    requires s'.rp == s.rp && s'.pubKey == s.pubKey && s'.remotePubs == s.remotePubs && s'.closed == s.closed
    requires forall u | u != t ::
               (u in s'.threads <==> u in s.threads) && (u in s.threads ==> s'.threads[u] == s.threads[u])
    ensures Holding(s')
  {
    assert forall h :: Held(s', h) == Held(s, h);
    SameHands(s, s');
  }

  lemma UpKeepsHolding(s: State, t: ThreadId, k: Key, spk: SpeakerId)
    requires Holding(s) && t !in s.threads && spk !in s.keyOf
    ensures Holding(TrackUp(s, t, k, spk))
  {
    var s' := TrackUp(s, t, k, spk);
    if k in s.speakers && s.speakers[k] in s.rp {
      assert Held(s, Speaker(s.speakers[k])) == Some(s.rp[s.speakers[k]]);
      assert s.rp[s.speakers[k]] !in s.closed;
      HandOver(s, s', Speaker(s.speakers[k]), Thread(t));
    } else {
      EmptyHanded(s, s', t);
    }
  }

  lemma AddKeepsHolding(s: State, t: ThreadId, p: PubId)
    requires Keyed(s) && Holding(s) && t in s.threads && s.threads[t].pc.AddPub? && ReadyToRun(s, s.threads[t])
    requires p !in s.pubKey
    requires s.keyOf[s.threads[t].pc.spk] !in s.remotePubs
    ensures Holding(DoAdd(s, t, s.threads[t].pc.spk, s.threads[t].pc.retry, s.threads[t].jobs, p))
  {
    var k := s.keyOf[s.threads[t].pc.spk];
    var s' := DoAdd(s, t, s.threads[t].pc.spk, s.threads[t].pc.retry, s.threads[t].jobs, p);
    assert p !in s.closed;
    hide Keyed;
    assert forall h | h != Thread(t) :: Held(s', h) == Held(s, h);
    assert Held(s', Thread(t)) == Some(p) && Held(s, Thread(t)).None?;
    forall h | Held(s, h).Some? ensures Held(s, h).value in s.pubKey && s.pubKey[Held(s, h).value] != k {}
    assert HeldIsListed(s') && HeldOnce(s') && ClosedIsLeaving(s');
    hide HeldIsListed, HeldOnce, ClosedIsLeaving;
    forall k' | k' in s'.remotePubs ensures exists h :: Held(s', h) == Some(s'.remotePubs[k']) {
      if k' != k {
        var h :| Held(s, h) == Some(s.remotePubs[k']);
        assert Held(s', h) == Some(s'.remotePubs[k']);
      }
    }
  }

  lemma StoreKeepsHolding(s: State, t: ThreadId)
    requires Keyed(s) && Holding(s) && t in s.threads && s.threads[t].pc.StoreRp?
    ensures Holding(DoStore(s, t, s.threads[t].pc.spk, s.threads[t].pc.pub, s.threads[t].pc.retry, s.threads[t].jobs))
  {
    var spk, pub := s.threads[t].pc.spk, s.threads[t].pc.pub;
    var s' := DoStore(s, t, spk, pub, s.threads[t].pc.retry, s.threads[t].jobs);
    assert Held(s, Thread(t)) == Some(pub);
    // the handle is empty: a second publisher of this key could not be listed
    OnlyHolderOfKey(s, Thread(t), Speaker(spk));
    HandOver(s, s', Thread(t), Speaker(spk));
  }

  lemma SwapKeepsHolding(s: State, t: ThreadId)
    requires Holding(s) && t in s.threads && s.threads[t].pc.SwapRp? && s.threads[t].pc.spk in s.rp
    ensures Holding(DoSwap(s, t, s.threads[t].pc.spk, s.threads[t].jobs))
  {
    HandOver(s, DoSwap(s, t, s.threads[t].pc.spk, s.threads[t].jobs), Speaker(s.threads[t].pc.spk), Thread(t));
  }

  lemma CloseKeepsHolding(s: State, t: ThreadId)
    requires Holding(s) && t in s.threads && s.threads[t].pc.ClosePub?
    ensures s.threads[t].pc.pub !in s.closed && Holding(DoClose(s, t, s.threads[t].pc.pub, s.threads[t].jobs))
  {
    var pub := s.threads[t].pc.pub;
    var s' := DoClose(s, t, pub, s.threads[t].jobs);
    assert Held(s, Thread(t)) == Some(pub);
    assert pub !in s.closed;
    assert forall h :: Held(s', h) == Held(s, h);
    forall h | Held(s', h).Some? && Held(s', h).value in s'.closed ensures h.Thread? && s'.threads[h.t].pc.UnlistPub? {
      if Held(s', h).value == pub {
        assert h == Thread(t);
      }
    }
  }

  lemma UnlistKeepsHolding(s: State, t: ThreadId)
    requires Holding(s) && t in s.threads && s.threads[t].pc.UnlistPub? && s.threads[t].pc.pub in s.pubKey
    ensures Holding(DoUnlist(s, t, s.threads[t].pc.pub, s.threads[t].jobs))
    ensures var k := s.pubKey[s.threads[t].pc.pub]; k in s.remotePubs && s.remotePubs[k] == s.threads[t].pc.pub
  {
    var pub := s.threads[t].pc.pub;
    var s' := DoUnlist(s, t, pub, s.threads[t].jobs);
    assert Held(s, Thread(t)) == Some(pub);
    var k := s.pubKey[pub];
    assert s.remotePubs[k] == pub;
    Unlisted(s, s', t, k);
  }

  lemma Unlisted(s: State, s': State, t: ThreadId, k: Key)
    requires Holding(s) && Held(s, Thread(t)).Some? && Held(s, Thread(t)).value in s.pubKey
    requires s.pubKey[Held(s, Thread(t)).value] == k
    requires s'.remotePubs == s.remotePubs - {k} && s'.pubKey == s.pubKey && s'.closed == s.closed
    requires Held(s', Thread(t)).None? && forall h | h != Thread(t) :: Held(s', h) == Held(s, h)
    requires forall u | u in s.threads && u != t :: u in s'.threads && s'.threads[u] == s.threads[u]
    ensures Holding(s')
  {
    forall h | Held(s', h).Some? ensures s.pubKey[Held(s', h).value] != k {
      OnlyHolderOfKey(s, Thread(t), h);
    }
    forall k' | k' in s'.remotePubs ensures exists h :: Held(s', h) == Some(s'.remotePubs[k']) {
      var h :| Held(s, h) == Some(s.remotePubs[k']);
      assert h != Thread(t);
      assert Held(s', h) == Some(s'.remotePubs[k']);
    }
  }

  lemma TryKeepsHolding(s: State, t: ThreadId, p: PubId)
    requires Keyed(s) && Holding(s) && t in s.threads && s.threads[t].pc.AddPub? && ReadyToRun(s, s.threads[t])
    requires p !in s.pubKey
    ensures Holding(DoAdd(s, t, s.threads[t].pc.spk, s.threads[t].pc.retry, s.threads[t].jobs, p))
  {
    if s.keyOf[s.threads[t].pc.spk] in s.remotePubs {
      hide Holding, Keyed;
      EmptyHanded(s, Proceed(s, t, s.threads[t].jobs), t);
    } else {
      AddKeepsHolding(s, t, p);
    }
  }

  lemma CheckKeepsHolding(s: State, t: ThreadId)
    requires Holding(s) && t in s.threads && s.threads[t].pc.CheckStale? && ReadyToRun(s, s.threads[t])
    ensures Holding(DoCheck(s, t, s.threads[t].pc.spk, s.threads[t].pc.retry, s.threads[t].jobs))
  {
    hide Holding;
    EmptyHanded(s, DoCheck(s, t, s.threads[t].pc.spk, s.threads[t].pc.retry, s.threads[t].jobs), t);
  }

  lemma TakeKeepsHolding(s: State, t: ThreadId)
    requires Holding(s) && t in s.threads && s.threads[t].pc.SwapRp?
    ensures Holding(DoSwap(s, t, s.threads[t].pc.spk, s.threads[t].jobs))
  {
    if s.threads[t].pc.spk in s.rp {
      SwapKeepsHolding(s, t);
    } else {
      hide Holding;
      EmptyHanded(s, Proceed(s, t, s.threads[t].jobs), t);
    }
  }

  lemma ScanKeepsHolding(s: State, t: ThreadId, order: seq<SpeakerId>)
    requires Holding(s) && t in s.threads && s.threads[t].pc.Scan?
    ensures Holding(DoScan(s, t, order))
  {
    hide Holding;
    EmptyHanded(s, DoScan(s, t, order), t);
  }

  lemma AdvanceKeepsHolding(s: State, t: ThreadId, p: PubId, order: seq<SpeakerId>)
    requires Keyed(s) && Holding(s) && t in s.threads && ReadyToRun(s, s.threads[t]) && p !in s.pubKey
    ensures Holding(Advance(s, t, p, order))
  {
    hide Keyed, Holding, DoAdd, DoStore, DoCheck, DoSwap, DoClose, DoUnlist, DoScan;
    match s.threads[t].pc
    case AddPub(spk, retry) => TryKeepsHolding(s, t, p);
    case StoreRp(spk, pub, retry) => StoreKeepsHolding(s, t);
    case CheckStale(spk, retry) => CheckKeepsHolding(s, t);
    case SwapRp(spk) => TakeKeepsHolding(s, t);
    case ClosePub(pub) => CloseKeepsHolding(s, t);
    case UnlistPub(pub) => UnlistKeepsHolding(s, t);
    case Scan => ScanKeepsHolding(s, t, order);
  }

  // ---------------------------------------------------------------------------------------------
  // Stale handles
  // ---------------------------------------------------------------------------------------------

  /** Watching threads other than t are untouched, and whatever t gave up watching needs no watch. */
  lemma KeepsWatch(s: State, s': State, t: ThreadId)
    requires StaleIsWatched(s)
    requires forall u | u in s.threads && u != t :: u in s'.threads && s'.threads[u] == s.threads[u]
    requires forall x | x in s'.rp :: x in s.rp || Current(s', x) || Watched(s', x)
    requires forall x | x in s'.rp && Current(s, x) :: Current(s', x) || Watched(s', x)
    requires forall x | x in s'.rp && t in s.threads && Watches(s.threads[t], x) :: Current(s', x) || Watched(s', x)
    ensures StaleIsWatched(s')
  {
    hide Watches, Current;
    forall x | x in s'.rp && !Current(s', x) ensures Watched(s', x) {
      if x in s.rp && !Current(s, x) {
        var u :| u in s.threads && Watches(s.threads[u], x);
        if u != t {
          assert u in s'.threads && Watches(s'.threads[u], x);
        }
      }
    }
  }

  /** A thread that takes up its jobs still watches what they are for. */
  lemma JobsWatch(s: State, t: ThreadId, jobs: seq<Job>, x: SpeakerId)
    requires Swap(x) in jobs
    ensures Watched(Proceed(s, t, jobs), x)
  {
    var s' := Proceed(s, t, jobs);
    assert t in s'.threads && Watches(s'.threads[t], x);
  }

  lemma UpKeepsWatch(s: State, t: ThreadId, k: Key, spk: SpeakerId)
    requires Keyed(s) && StaleIsWatched(s) && t !in s.threads && spk !in s.keyOf
    ensures StaleIsWatched(TrackUp(s, t, k, spk))
  {
    KeepsWatch(s, TrackUp(s, t, k, spk), t);
  }

  lemma EndKeepsWatch(s: State, t: ThreadId, spks: seq<SpeakerId>)
    requires Keyed(s) && StaleIsWatched(s) && t !in s.threads
    ensures StaleIsWatched(TrackEnd(s, t, spks))
  {
    var s' := TrackEnd(s, t, spks);
    forall x | x in s'.rp && Current(s, x) ensures Current(s', x) || Watched(s', x) {
      if x in spks {
        var i :| 0 <= i < |spks| && spks[i] == x;
        assert (Swaps(spks) + [Rescan])[i] == Swap(x);
        JobsWatch(s.(speakers := map k | k in s.speakers && s.speakers[k] !in spks :: s.speakers[k]), t,
            Swaps(spks) + [Rescan], x);
      }
    }
    KeepsWatch(s, s', t);
  }

  /** A thread goes on to its next job with nothing of its present work left to watch. */
  lemma ProceedKeepsWatch(s: State, s1: State, t: ThreadId)
    requires StaleIsWatched(s) && t in s.threads
    requires s1.threads == s.threads && s1.rp == s.rp && s1.speakers == s.speakers && s1.keyOf == s.keyOf
    requires s.threads[t].pc.CheckStale? ==> Current(s, s.threads[t].pc.spk)
    requires s.threads[t].pc.SwapRp? ==> s.threads[t].pc.spk !in s.rp
    ensures StaleIsWatched(Proceed(s1, t, s.threads[t].jobs))
  {
    var s' := Proceed(s1, t, s.threads[t].jobs);
    forall x | x in s'.rp && Watches(s.threads[t], x) ensures Current(s', x) || Watched(s', x) {
      if Swap(x) in s.threads[t].jobs {
        JobsWatch(s1, t, s.threads[t].jobs, x);
      }
    }
    KeepsWatch(s, s', t);
  }

  /** A thread moves on within its present work. */
  lemma MoveKeepsWatch(s: State, s': State, t: ThreadId, pc: Pc)
    requires StaleIsWatched(s) && t in s.threads && s'.threads == s.threads[t := Proc(pc, s.threads[t].jobs)]
    requires s'.speakers == s.speakers && s'.keyOf == s.keyOf
    requires forall x | x in s'.rp :: x in s.rp || (pc.CheckStale? && pc.spk == x)
    requires s.threads[t].pc.CheckStale? ==> pc == SwapRp(s.threads[t].pc.spk)
    requires s.threads[t].pc.SwapRp? ==> s.threads[t].pc.spk !in s'.rp
    ensures StaleIsWatched(s')
  {
    forall x | Watches(s'.threads[t], x) ensures Watched(s', x) {}
    KeepsWatch(s, s', t);
  }

  /** A thread whose jobs never include taking a handle out once it recomputes. */
  lemma ScanKeepsWatch(s: State, t: ThreadId, order: seq<SpeakerId>)
    requires StaleIsWatched(s) && t in s.threads && s.threads[t].pc.Scan? && s.threads[t].jobs == []
    ensures StaleIsWatched(DoScan(s, t, order))
  {
    KeepsWatch(s, DoScan(s, t, order), t);
  }

  lemma AdvanceKeepsWatch(s: State, t: ThreadId, p: PubId, order: seq<SpeakerId>)
    requires Inv(s) && t in s.threads && ReadyToRun(s, s.threads[t]) && p !in s.pubKey
    requires s.threads[t].pc.Scan? ==> s.threads[t].jobs == []
    ensures StaleIsWatched(Advance(s, t, p, order))
  {
    var jobs, s' := s.threads[t].jobs, Advance(s, t, p, order);
    hide Keyed, Holding, StaleIsWatched;
    match s.threads[t].pc
    case AddPub(spk, retry) =>
      if s.keyOf[spk] in s.remotePubs {
        ProceedKeepsWatch(s, s, t);
      } else {
        MoveKeepsWatch(s, s', t, StoreRp(spk, p, retry));
      }
    case StoreRp(spk, pub, retry) => MoveKeepsWatch(s, s', t, CheckStale(spk, retry));
    case CheckStale(spk, retry) =>
      if Current(s, spk) {
        ProceedKeepsWatch(s, s, t);
      } else {
        MoveKeepsWatch(s, s', t, SwapRp(spk));
      }
    case SwapRp(spk) =>
      if spk in s.rp {
        MoveKeepsWatch(s, s', t, ClosePub(s.rp[spk]));
      } else {
        ProceedKeepsWatch(s, s, t);
      }
    case ClosePub(pub) =>
      if pub in s.closed {
        ProceedKeepsWatch(s, s, t);
      } else {
        MoveKeepsWatch(s, s', t, UnlistPub(pub));
      }
    case UnlistPub(pub) => ProceedKeepsWatch(s, s.(remotePubs := s'.remotePubs, bare := s'.bare), t);
    case Scan => ScanKeepsWatch(s, t, order);
  }

  // ---------------------------------------------------------------------------------------------
  // What every thread still owes
  // ---------------------------------------------------------------------------------------------

  /** A recompute is still to come in this thread. */
  predicate WillScan(p: Proc) {
    p.pc.Scan? || Rescan in p.jobs
  }

  /** Only a recompute's own attempts are not followed by a recompute. */
  predicate JobsInOrder(jobs: seq<Job>) {
    (jobs != [] && jobs[|jobs| - 1] == Rescan && forall i | 0 <= i < |jobs| - 1 ::
        !jobs[i].Rescan? && !jobs[i].Attempt?)
    || (forall i | 0 <= i < |jobs| :: jobs[i].Attempt?)
  }

  /** The key a clean-up is about. */
  function CleanedKey(s: State, pc: Pc): Option<Key> {
    match pc
    case SwapRp(spk) => if spk in s.keyOf then Some(s.keyOf[spk]) else None
    case ClosePub(pub) => if pub in s.pubKey then Some(s.pubKey[pub]) else None
    case UnlistPub(pub) => if pub in s.pubKey then Some(s.pubKey[pub]) else None
    case _ => None
  }

  /** A thread recomputes after all it does, except after the registrations a recompute makes; there
      it cleans up only what was found stale. */
  predicate ProcOk(s: State, p: Proc) {
    && JobsInOrder(p.jobs)
    && (p.pc.Scan? ==> p.jobs == [])
    && ((p.pc.AddPub? || p.pc.StoreRp? || p.pc.CheckStale?) && !p.pc.retry ==> Rescan in p.jobs)
    && (CleanedKey(s, p.pc).Some? && Rescan !in p.jobs ==> CleanedKey(s, p.pc).value in s.staled)
  }

  /** A speaker whose handle is to be taken out is not current. */
  ghost predicate SwapsGone(s: State, p: Proc) {
    forall x | p.pc == SwapRp(x) || Swap(x) in p.jobs :: !Current(s, x)
  }

  ghost predicate ThreadsOk(s: State) {
    forall t | t in s.threads :: ProcOk(s, s.threads[t]) && SwapsGone(s, s.threads[t])
  }

  /** The thread is to register x, or registering it. */
  predicate Plans(p: Proc, x: SpeakerId) {
    ((p.pc.AddPub? || p.pc.StoreRp?) && p.pc.spk == x) || Register(x) in p.jobs || Attempt(x) in p.jobs
  }

  ghost predicate Planned(s: State, x: SpeakerId) {
    exists t :: t in s.threads && Plans(s.threads[t], x)
  }

  ghost predicate ScanAhead(s: State) {
    exists t :: t in s.threads && WillScan(s.threads[t])
  }

  /** A current speaker without a handle is to be registered, or a recompute is still to come, or its
      key is taken, or a clean-up without a recompute laid it bare. */
  ghost predicate Promised(s: State, k: Key)
    requires k in s.speakers
  {
    s.speakers[k] in s.rp || Planned(s, s.speakers[k]) || ScanAhead(s) || k in s.remotePubs || k in s.bare
  }

  ghost predicate AllPromised(s: State) {
    forall k | k in s.speakers :: Promised(s, k)
  }

  /** A bare key has no publisher, and a registration of it was once found stale. */
  ghost predicate BareOk(s: State) {
    forall k | k in s.bare :: k !in s.remotePubs && k in s.staled
  }

  ghost predicate Owing(s: State) {
    ThreadsOk(s) && AllPromised(s) && BareOk(s)
  }

  // ---------------------------------------------------------------------------------------------
  // Every step keeps what is owed
  // ---------------------------------------------------------------------------------------------

  /** Keys stay on record, stale findings are remembered, and no speaker becomes current again. */
  ghost predicate Grows(s: State, s': State) {
    && (forall x | x in s.keyOf :: x in s'.keyOf && s'.keyOf[x] == s.keyOf[x])
    && (forall p | p in s.pubKey :: p in s'.pubKey && s'.pubKey[p] == s.pubKey[p])
    && s.staled <= s'.staled
    && (forall x | x in s.keyOf && Current(s', x) :: Current(s, x))
  }

  lemma OtherThreadOk(s: State, s': State, p: Proc)
    requires ReadyToRun(s, p) && ProcOk(s, p) && SwapsGone(s, p) && Grows(s, s')
    ensures ProcOk(s', p) && SwapsGone(s', p)
  {
    hide JobsInOrder, Current;
    forall x | p.pc == SwapRp(x) || Swap(x) in p.jobs ensures !Current(s', x) {
      assert Swap(x) in p.jobs ==> KnownJob(s, Swap(x));
    }
  }

  /** All threads but t are as before. */
  ghost predicate OthersStay(s: State, s': State, t: ThreadId) {
    forall u | u != t :: (u in s'.threads <==> u in s.threads) && (u in s.threads ==> s'.threads[u] == s.threads[u])
  }

  lemma KeepsThreadsOk(s: State, s': State, t: ThreadId)
    requires WellKeyed(s) && ThreadsOk(s) && Grows(s, s') && OthersStay(s, s', t)
    requires t in s'.threads ==> ProcOk(s', s'.threads[t]) && SwapsGone(s', s'.threads[t])
    ensures ThreadsOk(s')
  {
    hide ReadyToRun, ProcOk, SwapsGone, Grows;
    forall u | u in s'.threads ensures ProcOk(s', s'.threads[u]) && SwapsGone(s', s'.threads[u]) {
      if u != t {
        OtherThreadOk(s, s', s.threads[u]);
      }
    }
  }

  lemma ThreadIsOk(s: State, t: ThreadId)
    requires ThreadsOk(s) && t in s.threads
    ensures ProcOk(s, s.threads[t]) && SwapsGone(s, s.threads[t]) && JobsInOrder(s.threads[t].jobs)
    ensures forall x | Swap(x) in s.threads[t].jobs :: !Current(s, x)
  {}

  lemma ProceedGrows(s: State, s1: State, t: ThreadId, jobs: seq<Job>)
    requires t in s.threads && s1.threads == s.threads
    requires s1.keyOf == s.keyOf && s1.pubKey == s.pubKey && s1.staled == s.staled && s1.speakers == s.speakers
    ensures Grows(s, Proceed(s1, t, jobs)) && OthersStay(s, Proceed(s1, t, jobs), t)
  {}

  lemma MoveStays(s: State, s': State, t: ThreadId, p: Proc)
    requires t in s.threads && s'.threads == s.threads[t := p]
    ensures OthersStay(s, s', t)
  {}

  /** The next job of an orderly list. */
  lemma ProceedOk(s: State, t: ThreadId, jobs: seq<Job>)
    requires JobsInOrder(jobs) && forall x | Swap(x) in jobs :: !Current(s, x)
    ensures var s' := Proceed(s, t, jobs); t in s'.threads ==> ProcOk(s', s'.threads[t]) && SwapsGone(s', s'.threads[t])
  {
    if jobs != [] {
      var rest := jobs[1..];
      assert JobsInOrder(rest);
      assert !jobs[0].Attempt? && !jobs[0].Rescan? ==> rest[|rest| - 1] == Rescan;
      assert forall j | j in rest :: j in jobs;
      assert jobs[0] in jobs;
    }
  }

  /** The thread goes on within its present work. */
  lemma MoveOk(s: State, s': State, t: ThreadId, pc: Pc)
    requires t in s.threads && ProcOk(s, s.threads[t]) && SwapsGone(s, s.threads[t]) && ReadyToRun(s, s.threads[t])
    requires Grows(s, s')
    requires s'.threads == s.threads[t := Proc(pc, s.threads[t].jobs)] && !pc.Scan? && !s.threads[t].pc.Scan?
    requires (pc.AddPub? || pc.StoreRp? || pc.CheckStale?) && !pc.retry ==> Rescan in s.threads[t].jobs
    requires pc.SwapRp? ==> !Current(s', pc.spk)
    requires CleanedKey(s', pc).Some? && Rescan !in s.threads[t].jobs ==> CleanedKey(s', pc).value in s'.staled
    ensures ProcOk(s', s'.threads[t]) && SwapsGone(s', s'.threads[t])
  {
    hide JobsInOrder, Current;
    forall x | Swap(x) in s.threads[t].jobs ensures !Current(s', x) {
      assert KnownJob(s, Swap(x));
    }
  }

  /** One key's promise is kept if whatever it rested on is kept. */
  lemma KeepsPromise(s: State, s': State, t: ThreadId, k: Key)
    requires k in s.speakers && k in s'.speakers && s'.speakers[k] == s.speakers[k] && Promised(s, k)
    requires OthersStay(s, s', t)
    requires s.speakers[k] in s.rp || k in s.remotePubs || k in s.bare ==> Promised(s', k)
    requires t in s.threads && (Plans(s.threads[t], s.speakers[k]) || WillScan(s.threads[t])) ==> Promised(s', k)
    ensures Promised(s', k)
  {
    hide Plans, WillScan;
    if !(s.speakers[k] in s.rp || k in s.remotePubs || k in s.bare) {
      if Planned(s, s.speakers[k]) {
        var u :| u in s.threads && Plans(s.threads[u], s.speakers[k]);
        if u != t {
          assert u in s'.threads && Plans(s'.threads[u], s.speakers[k]);
        }
      } else {
        var u :| u in s.threads && WillScan(s.threads[u]);
        if u != t {
          assert u in s'.threads && WillScan(s'.threads[u]);
        }
      }
    }
  }

  /** A thread that takes up its jobs still plans them. */
  lemma JobsPlan(s: State, t: ThreadId, jobs: seq<Job>, x: SpeakerId)
    ensures Register(x) in jobs || Attempt(x) in jobs ==> Planned(Proceed(s, t, jobs), x)
    ensures Rescan in jobs ==> ScanAhead(Proceed(s, t, jobs))
  {
    var s' := Proceed(s, t, jobs);
    if Register(x) in jobs || Attempt(x) in jobs {
      assert t in s'.threads && Plans(s'.threads[t], x);
    }
    if Rescan in jobs {
      assert t in s'.threads && WillScan(s'.threads[t]);
    }
  }

  /** The thread takes up its jobs; of its present work, only a refused registration was a plan. */
  lemma ProceedKeepsPromises(s: State, s1: State, t: ThreadId)
    requires AllPromised(s) && t in s.threads && s1.threads == s.threads && s1.speakers == s.speakers && s1.rp == s.rp
    requires !s.threads[t].pc.StoreRp? && !s.threads[t].pc.Scan?
    requires s.threads[t].pc.AddPub? ==>
               forall k | k in s.speakers && s.speakers[k] == s.threads[t].pc.spk :: k in s1.remotePubs
    requires forall k | k in s.bare :: k in s1.bare
    requires forall k | k in s.remotePubs :: k in s1.remotePubs || k in s1.bare || Rescan in s.threads[t].jobs
    ensures AllPromised(Proceed(s1, t, s.threads[t].jobs))
  {
    var s' := Proceed(s1, t, s.threads[t].jobs);
    forall k | k in s'.speakers ensures Promised(s', k) {
      JobsPlan(s1, t, s.threads[t].jobs, s.speakers[k]);
      hide Planned, ScanAhead;
      KeepsPromise(s, s', t, k);
    }
  }

  /** The thread goes on within its present work. */
  lemma MoveKeepsPromises(s: State, s': State, t: ThreadId, pc: Pc)
    requires AllPromised(s) && t in s.threads && s'.threads == s.threads[t := Proc(pc, s.threads[t].jobs)]
    requires s'.speakers == s.speakers
    requires !s.threads[t].pc.Scan?
    requires forall k | k in s.speakers && s.speakers[k] in s.rp :: s.speakers[k] in s'.rp
    requires forall k | k in s.remotePubs || k in s.bare :: k in s'.remotePubs || k in s'.bare
    requires s.threads[t].pc.AddPub? ==> pc.StoreRp? && pc.spk == s.threads[t].pc.spk
    requires s.threads[t].pc.StoreRp? ==> s.threads[t].pc.spk in s'.rp
    ensures AllPromised(s')
  {
    var p, p' := s.threads[t], s'.threads[t];
    forall k | k in s'.speakers ensures Promised(s', k) {
      var x := s.speakers[k];
      if WillScan(p) {
        assert WillScan(p');
        assert ScanAhead(s');
      }
      if Plans(p, x) && x !in s'.rp {
        assert Plans(p', x);
        assert Planned(s', x);
      }
      hide Plans, WillScan, Planned, ScanAhead;
      KeepsPromise(s, s', t, k);
    }
  }

  lemma ScanKeepsPromises(s: State, t: ThreadId, order: seq<SpeakerId>)
    requires Lists(order, Handleless(s))
    ensures AllPromised(DoScan(s, t, order))
  {
    var s' := DoScan(s, t, order);
    forall k | k in s'.speakers ensures Promised(s', k) {
      var x := s.speakers[k];
      if x !in s.rp {
        assert x in Handleless(s);
        var i :| 0 <= i < |order| && order[i] == x;
        assert Attempts(order)[i] == Attempt(x);
        JobsPlan(s.(bare := {}), t, Attempts(order), x);
      }
    }
  }

  lemma UpGrows(s: State, t: ThreadId, k: Key, spk: SpeakerId)
    requires spk !in s.keyOf
    ensures var s' := TrackUp(s, t, k, spk);
              Grows(s, s') && OthersStay(s, s', t) && s'.bare == s.bare && s'.remotePubs == s.remotePubs
    ensures var s' := TrackUp(s, t, k, spk); s'.staled == s.staled && s'.speakers == s.speakers[k := spk]
  {}

  lemma UpThreadOk(s: State, t: ThreadId, k: Key, spk: SpeakerId)
    ensures var s' := TrackUp(s, t, k, spk);
              t in s'.threads && ProcOk(s', s'.threads[t]) && SwapsGone(s', s'.threads[t])
  {
    assert JobsInOrder([Register(spk), Rescan]) && JobsInOrder([Rescan]) && Rescan in [Register(spk), Rescan];
  }

  lemma UpKeepsThreads(s: State, t: ThreadId, k: Key, spk: SpeakerId)
    requires WellKeyed(s) && ThreadsOk(s) && t !in s.threads && spk !in s.keyOf
    ensures ThreadsOk(TrackUp(s, t, k, spk))
  {
    hide WellKeyed, ThreadsOk, Grows;
    var s' := TrackUp(s, t, k, spk);
    UpGrows(s, t, k, spk);
    UpThreadOk(s, t, k, spk);
    hide TrackUp, ProcOk, SwapsGone;
    KeepsThreadsOk(s, s', t);
  }

  lemma UpKeepsPromises(s: State, t: ThreadId, k: Key, spk: SpeakerId)
    requires WellKeyed(s) && AllPromised(s) && t !in s.threads && spk !in s.keyOf
    ensures AllPromised(TrackUp(s, t, k, spk))
  {
    var s' := TrackUp(s, t, k, spk);
    UpGrows(s, t, k, spk);
    assert Planned(s', spk) by {
      assert Plans(s'.threads[t], spk);
    }
    assert forall x | x in s.rp && !(k in s.speakers && s.speakers[k] == x) :: x in s'.rp;
    hide Planned, ScanAhead, Plans, WillScan, Grows, TrackUp;
    forall j | j in s'.speakers ensures Promised(s', j) {
      if j != k {
        KeepsPromise(s, s', t, j);
      }
    }
  }

  lemma UpKeepsOwing(s: State, t: ThreadId, k: Key, spk: SpeakerId)
    requires Keyed(s) && Owing(s) && t !in s.threads && spk !in s.keyOf
    ensures Owing(TrackUp(s, t, k, spk))
  {
    hide ThreadsOk, AllPromised, WellKeyed;
    UpGrows(s, t, k, spk);
    UpKeepsThreads(s, t, k, spk);
    UpKeepsPromises(s, t, k, spk);
    hide TrackUp;
  }

  lemma EndJobs(s: State, spks: seq<SpeakerId>)
    requires forall k | k in s.speakers :: s.speakers[k] !in spks
    ensures JobsInOrder(Swaps(spks) + [Rescan]) && forall x | Swap(x) in Swaps(spks) + [Rescan] :: !Current(s, x)
  {
    forall x | Swap(x) in Swaps(spks) + [Rescan] ensures !Current(s, x) {
      assert Swap(x) in Swaps(spks);
    }
  }

  lemma EndKeepsOwing(s: State, t: ThreadId, spks: seq<SpeakerId>)
    requires Keyed(s) && Owing(s) && t !in s.threads && forall x | x in spks :: x in s.keyOf
    ensures Owing(TrackEnd(s, t, spks))
  {
    hide Keyed, WellKeyed, ThreadsOk, AllPromised, JobsInOrder, ProcOk, SwapsGone, Promised;
    var s1 := s.(speakers := map k | k in s.speakers && s.speakers[k] !in spks :: s.speakers[k]);
    var s' := TrackEnd(s, t, spks);
    KeyedIsWellKeyed(s);
    assert Grows(s, s') && OthersStay(s, s', t);
    hide Grows;
    EndJobs(s1, spks);
    ProceedOk(s1, t, Swaps(spks) + [Rescan]);
    KeepsThreadsOk(s, s', t);
    EndKeepsPromises(s, t, spks);
  }

  lemma EndKeepsPromises(s: State, t: ThreadId, spks: seq<SpeakerId>)
    requires AllPromised(s) && t !in s.threads
    ensures AllPromised(TrackEnd(s, t, spks))
  {
    var s' := TrackEnd(s, t, spks);
    hide Planned, ScanAhead, Plans, WillScan;
    forall j | j in s'.speakers ensures Promised(s', j) {
      KeepsPromise(s, s', t, j);
    }
  }

  lemma RecomputeKeepsOwing(s: State, t: ThreadId)
    requires Keyed(s) && Owing(s) && t !in s.threads
    ensures Owing(Put(s, t, Scan, []))
  {
    var s' := Put(s, t, Scan, []);
    assert Grows(s, s') && OthersStay(s, s', t);
    KeepsThreadsOk(s, s', t);
    hide ThreadsOk, Grows;
    assert WillScan(s'.threads[t]);
    assert ScanAhead(s');
  }

  lemma SameCurrent(s: State, s1: State)
    requires s1.keyOf == s.keyOf && s1.speakers == s.speakers
    ensures forall x :: Current(s1, x) == Current(s, x)
  {}

  /** The thread takes up its next job; the tables may have changed. */
  lemma ProceedKeepsOwing(s: State, s1: State, t: ThreadId)
    requires WellKeyed(s) && Owing(s) && t in s.threads && BareOk(s1)
    requires s1 == s.(remotePubs := s1.remotePubs, bare := s1.bare)
    requires !s.threads[t].pc.StoreRp? && !s.threads[t].pc.Scan?
    requires s.threads[t].pc.AddPub? ==>
               forall k | k in s.speakers && s.speakers[k] == s.threads[t].pc.spk :: k in s1.remotePubs
    requires forall k | k in s.bare :: k in s1.bare
    requires forall k | k in s.remotePubs :: k in s1.remotePubs || k in s1.bare || Rescan in s.threads[t].jobs
    ensures Owing(Proceed(s1, t, s.threads[t].jobs))
  {
    hide WellKeyed, AllPromised, JobsInOrder, ThreadsOk, Grows, ProcOk, SwapsGone, Current;
    var s' := Proceed(s1, t, s.threads[t].jobs);
    ProceedKeepsPromises(s, s1, t);
    ThreadIsOk(s, t);
    ProceedGrows(s, s1, t, s.threads[t].jobs);
    SameCurrent(s, s1);
    ProceedOk(s1, t, s.threads[t].jobs);
    KeepsThreadsOk(s, s', t);
  }

  lemma ThreadIsReady(s: State, t: ThreadId)
    requires WellKeyed(s) && t in s.threads
    ensures ReadyToRun(s, s.threads[t])
  {}

  /** The thread goes on within its present work. */
  lemma MoveKeepsOwing(s: State, s': State, t: ThreadId, pc: Pc)
    requires WellKeyed(s) && Owing(s) && t in s.threads && Grows(s, s') && BareOk(s')
    requires s'.threads == s.threads[t := Proc(pc, s.threads[t].jobs)] && s'.speakers == s.speakers && !pc.Scan?
    requires !s.threads[t].pc.Scan?
    requires forall k | k in s.speakers && s.speakers[k] in s.rp :: s.speakers[k] in s'.rp
    requires forall k | k in s.remotePubs || k in s.bare :: k in s'.remotePubs || k in s'.bare
    requires s.threads[t].pc.AddPub? ==> pc.StoreRp? && pc.spk == s.threads[t].pc.spk
    requires s.threads[t].pc.StoreRp? ==> s.threads[t].pc.spk in s'.rp
    requires (pc.AddPub? || pc.StoreRp? || pc.CheckStale?) && !pc.retry ==> Rescan in s.threads[t].jobs
    requires pc.SwapRp? ==> !Current(s', pc.spk)
    requires CleanedKey(s', pc).Some? && Rescan !in s.threads[t].jobs ==> CleanedKey(s', pc).value in s'.staled
    ensures Owing(s')
  {
    hide WellKeyed, AllPromised, JobsInOrder, Grows, ProcOk, SwapsGone, ReadyToRun, Current, CleanedKey, ThreadsOk;
    MoveKeepsPromises(s, s', t, pc);
    ThreadIsOk(s, t);
    ThreadIsReady(s, t);
    MoveOk(s, s', t, pc);
    MoveStays(s, s', t, s'.threads[t]);
    KeepsThreadsOk(s, s', t);
  }

  lemma SpeakerOfKey(s: State, spk: SpeakerId)
    requires WellKeyed(s) && spk in s.keyOf
    ensures forall k | k in s.speakers && s.speakers[k] == spk :: k == s.keyOf[spk]
  {}

  lemma AddKeepsOwing(s: State, t: ThreadId, p: PubId)
    requires Keyed(s) && Owing(s) && t in s.threads && s.threads[t].pc.AddPub? && ReadyToRun(s, s.threads[t])
    requires p !in s.pubKey
    ensures Owing(DoAdd(s, t, s.threads[t].pc.spk, s.threads[t].pc.retry, s.threads[t].jobs, p))
  {
    hide KeysAgree, ThreadsOk, AllPromised, JobsInOrder, SwapsGone, WellKeyed, Promised;
    var q := s.threads[t];
    ThreadIsOk(s, t);
    SpeakerOfKey(s, q.pc.spk);
    if s.keyOf[q.pc.spk] in s.remotePubs {
      ProceedKeepsOwing(s, s, t);
    } else {
      MoveKeepsOwing(s, DoAdd(s, t, q.pc.spk, q.pc.retry, q.jobs, p), t, StoreRp(q.pc.spk, p, q.pc.retry));
    }
  }

  lemma StoreKeepsOwing(s: State, t: ThreadId)
    requires Keyed(s) && Owing(s) && t in s.threads && s.threads[t].pc.StoreRp?
    ensures Owing(DoStore(s, t, s.threads[t].pc.spk, s.threads[t].pc.pub, s.threads[t].pc.retry, s.threads[t].jobs))
  {
    hide Keyed, WellKeyed, ThreadsOk, AllPromised, JobsInOrder, SwapsGone, Promised;
    var q := s.threads[t];
    ThreadIsOk(s, t);
    KeyedIsWellKeyed(s);
    MoveKeepsOwing(s, DoStore(s, t, q.pc.spk, q.pc.pub, q.pc.retry, q.jobs), t, CheckStale(q.pc.spk, q.pc.retry));
  }

  lemma KeyedIsWellKeyed(s: State)
    requires Keyed(s)
    ensures WellKeyed(s)
  {}

  lemma CheckKeepsOwing(s: State, t: ThreadId)
    requires Keyed(s) && Owing(s) && t in s.threads && s.threads[t].pc.CheckStale? && ReadyToRun(s, s.threads[t])
    ensures Owing(DoCheck(s, t, s.threads[t].pc.spk, s.threads[t].pc.retry, s.threads[t].jobs))
  {
    hide Keyed, WellKeyed, ThreadsOk, AllPromised, JobsInOrder, SwapsGone, Promised;
    var q := s.threads[t];
    ThreadIsOk(s, t);
    KeyedIsWellKeyed(s);
    if Current(s, q.pc.spk) {
      ProceedKeepsOwing(s, s, t);
    } else {
      MoveKeepsOwing(s, DoCheck(s, t, q.pc.spk, q.pc.retry, q.jobs), t, SwapRp(q.pc.spk));
    }
  }

  lemma HandleHasKey(s: State, x: SpeakerId)
    requires Keyed(s)
    ensures x in s.rp ==> x in s.keyOf && s.rp[x] in s.pubKey && s.pubKey[s.rp[x]] == s.keyOf[x]
    ensures !Current(s, x) ==> forall k | k in s.speakers :: s.speakers[k] != x
  {}

  lemma SwapKeepsOwing(s: State, t: ThreadId)
    requires Keyed(s) && Owing(s) && t in s.threads && s.threads[t].pc.SwapRp? && ReadyToRun(s, s.threads[t])
    ensures Owing(DoSwap(s, t, s.threads[t].pc.spk, s.threads[t].jobs))
  {
    hide Keyed, WellKeyed, ThreadsOk, AllPromised, JobsInOrder, Promised;
    var q := s.threads[t];
    ThreadIsOk(s, t);
    KeyedIsWellKeyed(s);
    HandleHasKey(s, q.pc.spk);
    if q.pc.spk in s.rp {
      MoveKeepsOwing(s, DoSwap(s, t, q.pc.spk, q.jobs), t, ClosePub(s.rp[q.pc.spk]));
    } else {
      ProceedKeepsOwing(s, s, t);
    }
  }

  lemma CloseKeepsOwing(s: State, t: ThreadId)
    requires Keyed(s) && Owing(s) && t in s.threads && s.threads[t].pc.ClosePub? && s.threads[t].pc.pub !in s.closed
    ensures Owing(DoClose(s, t, s.threads[t].pc.pub, s.threads[t].jobs))
  {
    hide Keyed, WellKeyed, ThreadsOk, AllPromised, JobsInOrder, SwapsGone, Promised;
    var q := s.threads[t];
    ThreadIsOk(s, t);
    KeyedIsWellKeyed(s);
    MoveKeepsOwing(s, DoClose(s, t, q.pc.pub, q.jobs), t, UnlistPub(q.pc.pub));
  }

  lemma UnlistKeepsOwing(s: State, t: ThreadId)
    requires Keyed(s) && Owing(s) && t in s.threads && s.threads[t].pc.UnlistPub? && s.threads[t].pc.pub in s.pubKey
    ensures Owing(DoUnlist(s, t, s.threads[t].pc.pub, s.threads[t].jobs))
  {
    hide Keyed, WellKeyed, ThreadsOk, AllPromised, JobsInOrder, SwapsGone, Promised;
    var q := s.threads[t];
    ThreadIsOk(s, t);
    KeyedIsWellKeyed(s);
    var s' := DoUnlist(s, t, q.pc.pub, q.jobs);
    var s1 := s.(remotePubs := s'.remotePubs, bare := s'.bare);
    assert BareOk(s1);
    ProceedKeepsOwing(s, s1, t);
  }

  lemma AttemptsInOrder(order: seq<SpeakerId>)
    ensures JobsInOrder(Attempts(order)) && forall x :: Swap(x) !in Attempts(order)
  {}

  lemma ScanClears(s: State, t: ThreadId, order: seq<SpeakerId>)
    ensures DoScan(s, t, order).bare == {}
  {}

  lemma ScanKeepsOwing(s: State, t: ThreadId, order: seq<SpeakerId>)
    requires Keyed(s) && Owing(s) && t in s.threads && s.threads[t].pc.Scan? && Lists(order, Handleless(s))
    ensures Owing(DoScan(s, t, order))
  {
    hide Keyed, WellKeyed, AllPromised, JobsInOrder, Grows, ThreadsOk, ProcOk, SwapsGone, Proceed, Handleless, Current;
    KeyedIsWellKeyed(s);
    ScanKeepsPromises(s, t, order);
    AttemptsInOrder(order);
    ProceedGrows(s, s.(bare := {}), t, Attempts(order));
    ProceedOk(s.(bare := {}), t, Attempts(order));
    KeepsThreadsOk(s, DoScan(s, t, order), t);
    ScanClears(s, t, order);
  }

  // ---------------------------------------------------------------------------------------------
  // Every step, every run
  // ---------------------------------------------------------------------------------------------

  lemma AdvanceKeepsOwing(s: State, t: ThreadId, p: PubId, order: seq<SpeakerId>)
    requires Keyed(s) && Holding(s) && Owing(s) && Enabled(s, Go(t, p, order))
    ensures Owing(Advance(s, t, p, order))
  {
    hide Keyed, Holding, Owing, Lists, Handleless, DoAdd, DoStore, DoCheck, DoSwap, DoClose, DoUnlist, DoScan;
    match s.threads[t].pc
    case AddPub(spk, retry) => AddKeepsOwing(s, t, p);
    case StoreRp(spk, pub, retry) => StoreKeepsOwing(s, t);
    case CheckStale(spk, retry) => CheckKeepsOwing(s, t);
    case SwapRp(spk) => SwapKeepsOwing(s, t);
    case ClosePub(pub) =>
      CloseKeepsHolding(s, t);
      CloseKeepsOwing(s, t);
    case UnlistPub(pub) => UnlistKeepsOwing(s, t);
    case Scan => ScanKeepsOwing(s, t, order);
  }

  lemma ScanHasNoJobs(s: State, t: ThreadId)
    requires Owing(s) && t in s.threads
    ensures s.threads[t].pc.Scan? ==> s.threads[t].jobs == []
  {
    ThreadIsOk(s, t);
  }

  lemma StepKeepsKeyed(s: State, a: Action)
    requires Keyed(s) && Enabled(s, a)
    ensures Keyed(Step(s, a))
  {
    hide Keyed, TrackUp, TrackEnd, Advance, Put;
    match a
    case Up(t, k, spk) => UpKeepsKeyed(s, t, k, spk);
    case End(t, spks) => EndKeepsKeyed(s, t, spks);
    case Recompute(t) => PutKeyed(s, t, Scan, []);
    case Go(t, p, order) => AdvanceKeepsKeyed(s, t, p, order);
  }

  lemma StepKeepsHolding(s: State, a: Action)
    requires Keyed(s) && Holding(s) && Enabled(s, a)
    ensures Holding(Step(s, a))
  {
    hide Keyed, Holding, Advance;
    match a
    case Up(t, k, spk) => UpKeepsHolding(s, t, k, spk);
    case End(t, spks) => EmptyHanded(s, TrackEnd(s, t, spks), t);
    case Recompute(t) => EmptyHanded(s, Put(s, t, Scan, []), t);
    case Go(t, p, order) => AdvanceKeepsHolding(s, t, p, order);
  }

  lemma StepKeepsWatch(s: State, a: Action)
    requires Inv(s) && Enabled(s, a)
    ensures StaleIsWatched(Step(s, a))
  {
    hide Keyed, Holding, StaleIsWatched, Owing, Advance, TrackUp, TrackEnd;
    match a
    case Up(t, k, spk) => UpKeepsWatch(s, t, k, spk);
    case End(t, spks) => EndKeepsWatch(s, t, spks);
    case Recompute(t) => KeepsWatch(s, Put(s, t, Scan, []), t);
    case Go(t, p, order) =>
      ScanHasNoJobs(s, t);
      AdvanceKeepsWatch(s, t, p, order);
  }

  lemma StepKeepsOwing(s: State, a: Action)
    requires Inv(s) && Enabled(s, a)
    ensures Owing(Step(s, a))
  {
    hide Keyed, Holding, StaleIsWatched, Owing, Advance, TrackUp, TrackEnd, Put;
    match a
    case Up(t, k, spk) => UpKeepsOwing(s, t, k, spk);
    case End(t, spks) => EndKeepsOwing(s, t, spks);
    case Recompute(t) => RecomputeKeepsOwing(s, t);
    case Go(t, p, order) => AdvanceKeepsOwing(s, t, p, order);
  }

  /** Every critical section keeps single holding, watched stale handles and what is owed. */
  lemma StepKeepsInv(s: State, a: Action)
    requires Inv(s) && Enabled(s, a)
    ensures Inv(Step(s, a))
  {
    hide Keyed, Holding, StaleIsWatched, Owing, Enabled, Step;
    StepKeepsKeyed(s, a);
    StepKeepsHolding(s, a);
    StepKeepsWatch(s, a);
    StepKeepsOwing(s, a);
  }

  ghost predicate Possible(s: State, acts: seq<Action>)
    decreases |acts|
  {
    acts == [] || (Enabled(s, acts[0]) && Possible(Step(s, acts[0]), acts[1..]))
  }

  ghost function Run(s: State, acts: seq<Action>): State
    requires Possible(s, acts)
    decreases |acts|
  {
    if acts == [] then s else Run(Step(s, acts[0]), acts[1..])
  }

  lemma {:induction false} RunKeepsInv(s: State, acts: seq<Action>)
    requires Inv(s) && Possible(s, acts)
    ensures Inv(Run(s, acts))
    decreases |acts|
  {
    if acts != [] {
      hide Inv, Enabled, Step;
      StepKeepsInv(s, acts[0]);
      RunKeepsInv(Step(s, acts[0]), acts[1..]);
    }
  }

  lemma EmptyInv()
    ensures Inv(EMPTY)
  {
    assert forall h :: Held(EMPTY, h).None?;
  }

  /** Under every interleaving, once no thread is pending, the room lists exactly the publishers
      held by the current speakers: nothing stale is listed and no stale speaker holds anything. */
  lemma RestingRoomIsClean(acts: seq<Action>)
    requires Possible(EMPTY, acts) && Run(EMPTY, acts).threads == map[]
    ensures var s := Run(EMPTY, acts);
      && (forall k | k in s.remotePubs ::
           k in s.speakers && s.speakers[k] in s.rp && s.rp[s.speakers[k]] == s.remotePubs[k])
      && (forall spk | spk in s.rp ::
           Current(s, spk) && s.keyOf[spk] in s.remotePubs && s.remotePubs[s.keyOf[spk]] == s.rp[spk])
      && (forall k | k in s.remotePubs :: s.remotePubs[k] !in s.closed)
  {
    EmptyInv();
    RunKeepsInv(EMPTY, acts);
    var s := Run(EMPTY, acts);
    hide Owing, Run, Possible;
    forall spk | spk in s.rp
      ensures Current(s, spk) && s.keyOf[spk] in s.remotePubs && s.remotePubs[s.keyOf[spk]] == s.rp[spk]
    {
      assert Held(s, Speaker(spk)) == Some(s.rp[spk]);
      assert !Watched(s, spk);
    }
    forall k | k in s.remotePubs
      ensures k in s.speakers && s.speakers[k] in s.rp && s.rp[s.speakers[k]] == s.remotePubs[k]
      ensures s.remotePubs[k] !in s.closed
    {
      var h :| Held(s, h) == Some(s.remotePubs[k]);
      assert h.Speaker? && s.rp[h.spk] == s.remotePubs[k];
    }
  }
}
