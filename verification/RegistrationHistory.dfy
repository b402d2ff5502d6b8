/** Who is current, in terms of the schedule: the speaker that came up last under its key and has not
    ended. And what becomes of a speaker that has ended, and of the publisher made for it. */
module RegistrationHistory {
  import opened Options
  import opened RemoteRegistration
  import Loss = RegistrationLoss

  /** The action replaces or ends speaker spk of key k. */
  predicate Touches(a: Action, k: Key, spk: SpeakerId) {
    (a.Up? && a.k == k) || (a.End? && spk in a.spks)
  }

  ghost predicate Untouched(acts: seq<Action>, k: Key, spk: SpeakerId) {
    forall m | 0 <= m < |acts| :: !Touches(acts[m], k, spk)
  }

  /** spk is the last to come up under k, and nothing has ended it since. */
  ghost predicate LastUp(acts: seq<Action>, k: Key, spk: SpeakerId) {
    exists j :: 0 <= j < |acts| && acts[j].Up? && acts[j].k == k && acts[j].spk == spk
             && forall m | j < m < |acts| :: !Touches(acts[m], k, spk)
  }

  predicate IsCurrent(s: State, k: Key, spk: SpeakerId) {
    k in s.speakers && s.speakers[k] == spk
  }

  lemma ProceedSpeakers(s: State, t: ThreadId, jobs: seq<Job>)
    ensures Proceed(s, t, jobs) == s.(threads := Proceed(s, t, jobs).threads)
  {}

  /** No step of a thread under way changes who is current. */
  lemma AdvanceSpeakers(s: State, t: ThreadId, p: PubId, order: seq<SpeakerId>)
    requires t in s.threads && ReadyToRun(s, s.threads[t])
    ensures Advance(s, t, p, order).speakers == s.speakers && Advance(s, t, p, order).keyOf == s.keyOf
  {
    hide Proceed;
    ProceedSpeakers(s, t, s.threads[t].jobs);
    match s.threads[t].pc
    case AddPub(spk, retry) =>
    case StoreRp(spk, pub, retry) =>
    case CheckStale(spk, retry) =>
    case SwapRp(spk) =>
    case ClosePub(pub) =>
    case UnlistPub(pub) =>
      var k := s.pubKey[pub];
      var gone := k in s.remotePubs && s.remotePubs[k] == pub;
      ProceedSpeakers(s.(remotePubs := if gone then s.remotePubs - {k} else s.remotePubs,
                         bare := if gone && Rescan !in s.threads[t].jobs then s.bare + {k} else s.bare), t,
                      s.threads[t].jobs);
    case Scan => ProceedSpeakers(s.(bare := {}), t, Attempts(order));
  }

  lemma EndSpeakers(s: State, t: ThreadId, spks: seq<SpeakerId>)
    ensures var s' := TrackEnd(s, t, spks);
      && s'.keyOf == s.keyOf
      && forall k, spk :: IsCurrent(s', k, spk) <==> IsCurrent(s, k, spk) && spk !in spks
  {
    ProceedSpeakers(s.(speakers := map k | k in s.speakers && s.speakers[k] !in spks :: s.speakers[k]), t,
                    Swaps(spks) + [Rescan]);
    hide Proceed;
  }

  lemma StepSpeakers(s: State, a: Action, k: Key, spk: SpeakerId)
    requires Enabled(s, a)
    ensures IsCurrent(Step(s, a), k, spk) <==>
              (a.Up? && a.k == k && a.spk == spk) || (IsCurrent(s, k, spk) && !Touches(a, k, spk))
  {
    hide Lists, Handleless, Advance, ReadyToRun, TrackEnd;
    match a
    case Up(t, j, x) =>
    case End(t, spks) => EndSpeakers(s, t, spks);
    case Recompute(t) =>
    case Go(t, p, order) => AdvanceSpeakers(s, t, p, order);
  }

  lemma LastUpFront(acts: seq<Action>, k: Key, spk: SpeakerId)
    requires acts != []
    ensures LastUp(acts, k, spk) <==>
              LastUp(acts[1..], k, spk)
              || (acts[0].Up? && acts[0].k == k && acts[0].spk == spk && Untouched(acts[1..], k, spk))
    ensures Untouched(acts, k, spk) <==> !Touches(acts[0], k, spk) && Untouched(acts[1..], k, spk)
  {
    hide Touches;
    var rest := acts[1..];
    assert forall m | 0 < m < |acts| :: acts[m] == rest[m - 1];
    assert forall m | 0 <= m < |rest| :: rest[m] == acts[m + 1];
    if LastUp(rest, k, spk) {
      var j :| 0 <= j < |rest| && rest[j].Up? && rest[j].k == k && rest[j].spk == spk
               && forall m | j < m < |rest| :: !Touches(rest[m], k, spk);
      assert acts[j + 1].Up? && forall m | j + 1 < m < |acts| :: !Touches(acts[m], k, spk);
    }
    if LastUp(acts, k, spk) {
      var j :| 0 <= j < |acts| && acts[j].Up? && acts[j].k == k && acts[j].spk == spk
               && forall m | j < m < |acts| :: !Touches(acts[m], k, spk);
      assert forall m | j - 1 < m < |rest| :: !Touches(rest[m], k, spk);
      if j > 0 {
        assert rest[j - 1].Up?;
      }
    }
    if acts[0].Up? && acts[0].k == k && acts[0].spk == spk && Untouched(rest, k, spk) {
      assert forall m | 0 < m < |acts| :: !Touches(acts[m], k, spk);
    }
  }

  /** Over every schedule: the current speaker of k is the last one to come up under k, unless something
      has ended it since; or who it was to begin with, if nothing has touched it. */
  lemma {:induction false} CurrentIsLastUp(s: State, acts: seq<Action>, k: Key, spk: SpeakerId)
    requires Possible(s, acts)
    ensures IsCurrent(Run(s, acts), k, spk) <==>
              LastUp(acts, k, spk) || (IsCurrent(s, k, spk) && Untouched(acts, k, spk))
    decreases |acts|
  {
    hide Enabled, Step, IsCurrent, LastUp, Untouched, Touches;
    if acts == [] {
      NothingHappened(k, spk);
    } else {
      StepSpeakers(s, acts[0], k, spk);
      CurrentIsLastUp(Step(s, acts[0]), acts[1..], k, spk);
      LastUpFront(acts, k, spk);
      UpTouches(acts[0], k, spk);
    }
  }

  lemma NothingHappened(k: Key, spk: SpeakerId)
    ensures !LastUp([], k, spk) && Untouched([], k, spk)
  {}

  lemma UpTouches(a: Action, k: Key, spk: SpeakerId)
    ensures a.Up? && a.k == k ==> Touches(a, k, spk)
  {}

  // ---------------------------------------------------------------------------------------------
  // The publisher made for a speaker
  // ---------------------------------------------------------------------------------------------

  /** The action registers publisher p for speaker spk. */
  predicate Makes(s: State, a: Action, spk: SpeakerId, p: PubId) {
    && a.Go? && a.p == p && a.t in s.threads && s.threads[a.t].pc.AddPub? && s.threads[a.t].pc.spk == spk
    && spk in s.keyOf && s.keyOf[spk] !in s.remotePubs
  }

  /** p is in nobody's handle but spk's, and about to be stored in no other. */
  ghost predicate Belongs(s: State, p: PubId, spk: SpeakerId) {
    && (forall x | x in s.rp && s.rp[x] == p :: x == spk)
    && (forall t | t in s.threads && s.threads[t].pc.StoreRp? && s.threads[t].pc.pub == p :: s.threads[t].pc.spk == spk)
  }

  /** A publisher that is not listed under its key, or about to be unlisted, has been closed. */
  ghost predicate Accounted(s: State) {
    && (forall p | p in s.pubKey ::
          (s.pubKey[p] in s.remotePubs && s.remotePubs[s.pubKey[p]] == p) || p in s.closed)
    && (forall t | t in s.threads && s.threads[t].pc.UnlistPub? :: s.threads[t].pc.pub in s.closed)
  }

  /** A thread between two jobs holds no publisher. */
  lemma NextIsEmptyHanded(s: State, t: ThreadId, jobs: seq<Job>, u: ThreadId)
    requires u in Proceed(s, t, jobs).threads
    ensures var pc := Proceed(s, t, jobs).threads[u].pc;
      if u == t then !pc.StoreRp? && !pc.UnlistPub? else u in s.threads && pc == s.threads[u].pc
  {
    if jobs != [] {
      FirstIsEmptyHanded(jobs[0]);
    }
    hide FirstPc;
  }

  lemma FirstIsEmptyHanded(j: Job)
    ensures !FirstPc(j).StoreRp? && !FirstPc(j).UnlistPub?
  {}

  lemma ProceedKeeps(s: State, t: ThreadId, jobs: seq<Job>, p: PubId, spk: SpeakerId)
    ensures Belongs(s, p, spk) ==> Belongs(Proceed(s, t, jobs), p, spk)
    ensures Accounted(s) ==> Accounted(Proceed(s, t, jobs))
    ensures Proceed(s, t, jobs).pubKey == s.pubKey
  {
    ProceedSpeakers(s, t, jobs);
    hide Proceed;
    forall u | u in Proceed(s, t, jobs).threads {
      NextIsEmptyHanded(s, t, jobs, u);
    }
  }

  lemma UnlistKeeps(s: State, t: ThreadId, pub: PubId, jobs: seq<Job>, p: PubId, spk: SpeakerId)
    requires pub in s.pubKey
    ensures var s' := DoUnlist(s, t, pub, jobs);
      && s'.pubKey == s.pubKey && (Belongs(s, p, spk) ==> Belongs(s', p, spk))
      && (Accounted(s) && pub in s.closed ==> Accounted(s'))
  {
    hide Proceed;
    var k := s.pubKey[pub];
    var gone := k in s.remotePubs && s.remotePubs[k] == pub;
    ProceedKeeps(s.(remotePubs := if gone then s.remotePubs - {k} else s.remotePubs,
                    bare := if gone && Rescan !in jobs then s.bare + {k} else s.bare), t, jobs, p, spk);
  }

  lemma EndKeeps(s: State, t: ThreadId, spks: seq<SpeakerId>, p: PubId, spk: SpeakerId)
    ensures Belongs(s, p, spk) ==> Belongs(TrackEnd(s, t, spks), p, spk)
    ensures Accounted(s) ==> Accounted(TrackEnd(s, t, spks))
    ensures TrackEnd(s, t, spks).pubKey == s.pubKey
  {
    hide Proceed;
    ProceedKeeps(s.(speakers := map k | k in s.speakers && s.speakers[k] !in spks :: s.speakers[k]), t,
                 Swaps(spks) + [Rescan], p, spk);
  }

  lemma AdvanceKeeps(s: State, t: ThreadId, q: PubId, order: seq<SpeakerId>, p: PubId, spk: SpeakerId)
    requires t in s.threads && ReadyToRun(s, s.threads[t]) && q !in s.pubKey && p in s.pubKey
    ensures var s' := Advance(s, t, q, order);
      && p in s'.pubKey && (Belongs(s, p, spk) ==> Belongs(s', p, spk))
  {
    hide Proceed, DoUnlist;
    var jobs := s.threads[t].jobs;
    ProceedKeeps(s, t, jobs, p, spk);
    match s.threads[t].pc
    case AddPub(x, retry) =>
    case StoreRp(x, pub, retry) =>
    case CheckStale(x, retry) =>
    case SwapRp(x) =>
    case ClosePub(pub) =>
    case UnlistPub(pub) => UnlistKeeps(s, t, pub, jobs, p, spk);
    case Scan => ProceedKeeps(s.(bare := {}), t, Attempts(order), p, spk);
  }

  lemma AdvanceAccounts(s: State, t: ThreadId, q: PubId, order: seq<SpeakerId>)
    requires t in s.threads && ReadyToRun(s, s.threads[t]) && q !in s.pubKey && Accounted(s)
    ensures Accounted(Advance(s, t, q, order))
  {
    hide Proceed, DoUnlist, Belongs;
    var jobs := s.threads[t].jobs;
    ProceedKeeps(s, t, jobs, q, 0);
    match s.threads[t].pc
    case AddPub(x, retry) =>
    case StoreRp(x, pub, retry) =>
    case CheckStale(x, retry) =>
    case SwapRp(x) =>
    case ClosePub(pub) =>
    case UnlistPub(pub) => UnlistKeeps(s, t, pub, jobs, q, 0);
    case Scan => ProceedKeeps(s.(bare := {}), t, Attempts(order), q, 0);
  }

  lemma UpKeeps(s: State, t: ThreadId, k: Key, x: SpeakerId, p: PubId, spk: SpeakerId)
    ensures var s' := TrackUp(s, t, k, x);
      && s'.pubKey == s.pubKey && (Belongs(s, p, spk) ==> Belongs(s', p, spk))
      && (Accounted(s) ==> Accounted(s'))
  {}

  lemma StepKeepsOwner(s: State, a: Action, p: PubId, spk: SpeakerId)
    requires Enabled(s, a) && p in s.pubKey && Belongs(s, p, spk)
    ensures p in Step(s, a).pubKey && Belongs(Step(s, a), p, spk)
  {
    hide Lists, Handleless, Advance, ReadyToRun, TrackEnd, TrackUp;
    match a
    case Up(t, k, x) => UpKeeps(s, t, k, x, p, spk);
    case End(t, spks) => EndKeeps(s, t, spks, p, spk);
    case Recompute(t) =>
    case Go(t, q, order) => AdvanceKeeps(s, t, q, order, p, spk);
  }

  lemma StepKeepsAccounts(s: State, a: Action)
    requires Enabled(s, a) && Accounted(s)
    ensures Accounted(Step(s, a))
  {
    hide Lists, Handleless, Advance, ReadyToRun, TrackEnd, TrackUp, Belongs;
    match a
    case Up(t, k, x) => UpKeeps(s, t, k, x, 0, 0);
    case End(t, spks) => EndKeeps(s, t, spks, 0, 0);
    case Recompute(t) =>
    case Go(t, q, order) => AdvanceAccounts(s, t, q, order);
  }

  lemma {:induction false} RunKeepsOwner(s: State, acts: seq<Action>, p: PubId, spk: SpeakerId)
    requires Possible(s, acts) && p in s.pubKey && Belongs(s, p, spk)
    ensures p in Run(s, acts).pubKey && Belongs(Run(s, acts), p, spk)
    decreases |acts|
  {
    if acts != [] {
      hide Enabled, Step, Belongs;
      StepKeepsOwner(s, acts[0], p, spk);
      RunKeepsOwner(Step(s, acts[0]), acts[1..], p, spk);
    }
  }

  lemma {:induction false} RunKeepsAccounts(s: State, acts: seq<Action>)
    requires Possible(s, acts) && Accounted(s)
    ensures Accounted(Run(s, acts))
    decreases |acts|
  {
    if acts != [] {
      hide Enabled, Step, Accounted;
      StepKeepsAccounts(s, acts[0]);
      RunKeepsAccounts(Step(s, acts[0]), acts[1..]);
    }
  }

  lemma MadeIsOwned(s: State, a: Action, spk: SpeakerId, p: PubId)
    requires Inv(s) && Enabled(s, a) && Makes(s, a, spk, p)
    ensures p in Step(s, a).pubKey && Belongs(Step(s, a), p, spk)
  {
    hide KeysAgree, Holding, StaleIsWatched, Owing, Lists, Handleless;
    forall t | t in s.threads ensures !(s.threads[t].pc.StoreRp? && s.threads[t].pc.pub == p) {
      assert ReadyToRun(s, s.threads[t]);
    }
  }

  // ---------------------------------------------------------------------------------------------
  // Speakers that have ended
  // ---------------------------------------------------------------------------------------------

  /** Known and current under no key. */
  ghost predicate Gone(s: State, spk: SpeakerId) {
    spk in s.keyOf && forall k :: !IsCurrent(s, k, spk)
  }

  lemma StepKeepsGone(s: State, a: Action, spk: SpeakerId)
    requires Enabled(s, a) && (Gone(s, spk) || (a.End? && spk in a.spks))
    ensures Gone(Step(s, a), spk)
  {
    forall k ensures !IsCurrent(Step(s, a), k, spk) {
      StepSpeakers(s, a, k, spk);
    }
    hide Lists, Handleless, Advance, ReadyToRun, TrackEnd, IsCurrent;
    match a
    case Up(t, j, x) =>
    case End(t, spks) => EndSpeakers(s, t, spks);
    case Recompute(t) =>
    case Go(t, p, order) => AdvanceSpeakers(s, t, p, order);
  }

  lemma {:induction false} EndedStaysGone(s: State, acts: seq<Action>, j: nat, spk: SpeakerId)
    requires Possible(s, acts)
    requires Gone(s, spk) || (j < |acts| && acts[j].End? && spk in acts[j].spks)
    ensures Gone(Run(s, acts), spk)
    decreases |acts|
  {
    hide Enabled, Step, Gone;
    if acts != [] {
      if Gone(s, spk) || j == 0 {
        StepKeepsGone(s, acts[0], spk);
        EndedStaysGone(Step(s, acts[0]), acts[1..], 0, spk);
      } else {
        EndedStaysGone(Step(s, acts[0]), acts[1..], j - 1, spk);
      }
    }
  }

  lemma Split(s: State, acts: seq<Action>, i: nat)
    requires Possible(s, acts) && i <= |acts|
    ensures Possible(s, acts[..i]) && Possible(Run(s, acts[..i]), acts[i..])
    ensures Run(s, acts) == Run(Run(s, acts[..i]), acts[i..])
    decreases |acts|
  {
    hide Enabled, Step;
    if i == 0 {
      assert acts[..0] == [] && acts[0..] == acts;
    } else {
      Split(Step(s, acts[0]), acts[1..], i - 1);
      assert acts[..i][0] == acts[0] && acts[..i][1..] == acts[1..][..i - 1] && acts[i..] == acts[1..][i - 1..];
    }
  }

  lemma EmptyAccounted()
    ensures Accounted(EMPTY)
  {}

  /** At rest, under every interleaving, the room lists under k a publisher only of the last speaker to come
      up under k, if nothing has ended it since; and of all publishers ever registered exactly the listed
      ones are open. */
  lemma RestingRoomFollowsActions(acts: seq<Action>)
    requires Possible(EMPTY, acts) && Run(EMPTY, acts).threads == map[]
    ensures var s := Run(EMPTY, acts);
      && (forall k | k in s.remotePubs :: exists spk ::
            LastUp(acts, k, spk) && spk in s.rp && s.rp[spk] == s.remotePubs[k])
      && (forall spk | spk in s.rp :: spk in s.keyOf && LastUp(acts, s.keyOf[spk], spk))
      && (forall p | p in s.pubKey ::
            p !in s.closed <==> s.pubKey[p] in s.remotePubs && s.remotePubs[s.pubKey[p]] == p)
  {
    RestIsClean(acts);
    var s := Run(EMPTY, acts);
    hide Run, Possible, LastUp, Current;
    forall p | p in s.pubKey
      ensures p !in s.closed <==> s.pubKey[p] in s.remotePubs && s.remotePubs[s.pubKey[p]] == p
    {
      ListedIsOpen(s, p);
    }
    hide Clean;
    forall spk | spk in s.rp ensures spk in s.keyOf && LastUp(acts, s.keyOf[spk], spk) {
      HolderIsLast(acts, spk);
    }
    forall k | k in s.remotePubs
      ensures exists spk :: LastUp(acts, k, spk) && spk in s.rp && s.rp[spk] == s.remotePubs[k]
    {
      ListedIsLast(acts, k);
    }
  }

  /** What the room and the handles look like at rest, and that no publisher is left open. */
  ghost predicate Clean(s: State) {
    && (forall k | k in s.remotePubs ::
          && k in s.speakers && s.speakers[k] in s.rp && s.rp[s.speakers[k]] == s.remotePubs[k]
          && s.remotePubs[k] !in s.closed)
    && (forall spk | spk in s.rp :: Current(s, spk))
    && Accounted(s)
  }

  lemma RestIsClean(acts: seq<Action>)
    requires Possible(EMPTY, acts) && Run(EMPTY, acts).threads == map[]
    ensures Clean(Run(EMPTY, acts))
  {
    EmptyAccounted();
    RunKeepsAccounts(EMPTY, acts);
    RestingRoomIsClean(acts);
    hide Run, Possible, Accounted;
  }

  lemma ListedIsOpen(s: State, p: PubId)
    requires Clean(s) && p in s.pubKey
    ensures p !in s.closed <==> s.pubKey[p] in s.remotePubs && s.remotePubs[s.pubKey[p]] == p
  {
    hide Current;
  }

  lemma HolderIsLast(acts: seq<Action>, spk: SpeakerId)
    requires Possible(EMPTY, acts) && Clean(Run(EMPTY, acts)) && spk in Run(EMPTY, acts).rp
    ensures spk in Run(EMPTY, acts).keyOf && LastUp(acts, Run(EMPTY, acts).keyOf[spk], spk)
  {
    var s := Run(EMPTY, acts);
    hide Run, Possible, LastUp;
    assert Current(s, spk);
    hide Clean;
    CurrentIsLastUp(EMPTY, acts, s.keyOf[spk], spk);
  }

  lemma ListedIsLast(acts: seq<Action>, k: Key)
    requires Possible(EMPTY, acts) && Clean(Run(EMPTY, acts)) && k in Run(EMPTY, acts).remotePubs
    ensures var s := Run(EMPTY, acts);
      k in s.speakers && LastUp(acts, k, s.speakers[k]) && s.speakers[k] in s.rp
      && s.rp[s.speakers[k]] == s.remotePubs[k]
  {
    var s := Run(EMPTY, acts);
    hide Run, Possible, LastUp, Accounted, Current;
    assert k in s.speakers && s.speakers[k] in s.rp && s.rp[s.speakers[k]] == s.remotePubs[k];
    hide Clean;
    CurrentIsLastUp(EMPTY, acts, k, s.speakers[k]);
  }

  /** Whenever in the schedule a speaker is ended, before or after a publisher was registered for it: at rest
      it is current under no key, it holds no handle, and that publisher is not listed and is closed. */
  lemma EndedIsGone(acts: seq<Action>, i: nat, j: nat, spk: SpeakerId, p: PubId)
    requires Possible(EMPTY, acts) && Run(EMPTY, acts).threads == map[]
    requires j < |acts| && acts[j].End? && spk in acts[j].spks
    requires i < |acts| && Possible(EMPTY, acts[..i]) && Makes(Run(EMPTY, acts[..i]), acts[i], spk, p)
    ensures var s := Run(EMPTY, acts);
      && (forall k | k in s.speakers :: s.speakers[k] != spk) && spk !in s.rp
      && (forall k | k in s.remotePubs :: s.remotePubs[k] != p) && p in s.closed
  {
    hide *;
    EndedStaysGone(EMPTY, acts, j, spk);
    RestIsClean(acts);
    MadeStaysOwned(acts, i, spk, p);
    GoneAtRest(Run(EMPTY, acts), spk, p);
  }

  lemma GoneAtRest(s: State, spk: SpeakerId, p: PubId)
    requires Gone(s, spk) && p in s.pubKey && Belongs(s, p, spk) && Clean(s)
    ensures (forall k | k in s.speakers :: s.speakers[k] != spk) && spk !in s.rp
    ensures (forall k | k in s.remotePubs :: s.remotePubs[k] != p) && p in s.closed
  {
    assert forall k | k in s.speakers :: IsCurrent(s, k, s.speakers[k]);
    forall k | k in s.remotePubs ensures s.remotePubs[k] != p {
      assert s.rp[s.speakers[k]] == s.remotePubs[k];
    }
    ListedIsOpen(s, p);
  }

  lemma MadeStaysOwned(acts: seq<Action>, i: nat, spk: SpeakerId, p: PubId)
    requires Possible(EMPTY, acts) && i < |acts| && Possible(EMPTY, acts[..i])
    requires Makes(Run(EMPTY, acts[..i]), acts[i], spk, p)
    ensures p in Run(EMPTY, acts).pubKey && Belongs(Run(EMPTY, acts), p, spk)
  {
    var s1 := Run(EMPTY, acts[..i]);
    Split(EMPTY, acts, i);
    EmptyInv();
    RunKeepsInv(EMPTY, acts[..i]);
    assert acts[i..][0] == acts[i] && acts[i..][1..] == acts[i + 1..];
    hide Inv, Step, Enabled, Belongs, Makes;
    MadeIsOwned(s1, acts[i], spk, p);
    RunKeepsOwner(Step(s1, acts[i]), acts[i + 1..], p, spk);
  }
}
