/** When the race costs a current speaker its publisher: exactly when the last thing to happen under
    its key is the one clean-up that no recompute follows. */
module RegistrationLoss {
  import opened Options
  import opened RemoteRegistration

  // ---------------------------------------------------------------------------------------------
  // The converse: when a current speaker is left without a publisher
  // ---------------------------------------------------------------------------------------------

  /** The action compares a registration that a recompute made with the current speaker of key k, and
      finds it stale. */
  predicate FindsStale(s: State, a: Action, k: Key) {
    && a.Go? && a.t in s.threads && s.threads[a.t].pc.CheckStale? && s.threads[a.t].pc.retry
    && s.threads[a.t].pc.spk in s.keyOf && s.keyOf[s.threads[a.t].pc.spk] == k && !Current(s, s.threads[a.t].pc.spk)
  }

  /** The action removes the publisher of k from the room in a thread that makes no recompute after. */
  predicate Bares(s: State, a: Action, k: Key) {
    && a.Go? && a.t in s.threads && s.threads[a.t].pc.UnlistPub? && Rescan !in s.threads[a.t].jobs
    && s.threads[a.t].pc.pub in s.pubKey && s.pubKey[s.threads[a.t].pc.pub] == k
    && k in s.remotePubs && s.remotePubs[k] == s.threads[a.t].pc.pub
  }

  /** The action is a recompute's scan, or registers a publisher of k. */
  predicate Mends(s: State, a: Action, k: Key) {
    && a.Go? && a.t in s.threads
    && (s.threads[a.t].pc.Scan? ||
        (s.threads[a.t].pc.AddPub? && s.threads[a.t].pc.spk in s.keyOf && s.keyOf[s.threads[a.t].pc.spk] == k
            && k !in s.remotePubs))
  }

  ghost predicate EverStale(s: State, acts: seq<Action>, k: Key)
    requires Possible(s, acts)
    decreases |acts|
  {
    acts != [] && (FindsStale(s, acts[0], k) || EverStale(Step(s, acts[0]), acts[1..], k))
  }

  ghost predicate NeverMends(s: State, acts: seq<Action>, k: Key)
    requires Possible(s, acts)
    decreases |acts|
  {
    acts == [] || (!Mends(s, acts[0], k) && NeverMends(Step(s, acts[0]), acts[1..], k))
  }

  /** Somewhere in the schedule a clean-up bares k, and no scan and no registration of k follows. */
  ghost predicate EndsBare(s: State, acts: seq<Action>, k: Key)
    requires Possible(s, acts)
    decreases |acts|
  {
    acts != [] &&
      ((Bares(s, acts[0], k) && NeverMends(Step(s, acts[0]), acts[1..], k)) || EndsBare(Step(s, acts[0]), acts[1..], k))
  }

  lemma ProceedRecords(s: State, t: ThreadId, jobs: seq<Job>)
    ensures Proceed(s, t, jobs).staled == s.staled && Proceed(s, t, jobs).bare == s.bare
  {}

  lemma UnlistRecords(s: State, t: ThreadId, pub: PubId, jobs: seq<Job>, k: Key)
    requires pub in s.pubKey
    ensures var s' := DoUnlist(s, t, pub, jobs);
      && s'.staled == s.staled
      && (k in s'.bare <==>
            k in s.bare || (s.pubKey[pub] == k && k in s.remotePubs && s.remotePubs[k] == pub && Rescan !in jobs))
  {
    hide Proceed;
    var s' := DoUnlist(s, t, pub, jobs);
    var k' := s.pubKey[pub];
    var gone := k' in s.remotePubs && s.remotePubs[k'] == pub;
    ProceedRecords(s.(remotePubs := if gone then s.remotePubs - {k'} else s.remotePubs,
                      bare := if gone && Rescan !in jobs then s.bare + {k'} else s.bare), t, jobs);
  }

  lemma AdvanceRecords(s: State, t: ThreadId, p: PubId, order: seq<SpeakerId>, k: Key)
    requires t in s.threads && ReadyToRun(s, s.threads[t])
    ensures var s', a := Advance(s, t, p, order), Go(t, p, order);
      && (k in s'.staled <==> k in s.staled || FindsStale(s, a, k))
      && (k in s'.bare <==> Bares(s, a, k) || (k in s.bare && !Mends(s, a, k)))
  {
    hide Proceed, DoUnlist;
    var jobs := s.threads[t].jobs;
    ProceedRecords(s, t, jobs);
    match s.threads[t].pc
    case AddPub(spk, retry) =>
    case StoreRp(spk, pub, retry) =>
    case CheckStale(spk, retry) =>
    case SwapRp(spk) =>
    case ClosePub(pub) =>
    case UnlistPub(pub) => UnlistRecords(s, t, pub, jobs, k);
    case Scan => ProceedRecords(s.(bare := {}), t, Attempts(order));
  }

  lemma StepRecords(s: State, a: Action, k: Key)
    requires Enabled(s, a)
    ensures k in Step(s, a).staled <==> k in s.staled || FindsStale(s, a, k)
    ensures k in Step(s, a).bare <==> Bares(s, a, k) || (k in s.bare && !Mends(s, a, k))
  {
    hide Lists, Handleless, Advance, ReadyToRun;
    match a
    case Up(t, j, spk) =>
    case End(t, spks) =>
    case Recompute(t) =>
    case Go(t, p, order) => AdvanceRecords(s, t, p, order, k);
  }

  lemma {:induction false} RunRecords(s: State, acts: seq<Action>, k: Key)
    requires Possible(s, acts)
    ensures k in Run(s, acts).staled <==> k in s.staled || EverStale(s, acts, k)
    ensures k in Run(s, acts).bare <==> EndsBare(s, acts, k) || (k in s.bare && NeverMends(s, acts, k))
    decreases |acts|
  {
    if acts != [] {
      hide Enabled, Step, FindsStale, Bares, Mends;
      StepRecords(s, acts[0], k);
      RunRecords(Step(s, acts[0]), acts[1..], k);
    }
  }

  /** At rest, a current speaker has no publisher if and only if its key is bare. */
  lemma LostIffBare(s: State, k: Key)
    requires Inv(s) && s.threads == map[] && k in s.speakers
    ensures s.speakers[k] !in s.rp <==> k in s.bare
    ensures s.speakers[k] in s.rp <==> k in s.remotePubs
  {
    hide KeysAgree, HeldOnce, ClosedIsLeaving;
    assert Promised(s, k) && !Planned(s, s.speakers[k]) && !ScanAhead(s);
    if s.speakers[k] in s.rp {
      assert Held(s, Speaker(s.speakers[k])) == Some(s.rp[s.speakers[k]]);
      RestingHolder(s, k);
    }
    if k in s.remotePubs {
      ListedAtRest(s, k);
    }
  }

  lemma RestingHolder(s: State, k: Key)
    requires Keyed(s) && HeldIsListed(s) && k in s.speakers && s.speakers[k] in s.rp
    ensures k in s.remotePubs
  {
    assert Held(s, Speaker(s.speakers[k])) == Some(s.rp[s.speakers[k]]);
  }

  lemma ListedAtRest(s: State, k: Key)
    requires Keyed(s) && ListedIsHeld(s) && StaleIsWatched(s) && s.threads == map[] && k in s.remotePubs
    requires k in s.speakers
    ensures s.speakers[k] in s.rp
  {
    var h :| Held(s, h) == Some(s.remotePubs[k]);
    assert h.Speaker?;
    assert !Watched(s, h.spk);
  }

  /** The exact condition, on the schedule: at rest the current speaker of k has no publisher if and
      only if the last thing that happened to k's registration was a clean-up that no recompute of its
      own thread follows, with no other recompute and no registration of k after it. */
  lemma LostIffEndsBare(acts: seq<Action>, k: Key)
    requires Possible(EMPTY, acts) && Run(EMPTY, acts).threads == map[] && k in Run(EMPTY, acts).speakers
    ensures var s := Run(EMPTY, acts); s.speakers[k] !in s.rp <==> EndsBare(EMPTY, acts, k)
  {
    EmptyInv();
    RunKeepsInv(EMPTY, acts);
    RunRecords(EMPTY, acts, k);
    hide Inv, Run, Possible, EndsBare, EverStale, NeverMends;
    LostIffBare(Run(EMPTY, acts), k);
  }

  /** And such a clean-up only ever follows a registration that a recompute made and that was then
      found stale: without one, every current speaker at rest has its publisher listed. */
  lemma LossNeedsStaleRetry(acts: seq<Action>, k: Key)
    requires Possible(EMPTY, acts) && Run(EMPTY, acts).threads == map[] && k in Run(EMPTY, acts).speakers
    requires !EverStale(EMPTY, acts, k)
    ensures var s := Run(EMPTY, acts);
      s.speakers[k] in s.rp && k in s.remotePubs && s.remotePubs[k] == s.rp[s.speakers[k]]
  {
    EmptyInv();
    RunKeepsInv(EMPTY, acts);
    RunRecords(EMPTY, acts, k);
    var s := Run(EMPTY, acts);
    assert k !in s.bare;
    hide Run, Possible, EndsBare, EverStale, NeverMends, Owing;
    LostIffBare(s, k);
    RestingRoomIsClean(acts);
  }

  // ---------------------------------------------------------------------------------------------
  // A schedule that loses a registration
  // ---------------------------------------------------------------------------------------------

  /** A recompute registers for speaker 10, which a re-hang then replaces by 11. Both threads that
      brought a speaker up find the key taken, recompute, and find it taken again; only then is the
      recompute's registration found stale, and its clean-up is the last thing to happen. */
  const LOST: seq<Action> := [
    Up(1, "k", 10), Recompute(2), Go(2, 100, [10]), Go(2, 100, []),
    Go(1, 101, []), Go(1, 101, [10]), Go(1, 101, []),
    Up(3, "k", 11), Go(3, 101, []), Go(3, 101, [11]), Go(3, 101, []),
    Go(2, 101, []), Go(2, 101, []), Go(2, 101, []), Go(2, 101, []), Go(2, 101, [])]

  /** Speaker 10 is up; the recompute has not registered it yet. */
  function Early(threads: map<ThreadId, Proc>): State {
    State(map["k" := 10], map[10 := "k"], map[], map[], map[], {}, threads, {}, {})
  }

  /** The recompute has listed publisher 100 for speaker 10. */
  function Listed(threads: map<ThreadId, Proc>): State {
    State(map["k" := 10], map[10 := "k"], map[], map["k" := 100], map[100 := "k"], {}, threads, {}, {})
  }

  /** Speaker 11 has replaced 10, which may hold 100. */
  function Replaced(rp: map<SpeakerId, PubId>, closed: set<PubId>, threads: map<ThreadId, Proc>,
                    staled: set<Key>): State {
    State(map["k" := 11], map[10 := "k", 11 := "k"], rp, map["k" := 100], map[100 := "k"], closed, threads, staled, {})
  }

  const LOST_STATE := State(map["k" := 11], map[10 := "k", 11 := "k"], map[], map[], map[100 := "k"], {100}, map[],
      {"k"}, {"k"})

  const STORING := Proc(StoreRp(10, 100, true), [])

  function LostState(i: nat): State
    requires i <= 16
  {
    match i
    case 0 => EMPTY
    case 1 => Early(map[1 := Proc(AddPub(10, false), [Rescan])])
    case 2 => Early(map[1 := Proc(AddPub(10, false), [Rescan]), 2 := Proc(Scan, [])])
    case 3 => Early(map[1 := Proc(AddPub(10, false), [Rescan]), 2 := Proc(AddPub(10, true), [])])
    case 4 => Listed(map[1 := Proc(AddPub(10, false), [Rescan]), 2 := STORING])
    case 5 => Listed(map[1 := Proc(Scan, []), 2 := STORING])
    case 6 => Listed(map[1 := Proc(AddPub(10, true), []), 2 := STORING])
    case 7 => Listed(map[2 := STORING])
    case 8 => Replaced(map[], {}, map[2 := STORING, 3 := Proc(AddPub(11, false), [Rescan])], {})
    case 9 => Replaced(map[], {}, map[2 := STORING, 3 := Proc(Scan, [])], {})
    case 10 => Replaced(map[], {}, map[2 := STORING, 3 := Proc(AddPub(11, true), [])], {})
    case 11 => Replaced(map[], {}, map[2 := STORING], {})
    case 12 => Replaced(map[10 := 100], {}, map[2 := Proc(CheckStale(10, true), [])], {})
    case 13 => Replaced(map[10 := 100], {}, map[2 := Proc(SwapRp(10), [])], {"k"})
    case 14 => Replaced(map[], {}, map[2 := Proc(ClosePub(100), [])], {"k"})
    case 15 => Replaced(map[], {100}, map[2 := Proc(UnlistPub(100), [])], {"k"})
    case _ => LOST_STATE
  }

  ghost predicate LostStep(i: nat)
    requires i < 16
  {
    Enabled(LostState(i), LOST[i]) && Step(LostState(i), LOST[i]) == LostState(i + 1)
  }

  lemma OneHandleless(s: State, k: Key, x: SpeakerId)
    requires s.speakers == map[k := x] && x !in s.rp
    ensures Handleless(s) == {x}
  {
    assert k in s.speakers && s.speakers[k] == x;
    assert x in Handleless(s);
  }

  lemma ScanFindsOne(s: State, t: ThreadId, x: SpeakerId, p: PubId)
    requires t in s.threads && s.threads[t] == Proc(Scan, []) && p !in s.pubKey && Handleless(s) == {x}
    ensures Enabled(s, Go(t, p, [x])) && Step(s, Go(t, p, [x])) == Put(s.(bare := {}), t, AddPub(x, true), [])
  {
    hide Handleless;
    assert Attempts([x]) == [Attempt(x)];
    assert [Attempt(x)][1..] == [];
  }

  lemma OwnIsRefused(s: State, t: ThreadId, x: SpeakerId, p: PubId)
    requires t in s.threads && s.threads[t] == Proc(AddPub(x, false), [Rescan]) && p !in s.pubKey
    requires x in s.keyOf && s.keyOf[x] in s.remotePubs
    ensures Enabled(s, Go(t, p, [])) && Step(s, Go(t, p, [])) == Put(s, t, Scan, [])
  {
    assert [Rescan][1..] == [];
  }

  lemma RetryIsRefused(s: State, t: ThreadId, x: SpeakerId, p: PubId)
    requires t in s.threads && s.threads[t] == Proc(AddPub(x, true), []) && p !in s.pubKey
    requires x in s.keyOf && s.keyOf[x] in s.remotePubs
    ensures Enabled(s, Go(t, p, [])) && Step(s, Go(t, p, [])) == s.(threads := s.threads - {t})
  {}

  /** A registration of a recompute, its last one, runs through to the end and is found stale. */
  lemma RetryIsStale(s: State, t: ThreadId, x: SpeakerId, pub: PubId, p: PubId)
    requires t in s.threads && p !in s.pubKey && x in s.keyOf && pub in s.pubKey
    ensures s.threads[t] == Proc(StoreRp(x, pub, true), []) ==>
      Enabled(s, Go(t, p, [])) && Step(s, Go(t, p, [])) == Put(s.(rp := s.rp[x := pub]), t, CheckStale(x, true), [])
    ensures s.threads[t] == Proc(CheckStale(x, true), []) && !Current(s, x) ==>
      Enabled(s, Go(t, p, [])) && Step(s, Go(t, p, [])) == Put(s.(staled := s.staled + {s.keyOf[x]}), t, SwapRp(x), [])
    ensures s.threads[t] == Proc(SwapRp(x), []) && x in s.rp ==>
      Enabled(s, Go(t, p, [])) && Step(s, Go(t, p, [])) == Put(s.(rp := s.rp - {x}), t, ClosePub(s.rp[x]), [])
    ensures s.threads[t] == Proc(ClosePub(pub), []) && pub !in s.closed ==>
      Enabled(s, Go(t, p, [])) && Step(s, Go(t, p, [])) == Put(s.(closed := s.closed + {pub}), t, UnlistPub(pub), [])
    ensures s.threads[t] == Proc(UnlistPub(pub), []) && s.pubKey[pub] in s.remotePubs
              && s.remotePubs[s.pubKey[pub]] == pub ==>
      Enabled(s, Go(t, p, [])) &&
      Step(s, Go(t, p, []))
          == s.(remotePubs := s.remotePubs - {s.pubKey[pub]}, bare := s.bare + {s.pubKey[pub]},
              threads := s.threads - {t})
  {}

  lemma LostOpening()
    ensures LostStep(0) && LostStep(1)
  {
    assert Step(LostState(0), LOST[0]) == LostState(1);
    assert Step(LostState(1), LOST[1]).threads == LostState(2).threads;
  }

  lemma LostRegister()
    ensures LostStep(2) && LostStep(3)
  {
    var s2, s3 := LostState(2), LostState(3);
    OneHandleless(s2, "k", 10);
    ScanFindsOne(s2, 2, 10, 100);
    assert s2.threads[2 := Proc(AddPub(10, true), [])] == s3.threads;
    hide Handleless, Lists;
    assert Step(s3, LOST[3]).threads == LostState(4).threads;
  }

  lemma FirstRefused()
    ensures LostStep(4)
  {
    hide Step, Enabled;
    OwnIsRefused(LostState(4), 1, 10, 101);
    assert LostState(4).threads[1 := Proc(Scan, [])] == LostState(5).threads;
  }

  lemma FirstScans()
    ensures LostStep(5)
  {
    hide Step, Enabled, Handleless;
    OneHandleless(LostState(5), "k", 10);
    ScanFindsOne(LostState(5), 1, 10, 101);
    assert LostState(5).threads[1 := Proc(AddPub(10, true), [])] == LostState(6).threads;
  }

  lemma FirstRefusedAgain()
    ensures LostStep(6)
  {
    hide Step, Enabled;
    RetryIsRefused(LostState(6), 1, 10, 101);
    assert LostState(6).threads - {1} == LostState(7).threads;
  }

  lemma LostReplace()
    ensures LostStep(7)
  {
    var s7 := LostState(7);
    assert Step(s7, LOST[7]).threads == LostState(8).threads;
    assert Step(s7, LOST[7]).keyOf == LostState(8).keyOf;
  }

  lemma SecondRefused()
    ensures LostStep(8)
  {
    hide Step, Enabled;
    OwnIsRefused(LostState(8), 3, 11, 101);
    assert LostState(8).threads[3 := Proc(Scan, [])] == LostState(9).threads;
  }

  lemma SecondScans()
    ensures LostStep(9)
  {
    hide Step, Enabled, Handleless;
    OneHandleless(LostState(9), "k", 11);
    ScanFindsOne(LostState(9), 3, 11, 101);
    assert LostState(9).threads[3 := Proc(AddPub(11, true), [])] == LostState(10).threads;
  }

  lemma SecondRefusedAgain()
    ensures LostStep(10)
  {
    hide Step, Enabled;
    RetryIsRefused(LostState(10), 3, 11, 101);
    assert LostState(10).threads - {3} == LostState(11).threads;
  }

  lemma LostStale()
    ensures LostStep(11) && LostStep(12)
  {
    hide Step, Enabled;
    var s11, s12 := LostState(11), LostState(12);
    RetryIsStale(s11, 2, 10, 100, 101);
    assert s11.threads[2 := Proc(CheckStale(10, true), [])] == s12.threads;
    RetryIsStale(s12, 2, 10, 100, 101);
    assert s12.threads[2 := Proc(SwapRp(10), [])] == LostState(13).threads;
  }

  lemma LostClose()
    ensures LostStep(13) && LostStep(14)
  {
    hide Step, Enabled;
    var s13, s14 := LostState(13), LostState(14);
    RetryIsStale(s13, 2, 10, 100, 101);
    assert map[10 := 100] - {10} == map[];
    assert s13.threads[2 := Proc(ClosePub(100), [])] == s14.threads;
    RetryIsStale(s14, 2, 10, 100, 101);
    assert s14.threads[2 := Proc(UnlistPub(100), [])] == LostState(15).threads;
  }

  lemma LostUnlist()
    ensures LostStep(15)
  {
    hide Step, Enabled;
    var s15 := LostState(15);
    RetryIsStale(s15, 2, 10, 100, 101);
    assert map["k" := 100] - {"k"} == map[];
    assert s15.threads - {2} == map[];
  }

  lemma LostSteps(i: nat)
    requires i < 16
    ensures LostStep(i)
  {
    hide LostStep;
    LostOpening();
    LostRegister();
    FirstRefused();
    FirstScans();
    FirstRefusedAgain();
    LostReplace();
    SecondRefused();
    SecondScans();
    SecondRefusedAgain();
    LostStale();
    LostClose();
    LostUnlist();
  }

  /** Every thread of the schedule has made its recompute, and the current speaker has no publisher. */
  lemma RegistrationCanBeLost()
    ensures Possible(EMPTY, LOST) && Run(EMPTY, LOST) == LOST_STATE
    ensures LOST_STATE.threads == map[] && LOST_STATE.speakers == map["k" := 11] && 11 !in LOST_STATE.rp
    ensures "k" !in LOST_STATE.remotePubs
    ensures EverStale(EMPTY, LOST, "k") && EndsBare(EMPTY, LOST, "k")
  {
    var states := seq(17, i requires 0 <= i < 17 => LostState(i));
    forall i | 0 <= i < 16 ensures Enabled(states[i], LOST[i]) && states[i + 1] == Step(states[i], LOST[i]) {
      LostSteps(i);
    }
    hide Enabled, Step;
    assert states[0] == EMPTY && states[16] == LOST_STATE;
    hide LostState;
    TraceIsRun(states, LOST);
    RunRecords(EMPTY, LOST, "k");
  }

  lemma {:induction false} TraceIsRun(states: seq<State>, acts: seq<Action>)
    requires |states| == |acts| + 1
    requires forall i | 0 <= i < |acts| :: Enabled(states[i], acts[i]) && states[i + 1] == Step(states[i], acts[i])
    ensures Possible(states[0], acts) && Run(states[0], acts) == states[|acts|]
    decreases |acts|
  {
    hide Enabled, Step;
    if acts != [] {
      assert states[0 + 1] == Step(states[0], acts[0]);
      forall i | 0 <= i < |acts[1..]|
        ensures Enabled(states[1..][i], acts[1..][i]) && states[1..][i + 1] == Step(states[1..][i], acts[1..][i])
      {
        assert states[i + 1 + 1] == Step(states[i + 1], acts[i + 1]);
      }
      TraceIsRun(states[1..], acts[1..]);
    }
  }

  // ---------------------------------------------------------------------------------------------
  // One more recompute
  // ---------------------------------------------------------------------------------------------

  /** t alone is running, and has these attempts to make. */
  predicate OnlyAttempts(s: State, t: ThreadId, order: seq<SpeakerId>) {
    s.threads == if order == [] then map[] else map[t := Proc(AddPub(order[0], true), Attempts(order)[1..])]
  }

  /** The speakers in order are current, of different keys, and none of their keys is listed. */
  predicate Registrable(s: State, order: seq<SpeakerId>) {
    && (forall i | 0 <= i < |order| :: Current(s, order[i]) && s.keyOf[order[i]] !in s.remotePubs)
    && (forall i, j | 0 <= i < j < |order| :: order[i] != order[j])
  }

  lemma AttemptAdds(s: State, t: ThreadId, x: SpeakerId, jobs: seq<Job>, p: PubId)
    requires s.threads == map[t := Proc(AddPub(x, true), jobs)] && Current(s, x) && s.keyOf[x] !in s.remotePubs
    requires p !in s.pubKey
    requires forall j | j in jobs :: KnownJob(s, j)
    ensures Enabled(s, Go(t, p, []))
    ensures Step(s, Go(t, p, []))
              == s.(remotePubs := s.remotePubs[s.keyOf[x] := p], pubKey := s.pubKey[p := s.keyOf[x]],
                    bare := s.bare - {s.keyOf[x]}, threads := map[t := Proc(StoreRp(x, p, true), jobs)])
  {
    assert s.threads[t := Proc(StoreRp(x, p, true), jobs)] == map[t := Proc(StoreRp(x, p, true), jobs)];
  }

  lemma AttemptStores(s: State, t: ThreadId, x: SpeakerId, pub: PubId, jobs: seq<Job>, q: PubId)
    requires s.threads == map[t := Proc(StoreRp(x, pub, true), jobs)] && x in s.keyOf && pub in s.pubKey
    requires q !in s.pubKey
    requires forall j | j in jobs :: KnownJob(s, j)
    ensures Enabled(s, Go(t, q, []))
    ensures Step(s, Go(t, q, [])) == s.(rp := s.rp[x := pub], threads := map[t := Proc(CheckStale(x, true), jobs)])
  {
    assert s.threads[t := Proc(CheckStale(x, true), jobs)] == map[t := Proc(CheckStale(x, true), jobs)];
  }

  lemma AttemptChecks(s: State, t: ThreadId, x: SpeakerId, jobs: seq<Job>, q: PubId)
    requires s.threads == map[t := Proc(CheckStale(x, true), jobs)] && Current(s, x) && q !in s.pubKey
    requires forall j | j in jobs :: KnownJob(s, j)
    ensures Enabled(s, Go(t, q, []))
    ensures Step(s, Go(t, q, []))
              == s.(threads := if jobs == [] then map[] else map[t := Proc(FirstPc(jobs[0]), jobs[1..])])
  {
    assert s.threads - {t} == map[];
    assert jobs != [] ==>
             s.threads[t := Proc(FirstPc(jobs[0]), jobs[1..])] == map[t := Proc(FirstPc(jobs[0]), jobs[1..])];
  }

  /** The attempt at the head of the list, left alone, registers its speaker. */
  lemma LoneAttempt(s: State, t: ThreadId, order: seq<SpeakerId>, p: PubId, q: PubId)
    returns (s': State, acts: seq<Action>)
    requires order != [] && OnlyAttempts(s, t, order) && Registrable(s, order) && p !in s.pubKey && q !in s.pubKey
    requires p != q
    ensures acts == [Go(t, p, []), Go(t, q, []), Go(t, q, [])] && Possible(s, acts) && Run(s, acts) == s'
    ensures OnlyAttempts(s', t, order[1..])
    ensures s'.rp == s.rp[order[0] := p] && s'.remotePubs == s.remotePubs[s.keyOf[order[0]] := p]
    ensures s'.speakers == s.speakers && s'.keyOf == s.keyOf && s'.pubKey == s.pubKey[p := s.keyOf[order[0]]]
  {
    hide Step, Enabled;
    var x, jobs := order[0], Attempts(order)[1..];
    assert jobs == Attempts(order[1..]);
    assert forall j | j in jobs :: KnownJob(s, j);
    AttemptAdds(s, t, x, jobs, p);
    var s1 := Step(s, Go(t, p, []));
    AttemptStores(s1, t, x, p, jobs, q);
    var s2 := Step(s1, Go(t, q, []));
    AttemptChecks(s2, t, x, jobs, q);
    s' := Step(s2, Go(t, q, []));
    acts := [Go(t, p, []), Go(t, q, []), Go(t, q, [])];
    TraceIsRun([s, s1, s2, s'], acts);
  }

  lemma {:induction false} RunConcat(s: State, a: seq<Action>, b: seq<Action>)
    requires Possible(s, a) && Possible(Run(s, a), b)
    ensures Possible(s, a + b) && Run(s, a + b) == Run(Run(s, a), b)
    decreases |a|
  {
    hide Enabled, Step;
    if a == [] {
      assert a + b == b;
    } else {
      assert (a + b)[0] == a[0] && (a + b)[1..] == a[1..] + b;
      RunConcat(Step(s, a[0]), a[1..], b);
    }
  }

  /** There is always a publisher identity not in use. */
  lemma {:induction false} Unused(used: set<PubId>) returns (p: PubId)
    ensures forall x | x in used :: x < p
    decreases |used|
  {
    p := 0;
    if x :| x in used {
      var q := Unused(used - {x});
      p := if x < q then q else x + 1;
      forall y | y in used ensures y < p {
        assert y == x || y in used - {x};
      }
    }
  }

  /** The rest of the list stays registrable: its keys are other keys. */
  lemma StillRegistrable(s: State, s': State, order: seq<SpeakerId>, p: PubId)
    requires order != [] && Registrable(s, order) && s'.speakers == s.speakers && s'.keyOf == s.keyOf
    requires s'.remotePubs == s.remotePubs[s.keyOf[order[0]] := p]
    ensures Registrable(s', order[1..])
  {
    forall i | 0 <= i < |order[1..]| ensures Current(s', order[1..][i]) && s'.keyOf[order[1..][i]] !in s'.remotePubs {
      assert order[0] != order[i + 1];
    }
  }

  lemma {:induction false} AllAttempts(s: State, t: ThreadId, order: seq<SpeakerId>)
    returns (s': State, acts: seq<Action>)
    requires OnlyAttempts(s, t, order) && Registrable(s, order)
    ensures Possible(s, acts) && Run(s, acts) == s' && (forall a | a in acts :: a.Go? && a.t == t)
    ensures s'.threads == map[] && s'.speakers == s.speakers
    ensures forall x | x in order || x in s.rp :: x in s'.rp
    decreases |order|
  {
    hide Enabled, Step, Registrable;
    if order == [] {
      s', acts := s, [];
    } else {
      var p := Unused(s.pubKey.Keys);
      var s1, first := LoneAttempt(s, t, order, p, p + 1);
      StillRegistrable(s, s1, order, p);
      var rest: seq<Action>;
      s', rest := AllAttempts(s1, t, order[1..]);
      RunConcat(s, first, rest);
      acts := first + rest;
    }
  }

  lemma {:induction false} InSomeOrder(spks: set<SpeakerId>) returns (order: seq<SpeakerId>)
    ensures Lists(order, spks) && forall i, j | 0 <= i < j < |order| :: order[i] != order[j]
    decreases |spks|
  {
    if x :| x in spks {
      var rest := InSomeOrder(spks - {x});
      order := [x] + rest;
    } else {
      order := [];
    }
  }

  /** From any state at rest, one more recompute, left to run alone, gives every current speaker its
      publisher. */
  lemma OneMoreRecomputeRepairs(s: State, t: ThreadId) returns (acts: seq<Action>)
    requires Inv(s) && s.threads == map[]
    ensures Possible(s, acts) && |acts| >= 2 && acts[0] == Recompute(t)
    ensures forall i | 1 <= i < |acts| :: acts[i].Go? && acts[i].t == t
    ensures var s' := Run(s, acts);
      && s'.threads == map[] && s'.speakers == s.speakers
      && forall k | k in s.speakers :: s'.speakers[k] in s'.rp
  {
    var order := InSomeOrder(Handleless(s));
    var p := Unused(s.pubKey.Keys);
    var s1, s2 := Scanned(s, t, order, p);
    hide Enabled, Step;
    var first := [Recompute(t), Go(t, p, order)];
    TraceIsRun([s, s1, s2], first);
    HandlelessRegistrable(s, s2, order);
    hide Inv, Lists;
    var s', rest := AllAttempts(s2, t, order);
    RunConcat(s, first, rest);
    acts := first + rest;
    forall k | k in s.speakers ensures s'.speakers[k] in s'.rp {
      HandledOrListed(s, order, k);
    }
  }

  lemma HandledOrListed(s: State, order: seq<SpeakerId>, k: Key)
    requires Lists(order, Handleless(s)) && k in s.speakers
    ensures s.speakers[k] in s.rp || s.speakers[k] in order
  {
    if s.speakers[k] !in s.rp {
      assert s.speakers[k] in Handleless(s);
    }
  }

  lemma Scanned(s: State, t: ThreadId, order: seq<SpeakerId>, p: PubId) returns (s1: State, s2: State)
    requires s.threads == map[] && Lists(order, Handleless(s)) && p !in s.pubKey
    ensures Enabled(s, Recompute(t)) && s1 == Step(s, Recompute(t))
    ensures Enabled(s1, Go(t, p, order)) && s2 == Step(s1, Go(t, p, order))
    ensures OnlyAttempts(s2, t, order) && s2.speakers == s.speakers && s2.keyOf == s.keyOf && s2.rp == s.rp
    ensures s2.remotePubs == s.remotePubs
  {
    s1 := Step(s, Recompute(t));
    assert s1.threads == map[t := Proc(Scan, [])];
    assert Handleless(s1) == Handleless(s);
    s2 := Step(s1, Go(t, p, order));
    assert order != [] ==> Attempts(order)[0] == Attempt(order[0]);
    assert s2.threads == if order == [] then map[] else map[t := Proc(AddPub(order[0], true), Attempts(order)[1..])];
  }

  lemma HandlelessRegistrable(s: State, s2: State, order: seq<SpeakerId>)
    requires Inv(s) && s.threads == map[] && Lists(order, Handleless(s))
    requires forall i, j | 0 <= i < j < |order| :: order[i] != order[j]
    requires s2.speakers == s.speakers && s2.keyOf == s.keyOf && s2.remotePubs == s.remotePubs
    ensures Registrable(s2, order)
  {
    forall i | 0 <= i < |order| ensures Current(s2, order[i]) && s2.keyOf[order[i]] !in s2.remotePubs {
      assert order[i] in Handleless(s);
      var k :| k in s.speakers && s.speakers[k] !in s.rp && s.speakers[k] == order[i];
      LostIffBare(s, k);
      CurrentOfKey(s, k);
    }
  }

  lemma CurrentOfKey(s: State, k: Key)
    requires Keyed(s) && k in s.speakers
    ensures s.speakers[k] in s.keyOf && s.keyOf[s.speakers[k]] == k && Current(s, s.speakers[k])
  {}
}
