/** The local half of a node's announced want: what the listeners in the room still need. */
module LocalDemand {
  import opened Wants
  import opened Demands
  import opened Tracks
  import Room = RoomForwarding

  function Dimension(video: bool): Kind {
    if video then Screen else Audio
  }

  /** Listening needs subscribe_audio; watching needs only to be in the room. */
  predicate Listener(m: Room.Member, video: bool) {
    if video then m.caps.join else m.caps.subscribeAudio
  }

  predicate HasOff(m: Room.Member, video: bool, x: Uid) {
    Room.Unsubscribed(m, x, Dimension(video))
  }

  ghost predicate AnyListener(ms: map<Room.Sid, Room.Member>, video: bool) {
    exists s :: s in ms && Listener(ms[s], video)
  }

  /** Some listener has unsubscribed x, and every listener other than x has. */
  ghost predicate Excluded(ms: map<Room.Sid, Room.Member>, video: bool, x: Uid) {
    && (exists s :: s in ms && Listener(ms[s], video) && HasOff(ms[s], video, x))
    && (forall s | s in ms && Listener(ms[s], video) && ms[s].uid != x :: HasOff(ms[s], video, x))
  }

  datatype Ear = Ear(uid: Uid, off: set<Uid>)

  function EarOf(m: Room.Member, video: bool): Ear {
    Ear(m.uid, set x | x in m.marks && if video then m.marks[x].video else m.marks[x].audio)
  }

  lemma EarHears(m: Room.Member, video: bool, x: Uid)
    ensures x in EarOf(m, video).off <==> HasOff(m, video, x)
  {}

  /** ears are those of the listeners named by sids, and these are all of them. */
  ghost predicate EarsOf(ms: map<Room.Sid, Room.Member>, video: bool, sids: seq<Room.Sid>, ears: seq<Ear>) {
    && |sids| == |ears|
    && (forall i | 0 <= i < |sids| ::
         sids[i] in ms && Listener(ms[sids[i]], video) && ears[i] == EarOf(ms[sids[i]], video))
    && (forall s | s in ms && Listener(ms[s], video) :: s in sids)
  }

  /** A listener's uid and the users whose track of this dimension it has unsubscribed. */
  method CollectEars(ms: map<Room.Sid, Room.Member>, video: bool) returns (ears: seq<Ear>, ghost sids: seq<Room.Sid>)
    ensures EarsOf(ms, video, sids, ears)
  {
    hide Listener, EarOf;
    ears, sids := [], [];
    var todo := ms.Keys;
    while todo != {}
      invariant todo <= ms.Keys && |sids| == |ears|
      invariant forall i | 0 <= i < |sids| ::
                  sids[i] in ms && Listener(ms[sids[i]], video) && ears[i] == EarOf(ms[sids[i]], video)
      invariant forall s | s in ms && s !in todo && Listener(ms[s], video) :: s in sids
      decreases todo
    {
      var s :| s in todo;
      todo := todo - {s};
      if Listener(ms[s], video) {
        ears, sids := ears + [EarOf(ms[s], video)], sids + [s];
      }
    }
  }

  /** Is there an ear, other than x's own, that still wants x? */
  method StillWanted(ears: seq<Ear>, x: Uid) returns (wanted: bool)
    ensures wanted <==> exists i :: 0 <= i < |ears| && ears[i].uid != x && x !in ears[i].off
  {
    wanted := false;
    for i := 0 to |ears|
      invariant !wanted && forall j | 0 <= j < i :: ears[j].uid == x || x in ears[j].off
    {
      if ears[i].uid == x {
        continue;
      }
      if x !in ears[i].off {
        return true;
      }
    }
  }

  method LocalDemand(ms: map<Room.Sid, Room.Member>, video: bool) returns (want: bool, except: set<Uid>)
    ensures want <==> AnyListener(ms, video)
    ensures forall x :: x in except <==> want && Excluded(ms, video, x)
  {
    hide Listener, HasOff, EarOf;
    ghost var sids;
    var ears;
    ears, sids := CollectEars(ms, video);
    except := {};
    if ears == [] {
      return false, {};
    }
    assert sids[0] in ms && Listener(ms[sids[0]], video);
    want := true;
    hide EarsOf, Excluded;
    var cand := Candidates(ears);
    var todo := cand;
    while todo != {}
      invariant todo <= cand
      invariant forall x :: x in except <==> x in cand && x !in todo && AllOff(ears, x)
      decreases todo
    {
      var x :| x in todo;
      todo := todo - {x};
      var wanted := StillWanted(ears, x);
      if !wanted {
        except := except + {x};
      }
    }
    forall x ensures x in except <==> Excluded(ms, video, x) {
      EarsExclude(ms, video, sids, ears, x);
    }
  }

  ghost predicate AllOff(ears: seq<Ear>, x: Uid) {
    forall i | 0 <= i < |ears| :: ears[i].uid == x || x in ears[i].off
  }

  lemma EarsExclude(ms: map<Room.Sid, Room.Member>, video: bool, sids: seq<Room.Sid>, ears: seq<Ear>, x: Uid)
    requires EarsOf(ms, video, sids, ears)
    ensures ((exists i :: 0 <= i < |ears| && x in ears[i].off) && AllOff(ears, x)) <==> Excluded(ms, video, x)
  {
    hide Listener, HasOff, EarOf;
    forall i | 0 <= i < |ears|
      ensures ears[i].uid == ms[sids[i]].uid && (x in ears[i].off <==> HasOff(ms[sids[i]], video, x))
    {
      EarHears(ms[sids[i]], video, x);
      EarUid(ms[sids[i]], video);
    }
    forall s | s in ms && Listener(ms[s], video) ensures exists i :: 0 <= i < |ears| && sids[i] == s {
      assert s in sids;
    }
  }

  lemma EarUid(m: Room.Member, video: bool)
    ensures EarOf(m, video).uid == m.uid
  {}

  /** Only a user somebody has unsubscribed can be excluded. */
  method Candidates(ears: seq<Ear>) returns (cand: set<Uid>)
    ensures forall x :: x in cand <==> exists i :: 0 <= i < |ears| && x in ears[i].off
  {
    cand := {};
    for i := 0 to |ears|
      invariant forall x :: x in cand <==> exists j :: 0 <= j < i && x in ears[j].off
    {
      cand := cand + ears[i].off;
    }
  }

  // ---------------------------------------------------------------------------------------------
  // What the announcement means
  // ---------------------------------------------------------------------------------------------

  /** The want a recomputation starts from, given a result of LocalDemand. */
  function WantOf(want: bool, except: set<Uid>): WantSet {
    if want then WantAllExcept(except) else WANT_NONE
  }

  ghost predicate IsDemandOf(ms: map<Room.Sid, Room.Member>, video: bool, w: WantSet) {
    exists want, except :: w == WantOf(want, except) && (want <==> AnyListener(ms, video)) &&
      (forall x :: x in except <==> want && Excluded(ms, video, x))
  }

  /** x is refused exactly when nobody listens, or somebody has unsubscribed x and every listener
      other than x has. */
  lemma DemandIsExact(ms: map<Room.Sid, Room.Member>, video: bool, w: WantSet, x: Uid)
    requires IsDemandOf(ms, video, w)
    ensures w.Wants(x) <==> AnyListener(ms, video) && !Excluded(ms, video, x)
    ensures w.Wants(x) <==>
              && (exists s | s in ms :: if video then ms[s].caps.join else ms[s].caps.subscribeAudio)
              && ((exists s | s in ms && ms[s].uid != x ::
                     && (if video then ms[s].caps.join else ms[s].caps.subscribeAudio)
                     && !(x in ms[s].marks && if video then ms[s].marks[x].video else ms[s].marks[x].audio))
                  || (forall s | s in ms && (if video then ms[s].caps.join else ms[s].caps.subscribeAudio) ::
                        !(x in ms[s].marks && if video then ms[s].marks[x].video else ms[s].marks[x].audio)))
  {
    forall s | s in ms
      ensures Listener(ms[s], video) <==> if video then ms[s].caps.join else ms[s].caps.subscribeAudio
      ensures HasOff(ms[s], video, x) <==>
                x in ms[s].marks && if video then ms[s].marks[x].video else ms[s].marks[x].audio
    {}
    hide Listener, HasOff;
  }

  /** The documented condition: every listener is x, or has unsubscribed x. */
  ghost predicate DocumentedExclusion(ms: map<Room.Sid, Room.Member>, video: bool, x: Uid) {
    forall s | s in ms && Listener(ms[s], video) :: ms[s].uid == x || HasOff(ms[s], video, x)
  }

  /** The documentation and the code part in one case only: x alone is listening, unmarked. */
  lemma DocumentationIsWider(ms: map<Room.Sid, Room.Member>, video: bool, w: WantSet, x: Uid)
    requires IsDemandOf(ms, video, w) && AnyListener(ms, video)
    ensures (w.Wants(x) <==> !DocumentedExclusion(ms, video, x)) <==>
              !forall s | s in ms && Listener(ms[s], video) :: ms[s].uid == x && !HasOff(ms[s], video, x)
  {
    DemandIsExact(ms, video, w, x);
    hide Listener, HasOff;
    var s0 :| s0 in ms && Listener(ms[s0], video);
    if DocumentedExclusion(ms, video, x) && !Excluded(ms, video, x) {
      forall s | s in ms && Listener(ms[s], video) ensures ms[s].uid == x && !HasOff(ms[s], video, x) {}
    }
  }

  /** Pruning is sound: whoever the room would forward a remote track to, other than its own
      speaker, makes the announced want accept it, in the audio and in the screen dimension. */
  lemma PruningIsSound(ms: map<Room.Sid, Room.Member>, audio: WantSet, screen: WantSet, s: Room.Sid, rp: Room.Remote)
    requires IsDemandOf(ms, false, audio) && IsDemandOf(ms, true, screen)
    requires s in ms && ms[s].uid != rp.uid && Room.RemoteShouldForward(rp, ms[s])
    ensures Demand(audio, screen).Accepts(Topic(rp.key.kind != Audio, rp.uid))
  {
    var video := rp.key.kind != Audio;
    assert Listener(ms[s], video) && !HasOff(ms[s], video, rp.uid);
    DemandIsExact(ms, false, audio, rp.uid);
    DemandIsExact(ms, true, screen, rp.uid);
  }
}
