/** Renegotiation on one cascade edge: each end offers its own sending direction; requests made
    while an offer is out are coalesced into one follow-up. */
module EdgeNegotiation {

  type TrackKey = string
  type Tracks = set<TrackKey>

  /** `Up`: child to parent media, `Down`: parent to child. */
  datatype Dir = Up | Down

  datatype Frame = Offer(dir: Dir, tracks: Tracks) | Answer(dir: Dir)

  /** The offerer side of a peer connection (section 4 of RFC 3264). */
  datatype Signalling = Stable | HaveLocalOffer(offered: Tracks)

  /** One end of the edge.
      tracks: the out tracks on the sending connection; answered: those of the last answered offer;
      received: those described by the peer's last offer; out: frames sent and not yet delivered;
      fault: a description was applied in the wrong signalling state, or a frame hit a wrong direction. */
  datatype End = End(isParent: bool, tracks: Tracks, negotiating: bool, negPending: bool, spawned: bool,
                     signalling: Signalling, answered: Tracks, received: Tracks, out: seq<Frame>, fault: bool)
  {
    function SendDir(): Dir {
      if isParent then Down else Up
    }

    function PeerDir(): Dir {
      if isParent then Up else Down
    }
  }

  function NewEnd(isParent: bool): End {
    End(isParent, {}, false, false, false, Stable, {}, {}, [], false)
  }

  // ---------------------------------------------------------------------------------------------
  // The transitions of one end
  // ---------------------------------------------------------------------------------------------

  function NegotiateSend(e: End): End {
    if e.negotiating then e.(negPending := true) else e.(negotiating := true, spawned := true)
  }

  function DoNegotiateSend(e: End): End {
    e.(spawned := false, signalling := HaveLocalOffer(e.tracks), out := e.out + [Offer(e.SendDir(), e.tracks)],
       fault := e.fault || !e.signalling.Stable?)
  }

  function ApplyAnswer(e: End): End {
    match e.signalling
    case Stable => e.(fault := true)
    case HaveLocalOffer(ts) => e.(signalling := Stable, answered := ts)
  }

  function HandleAnswer(e: End): End {
    var e1 := ApplyAnswer(e).(negotiating := false, negPending := false);
    if e.negPending then NegotiateSend(e1) else e1
  }

  function HandleRemoteOffer(e: End, ts: Tracks): End {
    e.(received := ts, out := e.out + [Answer(e.PeerDir())])
  }

  function HandleFrame(e: End, f: Frame): End {
    match f
    case Offer(dir, ts) => if dir != e.SendDir() then HandleRemoteOffer(e, ts) else e.(fault := true)
    case Answer(dir) => if dir == e.SendDir() then HandleAnswer(e) else e.(fault := true)
  }

  /** `recompute` on this edge: renegotiate exactly when a track was added or removed. */
  function SetTracks(e: End, ts: Tracks): End {
    if ts == e.tracks then e else NegotiateSend(e.(tracks := ts))
  }

  /** The session object that carries this state. */
  class EdgeSession {
    const isParent: bool
    var outTracks: Tracks
    var negotiating: bool
    var negPending: bool
    var spawned: bool
    var signalling: Signalling
    var answered: Tracks
    var received: Tracks
    var out: seq<Frame>
    var fault: bool

    ghost function View(): End
      reads this
    {
      End(isParent, outTracks, negotiating, negPending, spawned, signalling, answered, received, out, fault)
    }

    constructor (isParent: bool)
      ensures View() == NewEnd(isParent)
    {
      this.isParent := isParent;
      outTracks, answered, received := {}, {}, {};
      negotiating, negPending, spawned, fault := false, false, false, false;
      signalling, out := Stable, [];
    }

    method Negotiate()
      modifies this
      ensures View() == NegotiateSend(old(View()))
    {
      if negotiating {
        negPending := true;
        return;
      }
      negotiating := true;
      spawned := true;
    }

    method RunNegotiation()
      modifies this
      ensures View() == DoNegotiateSend(old(View()))
    {
      spawned := false;
      if !signalling.Stable? {
        fault := true;
      }
      signalling := HaveLocalOffer(outTracks);
      out := out + [Offer(if isParent then Down else Up, outTracks)];
    }

    method OnAnswer()
      modifies this
      ensures View() == HandleAnswer(old(View()))
    {
      match signalling {
        case Stable => fault := true;
        case HaveLocalOffer(ts) =>
          signalling := Stable;
          answered := ts;
      }
      negotiating := false;
      var pending := negPending;
      negPending := false;
      if pending {
        Negotiate();
      }
    }

    method OnFrame(f: Frame)
      modifies this
      ensures View() == HandleFrame(old(View()), f)
    {
      var sendDir := if isParent then Down else Up;
      match f {
        case Offer(dir, ts) =>
          if dir != sendDir {
            received := ts;
            out := out + [Answer(if isParent then Up else Down)];
          } else {
            fault := true;
          }
        case Answer(dir) =>
          if dir == sendDir {
            OnAnswer();
          } else {
            fault := true;
          }
      }
    }

    /** First diff loop of `recompute` on a session: remove what is no longer desired. */
    method DropStale(desired: Tracks) returns (changed: bool)
      modifies this`outTracks
      ensures outTracks == old(outTracks) * desired
      ensures changed <==> !(old(outTracks) <= desired)
    {
      changed := false;
      var todo := outTracks;
      while todo != {}
        invariant todo <= outTracks <= old(outTracks)
        invariant outTracks == (old(outTracks) * desired) + todo
        invariant changed <==> outTracks != old(outTracks)
        decreases todo
      {
        var k :| k in todo;
        todo := todo - {k};
        if k !in desired {
          outTracks := outTracks - {k};
          changed := true;
        }
      }
    }

    /** Second diff loop: add what is missing. */
    method AddMissing(desired: Tracks) returns (changed: bool)
      modifies this`outTracks
      ensures outTracks == old(outTracks) + desired
      ensures changed <==> !(desired <= old(outTracks))
    {
      changed := false;
      var todo := desired;
      while todo != {}
        invariant todo <= desired
        invariant outTracks == old(outTracks) + (desired - todo)
        invariant changed <==> outTracks != old(outTracks)
        decreases todo
      {
        var k :| k in todo;
        todo := todo - {k};
        if k !in outTracks {
          outTracks := outTracks + {k};
          changed := true;
        }
      }
    }

    /** `recompute` on one session: diff the out tracks, renegotiate once if anything changed. */
    method Retrack(desired: Tracks)
      modifies this
      ensures View() == SetTracks(old(View()), desired) && outTracks == desired
    {
      var dropped := DropStale(desired);
      var added := AddMissing(desired);
      assert outTracks == desired;
      if dropped || added {
        Negotiate();
      }
    }
  }

  // ---------------------------------------------------------------------------------------------
  // The edge as a whole
  // ---------------------------------------------------------------------------------------------

  datatype Edge = Edge(parent: End, child: End)

  datatype Action =
    | Change(atParent: bool, tracks: Tracks)  // the desired out tracks of one end change
    | Spawn(atParent: bool)                   // the spawned negotiation of one end runs
    | Arrive(atParent: bool)                  // the next frame for one end arrives

  predicate Enabled(s: Edge, a: Action) {
    match a
    case Change(_, _) => true
    case Spawn(p) => if p then s.parent.spawned else s.child.spawned
    case Arrive(p) => if p then s.child.out != [] else s.parent.out != []
  }

  function Step(s: Edge, a: Action): Edge
    requires Enabled(s, a)
  {
    match a
    case Change(p, ts) =>
      if p then s.(parent := SetTracks(s.parent, ts)) else s.(child := SetTracks(s.child, ts))
    case Spawn(p) =>
      if p then s.(parent := DoNegotiateSend(s.parent)) else s.(child := DoNegotiateSend(s.child))
    case Arrive(p) =>
      if p then Edge(HandleFrame(s.parent, s.child.out[0]), s.child.(out := s.child.out[1..]))
      else Edge(s.parent.(out := s.parent.out[1..]), HandleFrame(s.child, s.parent.out[0]))
  }

  predicate Possible(s: Edge, acts: seq<Action>)
    decreases |acts|
  {
    acts == [] || (Enabled(s, acts[0]) && Possible(Step(s, acts[0]), acts[1..]))
  }

  function Run(s: Edge, acts: seq<Action>): Edge
    requires Possible(s, acts)
    decreases |acts|
  {
    if acts == [] then s else Run(Step(s, acts[0]), acts[1..])
  }

  const NEW_EDGE := Edge(NewEnd(true), NewEnd(false))

  // ---------------------------------------------------------------------------------------------
  // One direction: x sends media, y receives it
  // ---------------------------------------------------------------------------------------------

  function Offers(q: seq<Frame>): nat {
    if q == [] then 0 else (if q[0].Offer? then 1 else 0) + Offers(q[1..])
  }

  function Answers(q: seq<Frame>): nat {
    if q == [] then 0 else (if q[0].Answer? then 1 else 0) + Answers(q[1..])
  }

  lemma {:induction false} CountsAppend(q: seq<Frame>, f: Frame)
    ensures Offers(q + [f]) == Offers(q) + (if f.Offer? then 1 else 0)
    ensures Answers(q + [f]) == Answers(q) + (if f.Answer? then 1 else 0)
    decreases |q|
  {
    if q != [] {
      CountsAppend(q[1..], f);
      assert (q + [f])[1..] == q[1..] + [f];
    } else {
      assert (q + [f])[1..] == [];
    }
  }

  lemma {:induction false} CountsMember(q: seq<Frame>, i: nat)
    requires i < |q|
    ensures q[i].Offer? ==> Offers(q) >= 1
    ensures q[i].Answer? ==> Answers(q) >= 1
    decreases |q|
  {
    if i > 0 {
      CountsMember(q[1..], i - 1);
    }
  }

  function B(b: bool): nat {
    if b then 1 else 0
  }

  /** What may be on the wire from e: its own offers, and answers to the peer's offers. */
  ghost predicate Proper(e: End) {
    forall i | 0 <= i < |e.out| ::
      match e.out[i]
      case Offer(dir, ts) => dir == e.SendDir() && e.signalling == HaveLocalOffer(ts)
      case Answer(dir) => dir == e.PeerDir()
  }

  /** The negotiation of x's sending direction, with y at the far end. */
  ghost predicate DirectionInv(x: End, y: End) {
    // exactly one token while negotiating, none otherwise
    && B(x.spawned) + Offers(x.out) + Answers(y.out) == B(x.negotiating)
    // the signalling state says where the token is
    && (x.signalling.HaveLocalOffer? <==> Offers(x.out) + Answers(y.out) == 1)
    // the receiver knows the offer once it has answered it
    && (Offers(x.out) == 0 ==> y.received == if x.signalling.HaveLocalOffer? then x.signalling.offered else x.answered)
    // a change is never forgotten: it is answered, on its way, or a follow-up is due
    && (x.negPending ==> x.negotiating)
    && (!x.negPending && !x.spawned ==>
          x.tracks == if x.signalling.HaveLocalOffer? then x.signalling.offered else x.answered)
  }

  ghost predicate Inv(s: Edge) {
    && s.parent.isParent && !s.child.isParent
    && !s.parent.fault && !s.child.fault
    && Proper(s.parent) && Proper(s.child)
    && DirectionInv(s.parent, s.child) && DirectionInv(s.child, s.parent)
  }

  lemma ChangeKeeps(x: End, y: End, ts: Tracks)
    requires DirectionInv(x, y) && DirectionInv(y, x) && Proper(x)
    ensures DirectionInv(SetTracks(x, ts), y) && DirectionInv(y, SetTracks(x, ts)) && Proper(SetTracks(x, ts))
  {}

  lemma SpawnKeeps(x: End, y: End)
    requires DirectionInv(x, y) && DirectionInv(y, x) && Proper(x) && x.spawned
    ensures var x' := DoNegotiateSend(x);
            DirectionInv(x', y) && DirectionInv(y, x') && Proper(x') && x'.fault == x.fault
  {
    CountsAppend(x.out, Offer(x.SendDir(), x.tracks));
    forall i | 0 <= i < |x.out| ensures x.out[i].Answer? {
      CountsMember(x.out, i);
    }
  }

  /** y takes an offer off the wire and answers it. */
  lemma OfferArrives(x: End, y: End)
    requires x.isParent != y.isParent && x.out != [] && x.out[0].Offer?
    requires DirectionInv(x, y) && DirectionInv(y, x) && Proper(x) && Proper(y)
    ensures var x', y' := x.(out := x.out[1..]), HandleFrame(y, x.out[0]);
            && DirectionInv(x', y') && DirectionInv(y', x') && Proper(x') && Proper(y')
            && y'.fault == y.fault
  {
    CountsAppend(y.out, Answer(y.PeerDir()));
    assert forall i | 0 <= i < |x.out[1..]| :: x.out[1..][i] == x.out[i + 1];
  }

  /** y takes the answer to its own offer off the wire. */
  lemma AnswerArrives(x: End, y: End)
    requires x.isParent != y.isParent && x.out != [] && x.out[0].Answer?
    requires DirectionInv(x, y) && DirectionInv(y, x) && Proper(x) && Proper(y)
    ensures var x', y' := x.(out := x.out[1..]), HandleFrame(y, x.out[0]);
            && DirectionInv(x', y') && DirectionInv(y', x') && Proper(x') && Proper(y')
            && y'.fault == y.fault
  {
    assert forall i | 0 <= i < |x.out[1..]| :: x.out[1..][i] == x.out[i + 1];
    forall i | 0 <= i < |y.out| ensures y.out[i].Answer? {
      CountsMember(y.out, i);
    }
  }

  /** y takes the next frame from x. */
  lemma ArriveKeeps(x: End, y: End)
    requires x.isParent != y.isParent && x.out != []
    requires DirectionInv(x, y) && DirectionInv(y, x) && Proper(x) && Proper(y)
    ensures var x', y' := x.(out := x.out[1..]), HandleFrame(y, x.out[0]);
            && DirectionInv(x', y') && DirectionInv(y', x') && Proper(x') && Proper(y')
            && y'.fault == y.fault
  {
    hide DirectionInv, Proper, HandleFrame;
    if x.out[0].Offer? {
      OfferArrives(x, y);
    } else {
      AnswerArrives(x, y);
    }
  }

  lemma StepKeepsInv(s: Edge, a: Action)
    requires Inv(s) && Enabled(s, a)
    ensures Inv(Step(s, a))
  {
    match a
    case Change(p, ts) =>
      if p {
        ChangeKeeps(s.parent, s.child, ts);
      } else {
        ChangeKeeps(s.child, s.parent, ts);
      }
    case Spawn(p) =>
      if p {
        SpawnKeeps(s.parent, s.child);
      } else {
        SpawnKeeps(s.child, s.parent);
      }
    case Arrive(p) =>
      if p {
        ArriveKeeps(s.child, s.parent);
      } else {
        ArriveKeeps(s.parent, s.child);
      }
  }

  /** Every run from a fresh edge keeps the invariant; in particular no end ever faults: no offer
      is made in the wrong state, no answer is unexpected, no frame hits the wrong direction. */
  lemma {:induction false} RunKeepsInv(s: Edge, acts: seq<Action>)
    requires Inv(s) && Possible(s, acts)
    ensures Inv(Run(s, acts))
    decreases |acts|
  {
    if acts != [] {
      StepKeepsInv(s, acts[0]);
      RunKeepsInv(Step(s, acts[0]), acts[1..]);
    }
  }

  lemma EveryRunIsSound(acts: seq<Action>)
    requires Possible(NEW_EDGE, acts)
    ensures Inv(Run(NEW_EDGE, acts))
  {
    assert Inv(NEW_EDGE);
    RunKeepsInv(NEW_EDGE, acts);
  }

  function TracksOf(s: Edge, atParent: bool): Tracks {
    if atParent then s.parent.tracks else s.child.tracks
  }

  predicate Changes(a: Action, atParent: bool) {
    a.Change? && a.atParent == atParent
  }

  /** ts is what that end's out tracks were last changed to. */
  ghost predicate LastChange(acts: seq<Action>, atParent: bool, ts: Tracks) {
    exists j :: 0 <= j < |acts| && acts[j] == Change(atParent, ts) && forall m | j < m < |acts| ::
        !Changes(acts[m], atParent)
  }

  ghost predicate NeverChanged(acts: seq<Action>, atParent: bool) {
    forall m | 0 <= m < |acts| :: !Changes(acts[m], atParent)
  }

  lemma FirstOrLater(acts: seq<Action>, atParent: bool, ts: Tracks)
    requires acts != []
    ensures LastChange(acts, atParent, ts) <==>
              || LastChange(acts[1..], atParent, ts)
              || (acts[0] == Change(atParent, ts) && NeverChanged(acts[1..], atParent))
    ensures NeverChanged(acts, atParent) <==> !Changes(acts[0], atParent) && NeverChanged(acts[1..], atParent)
  {
    hide Changes;
    var rest := acts[1..];
    assert forall m | 0 < m < |acts| :: acts[m] == rest[m - 1];
    assert forall m | 0 <= m < |rest| :: rest[m] == acts[m + 1];
    if LastChange(rest, atParent, ts) {
      var j :| 0 <= j < |rest| && rest[j] == Change(atParent, ts) && forall m | j < m < |rest| ::
            !Changes(rest[m], atParent);
      assert acts[j + 1] == Change(atParent, ts) && forall m | j + 1 < m < |acts| :: !Changes(acts[m], atParent);
    }
    if LastChange(acts, atParent, ts) {
      var j :| 0 <= j < |acts| && acts[j] == Change(atParent, ts) && forall m | j < m < |acts| ::
            !Changes(acts[m], atParent);
      assert forall m | j - 1 < m < |rest| :: !Changes(rest[m], atParent);
      if j > 0 {
        assert rest[j - 1] == Change(atParent, ts);
      }
    }
    if acts[0] == Change(atParent, ts) && NeverChanged(rest, atParent) {
      assert forall m | 0 < m < |acts| :: !Changes(acts[m], atParent);
    }
  }

  lemma StepTracks(s: Edge, a: Action, atParent: bool)
    requires Enabled(s, a)
    ensures TracksOf(Step(s, a), atParent) == if Changes(a, atParent) then a.tracks else TracksOf(s, atParent)
  {
    hide SetTracks, DoNegotiateSend, HandleFrame;
    match a
    case Change(p, ts) => ChangeSets(if p then s.parent else s.child, ts);
    case Spawn(p) => OfferKeepsTracks(if p then s.parent else s.child);
    case Arrive(p) => FrameKeepsTracks(if p then s.parent else s.child, if p then s.child.out[0] else s.parent.out[0]);
  }

  lemma ChangeSets(e: End, ts: Tracks)
    ensures SetTracks(e, ts).tracks == ts
  {}

  lemma OfferKeepsTracks(e: End)
    ensures DoNegotiateSend(e).tracks == e.tracks
  {}

  lemma FrameKeepsTracks(e: End, f: Frame)
    ensures HandleFrame(e, f).tracks == e.tracks
  {}

  /** No negotiation, offer or answer changes what an end sends: it is what it was last changed to. */
  lemma {:induction false} TracksAreLastChange(s: Edge, acts: seq<Action>, atParent: bool, ts: Tracks)
    requires Possible(s, acts)
    ensures TracksOf(Run(s, acts), atParent) == ts <==>
              LastChange(acts, atParent, ts) || (TracksOf(s, atParent) == ts && NeverChanged(acts, atParent))
    decreases |acts|
  {
    hide Enabled, Step, TracksOf, LastChange, NeverChanged;
    if acts == [] {
      NoneYet(atParent, ts);
    } else {
      StepTracks(s, acts[0], atParent);
      TracksAreLastChange(Step(s, acts[0]), acts[1..], atParent, ts);
      FirstOrLater(acts, atParent, ts);
    }
  }

  lemma NoneYet(atParent: bool, ts: Tracks)
    ensures !LastChange([], atParent, ts) && NeverChanged([], atParent)
  {}

  predicate Idle(s: Edge) {
    !s.parent.spawned && !s.child.spawned && s.parent.out == [] && s.child.out == []
  }

  /** When nothing is pending, the last answered offers, and what the peers received, are exactly
      the current out tracks: no coalesced request is lost. */
  lemma IdleIsSynchronised(acts: seq<Action>)
    requires Possible(NEW_EDGE, acts) && Idle(Run(NEW_EDGE, acts))
    ensures var s := Run(NEW_EDGE, acts);
            && s.parent.answered == s.parent.tracks == s.child.received
            && s.child.answered == s.child.tracks == s.parent.received
            && !s.parent.negotiating && !s.child.negotiating && !s.parent.negPending && !s.child.negPending
    ensures var s := Run(NEW_EDGE, acts);
            && (forall ts | LastChange(acts, true, ts) :: s.child.received == ts)
            && (forall ts | LastChange(acts, false, ts) :: s.parent.received == ts)
  {
    EveryRunIsSound(acts);
    var s := Run(NEW_EDGE, acts);
    hide LastChange, Run, Possible;
    forall ts | LastChange(acts, true, ts) ensures s.parent.tracks == ts {
      TracksAreLastChange(NEW_EDGE, acts, true, ts);
    }
    forall ts | LastChange(acts, false, ts) ensures s.child.tracks == ts {
      TracksAreLastChange(NEW_EDGE, acts, false, ts);
    }
  }

  // ---------------------------------------------------------------------------------------------
  // Without further track changes the edge becomes idle
  // ---------------------------------------------------------------------------------------------

  /** Steps still due for x's direction: 3 to run, 2 with the offer out, 1 with the answer out,
      and 3 more when a follow-up is pending. */
  function Due(x: End, y: End): nat {
    3 * B(x.spawned) + 2 * Offers(x.out) + Answers(y.out) + 3 * B(x.negPending)
  }

  function Remaining(s: Edge): nat {
    Due(s.parent, s.child) + Due(s.child, s.parent)
  }

  lemma ProgressBySpawn(x: End, y: End)
    requires DirectionInv(x, y) && DirectionInv(y, x) && x.spawned
    ensures var x' := DoNegotiateSend(x); Due(x', y) + Due(y, x') < Due(x, y) + Due(y, x)
  {
    CountsAppend(x.out, Offer(x.SendDir(), x.tracks));
  }

  lemma ProgressByArrival(x: End, y: End)
    requires x.isParent != y.isParent && x.out != [] && Proper(x)
    requires DirectionInv(x, y) && DirectionInv(y, x)
    ensures var x', y' := x.(out := x.out[1..]), HandleFrame(y, x.out[0]);
            Due(x', y') + Due(y', x') < Due(x, y) + Due(y, x)
  {
    CountsMember(x.out, 0);
    CountsAppend(y.out, Answer(y.PeerDir()));
  }

  /** Every step other than a track change strictly lowers `Remaining`, which never exceeds 12. */
  lemma StepMakesProgress(s: Edge, a: Action)
    requires Inv(s) && Enabled(s, a) && !a.Change?
    ensures Remaining(Step(s, a)) < Remaining(s) <= 12
  {
    match a
    case Spawn(p) =>
      if p {
        ProgressBySpawn(s.parent, s.child);
      } else {
        ProgressBySpawn(s.child, s.parent);
      }
    case Arrive(p) =>
      if p {
        ProgressByArrival(s.child, s.parent);
      } else {
        ProgressByArrival(s.parent, s.child);
      }
  }

  /** So after the last track change at most twelve steps can follow, in any order... */
  lemma {:induction false} SettlesQuickly(s: Edge, acts: seq<Action>)
    requires Inv(s) && Possible(s, acts) && forall i | 0 <= i < |acts| :: !acts[i].Change?
    ensures |acts| <= Remaining(s) <= 12
    decreases |acts|
  {
    if acts != [] {
      StepMakesProgress(s, acts[0]);
      StepKeepsInv(s, acts[0]);
      SettlesQuickly(Step(s, acts[0]), acts[1..]);
    }
  }

  /** ... and the edge can only stop moving by being idle. */
  lemma StuckIsIdle(s: Edge)
    ensures Idle(s) <==> forall a: Action | !a.Change? :: !Enabled(s, a)
  {
    if !Idle(s) {
      assert Enabled(s, Spawn(true)) || Enabled(s, Spawn(false)) || Enabled(s, Arrive(true))
               || Enabled(s, Arrive(false));
    }
  }

  // ---------------------------------------------------------------------------------------------
  // Two session objects joined by the wire
  // ---------------------------------------------------------------------------------------------

  /** Both ends of one edge. Every operation on either object keeps the invariant of the whole edge. */
  class EdgeLink {
    const parent: EdgeSession
    const child: EdgeSession

    ghost function View(): Edge
      reads parent, child
    {
      Edge(parent.View(), child.View())
    }

    ghost predicate Valid()
      reads parent, child
    {
      parent != child && Inv(View())
    }

    constructor ()
      ensures Valid() && fresh(parent) && fresh(child) && Idle(View())
    {
      parent := new EdgeSession(true);
      child := new EdgeSession(false);
    }

    /** The desired out tracks of one end change. The change is answered already, in an offer on its
        way, or due in a follow-up; and nothing the peer has received is disturbed. */
    method Retrack(atParent: bool, desired: Tracks)
      requires Valid()
      modifies parent, child
      ensures Valid() && View() == Step(old(View()), Change(atParent, desired))
      ensures var x := if atParent then parent else child;
        && x.outTracks == desired
        && (x.outTracks == x.answered || x.spawned || x.negPending || x.signalling == HaveLocalOffer(desired))
      ensures parent.received == old(parent.received) && child.received == old(child.received)
      ensures (if atParent then child else parent).outTracks == old((if atParent then child else parent).outTracks)
    {
      StepKeepsInv(View(), Change(atParent, desired));
      if atParent {
        parent.Retrack(desired);
      } else {
        child.Retrack(desired);
      }
    }

    /** The negotiation an end has spawned runs: it finds the connection stable and offers the tracks
        as they are now. */
    method RunNegotiation(atParent: bool)
      requires Valid() && (if atParent then parent.spawned else child.spawned)
      modifies parent, child
      ensures Valid() && View() == Step(old(View()), Spawn(atParent))
      ensures parent.outTracks == old(parent.outTracks) && child.outTracks == old(child.outTracks)
      ensures old((if atParent then parent else child).signalling).Stable?
      ensures Remaining(View()) < old(Remaining(View()))
    {
      StepKeepsInv(View(), Spawn(atParent));
      StepMakesProgress(View(), Spawn(atParent));
      if atParent {
        parent.RunNegotiation();
      } else {
        child.RunNegotiation();
      }
    }

    /** The next frame for one end arrives. It is never out of place, and the edge comes closer to
        rest; once it is idle, what each end received is what the other sends. */
    method Deliver(atParent: bool)
      requires Valid() && (if atParent then child.out else parent.out) != []
      modifies parent, child
      ensures Valid() && View() == Step(old(View()), Arrive(atParent)) && !parent.fault && !child.fault
      ensures parent.outTracks == old(parent.outTracks) && child.outTracks == old(child.outTracks)
      ensures Remaining(View()) < old(Remaining(View()))
      ensures Idle(View()) ==> child.received == parent.outTracks && parent.received == child.outTracks
    {
      hide Due, Proper;
      StepKeepsInv(View(), Arrive(atParent));
      StepMakesProgress(View(), Arrive(atParent));
      if atParent {
        var f := child.out[0];
        child.out := child.out[1..];
        parent.OnFrame(f);
      } else {
        var f := parent.out[0];
        parent.out := parent.out[1..];
        child.OnFrame(f);
      }
    }
  }
}
