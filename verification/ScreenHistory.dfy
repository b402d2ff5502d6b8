/** What a local screen's plane knows of rights, marks, layers and sinks is what the events have said; with
    the service theorem this says in terms of the events alone which packets each viewer gets. */
module ScreenHistory {
  import opened Options
  import Plane = Screens
  import opened ScreenService

  type Sid = Plane.Sid
  type Quality = Plane.Quality

  datatype Fact =
    | MayShare
    | IsUp(q: Quality)
    | IsIn(s: Sid)
    | IsConnected(s: Sid)
    | MayJoin(s: Sid)
    | IsMuted(s: Sid)               // s has unsubscribed the publisher's video
    | HasChosen(s: Sid, q: Quality)
    | IsTapped(sink: nat)

  predicate Holds(x: Show, f: Fact) {
    match f
    case MayShare => x.canShare
    case IsUp(q) => q in x.fanouts
    case IsIn(s) => s in x.watchers
    case IsConnected(s) => s in x.watchers && x.watchers[s].connected
    case MayJoin(s) => s in x.watchers && x.watchers[s].join
    case IsMuted(s) => s in x.watchers && x.watchers[s].unsubscribed
    case HasChosen(s, q) => s in x.watchers && x.watchers[s].want == Some(q)
    case IsTapped(n) => n in x.sinks
  }

  /** A layer comes up only under the right to share. */
  predicate Starts(x: Show, ev: Event, f: Fact) {
    match f
    case MayShare => ev == Share(true)
    case IsUp(q) => ev == Layer(q) && x.canShare
    case IsIn(s) => ev.Enter? && ev.s == s
    case IsConnected(s) => ev == Connect(s)
    case MayJoin(s) => (ev.Enter? || ev.Caps?) && ev.s == s && ev.join
    case IsMuted(s) => ev == Video(s, false)
    case HasChosen(s, q) => ev == Choose(s, q)
    case IsTapped(n) => ev.Sinks? && n in ev.sinks
  }

  /** The event, unless it starts f, makes f false. */
  predicate Ends(ev: Event, f: Fact) {
    match f
    case MayShare => ev == Share(false)
    case IsUp(q) => ev == Ended(q) || ev == Share(false)
    case IsIn(s) => ev == Leave(s)
    case IsConnected(s) => Resets(ev, s)
    case MayJoin(s) => Resets(ev, s) || (ev.Caps? && ev.s == s)
    case IsMuted(s) => Resets(ev, s) || ev == Video(s, true)
    case HasChosen(s, _) => Resets(ev, s) || (ev.Choose? && ev.s == s)
    case IsTapped(_) => ev.Sinks?
  }

  /** s leaves, or enters anew. */
  predicate Resets(ev: Event, s: Sid) {
    ev == Leave(s) || (ev.Enter? && ev.s == s)
  }

  /** Some event before i started f, and none since has ended it. */
  ghost predicate Said(states: seq<Show>, evs: seq<Event>, i: nat, f: Fact)
    requires i <= |evs| <= |states|
  {
    exists j :: 0 <= j < i && Starts(states[j], evs[j], f) && forall m | j < m < i :: !Ends(evs[m], f)
  }

  lemma SaidStep(states: seq<Show>, evs: seq<Event>, i: nat, f: Fact)
    requires i < |evs| <= |states|
    ensures Said(states, evs, i + 1, f) <==>
              Starts(states[i], evs[i], f) || (Said(states, evs, i, f) && !Ends(evs[i], f))
  {
    hide Starts, Ends;
    if Said(states, evs, i + 1, f) && !Starts(states[i], evs[i], f) {
      var j :| 0 <= j < i + 1 && Starts(states[j], evs[j], f) && forall m | j < m < i + 1 :: !Ends(evs[m], f);
      assert j < i && !Ends(evs[i], f);
    }
    if Said(states, evs, i, f) && !Ends(evs[i], f) {
      var j :| 0 <= j < i && Starts(states[j], evs[j], f) && forall m | j < m < i :: !Ends(evs[m], f);
      assert forall m | j < m < i + 1 :: !Ends(evs[m], f);
    }
  }

  // ---------------------------------------------------------------------------------------------
  // Event by event
  // ---------------------------------------------------------------------------------------------

  /** Everything but the down track is as before. */
  predicate SameWatcher(w: Watcher, w': Watcher) {
    w' == w.(track := w'.track)
  }

  /** Nothing is known of x' that was not of x: only tracks and snapshots differ. */
  predicate SameShow(x: Show, x': Show) {
    && x'.canShare == x.canShare && x'.fanouts.Keys == x.fanouts.Keys && x'.sinks == x.sinks
    && x'.watchers.Keys == x.watchers.Keys
    && forall s | s in x.watchers :: SameWatcher(x.watchers[s], x'.watchers[s])
  }

  lemma SameHolds(x: Show, x': Show, f: Fact)
    requires SameShow(x, x')
    ensures Holds(x', f) <==> Holds(x, f)
  {
    if (f.IsIn? || f.IsConnected? || f.MayJoin? || f.IsMuted? || f.HasChosen?) && f.s in x.watchers {
      assert SameWatcher(x.watchers[f.s], x'.watchers[f.s]);
    }
  }

  lemma RebuiltSame(x: Show)
    ensures SameShow(x, Rebuilt(x, x.fanouts.Keys))
  {}

  lemma RebuiltLayers(x: Show, layers: set<Quality>)
    requires layers != {}
    ensures Rebuilt(x, layers) == x.(fanouts := Rebuilt(x, layers).fanouts) && Rebuilt(x, layers).fanouts.Keys == layers
  {}

  lemma SameTransfers(x: Show, y: Show, z: Show)
    requires SameShow(x, y) && SameShow(y, z)
    ensures SameShow(x, z)
  {}

  lemma EnsuredSame(x: Show, w: Watcher)
    ensures SameWatcher(w, Ensured(x, w))
  {}

  lemma AttachedSame(x: Show, s: Sid)
    requires s in x.watchers
    ensures SameShow(x, Attached(x, s))
  {
    hide Rebuilt, Ensured;
    EnsuredSame(x, x.watchers[s]);
    RebuiltSame(With(x, s, Ensured(x, x.watchers[s])).(next := x.next + 1));
  }

  lemma ConnectedSame(x: Show, s: Sid)
    requires s in x.watchers
    ensures SameShow(With(x, s, x.watchers[s].(connected := true)), Connected(x, s))
  {
    hide Attached;
    AttachedSame(With(x, s, x.watchers[s].(connected := true)), s);
    if x.watchers[s].connected {
      assert With(x, s, x.watchers[s].(connected := true)) == x;
    }
  }

  lemma VideoSame(x: Show, s: Sid, want: bool)
    requires s in x.watchers
    ensures SameShow(With(x, s, x.watchers[s].(unsubscribed := !want)), VideoSet(x, s, want))
  {
    hide Rebuilt, Ensured;
    var w := x.watchers[s];
    var w1 := w.(unsubscribed := !want, track := if w.track.Some? then Some(w.track.value.(active := want)) else None);
    EnsuredSame(x, w1);
    RebuiltSame(With(x, s, if want then Ensured(x, w1) else w1).(next := x.next + 1));
  }

  lemma CapsSame(x: Show, s: Sid, join: bool, audio: bool)
    requires s in x.watchers
    ensures SameShow(With(x, s, x.watchers[s].(join := join, audio := audio)), CapsSet(x, s, join, audio))
  {
    hide Rebuilt, Attached;
    var x1 := With(x, s, x.watchers[s].(join := join, audio := audio));
    AttachedSame(x1, s);
    var x2 := if audio && !x.watchers[s].audio then Attached(x1, s) else x1;
    RebuiltSame(x2);
  }

  lemma ChosenSame(x: Show, s: Sid, q: Quality)
    requires s in x.watchers
    ensures SameShow(With(x, s, x.watchers[s].(want := Some(q))), LayerChosen(x, s, q))
  {
    hide Rebuilt;
    RebuiltSame(With(x, s, x.watchers[s].(want := Some(q))));
  }

  lemma SinksSame(x: Show, sinks: set<nat>)
    ensures SameShow(x.(sinks := sinks), SinksSet(x, sinks))
  {
    RebuiltSame(x.(sinks := sinks));
  }

  /** A layer that comes up: the layers gain it, and of the viewers only tracks change. */
  lemma LayerUpParts(x: Show, q: Quality)
    requires x.canShare
    ensures var x' := LayerUp(x, q);
      && x'.canShare && x'.fanouts.Keys == x.fanouts.Keys + {q} && x'.sinks == x.sinks
      && x'.watchers.Keys == x.watchers.Keys
      && forall s | s in x.watchers :: SameWatcher(x.watchers[s], x'.watchers[s])
  {
    hide Rebuilt, Ensured;
    RebuiltLayers(x, x.fanouts.Keys + {q});
    var x1 := x.(watchers := map s | s in x.watchers :: Ensured(x, x.watchers[s]), next := x.next + 1);
    RebuiltLayers(x1, {q});
    forall s | s in x.watchers ensures SameWatcher(x.watchers[s], x1.watchers[s]) {
      EnsuredSame(x, x.watchers[s]);
    }
    UpIffLayers(x);
  }

  lemma LayerUpSays(x: Show, q: Quality, f: Fact)
    ensures Holds(LayerUp(x, q), f) <==> Starts(x, Layer(q), f) || (Holds(x, f) && !Ends(Layer(q), f))
  {
    if x.canShare {
      LayerUpParts(x, q);
      hide LayerUp;
    }
  }

  lemma LayerEndSays(x: Show, q: Quality, f: Fact)
    ensures Holds(LayerEnd(x, q), f) <==> Holds(x, f) && !Ends(Ended(q), f)
  {
    hide Rebuilt;
    if q in x.fanouts && x.fanouts.Keys != {q} {
      assert x.fanouts.Keys - {q} != {};
      RebuiltLayers(x, x.fanouts.Keys - {q});
    }
  }

  lemma ShareSays(x: Show, canShare: bool, f: Fact)
    requires Up(x) ==> x.canShare
    ensures Holds(ShareSet(x, canShare), f) <==>
              Starts(x, Share(canShare), f) || (Holds(x, f) && !Ends(Share(canShare), f))
  {}

  lemma PeopleSay(x: Show, s: Sid, join: bool, audio: bool, f: Fact)
    ensures Holds(With(x, s, Watcher(false, join, audio, false, None, None)), f) <==>
              Starts(x, Enter(s, join, audio), f) || (Holds(x, f) && !Ends(Enter(s, join, audio), f))
    ensures Holds(x.(watchers := x.watchers - {s}), f) <==> Holds(x, f) && !Ends(Leave(s), f)
  {}

  /** A change of one viewer's flag, or of the sinks. */
  lemma FlagSays(x: Show, ev: Event, f: Fact)
    requires ev.Sinks? || ((ev.Connect? || ev.Video? || ev.Caps? || ev.Choose?) && ev.s in x.watchers)
    ensures var x1 :=
        match ev
        case Sinks(sinks) => x.(sinks := sinks)
        case Connect(s) => With(x, s, x.watchers[s].(connected := true))
        case Video(s, want) => With(x, s, x.watchers[s].(unsubscribed := !want))
        case Caps(s, join, audio) => With(x, s, x.watchers[s].(join := join, audio := audio))
        case Choose(s, q) => With(x, s, x.watchers[s].(want := Some(q)))
        case _ => x;
      Holds(x1, f) <==> Starts(x, ev, f) || (Holds(x, f) && !Ends(ev, f))
  {}

  lemma StepSays(x: Show, ev: Event, f: Fact)
    requires (Up(x) ==> x.canShare) && Enabled(x, ev)
    ensures Holds(Next(x, ev), f) <==> Starts(x, ev, f) || (Holds(x, f) && !Ends(ev, f))
  {
    hide ShareSet, LayerUp, LayerEnd, Connected, VideoSet, CapsSet, LayerChosen, SinksSet, Holds, Starts, Ends,
         SameShow;
    match ev
    case Share(c) => ShareSays(x, c, f);
    case Layer(q) => LayerUpSays(x, q, f);
    case Ended(q) =>
      LayerEndSays(x, q, f);
      EndStartsNothing(x, q, f);
    case Enter(s, join, audio) => PeopleSay(x, s, join, audio, f);
    case Leave(s) =>
      PeopleSay(x, s, false, false, f);
      LeaveStartsNothing(x, s, f);
    case Connect(s) =>
      ConnectedSame(x, s);
      FlagSays(x, ev, f);
      SameHolds(With(x, s, x.watchers[s].(connected := true)), Next(x, ev), f);
    case Video(s, want) =>
      VideoSame(x, s, want);
      FlagSays(x, ev, f);
      SameHolds(With(x, s, x.watchers[s].(unsubscribed := !want)), Next(x, ev), f);
    case Caps(s, join, audio) =>
      CapsSame(x, s, join, audio);
      FlagSays(x, ev, f);
      SameHolds(With(x, s, x.watchers[s].(join := join, audio := audio)), Next(x, ev), f);
    case Choose(s, q) =>
      ChosenSame(x, s, q);
      FlagSays(x, ev, f);
      SameHolds(With(x, s, x.watchers[s].(want := Some(q))), Next(x, ev), f);
    case Sinks(sinks) =>
      SinksSame(x, sinks);
      FlagSays(x, ev, f);
      SameHolds(x.(sinks := sinks), Next(x, ev), f);
  }

  lemma EndStartsNothing(x: Show, q: Quality, f: Fact)
    ensures !Starts(x, Ended(q), f)
  {}

  lemma LeaveStartsNothing(x: Show, s: Sid, f: Fact)
    ensures !Starts(x, Leave(s), f)
  {}

  /** A screen that is up may be shared, in every reachable state. */
  lemma {:induction false} UpMayShare(states: seq<Show>, evs: seq<Event>, i: nat)
    requires Run(states, evs) && i < |states|
    ensures Up(states[i]) ==> states[i].canShare
  {
    if i > 0 {
      UpMayShare(states, evs, i - 1);
      hide Run, Next, Up;
      StepMayShare(states, evs, i - 1);
    }
  }

  lemma StepMayShare(states: seq<Show>, evs: seq<Event>, i: nat)
    requires Run(states, evs) && i < |evs| && (Up(states[i]) ==> states[i].canShare)
    ensures Up(states[i + 1]) ==> states[i + 1].canShare
  {
    var x, ev := states[i], evs[i];
    assert Enabled(x, ev) && states[i + 1] == Next(x, ev);
    hide Run, Next;
    StepSays(x, ev, MayShare);
    forall q
      ensures Holds(Next(x, ev), IsUp(q)) <==> Starts(x, ev, IsUp(q)) || (Holds(x, IsUp(q)) && !Ends(ev, IsUp(q)))
    {
      StepSays(x, ev, IsUp(q));
    }
    UpIffLayers(x);
    UpIffLayers(Next(x, ev));
    if q :| q in Next(x, ev).fanouts.Keys {
      assert Holds(Next(x, ev), IsUp(q));
    }
  }

  /** In every run each fact holds exactly if an event has started it that no later event has ended. */
  lemma {:induction false} HistoryIsExact(states: seq<Show>, evs: seq<Event>, i: nat, f: Fact)
    requires Run(states, evs) && i < |states|
    ensures Holds(states[i], f) <==> Said(states, evs, i, f)
  {
    hide Next, Enabled, Holds, Starts, Ends, Said, Up;
    if i == 0 {
      NothingSaid(states, evs, f);
    } else {
      HistoryIsExact(states, evs, i - 1, f);
      UpMayShare(states, evs, i - 1);
      StepSays(states[i - 1], evs[i - 1], f);
      SaidStep(states, evs, i - 1, f);
    }
  }

  lemma NothingSaid(states: seq<Show>, evs: seq<Event>, f: Fact)
    requires |evs| <= |states| && 0 < |states| && states[0] == NEW_SHOW
    ensures !Holds(states[0], f) && !Said(states, evs, 0, f)
  {}

  // ---------------------------------------------------------------------------------------------
  // Which packets a viewer gets, in terms of the events
  // ---------------------------------------------------------------------------------------------

  lemma PickIs(layers: set<Quality>, want: Option<Quality>, q: Quality)
    requires q in layers
    ensures Plane.PickScreenLayer(layers, want) == Some(q) <==>
              want == Some(q) || ((want.Some? ==> want.value !in layers)
                                  && forall o | o in layers :: q.Rank() <= o.Rank())
  {}

  lemma LayersSaid(states: seq<Show>, evs: seq<Event>, i: nat)
    requires Run(states, evs) && i < |states|
    ensures |states| == |evs| + 1
    ensures forall o :: Said(states, evs, i, IsUp(o)) <==> o in states[i].fanouts.Keys
  {
    assert |states| == |evs| + 1;
    hide Run, Said;
    forall o ensures Said(states, evs, i, IsUp(o)) <==> o in states[i].fanouts.Keys {
      HistoryIsExact(states, evs, i, IsUp(o));
    }
  }

  lemma ViewerSaid(states: seq<Show>, evs: seq<Event>, i: nat, s: Sid)
    requires Run(states, evs) && i < |states| && Said(states, evs, i, IsConnected(s))
    ensures var x := states[i];
      && s in x.watchers && x.watchers[s].connected
      && (Said(states, evs, i, MayShare) <==> x.canShare)
      && (Said(states, evs, i, MayJoin(s)) <==> x.watchers[s].join)
      && (Said(states, evs, i, IsMuted(s)) <==> x.watchers[s].unsubscribed)
      && (forall o :: Said(states, evs, i, HasChosen(s, o)) <==> x.watchers[s].want == Some(o))
  {
    assert |states| == |evs| + 1;
    hide Run, Said;
    HistoryIsExact(states, evs, i, IsConnected(s));
    HistoryIsExact(states, evs, i, MayShare);
    HistoryIsExact(states, evs, i, MayJoin(s));
    HistoryIsExact(states, evs, i, IsMuted(s));
    forall o ensures Said(states, evs, i, HasChosen(s, o)) <==> states[i].watchers[s].want == Some(o) {
      HistoryIsExact(states, evs, i, HasChosen(s, o));
    }
  }

  /** While every caps update is grantable, a packet of a layer that is up is written to the connected viewer
      s exactly if the screen may be shared, s may join and has not unsubscribed it last, and the layer is
      the one s chose last, or, where that is not up, the best one that is. */
  lemma ScreensFollowEvents(states: seq<Show>, evs: seq<Event>, i: nat, q: Quality, s: Sid)
    requires Run(states, evs) && i < |states| && forall j | 0 <= j < |evs| :: GrantsServed(states[j], evs[j])
    requires Said(states, evs, i, IsUp(q)) && Said(states, evs, i, IsConnected(s))
    ensures q in states[i].fanouts && s in states[i].watchers
    ensures Written(states[i], q, s) <==>
              && Said(states, evs, i, MayShare) && Said(states, evs, i, MayJoin(s)) && !Said(states, evs, i, IsMuted(s))
              && (|| Said(states, evs, i, HasChosen(s, q))
                  || ((forall o | Said(states, evs, i, HasChosen(s, o)) :: !Said(states, evs, i, IsUp(o)))
                      && (forall o | Said(states, evs, i, IsUp(o)) :: q.Rank() <= o.Rank())))
  {
    LayersSaid(states, evs, i);
    ViewerSaid(states, evs, i, s);
    ScreenServiceIsExact(states, evs, i, q, s);
    var x := states[i];
    hide Run, Said, Written, Plane.PickScreenLayer;
    PickIs(x.fanouts.Keys, x.watchers[s].want, q);
    if x.watchers[s].want.Some? {
      assert Said(states, evs, i, HasChosen(s, x.watchers[s].want.value));
    }
  }

  /** A packet of a layer that is up reaches the sink exactly if the sink is attached last, the screen may be
      shared and no better layer is up. */
  lemma TapsFollowEvents(states: seq<Show>, evs: seq<Event>, i: nat, q: Quality, n: nat)
    requires Run(states, evs) && i < |states| && forall j | 0 <= j < |evs| :: GrantsServed(states[j], evs[j])
    requires Said(states, evs, i, IsUp(q))
    ensures q in states[i].fanouts
    ensures Tap(n) in states[i].fanouts[q] <==>
              && Said(states, evs, i, IsTapped(n)) && Said(states, evs, i, MayShare)
              && forall o | Said(states, evs, i, IsUp(o)) :: q.Rank() <= o.Rank()
  {
    LayersSaid(states, evs, i);
    HistoryIsExact(states, evs, i, IsTapped(n));
    HistoryIsExact(states, evs, i, MayShare);
    TapsAreServed(states, evs, i, q, n);
    var x := states[i];
    hide Run, Said, Plane.PickScreenLayer;
    PickIs(x.fanouts.Keys, Some(Plane.High), q);
  }

  lemma TapsAreServed(states: seq<Show>, evs: seq<Event>, i: nat, q: Quality, n: nat)
    requires Run(states, evs) && i < |states| && forall j | 0 <= j < |evs| :: GrantsServed(states[j], evs[j])
    requires q in states[i].fanouts
    ensures Tap(n) in states[i].fanouts[q] <==>
              n in states[i].sinks && states[i].canShare
              && Plane.PickScreenLayer(states[i].fanouts.Keys, Some(Plane.High)) == Some(q)
  {
    RunServes(states, evs, i);
    hide Run, TracksOk, Plane.PickScreenLayer;
    assert TapsServed(states[i]);
  }
}
