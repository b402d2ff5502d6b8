/** One local screen over every run: the cached snapshots of its layers agree with the simple
    forwarding decision, for every connected viewer, as viewers, rights, marks and layers change. */
module ScreenService {
  import opened Options
  import opened Screens

  /** A down track of this screen; gen tells it apart from earlier ones of the same session id. */
  datatype DownTrack = DownTrack(gen: nat, active: bool)

  /** What the screen's plane knows of one member. `audio` is the right subscribe_audio, which screens do
      not need but whose gain attaches all publishers. */
  datatype Watcher = Watcher(connected: bool, join: bool, audio: bool, unsubscribed: bool, want: Option<Quality>,
                             track: Option<DownTrack>)

  datatype Handle = View(sid: Sid, gen: nat) | Tap(sink: nat)

  /** The screen of one publisher: each layer that is up with its snapshot. */
  datatype Show = Show(canShare: bool, fanouts: map<Quality, set<Handle>>, watchers: map<Sid, Watcher>,
                       sinks: set<nat>, next: nat)

  const NEW_SHOW := Show(false, map[], map[], {}, 0)

  predicate Up(x: Show) {
    x.fanouts != map[]
  }

  predicate Due(x: Show, w: Watcher) {
    ShouldForwardScreen(x.canShare, w.join, w.unsubscribed)
  }

  predicate Picks(layers: set<Quality>, w: Watcher, q: Quality) {
    PickScreenLayer(layers, w.want) == Some(q)
  }

  // ---------------------------------------------------------------------------------------------
  // What each operation does
  // ---------------------------------------------------------------------------------------------

  function Viewers(x: Show, layers: set<Quality>, q: Quality): set<Handle> {
    set s | s in x.watchers && x.watchers[s].track.Some? && x.watchers[s].track.value.active && Due(x, x.watchers[s]) &&
            Picks(layers, x.watchers[s], q) :: View(s, x.watchers[s].track.value.gen)
  }

  function Taps(x: Show, layers: set<Quality>, q: Quality): set<Handle> {
    if x.canShare && PickScreenLayer(layers, Some(High)) == Some(q) then set n | n in x.sinks :: Tap(n) else {}
  }

  /** rebuildScreenFanout: with no layer up nothing is touched. */
  function Rebuilt(x: Show, layers: set<Quality>): Show {
    if layers == {} then x else x.(fanouts := map q | q in layers :: Viewers(x, layers, q) + Taps(x, layers, q))
  }

  /** ensureScreenDownTrack, for a screen that is up. */
  function Ensured(x: Show, w: Watcher): Watcher {
    if Due(x, w) && w.track.None? then w.(track := Some(DownTrack(x.next, true))) else w
  }

  function With(x: Show, s: Sid, w: Watcher): Show {
    x.(watchers := x.watchers[s := w])
  }

  /** attachPublishersToSubscriber, as far as this screen goes. */
  function Attached(x: Show, s: Sid): Show
    requires s in x.watchers
  {
    if Up(x) then Rebuilt(With(x, s, Ensured(x, x.watchers[s])).(next := x.next + 1), x.fanouts.Keys) else x
  }

  function LayerUp(x: Show, q: Quality): Show {
    if !x.canShare then x
    else if Up(x) then Rebuilt(x, x.fanouts.Keys + {q})
    else Rebuilt(x.(watchers := map s | s in x.watchers :: Ensured(x, x.watchers[s]), next := x.next + 1), {q})
  }

  /** finishScreenPublish: the layers and every down track go. */
  function Finished(x: Show): Show {
    x.(fanouts := map[], watchers := map s | s in x.watchers :: x.watchers[s].(track := None))
  }

  function LayerEnd(x: Show, q: Quality): Show {
    if q !in x.fanouts then x
    else if x.fanouts.Keys == {q} then Finished(x)
    else Rebuilt(x, x.fanouts.Keys - {q})
  }

  function ShareSet(x: Show, canShare: bool): Show {
    if x.canShare && !canShare then Finished(x.(canShare := false)) else x.(canShare := canShare)
  }

  function Connected(x: Show, s: Sid): Show
    requires s in x.watchers
  {
    if x.watchers[s].connected then x else Attached(With(x, s, x.watchers[s].(connected := true)), s)
  }

  /** Subscribing to, or unsubscribing from, the publisher's video. */
  function VideoSet(x: Show, s: Sid, want: bool): Show
    requires s in x.watchers
  {
    var w := x.watchers[s];
    var w1 := w.(unsubscribed := !want, track := if w.track.Some? then Some(w.track.value.(active := want)) else None);
    if !Up(x) then With(x, s, w1)
    else Rebuilt(With(x, s, if want then Ensured(x, w1) else w1).(next := x.next + 1), x.fanouts.Keys)
  }

  /** applyCaps of a viewer. */
  function CapsSet(x: Show, s: Sid, join: bool, audio: bool): Show
    requires s in x.watchers
  {
    var was := x.watchers[s];
    var x1 := With(x, s, was.(join := join, audio := audio));
    var x2 := if audio && !was.audio then Attached(x1, s) else x1;
    Rebuilt(x2, x2.fanouts.Keys)
  }

  function LayerChosen(x: Show, s: Sid, q: Quality): Show
    requires s in x.watchers
  {
    Rebuilt(With(x, s, x.watchers[s].(want := Some(q))), x.fanouts.Keys)
  }

  function SinksSet(x: Show, sinks: set<nat>): Show {
    Rebuilt(x.(sinks := sinks), x.fanouts.Keys)
  }

  datatype Event =
    | Share(canShare: bool)
    | Layer(q: Quality)
    | Ended(q: Quality)
    | Enter(s: Sid, join: bool, audio: bool)  // a member of that session id gives way
    | Connect(s: Sid)
    | Video(s: Sid, want: bool)
    | Caps(s: Sid, join: bool, audio: bool)
    | Choose(s: Sid, q: Quality)
    | Leave(s: Sid)
    | Sinks(sinks: set<nat>)

  predicate Enabled(x: Show, ev: Event) {
    ev.Share? || ev.Layer? || ev.Ended? || ev.Enter? || ev.Leave? || ev.Sinks? || ev.s in x.watchers
  }

  function Next(x: Show, ev: Event): Show
    requires Enabled(x, ev)
  {
    match ev
    case Share(c) => ShareSet(x, c)
    case Layer(q) => LayerUp(x, q)
    case Ended(q) => LayerEnd(x, q)
    case Enter(s, join, audio) => With(x, s, Watcher(false, join, audio, false, None, None))
    case Connect(s) => Connected(x, s)
    case Video(s, want) => VideoSet(x, s, want)
    case Caps(s, join, audio) => CapsSet(x, s, join, audio)
    case Choose(s, q) => LayerChosen(x, s, q)
    case Leave(s) => x.(watchers := x.watchers - {s})
    case Sinks(sinks) => SinksSet(x, sinks)
  }

  // ---------------------------------------------------------------------------------------------
  // What every run keeps
  // ---------------------------------------------------------------------------------------------

  /** A packet of layer q is written to the down track s has of this screen. */
  predicate Written(x: Show, q: Quality, s: Sid)
    requires q in x.fanouts && s in x.watchers
  {
    x.watchers[s].track.Some? && View(s, x.watchers[s].track.value.gen) in x.fanouts[q]
  }

  /** s is written the packets of the layer it picks while they are due to it, and of no other. */
  ghost predicate Served(x: Show, s: Sid)
    requires s in x.watchers
  {
    forall q | q in x.fanouts :: Written(x, q, s) <==> Due(x, x.watchers[s]) && Picks(x.fanouts.Keys, x.watchers[s], q)
  }

  ghost predicate TapsServed(x: Show) {
    forall q, n | q in x.fanouts ::
      Tap(n) in x.fanouts[q] <==> n in x.sinks && x.canShare && PickScreenLayer(x.fanouts.Keys, Some(High)) == Some(q)
  }

  /** A track is active unless unsubscribed, and none is newer than the counter. */
  predicate TrackOk(w: Watcher, next: nat) {
    w.track.Some? ==> w.track.value.gen < next && w.track.value.active == !w.unsubscribed
  }

  ghost predicate TracksOk(x: Show) {
    && (Up(x) ==> x.canShare)
    && (forall s | s in x.watchers :: TrackOk(x.watchers[s], x.next))
    && (!Up(x) ==> forall s | s in x.watchers :: x.watchers[s].track.None?)
  }

  ghost predicate Inv(x: Show) {
    TracksOk(x) && TapsServed(x) && forall s | s in x.watchers && x.watchers[s].connected :: Served(x, s)
  }

  /** What is due has a track to go to. */
  predicate Ready(x: Show, w: Watcher) {
    Due(x, w) ==> w.track.Some?
  }

  lemma ServedIsReady(x: Show, s: Sid)
    requires s in x.watchers && Served(x, s) && Up(x)
    ensures Ready(x, x.watchers[s])
  {
    PickIsBest(x.fanouts.Keys, x.watchers[s].want);
    var q := PickScreenLayer(x.fanouts.Keys, x.watchers[s].want);
    assert x.fanouts.Keys != {} by {
      assert x.fanouts.Keys == {} ==> x.fanouts == map[];
    }
    assert q.value in x.fanouts;
  }

  /** A snapshot just taken serves everybody whose track is there. */
  lemma RebuiltServes(x: Show, layers: set<Quality>)
    requires layers != {} && x.canShare && forall s | s in x.watchers :: TrackOk(x.watchers[s], x.next)
    requires forall s | s in x.watchers && x.watchers[s].connected :: Ready(x, x.watchers[s])
    ensures Inv(Rebuilt(x, layers))
  {
    var x' := Rebuilt(x, layers);
    assert x'.fanouts.Keys == layers;
    forall s | s in x'.watchers && x'.watchers[s].connected ensures Served(x', s) {
      hide PickScreenLayer;
      assert Ready(x, x.watchers[s]);
    }
    hide PickScreenLayer, Due, Picks;
    UpIffLayers(x');
  }

  lemma UpIffLayers(x: Show)
    ensures Up(x) <==> x.fanouts.Keys != {}
  {
    assert x.fanouts.Keys == {} ==> x.fanouts == map[];
  }

  // ---------------------------------------------------------------------------------------------
  // Operation by operation
  // ---------------------------------------------------------------------------------------------

  ghost predicate AllReady(x: Show) {
    forall s | s in x.watchers && x.watchers[s].connected :: Ready(x, x.watchers[s])
  }

  lemma InvIsReady(x: Show)
    requires Inv(x) && Up(x)
    ensures AllReady(x)
  {
    forall s | s in x.watchers && x.watchers[s].connected ensures Ready(x, x.watchers[s]) {
      ServedIsReady(x, s);
    }
  }

  ghost predicate AllTracksOk(x: Show) {
    forall s | s in x.watchers :: TrackOk(x.watchers[s], x.next)
  }

  lemma InvGives(x: Show)
    requires Inv(x)
    ensures AllTracksOk(x) && (Up(x) ==> x.canShare)
    ensures (!Up(x) ==> forall s | s in x.watchers :: x.watchers[s].track.None?)
  {}

  /** With no layer up, nothing is owed. */
  lemma DownIsServed(x: Show)
    requires !Up(x) && forall s | s in x.watchers :: x.watchers[s].track.None?
    ensures Inv(x)
  {}

  lemma RebuildKeepsInv(x: Show, layers: set<Quality>)
    requires layers != {} && x.canShare && AllTracksOk(x) && AllReady(x)
    ensures Inv(Rebuilt(x, layers))
  {
    hide Inv, Rebuilt;
    RebuiltServes(x, layers);
  }

  /** One viewer changes while the screen is up; it is ready afterwards, and all snapshots are retaken. */
  lemma ChangeKeepsInv(x: Show, s: Sid, w: Watcher, next: nat)
    requires Inv(x) && Up(x) && s in x.watchers && x.next <= next
    requires (w.connected ==> Ready(x, w)) && TrackOk(w, next)
    ensures Inv(Rebuilt(With(x, s, w).(next := next), x.fanouts.Keys))
  {
    InvIsReady(x);
    UpIffLayers(x);
    var x1 := With(x, s, w).(next := next);
    assert AllReady(x1) && AllTracksOk(x1);
    hide Inv, AllReady, AllTracksOk, Rebuilt;
    RebuildKeepsInv(x1, x.fanouts.Keys);
  }

  lemma EnsuredIsReady(x: Show, w: Watcher)
    requires TrackOk(w, x.next)
    ensures Ready(x, Ensured(x, w)) && TrackOk(Ensured(x, w), x.next + 1)
  {}

  lemma FirstLayerServes(x: Show, q: Quality)
    requires x.canShare && AllTracksOk(x)
    ensures Inv(Rebuilt(x.(watchers := map s | s in x.watchers :: Ensured(x, x.watchers[s]), next := x.next + 1), {q}))
  {
    var x1 := x.(watchers := map s | s in x.watchers :: Ensured(x, x.watchers[s]), next := x.next + 1);
    forall s | s in x1.watchers ensures Ready(x1, x1.watchers[s]) && TrackOk(x1.watchers[s], x1.next) {
      EnsuredIsReady(x, x.watchers[s]);
    }
    hide Inv, Rebuilt;
    RebuiltServes(x1, {q});
  }

  lemma LayerUpKeepsInv(x: Show, q: Quality)
    requires Inv(x)
    ensures Inv(LayerUp(x, q))
  {
    hide Inv, Rebuilt;
    InvGives(x);
    if x.canShare {
      if Up(x) {
        InvIsReady(x);
        RebuildKeepsInv(x, x.fanouts.Keys + {q});
      } else {
        FirstLayerServes(x, q);
      }
    }
  }

  lemma FinishedKeepsInv(x: Show)
    ensures Inv(Finished(x))
  {}

  lemma LayerEndKeepsInv(x: Show, q: Quality)
    requires Inv(x)
    ensures Inv(LayerEnd(x, q))
  {
    FinishedKeepsInv(x);
    if q in x.fanouts && x.fanouts.Keys != {q} {
      assert Up(x) && AllTracksOk(x);
      InvIsReady(x);
      hide Inv, Finished, Rebuilt;
      assert x.fanouts.Keys - {q} != {};
      RebuildKeepsInv(x, x.fanouts.Keys - {q});
    }
  }

  lemma ConnectKeepsInv(x: Show, s: Sid)
    requires Inv(x) && s in x.watchers
    ensures Inv(Connected(x, s))
  {
    hide Inv, Rebuilt, Ensured;
    InvGives(x);
    var w := x.watchers[s].(connected := true);
    if !x.watchers[s].connected {
      assert TrackOk(w, x.next);
      if Up(x) {
        EnsuredIsReady(x, w);
        SameAttach(x, s, w);
        EnsuredConnects(x, w);
        ChangeKeepsInv(x, s, Ensured(x, w), x.next + 1);
      } else {
        DownIsServed(With(x, s, w));
      }
    }
  }

  lemma EnsuredConnects(x: Show, w: Watcher)
    ensures Ensured(x, w).connected == w.connected
  {}

  lemma SameAttach(x: Show, s: Sid, w: Watcher)
    requires Up(x) && s in x.watchers
    ensures Attached(With(x, s, w), s) == Rebuilt(With(x, s, Ensured(x, w)).(next := x.next + 1), x.fanouts.Keys)
  {
    assert Ensured(With(x, s, w), w) == Ensured(x, w);
    hide Rebuilt, Ensured;
    assert With(With(x, s, w), s, Ensured(x, w)) == With(x, s, Ensured(x, w));
  }

  lemma VideoKeepsInv(x: Show, s: Sid, want: bool)
    requires Inv(x) && s in x.watchers
    ensures Inv(VideoSet(x, s, want))
  {
    hide Inv, Rebuilt, Ensured;
    InvGives(x);
    var w := x.watchers[s];
    var w1 := w.(unsubscribed := !want, track := if w.track.Some? then Some(w.track.value.(active := want)) else None);
    assert TrackOk(w, x.next);
    if Up(x) {
      EnsuredIsReady(x, w1);
      ChangeKeepsInv(x, s, if want then Ensured(x, w1) else w1, x.next + 1);
    } else {
      DownIsServed(With(x, s, w1));
    }
  }

  lemma ChooseKeepsInv(x: Show, s: Sid, q: Quality)
    requires Inv(x) && s in x.watchers
    ensures Inv(LayerChosen(x, s, q))
  {
    var w := x.watchers[s].(want := Some(q));
    if Up(x) {
      InvIsReady(x);
      ChangeKeepsInv(x, s, w, x.next);
      assert With(x, s, w).(next := x.next) == With(x, s, w);
    } else {
      UpIffLayers(x);
    }
  }

  lemma SinksKeepInv(x: Show, sinks: set<nat>)
    requires Inv(x)
    ensures Inv(SinksSet(x, sinks))
  {
    UpIffLayers(x);
    if Up(x) {
      InvIsReady(x);
      var x1 := x.(sinks := sinks);
      assert AllReady(x1) && AllTracksOk(x1);
      hide Inv, AllReady, AllTracksOk, Rebuilt;
      RebuildKeepsInv(x1, x.fanouts.Keys);
    }
  }

  lemma LeaveKeepsInv(x: Show, s: Sid)
    requires Inv(x)
    ensures Inv(x.(watchers := x.watchers - {s}))
  {
    var x' := x.(watchers := x.watchers - {s});
    forall o | o in x'.watchers && x'.watchers[o].connected ensures Served(x', o) {
      assert Served(x, o);
    }
  }

  lemma EnterKeepsInv(x: Show, s: Sid, join: bool, audio: bool)
    requires Inv(x)
    ensures Inv(With(x, s, Watcher(false, join, audio, false, None, None)))
  {
    var x' := With(x, s, Watcher(false, join, audio, false, None, None));
    forall o | o in x'.watchers && x'.watchers[o].connected ensures Served(x', o) {
      assert Served(x, o);
    }
  }

  lemma ShareKeepsInv(x: Show, canShare: bool)
    requires Inv(x)
    ensures Inv(ShareSet(x, canShare))
  {
    FinishedKeepsInv(x.(canShare := false));
    if !(x.canShare && !canShare) && !Up(x) {
      hide Finished;
    }
  }

  // ---------------------------------------------------------------------------------------------
  // Caps, and the exact guard
  // ---------------------------------------------------------------------------------------------

  /** Giving s these rights leaves it served: join gained alone attaches nothing, so s must already have
      a track of a screen that is then due to it. */
  predicate Grantable(x: Show, s: Sid, join: bool, audio: bool)
    requires s in x.watchers
  {
    var w := x.watchers[s];
    w.connected && Up(x) && join && !w.join && !(audio && !w.audio) && !w.unsubscribed ==> w.track.Some?
  }

  function CapsWatcher(x: Show, s: Sid, join: bool, audio: bool): Watcher
    requires s in x.watchers
  {
    var w := x.watchers[s].(join := join, audio := audio);
    if audio && !x.watchers[s].audio then Ensured(x, w) else w
  }

  lemma RebuiltTwice(x: Show, layers: set<Quality>)
    requires layers != {}
    ensures Rebuilt(Rebuilt(x, layers), layers) == Rebuilt(x, layers) && Rebuilt(x, layers).fanouts.Keys == layers
  {
    var x' := Rebuilt(x, layers);
    forall q ensures Viewers(x', layers, q) == Viewers(x, layers, q) && Taps(x', layers, q) == Taps(x, layers, q) {}
  }

  lemma CapsSetIs(x: Show, s: Sid, join: bool, audio: bool)
    requires s in x.watchers && Up(x)
    ensures var gained := audio && !x.watchers[s].audio;
      CapsSet(x, s, join, audio)
        == Rebuilt(With(x, s, CapsWatcher(x, s, join, audio)).(next := if gained then x.next + 1 else x.next),
            x.fanouts.Keys)
  {
    UpIffLayers(x);
    var w := x.watchers[s].(join := join, audio := audio);
    SameAttach(x, s, w);
    var y := With(x, s, Ensured(x, w)).(next := x.next + 1);
    RebuiltTwice(y, x.fanouts.Keys);
    hide Rebuilt, Ensured;
    assert With(x, s, w).(next := x.next) == With(x, s, w);
  }

  lemma CapsKeepInv(x: Show, s: Sid, join: bool, audio: bool)
    requires Inv(x) && s in x.watchers && Grantable(x, s, join, audio)
    ensures Inv(CapsSet(x, s, join, audio))
  {
    if Up(x) {
      InvIsReady(x);
      CapsSetIs(x, s, join, audio);
      assert TrackOk(x.watchers[s], x.next);
      EnsuredIsReady(x, x.watchers[s].(join := join, audio := audio));
      var gained := audio && !x.watchers[s].audio;
      assert x.canShare;
      assert x.watchers[s].connected ==> Ready(x, x.watchers[s]);
      hide CapsSet, Rebuilt, Inv;
      ChangeKeepsInv(x, s, CapsWatcher(x, s, join, audio), if gained then x.next + 1 else x.next);
    } else {
      UpIffLayers(x);
    }
  }

  /** The guard is exact. */
  lemma GrantableIsExact(x: Show, s: Sid, join: bool, audio: bool)
    requires Inv(x) && s in x.watchers
    ensures Inv(CapsSet(x, s, join, audio)) <==> Grantable(x, s, join, audio)
  {
    if Grantable(x, s, join, audio) {
      CapsKeepInv(x, s, join, audio);
    } else {
      CapsSetIs(x, s, join, audio);
      UpIffLayers(x);
      var x' := CapsSet(x, s, join, audio);
      assert x'.watchers[s] == x.watchers[s].(join := join, audio := audio) && x'.fanouts.Keys == x.fanouts.Keys;
      hide CapsSet, Rebuilt;
      UpIffLayers(x');
      assert !Ready(x', x'.watchers[s]);
      if Served(x', s) {
        ServedIsReady(x', s);
      }
    }
  }

  // ---------------------------------------------------------------------------------------------
  // Every step, every run
  // ---------------------------------------------------------------------------------------------

  predicate GrantsServed(x: Show, ev: Event) {
    ev.Caps? && ev.s in x.watchers ==> Grantable(x, ev.s, ev.join, ev.audio)
  }

  lemma StepServes(x: Show, ev: Event)
    requires Inv(x) && Enabled(x, ev) && GrantsServed(x, ev)
    ensures Inv(Next(x, ev))
  {
    hide Inv, ShareSet, LayerUp, LayerEnd, With, Connected, VideoSet, CapsSet, LayerChosen, SinksSet, Grantable;
    match ev
    case Share(c) => ShareKeepsInv(x, c);
    case Layer(q) => LayerUpKeepsInv(x, q);
    case Ended(q) => LayerEndKeepsInv(x, q);
    case Enter(s, join, audio) => EnterKeepsInv(x, s, join, audio);
    case Connect(s) => ConnectKeepsInv(x, s);
    case Video(s, want) => VideoKeepsInv(x, s, want);
    case Caps(s, join, audio) => CapsKeepInv(x, s, join, audio);
    case Choose(s, q) => ChooseKeepsInv(x, s, q);
    case Leave(s) => LeaveKeepsInv(x, s);
    case Sinks(sinks) => SinksKeepInv(x, sinks);
  }

  ghost predicate Run(states: seq<Show>, evs: seq<Event>) {
    && |states| == |evs| + 1 && states[0] == NEW_SHOW
    && forall i | 0 <= i < |evs| :: Enabled(states[i], evs[i]) && states[i + 1] == Next(states[i], evs[i])
  }

  lemma {:induction false} RunServes(states: seq<Show>, evs: seq<Event>, i: nat)
    requires Run(states, evs) && i < |states| && forall j | 0 <= j < |evs| :: GrantsServed(states[j], evs[j])
    ensures Inv(states[i])
  {
    if i > 0 {
      RunServes(states, evs, i - 1);
      hide Inv, Next, Enabled, GrantsServed;
      StepServes(states[i - 1], evs[i - 1]);
    }
  }

  /** In every reachable state, a packet of a layer that is up is written to the down track of a
      connected viewer exactly when the screen is due to that viewer and the layer is its pick. */
  lemma ScreenServiceIsExact(states: seq<Show>, evs: seq<Event>, i: nat, q: Quality, s: Sid)
    requires Run(states, evs) && i < |states| && forall j | 0 <= j < |evs| :: GrantsServed(states[j], evs[j])
    requires q in states[i].fanouts && s in states[i].watchers && states[i].watchers[s].connected
    ensures var x := states[i];
      Written(x, q, s) <==>
        ShouldForwardScreen(x.canShare, x.watchers[s].join, x.watchers[s].unsubscribed) &&
        PickScreenLayer(x.fanouts.Keys, x.watchers[s].want) == Some(q)
  {
    RunServes(states, evs, i);
    assert Served(states[i], s);
  }

  /** The failing run: a viewer that lacked join when the screen came up gets it, and sees nothing. */
  lemma GrantedJoinSeesNothing(s: Sid, audio: bool) returns (states: seq<Show>, evs: seq<Event>)
    ensures evs == [Share(true), Enter(s, false, audio), Connect(s), Layer(High), Event.Caps(s, true, audio)]
    ensures Run(states, evs) && forall j | 0 <= j < 4 :: GrantsServed(states[j], evs[j])
    ensures var x := states[5];
      && s in x.watchers && x.watchers[s].connected && Due(x, x.watchers[s]) && Up(x)
      && forall q | q in x.fanouts :: !Written(x, q, s)
  {
    hide CapsSet, LayerUp, Rebuilt, Ensured, PickScreenLayer, ShareSet, Connected, With;
    evs := [Share(true), Enter(s, false, audio), Connect(s), Layer(High), Event.Caps(s, true, audio)];
    var x1 := NEW_SHOW.(canShare := true);
    var x2 := Waiting(s, audio, false);
    var x3 := Waiting(s, audio, true);
    WaitingSteps(s, audio);
    FirstLayerShape(x3, s);
    var x4 := LayerUp(x3, High);
    CapsLeaveTrackless(x4, s, audio);
    states := [NEW_SHOW, x1, x2, x3, x4, CapsSet(x4, s, true, audio)];
  }

  /** The screen may be shared and is not up yet; s is the only viewer, without join. */
  function Waiting(s: Sid, audio: bool, connected: bool): Show {
    Show(true, map[], map[s := Watcher(connected, false, audio, false, None, None)], {}, 0)
  }

  lemma WaitingSteps(s: Sid, audio: bool)
    ensures ShareSet(NEW_SHOW, true) == NEW_SHOW.(canShare := true)
    ensures With(NEW_SHOW.(canShare := true), s, Watcher(false, false, audio, false, None, None))
              == Waiting(s, audio, false)
    ensures Connected(Waiting(s, audio, false), s) == Waiting(s, audio, true)
  {
    hide Rebuilt, Ensured;
    assert Waiting(s, audio, false).watchers[s := Watcher(true, false, audio, false, None, None)]
             == Waiting(s, audio, true).watchers;
  }

  lemma CapsLeaveTrackless(x: Show, s: Sid, audio: bool)
    requires Up(x) && x.canShare && s in x.watchers && x.watchers[s] == Watcher(true, false, audio, false, None, None)
    ensures var x' := CapsSet(x, s, true, audio);
      Up(x') && x'.canShare && s in x'.watchers && x'.watchers[s] == Watcher(true, true, audio, false, None, None)
  {
    CapsSetIs(x, s, true, audio);
    UpIffLayers(x);
    hide CapsSet;
    RebuiltShape(With(x, s, CapsWatcher(x, s, true, audio)).(next := x.next), x.fanouts.Keys);
    hide Rebuilt;
    UpIffLayers(CapsSet(x, s, true, audio));
  }

  lemma RebuiltShape(x: Show, layers: set<Quality>)
    requires layers != {}
    ensures Rebuilt(x, layers).watchers == x.watchers && Rebuilt(x, layers).canShare == x.canShare
    ensures Rebuilt(x, layers).fanouts.Keys == layers
  {}

  lemma FirstLayerShape(x: Show, s: Sid)
    requires x.canShare && !Up(x) && s in x.watchers && !x.watchers[s].join && x.watchers[s].track.None?
    ensures var x' := LayerUp(x, High);
      Up(x') && x'.canShare && s in x'.watchers && x'.watchers[s] == x.watchers[s]
  {
    var x1 := x.(watchers := map o | o in x.watchers :: Ensured(x, x.watchers[o]), next := x.next + 1);
    RebuiltShape(x1, {High});
    UpIffLayers(LayerUp(x, High));
    hide Rebuilt;
  }
}
