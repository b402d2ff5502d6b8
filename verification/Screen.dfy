/** Screen sharing: admission of simulcast layers, the count of active screens, and the bucketing of
    viewers into layers. */
module Screens {
  import opened Options

  type Person = nat
  type LayerId = nat
  type Transceiver = nat

  datatype Quality = High | Medium | Low
  {
    /** Lower is better. */
    function Rank(): nat {
      match this
      case High => 0
      case Medium => 1
      case Low => 2
    }
  }

  /** The quality a publisher's rid stands for; a layer of unknown rid is drained. */
  function RidQuality(rid: string): Option<Quality> {
    if rid == "" || rid == "a" || rid == "h" then Some(High)
    else if rid == "b" || rid == "m" then Some(Medium)
    else if rid == "c" || rid == "l" then Some(Low)
    else None
  }

  /** The rids of each quality. */
  predicate Names(rid: string, q: Quality) {
    match q
    case High => rid in ["", "a", "h"]
    case Medium => rid in ["b", "m"]
    case Low => rid in ["c", "l"]
  }

  lemma RidIsNamed(rid: string, q: Quality)
    ensures RidQuality(rid) == Some(q) <==> Names(rid, q)
  {}

  lemma RidNames(rid: string)
    ensures forall q :: RidQuality(rid) == Some(q) <==> Names(rid, q)
  {
    forall q {
      RidIsNamed(rid, q);
    }
  }

  // ---------------------------------------------------------------------------------------------
  // Choosing a layer
  // ---------------------------------------------------------------------------------------------

  /** The requested quality if it is up, else the best one that is. */
  function PickScreenLayer(layers: set<Quality>, want: Option<Quality>): Option<Quality> {
    if want.Some? && want.value in layers then want
    else if High in layers then Some(High)
    else if Medium in layers then Some(Medium)
    else if Low in layers then Some(Low)
    else None
  }

  lemma PickIsBest(layers: set<Quality>, want: Option<Quality>)
    ensures PickScreenLayer(layers, want).None? <==> layers == {}
    ensures var q := PickScreenLayer(layers, want);
      q.Some? ==>
        q.value in layers && (want == q || (forall o | o in layers :: q.value.Rank() <= o.Rank() && want != Some(o)))
  {
    if q :| q in layers {
      match q
      case High =>
      case Medium =>
      case Low =>
    }
  }

  // ---------------------------------------------------------------------------------------------
  // Bucketing
  // ---------------------------------------------------------------------------------------------

  type Sid = string

  /** What the snapshot loop reads of one member: its down track of this screen, if any, whether
      that is active, its join right, its video mark and its layer request. */
  datatype Viewer = Viewer(hasTrack: bool, active: bool, join: bool, unsubscribed: bool, want: Option<Quality>)

  datatype Entry = Track(sid: Sid) | Sink(id: nat)

  predicate ShouldForwardScreen(canPublish: bool, join: bool, unsubscribed: bool) {
    canPublish && join && !unsubscribed
  }

  predicate Eligible(canPublish: bool, v: Viewer) {
    v.hasTrack && v.active && ShouldForwardScreen(canPublish, v.join, v.unsubscribed)
  }

  function EligibleTracks(pub: Sid, canPublish: bool, viewers: map<Sid, Viewer>): set<Entry> {
    set s | s in viewers && s != pub && Eligible(canPublish, viewers[s]) :: Track(s)
  }

  function SinkEntries(canPublish: bool, sinks: set<nat>): set<Entry> {
    if canPublish then set n | n in sinks :: Sink(n) else {}
  }

  /** Everything to be written to, in whichever layer. */
  function Entries(pub: Sid, canPublish: bool, viewers: map<Sid, Viewer>, sinks: set<nat>): set<Entry> {
    EligibleTracks(pub, canPublish, viewers) + SinkEntries(canPublish, sinks)
  }

  /** The layer an entry goes to: a viewer's own pick, the best one for a sink. */
  function Home(layers: set<Quality>, viewers: map<Sid, Viewer>, e: Entry): Option<Quality> {
    if e.Track? && e.sid in viewers then PickScreenLayer(layers, viewers[e.sid].want)
    else PickScreenLayer(layers, Some(High))
  }

  function Bucket(pub: Sid, canPublish: bool, layers: set<Quality>, viewers: map<Sid, Viewer>, sinks: set<nat>,
                  q: Quality): set<Entry> {
    set e | e in Entries(pub, canPublish, viewers, sinks) && Home(layers, viewers, e) == Some(q)
  }

  /** The snapshot loop: with no layer up nothing is touched; else every layer gets a new snapshot. */
  method RebuildScreenFanout(pub: Sid, canPublish: bool, layers: set<Quality>, viewers: map<Sid, Viewer>,
                             sinks: set<nat>,
                             fanouts: map<Quality, set<Entry>>) returns (fanouts': map<Quality, set<Entry>>)
    ensures layers == {} ==> fanouts' == fanouts
    ensures layers != {} ==> fanouts'.Keys == layers
    ensures layers != {} ==> forall q | q in layers :: fanouts'[q] == Bucket(pub, canPublish, layers, viewers, sinks, q)
  {
    if layers == {} {
      return fanouts;
    }
    fanouts' := map q | q in layers :: {};
    var todo := viewers.Keys;
    while todo != {}
      invariant todo <= viewers.Keys && fanouts'.Keys == layers
      invariant forall q, e | q in layers :: e in fanouts'[q] <==>
        e.Track? && e.sid in viewers && e.sid !in todo && e.sid != pub && Eligible(canPublish, viewers[e.sid]) &&
        PickScreenLayer(layers, viewers[e.sid].want) == Some(q)
      decreases todo
    {
      var s :| s in todo;
      todo := todo - {s};
      if s == pub {
        continue;
      }
      var v := viewers[s];
      if v.hasTrack && v.active && ShouldForwardScreen(canPublish, v.join, v.unsubscribed) {
        var q := PickScreenLayer(layers, v.want);
        if q.Some? {
          fanouts' := fanouts'[q.value := fanouts'[q.value] + {Track(s)}];
        }
      }
    }
    if canPublish && sinks != {} {
      var best := PickScreenLayer(layers, Some(High));
      if best.Some? {
        fanouts' := fanouts'[best.value := fanouts'[best.value] + SinkEntries(canPublish, sinks)];
      }
    }
    PickIsBest(layers, Some(High));
    hide PickScreenLayer, Eligible;
    forall q, e: Entry | q in layers
      ensures e in fanouts'[q] <==> e in Bucket(pub, canPublish, layers, viewers, sinks, q)
    {
      EachEntryInOneLayer(pub, canPublish, layers, viewers, sinks, e);
    }
  }

  /** Every eligible viewer is in exactly one layer, the one it picks, and nobody else is in any;
      every sink of an entitled publisher is in the best layer only. */
  lemma EachEntryInOneLayer(pub: Sid, canPublish: bool, layers: set<Quality>, viewers: map<Sid, Viewer>,
                            sinks: set<nat>, e: Entry)
    requires layers != {}
    ensures e in Entries(pub, canPublish, viewers, sinks) ==>
              && Home(layers, viewers, e).Some? && Home(layers, viewers, e).value in layers
              && e in Bucket(pub, canPublish, layers, viewers, sinks, Home(layers, viewers, e).value)
    ensures forall q: Quality | e in Bucket(pub, canPublish, layers, viewers, sinks, q) ::
              e in Entries(pub, canPublish, viewers, sinks) && Home(layers, viewers, e) == Some(q)
    ensures e.Sink? ==> (e in Entries(pub, canPublish, viewers, sinks) <==> canPublish && e.id in sinks)
    ensures e.Sink? ==> forall q | q in layers && Home(layers, viewers, e).Some? ::
              Home(layers, viewers, e).value.Rank() <= q.Rank()
    ensures e.Track? ==> (e in Entries(pub, canPublish, viewers, sinks) <==>
                            e.sid in viewers && e.sid != pub && Eligible(canPublish, viewers[e.sid]))
  {
    PickIsBest(layers, if e.Track? && e.sid in viewers then viewers[e.sid].want else Some(High));
    hide PickScreenLayer, Eligible;
  }

  lemma ThreeParts(all: set<Entry>, a: set<Entry>, b: set<Entry>, c: set<Entry>)
    requires all == a + b + c && a !! b && (a + b) !! c
    ensures |all| == |a| + |b| + |c|
  {}

  /** The sizes add up: every eligible viewer and every sink is counted once. */
  lemma SizesAddUp(pub: Sid, canPublish: bool, layers: set<Quality>, viewers: map<Sid, Viewer>, sinks: set<nat>)
    requires layers != {}
    ensures |Bucket(pub, canPublish, layers, viewers, sinks, High)|
              + |Bucket(pub, canPublish, layers, viewers, sinks, Medium)|
              + |Bucket(pub, canPublish, layers, viewers, sinks, Low)|
            == |EligibleTracks(pub, canPublish, viewers)| + |SinkEntries(canPublish, sinks)|
  {
    var h := Bucket(pub, canPublish, layers, viewers, sinks, High);
    var m := Bucket(pub, canPublish, layers, viewers, sinks, Medium);
    var l := Bucket(pub, canPublish, layers, viewers, sinks, Low);
    hide Home, Entries, EligibleTracks, SinkEntries;
    assert h !! m && (h + m) !! l;
    hide Bucket, Entries;
    forall e ensures e in h + m + l <==> e in Entries(pub, canPublish, viewers, sinks) {
      SomeLayer(pub, canPublish, layers, viewers, sinks, e);
    }
    ThreeParts(Entries(pub, canPublish, viewers, sinks), h, m, l);
    EntriesSize(pub, canPublish, viewers, sinks);
  }

  lemma EntriesSize(pub: Sid, canPublish: bool, viewers: map<Sid, Viewer>, sinks: set<nat>)
    ensures |Entries(pub, canPublish, viewers, sinks)|
              == |EligibleTracks(pub, canPublish, viewers)| + |SinkEntries(canPublish, sinks)|
  {
    assert EligibleTracks(pub, canPublish, viewers) !! SinkEntries(canPublish, sinks);
  }

  lemma SomeLayer(pub: Sid, canPublish: bool, layers: set<Quality>, viewers: map<Sid, Viewer>, sinks: set<nat>,
                  e: Entry)
    requires layers != {}
    ensures e in Entries(pub, canPublish, viewers, sinks) <==>
              || e in Bucket(pub, canPublish, layers, viewers, sinks, High)
              || e in Bucket(pub, canPublish, layers, viewers, sinks, Medium)
              || e in Bucket(pub, canPublish, layers, viewers, sinks, Low)
  {
    EachEntryInOneLayer(pub, canPublish, layers, viewers, sinks, e);
    hide Home, Entries;
    if Home(layers, viewers, e).Some? {
      match Home(layers, viewers, e).value
      case High =>
      case Medium =>
      case Low =>
    }
  }

  // ---------------------------------------------------------------------------------------------
  // Admission and the count of active screens
  // ---------------------------------------------------------------------------------------------

  /** One participant object; it outlives its membership until its read loops have ended. */
  datatype Sharer = Sharer(live: bool, canShare: bool, publishing: bool, tcv: Option<Transceiver>,
                           layers: map<Quality, LayerId>)

  datatype Plane = Plane(people: map<Person, Sharer>, screenTracks: int)

  function Sharing(people: map<Person, Sharer>): set<Person> {
    set p | p in people && people[p].publishing
  }

  ghost predicate SharerOk(s: Sharer) {
    (s.publishing <==> s.layers != map[]) && (s.publishing ==> s.live && s.canShare)
  }

  /** The counter is the number of participants sharing, and one shares exactly while a layer is up. */
  ghost predicate PlaneInv(x: Plane) {
    x.screenTracks == |Sharing(x.people)| && forall p | p in x.people :: SharerOk(x.people[p])
  }

  /** As PlaneInv, except that p may still count as sharing with its layers, rights or membership gone. */
  ghost predicate PlaneBut(x: Plane, p: Person) {
    && x.screenTracks == |Sharing(x.people)|
    && (forall o | o in x.people && o != p :: SharerOk(x.people[o]))
    && (p in x.people && !x.people[p].publishing ==> x.people[p].layers == map[])
  }

  function Set(x: Plane, p: Person, s: Sharer, delta: int): Plane {
    Plane(x.people[p := s], x.screenTracks + delta)
  }

  /** Only the first track of a transceiver starts a screen; further rids of the same transceiver
      join it; anything else is stripped. */
  function LayerUp(x: Plane, p: Person, rid: string, tcv: Transceiver, layer: LayerId): Plane
    requires p in x.people
  {
    var s, q := x.people[p], RidQuality(rid);
    if !s.canShare || q.None? then x
    else if !s.publishing
    then Set(x, p, s.(publishing := true, tcv := Some(tcv), layers := s.layers[q.value := layer]), 1)
    else if rid == "" || s.tcv != Some(tcv) then x
    else Set(x, p, s.(layers := s.layers[q.value := layer]), 0)
  }

  function Finished(x: Plane, p: Person): Plane
    requires p in x.people
  {
    var s := x.people[p];
    if s.publishing then Set(x, p, s.(publishing := false, layers := map[]), -1) else x
  }

  /** A layer's read loop ends; it takes its layer out only if it is still the registered one. */
  function LayerEnd(x: Plane, p: Person, q: Quality, layer: LayerId): Plane
    requires p in x.people
  {
    var s := x.people[p];
    var s' := if q in s.layers && s.layers[q] == layer then s.(layers := s.layers - {q}) else s;
    var x' := Set(x, p, s', 0);
    if s'.layers == map[] then Finished(x', p) else x'
  }

  /** Losing publish_screen ends the screen and stops its transceiver. */
  function CapsChanged(x: Plane, p: Person, canShare: bool): Plane
    requires p in x.people
  {
    var was := x.people[p].canShare;
    var x1 := Set(x, p, x.people[p].(canShare := canShare), 0);
    if was && !canShare then
      var x2 := Finished(x1, p);
      Set(x2, p, x2.people[p].(tcv := None), 0)
    else x1
  }

  function Gone(x: Plane, p: Person): Plane
    requires p in x.people
  {
    Finished(Set(x, p, x.people[p].(live := false), 0), p)
  }

  function Arrived(x: Plane, p: Person, canShare: bool): Plane {
    if p in x.people then x else Set(x, p, Sharer(true, canShare, false, None, map[]), 0)
  }

  class ScreenPlane {
    var people: map<Person, Sharer>
    var screenTracks: int

    ghost function View(): Plane
      reads this
    {
      Plane(people, screenTracks)
    }

    constructor ()
      ensures View() == Plane(map[], 0) && PlaneInv(View())
    {
      people, screenTracks := map[], 0;
    }

    /** A participant with the right may start a screen with any track of a known rid, and then add the
        layers of further rids of that transceiver; the layer registered is the rid's, and only the first
        one counts. Anything else changes nothing. */
    method OnScreenTrack(p: Person, rid: string, tcv: Transceiver, layer: LayerId)
      requires PlaneInv(View()) && p in people && people[p].live
      modifies this
      ensures View() == LayerUp(old(View()), p, rid, tcv, layer) && PlaneInv(View())
      ensures people.Keys == old(people).Keys && forall o | o in people && o != p :: people[o] == old(people)[o]
      ensures var s, s' := old(people)[p], people[p];
        var first := s.canShare && !s.publishing && exists q :: Names(rid, q);
        var joins := s.canShare && s.publishing && rid != "" && s.tcv == Some(tcv) && exists q :: Names(rid, q);
        && s' == s.(publishing := s.publishing || first, tcv := if first then Some(tcv) else s.tcv, layers := s'.layers)
        && (forall q :: q in s'.layers <==> q in s.layers || ((first || joins) && Names(rid, q)))
        && (forall q | q in s'.layers ::
              s'.layers[q] == if (first || joins) && Names(rid, q) then layer else s.layers[q])
        && screenTracks == old(screenTracks) + if first then 1 else 0
    {
      LayerUpKeepsInv(View(), p, rid, tcv, layer);
      RidNames(rid);
      hide Names, RidQuality;
      var s := people[p];
      if !s.canShare {
        return;
      }
      var quality := RidQuality(rid);
      if quality.None? {
        return;
      }
      var first := !s.publishing;
      if first {
        s := s.(publishing := true, tcv := Some(tcv));
      } else if rid == "" || s.tcv == None || s.tcv != Some(tcv) {
        return;
      }
      people := people[p := s.(layers := s.layers[quality.value := layer])];
      if first {
        screenTracks := screenTracks + 1;
      }
    }

    /** The screen is down and counted off once: a second call changes nothing. Whatever brought it down,
        the plane is in order again. */
    method FinishScreenPublish(p: Person)
      requires p in people
      modifies this
      ensures people.Keys == old(people.Keys) && !people[p].publishing
      ensures screenTracks == old(screenTracks) - (if old(people[p].publishing) then 1 else 0)
      ensures !old(people[p].publishing) ==> View() == old(View())
      ensures old(people[p].publishing) ==> people[p].layers == map[]
      ensures people[p] == old(people[p]).(publishing := false, layers := people[p].layers)
      ensures forall o | o in people && o != p :: people[o] == old(people)[o]
      ensures old(PlaneBut(View(), p)) ==> PlaneInv(View()) && people[p].layers == map[]
    {
      FinishedKeepsInv(View(), p);
      if !people[p].publishing {
        return;
      }
      people := people[p := people[p].(publishing := false, layers := map[])];
      screenTracks := screenTracks - 1;
    }

    method OnLayerEnded(p: Person, q: Quality, layer: LayerId)
      requires PlaneInv(View()) && p in people
      modifies this
      ensures View() == LayerEnd(old(View()), p, q, layer) && PlaneInv(View())
      ensures people.Keys == old(people).Keys && forall o | o in people && o != p :: people[o] == old(people)[o]
      ensures people[p].layers == map x | x in old(people)[p].layers && !(x == q && old(people)[p].layers[x] == layer)
                                    :: old(people)[p].layers[x]
    {
      LayerEndKeepsInv(View(), p, q, layer);
      var s := people[p];
      if q in s.layers && s.layers[q] == layer {
        s := s.(layers := s.layers - {q});
      }
      people := people[p := s];
      if s.layers == map[] {
        FinishScreenPublish(p);
      }
    }

    method ApplyScreenCaps(p: Person, canShare: bool)
      requires PlaneInv(View()) && p in people
      modifies this
      ensures View() == CapsChanged(old(View()), p, canShare) && PlaneInv(View())
      ensures people.Keys == old(people).Keys && forall o | o in people && o != p :: people[o] == old(people)[o]
      ensures people[p].canShare == canShare && people[p].live == old(people)[p].live
      ensures !canShare ==> !people[p].publishing && people[p].layers == map[]
      ensures !canShare && old(people)[p].canShare ==> people[p].tcv == None
      ensures canShare ==> people[p] == old(people)[p].(canShare := true) && screenTracks == old(screenTracks)
    {
      CapsKeepInv(View(), p, canShare);
      var was := people[p].canShare;
      people := people[p := people[p].(canShare := canShare)];
      if was && !canShare {
        FinishScreenPublish(p);
        people := people[p := people[p].(tcv := None)];
      }
    }

    method RemoveParticipant(p: Person)
      requires PlaneInv(View()) && p in people
      modifies this
      ensures View() == Gone(old(View()), p) && PlaneInv(View())
    {
      GoneKeepsInv(View(), p);
      people := people[p := people[p].(live := false)];
      FinishScreenPublish(p);
    }
  }

  lemma SharingAfter(people: map<Person, Sharer>, p: Person, s: Sharer)
    ensures |Sharing(people[p := s])| ==
              |Sharing(people)| + (if s.publishing then 1 else 0)
              - (if p in people && people[p].publishing then 1 else 0)
  {
    var was, now := Sharing(people), Sharing(people[p := s]);
    if s.publishing {
      assert now == was + {p};
    } else {
      assert now == was - {p};
    }
  }

  lemma SetKeepsInv(x: Plane, p: Person, s: Sharer, delta: int)
    requires x.screenTracks + delta
               == |Sharing(x.people)| + (if s.publishing then 1 else 0)
                  - (if p in x.people && x.people[p].publishing then 1 else 0)
    requires (forall o | o in x.people && o != p :: SharerOk(x.people[o])) && SharerOk(s)
    ensures PlaneInv(Set(x, p, s, delta))
  {
    SharingAfter(x.people, p, s);
  }

  lemma FinishedKeepsInv(x: Plane, p: Person)
    requires p in x.people
    ensures PlaneBut(x, p) ==> PlaneInv(Finished(x, p)) && Finished(x, p).people[p].layers == map[]
  {
    if PlaneBut(x, p) && x.people[p].publishing {
      SetKeepsInv(x, p, x.people[p].(publishing := false, layers := map[]), -1);
    }
  }

  lemma LayerUpKeepsInv(x: Plane, p: Person, rid: string, tcv: Transceiver, layer: LayerId)
    requires PlaneInv(x) && p in x.people && x.people[p].live
    ensures PlaneInv(LayerUp(x, p, rid, tcv, layer))
  {
    var s, q := x.people[p], RidQuality(rid);
    if s.canShare && q.Some? {
      assert q.value in s.layers[q.value := layer];
      if !s.publishing {
        SetKeepsInv(x, p, s.(publishing := true, tcv := Some(tcv), layers := s.layers[q.value := layer]), 1);
      } else {
        SetKeepsInv(x, p, s.(layers := s.layers[q.value := layer]), 0);
      }
    }
  }

  lemma LayerEndKeepsInv(x: Plane, p: Person, q: Quality, layer: LayerId)
    requires PlaneInv(x) && p in x.people
    ensures PlaneInv(LayerEnd(x, p, q, layer))
  {
    var s := x.people[p];
    var s' := if q in s.layers && s.layers[q] == layer then s.(layers := s.layers - {q}) else s;
    var x1 := Set(x, p, s', 0);
    SharingAfter(x.people, p, s');
    if s'.layers != map[] {
      SetKeepsInv(x, p, s', 0);
    } else if s'.publishing {
      SetKeepsInv(x1, p, s'.(publishing := false, layers := map[]), -1);
    } else {
      SetKeepsInv(x, p, s', 0);
    }
  }

  lemma CapsKeepInv(x: Plane, p: Person, canShare: bool)
    requires PlaneInv(x) && p in x.people
    ensures PlaneInv(CapsChanged(x, p, canShare))
  {
    var s := x.people[p].(canShare := canShare);
    var x1 := Set(x, p, s, 0);
    SharingAfter(x.people, p, s);
    if x.people[p].canShare && !canShare {
      var x2 := Finished(x1, p);
      if s.publishing {
        SetKeepsInv(x1, p, s.(publishing := false, layers := map[]), -1);
      } else {
        SetKeepsInv(x, p, s, 0);
      }
      SetKeepsInv(x2, p, x2.people[p].(tcv := None), 0);
    } else {
      SetKeepsInv(x, p, s, 0);
    }
  }

  lemma GoneKeepsInv(x: Plane, p: Person)
    requires PlaneInv(x) && p in x.people
    ensures PlaneInv(Gone(x, p)) && !Gone(x, p).people[p].publishing
  {
    var s := x.people[p].(live := false);
    var x1 := Set(x, p, s, 0);
    SharingAfter(x.people, p, s);
    if s.publishing {
      SetKeepsInv(x1, p, s.(publishing := false, layers := map[]), -1);
    } else {
      SetKeepsInv(x, p, s, 0);
    }
  }

  lemma ArrivedKeepsInv(x: Plane, p: Person, canShare: bool)
    requires PlaneInv(x)
    ensures PlaneInv(Arrived(x, p, canShare))
  {
    if p !in x.people {
      SetKeepsInv(x, p, Sharer(true, canShare, false, None, map[]), 0);
    }
  }

  datatype Event =
    | Arrive(p: Person, canShare: bool)
    | Up(p: Person, rid: string, tcv: Transceiver, layer: LayerId)
    | End(p: Person, q: Quality, layer: LayerId)
    | Caps(p: Person, canShare: bool)
    | Leave(p: Person)

  predicate Enabled(x: Plane, ev: Event) {
    ev.Arrive? || (ev.p in x.people && (ev.Up? ==> x.people[ev.p].live))
  }

  function Next(x: Plane, ev: Event): Plane
    requires Enabled(x, ev)
  {
    match ev
    case Arrive(p, c) => Arrived(x, p, c)
    case Up(p, rid, tcv, layer) => LayerUp(x, p, rid, tcv, layer)
    case End(p, q, layer) => LayerEnd(x, p, q, layer)
    case Caps(p, c) => CapsChanged(x, p, c)
    case Leave(p) => Gone(x, p)
  }

  ghost predicate Run(states: seq<Plane>, evs: seq<Event>) {
    && |states| == |evs| + 1 && states[0] == Plane(map[], 0)
    && forall i | 0 <= i < |evs| :: Enabled(states[i], evs[i]) && states[i + 1] == Next(states[i], evs[i])
  }

  /** Over every run of layers coming and going, revocations and departures, screenTracks is the
      number of participants with a screen up, and such a participant is present and entitled. */
  lemma {:induction false} ScreenTracksIsExact(states: seq<Plane>, evs: seq<Event>, i: nat)
    requires Run(states, evs) && i < |states|
    ensures PlaneInv(states[i])
  {
    if i > 0 {
      ScreenTracksIsExact(states, evs, i - 1);
      hide PlaneInv, LayerUp, LayerEnd, CapsChanged, Gone, Arrived;
      match evs[i - 1]
      case Arrive(p, c) => ArrivedKeepsInv(states[i - 1], p, c);
      case Up(p, rid, tcv, layer) => LayerUpKeepsInv(states[i - 1], p, rid, tcv, layer);
      case End(p, q, layer) => LayerEndKeepsInv(states[i - 1], p, q, layer);
      case Caps(p, c) => CapsKeepInv(states[i - 1], p, c);
      case Leave(p) => GoneKeepsInv(states[i - 1], p);
    }
  }
}
