/** A run that ends with a demanded track missing: its publisher moves from one end of a path to the
    other, and the new copy reaches the node in the middle before the old one has ended there. */
module MovedPublisher {
  import opened Forests
  import opened Demands
  import opened WantNetwork
  import opened Delivery
  import opened MediaRuns
  import opened MediaDelivery

  const PATH := Topology({"a", "b", "c"}, {("a", "b"), ("b", "a"), ("b", "c"), ("c", "b")})

  // ---------------------------------------------------------------------------------------------
  // Wants: b asks both ends for everything
  // ---------------------------------------------------------------------------------------------

  function NetOf(ranA: bool, a: Link, ranB: bool, ba: Link, bc: Link, ranC: bool, c: Link): Net {
    map["a" := Node(NO_DEMAND, ranA, map["b" := a]),
        "b" := Node(ALL, ranB, map["a" := ba, "c" := bc]),
        "c" := Node(NO_DEMAND, ranC, map["b" := c])]
  }

  const ASKING := Link(NO_DEMAND, false, ALL, true, [ALL])
  const ASKED := Link(NO_DEMAND, false, ALL, true, [])
  const ANSWERED := Link(NO_DEMAND, true, ALL, true, [])
  const SILENT := Link(NO_DEMAND, false, NO_DEMAND, true, [NO_DEMAND])
  const TOLD := Link(ALL, true, NO_DEMAND, true, [NO_DEMAND])
  const IDLE := Link(ALL, true, NO_DEMAND, true, [])

  const REST: Net := NetOf(true, IDLE, true, ANSWERED, ANSWERED, true, IDLE)

  lemma Acceptance(t: Topic)
    ensures ALL.Accepts(t) && !NO_DEMAND.Accepts(t)
  {}

  /** The middle announces everything to both ends, whatever they want. */
  lemma MiddleAggregate(n: Node, m: NodeId)
    requires n.local == ALL
    ensures n.IsAggregate(m, ALL)
  {
    forall t: Topic ensures ALL.Accepts(t) {
      Acceptance(t);
    }
  }

  /** An end without listeners and with one neighbour wants nothing of it. */
  lemma EndAggregate(n: Node, m: NodeId)
    requires n.local == NO_DEMAND && n.links.Keys == {m}
    ensures n.IsAggregate(m, NO_DEMAND)
  {
    forall t: Topic ensures !NO_DEMAND.Accepts(t) {
      Acceptance(t);
    }
  }

  lemma EqualSelf(d: Demand)
    ensures d.Equal(d)
  {
    DemandEqualIsExtensional(d, d);
  }

  lemma MiddleRecomputes(n: Node, n': Node)
    requires n.local == ALL && n'.local == ALL && n'.ran && n'.links.Keys == n.links.Keys
    requires forall m | m in n.links :: Announces(ALL, n.links[m], n'.links[m])
    ensures Recomputes(n, n')
  {
    hide Announces, Node.IsAggregate;
    forall m | m in n.links ensures AnnouncesAggregate(n, m, n'.links[m]) {
      MiddleAggregate(n, m);
    }
  }

  lemma EndRecomputes(n: Node, n': Node, m: NodeId)
    requires n.local == NO_DEMAND && n'.local == NO_DEMAND && n'.ran && n'.links.Keys == n.links.Keys == {m}
    requires Announces(NO_DEMAND, n.links[m], n'.links[m])
    ensures Recomputes(n, n')
  {
    hide Announces, Node.IsAggregate;
    EndAggregate(n, m);
  }

  /** b's frame reaches an end, which has nothing new to say. */
  lemma EndLearns(s: Net, s': Net, m: NodeId, ba: Link, l: Link)
    requires s.Keys == s'.Keys && m in s && "b" in s && m != "b"
    requires s[m].local == NO_DEMAND && s[m].ran && s[m].links == map["b" := l] && l.myWantSent && l.myWant == NO_DEMAND
    requires m in s["b"].links && s["b"].links[m] == ba && ba.out == [ALL]
    requires s'[m] == Node(NO_DEMAND, true, map["b" := l.(peerWant := ALL, peerWantSeen := true)])
    requires s'["b"].local == s["b"].local && s'["b"].ran == s["b"].ran
    requires s'["b"].links == s["b"].links[m := ba.(out := [])]
    requires forall x | x in s && x != m && x != "b" :: s'[x] == s[x]
    ensures Next(s, s')
  {
    EqualSelf(ALL);
    EqualSelf(NO_DEMAND);
    hide Demand.Equal, Recomputes;
    assert Informed(s[m], "b", ALL).links == s'[m].links;
    EndRecomputes(Informed(s[m], "b", ALL), s'[m], "b");
    assert ba.out[1..] == [];
    assert Popped(s["b"], m) == s'["b"];
    assert Deliver(s, s', "b", m, ALL);
  }

  /** An end's frame reaches b, which has nothing new to say. */
  lemma MiddleLearns(s: Net, s': Net, m: NodeId, l: Link, bm: Link)
    requires s.Keys == s'.Keys && m in s && "b" in s && m != "b"
    requires s["b"].local == ALL && s["b"].ran && m in s["b"].links && s["b"].links[m] == bm
    requires forall x | x in s["b"].links :: s["b"].links[x].myWantSent && s["b"].links[x].myWant == ALL
    requires s[m].links == map["b" := l] && l.out == [NO_DEMAND]
    requires s'["b"].local == ALL && s'["b"].ran
    requires s'["b"].links == s["b"].links[m := bm.(peerWant := NO_DEMAND, peerWantSeen := true)]
    requires s'[m] == s[m].(links := map["b" := l.(out := [])])
    requires forall x | x in s && x != m && x != "b" :: s'[x] == s[x]
    ensures Next(s, s')
  {
    EqualSelf(ALL);
    EqualSelf(NO_DEMAND);
    hide Demand.Equal, Recomputes;
    MiddleRecomputes(Informed(s["b"], m, NO_DEMAND), s'["b"]);
    assert l.out[1..] == [];
    assert Popped(s[m], "b").links == s'[m].links;
    assert Deliver(s, s', m, "b", NO_DEMAND);
  }

  lemma MiddleStarts(s: Net, s': Net)
    requires "b" in s && s'.Keys == s.Keys
    requires s["b"] == Node(ALL, false, map["a" := NEW_LINK, "c" := NEW_LINK])
    requires s'["b"] == Node(ALL, true, map["a" := ASKING, "c" := ASKING])
    requires forall x | x in s && x != "b" :: s'[x] == s[x]
    ensures Next(s, s')
  {
    hide Demand.Equal, Recomputes;
    MiddleRecomputes(s["b"], s'["b"]);
    assert LocalChange(s, s', "b", ALL);
  }

  lemma EndStarts(s: Net, s': Net, m: NodeId)
    requires m in s && s'.Keys == s.Keys
    requires s[m] == Node(NO_DEMAND, false, map["b" := NEW_LINK]) && s'[m] == Node(NO_DEMAND, true, map["b" := SILENT])
    requires forall x | x in s && x != m :: s'[x] == s[x]
    ensures Next(s, s')
  {
    hide Demand.Equal, Recomputes;
    EndRecomputes(s[m], s'[m], "b");
    assert LocalChange(s, s', m, NO_DEMAND);
  }

  // ---------------------------------------------------------------------------------------------
  // Media
  // ---------------------------------------------------------------------------------------------

  /** An end: published tracks, out tracks to b and what is on its way there. */
  function EndOf(local: set<TrackKey>, sent: set<TrackKey>, line: map<TrackKey, seq<Sign>>, owed: bool): Relay {
    Relay(local, map[], map["b" := Port(sent, line, {}, sent)], owed)
  }

  /** The middle: what it has, and what it drains from c. */
  function MiddleOf(remote: map<TrackKey, NodeId>, drained: set<TrackKey>, owed: bool): Relay {
    Relay({}, remote, map["a" := NEW_PORT, "c" := Port({}, map[], drained, {})], owed)
  }

  function At(s: Net, a: Relay, b: Relay, c: Relay): System {
    System(s, map["a" := a, "b" := b, "c" := c])
  }

  const FRESH_END := EndOf({}, {}, map[], true)
  const FRESH_MIDDLE := MiddleOf(map[], {}, true)
  const NEW_AT_A := EndOf({"k"}, {}, map[], true)
  const OFFERED := EndOf({"k"}, {"k"}, map["k" := [Up]], false)
  const SENT := EndOf({"k"}, {"k"}, map["k" := []], false)
  const GONE := EndOf({}, {"k"}, map["k" := []], true)
  const ENDING := EndOf({}, {}, map["k" := [End]], false)
  const ENDED := EndOf({}, {}, map["k" := []], false)

  // ---------------------------------------------------------------------------------------------
  // The run, event by event
  // ---------------------------------------------------------------------------------------------

  /** A run so far, all of whose publications but c's were free. */
  ghost predicate Scene(of: Topics, xs: seq<System>, evs: seq<Event>, x: System) {
    && MediaRun(PATH, of, xs, evs) && xs[|xs| - 1] == x
    && forall i | 0 <= i < |evs| && evs[i].Publish? && evs[i].n != "c" :: Free(PATH, xs[i], evs[i].n, evs[i].k)
  }

  lemma Go(of: Topics, xs: seq<System>, evs: seq<Event>, x: System, ev: Event, x': System)
    returns (ys: seq<System>, es: seq<Event>)
    requires Scene(of, xs, evs, x) && Step(of, x, ev, x') && (ev.Publish? && ev.n != "c" ==> Free(PATH, x, ev.n, ev.k))
    ensures Scene(of, ys, es, x')
  {
    hide Step, Free, Init, InitRelays;
    ys, es := xs + [x'], evs + [ev];
    forall i | 0 <= i < |es| ensures Step(of, ys[i], es[i], ys[i + 1]) {
      if i < |evs| {
        assert Step(of, xs[i], evs[i], xs[i + 1]);
      }
    }
    assert ys[0] == xs[0];
    forall i | 0 <= i < |es| && es[i].Publish? && es[i].n != "c" ensures Free(PATH, ys[i], es[i].n, es[i].k) {
      if i < |evs| {
        assert ys[i] == xs[i] && es[i] == evs[i];
      }
    }
  }

  function Opening(s: Net): System {
    At(s, FRESH_END, FRESH_MIDDLE, FRESH_END)
  }

  lemma GoWants(of: Topics, xs: seq<System>, evs: seq<Event>, s: Net, s': Net) returns (ys: seq<System>, es: seq<Event>)
    requires Scene(of, xs, evs, Opening(s)) && Next(s, s') && s'.Keys == s.Keys
    ensures Scene(of, ys, es, Opening(s'))
  {
    hide Scene, Next;
    assert Step(of, Opening(s), Wants, Opening(s'));
    hide Step;
    ys, es := Go(of, xs, evs, Opening(s), Wants, Opening(s'));
  }

  const START := NetOf(false, NEW_LINK, false, NEW_LINK, NEW_LINK, false, NEW_LINK)

  lemma PathEdges(n: NodeId, m: NodeId)
    ensures PATH.Adj(n, m) <==> (n == "b" && (m == "a" || m == "c")) || (m == "b" && (n == "a" || n == "c"))
  {}

  lemma BeginNet()
    ensures Init(PATH, START)
  {
    forall n, m
      ensures PATH.Adj(n, m) <==> (n == "b" && (m == "a" || m == "c")) || (m == "b" && (n == "a" || n == "c"))
    {
      PathEdges(n, m);
    }
    hide Topology.Adj;
    assert START.Keys == {"a", "b", "c"};
  }

  lemma BeginRelays()
    ensures InitRelays(PATH, Opening(START))
  {
    forall n, m
      ensures PATH.Adj(n, m) <==> (n == "b" && (m == "a" || m == "c")) || (m == "b" && (n == "a" || n == "c"))
    {
      PathEdges(n, m);
    }
    hide Topology.Adj, NetOf;
    assert Opening(START).relays.Keys == {"a", "b", "c"};
  }

  lemma Begin(of: Topics) returns (xs: seq<System>, evs: seq<Event>)
    ensures Scene(of, xs, evs, Opening(START))
  {
    hide Init, InitRelays, Free, NetOf;
    xs, evs := [Opening(START)], [];
    BeginNet();
    BeginRelays();
  }

  lemma AllStart(of: Topics) returns (xs: seq<System>, evs: seq<Event>)
    ensures Scene(of, xs, evs, Opening(NetOf(true, SILENT, true, ASKING, ASKING, true, SILENT)))
  {
    hide Scene, Next, Opening;
    var s1 := NetOf(false, NEW_LINK, true, ASKING, ASKING, false, NEW_LINK);
    var s2 := NetOf(true, SILENT, true, ASKING, ASKING, false, NEW_LINK);
    var s3 := NetOf(true, SILENT, true, ASKING, ASKING, true, SILENT);
    MiddleStarts(START, s1);
    EndStarts(s1, s2, "a");
    EndStarts(s2, s3, "c");
    hide NetOf;
    xs, evs := Begin(of);
    xs, evs := GoWants(of, xs, evs, START, s1);
    xs, evs := GoWants(of, xs, evs, s1, s2);
    xs, evs := GoWants(of, xs, evs, s2, s3);
  }

  lemma EndsKnow(of: Topics) returns (xs: seq<System>, evs: seq<Event>)
    ensures Scene(of, xs, evs, Opening(NetOf(true, TOLD, true, ASKED, ASKED, true, TOLD)))
  {
    hide Scene, Next, Opening;
    var s3 := NetOf(true, SILENT, true, ASKING, ASKING, true, SILENT);
    var s4 := NetOf(true, TOLD, true, ASKED, ASKING, true, SILENT);
    var s5 := NetOf(true, TOLD, true, ASKED, ASKED, true, TOLD);
    EndLearns(s3, s4, "a", ASKING, SILENT);
    EndLearns(s4, s5, "c", ASKING, SILENT);
    hide NetOf;
    xs, evs := AllStart(of);
    xs, evs := GoWants(of, xs, evs, s3, s4);
    xs, evs := GoWants(of, xs, evs, s4, s5);
  }

  lemma AllKnow(of: Topics) returns (xs: seq<System>, evs: seq<Event>)
    ensures Scene(of, xs, evs, Opening(REST))
  {
    hide Scene, Next, Opening;
    var s5 := NetOf(true, TOLD, true, ASKED, ASKED, true, TOLD);
    var s6 := NetOf(true, IDLE, true, ANSWERED, ASKED, true, TOLD);
    MiddleLearns(s5, s6, "a", TOLD, ASKED);
    MiddleLearns(s6, REST, "c", TOLD, ASKED);
    hide NetOf;
    xs, evs := EndsKnow(of);
    xs, evs := GoWants(of, xs, evs, s5, s6);
    xs, evs := GoWants(of, xs, evs, s6, REST);
  }

  // The ends send what they publish, the middle sends nothing.

  const END_NODE := Node(NO_DEMAND, true, map["b" := IDLE])
  const MIDDLE_NODE := Node(ALL, true, map["a" := ANSWERED, "c" := ANSWERED])

  lemma EndSends(of: Topics, local: set<TrackKey>, sent: set<TrackKey>, line: map<TrackKey, seq<Sign>>, owed: bool)
    ensures var r' := Recomputed(of, END_NODE, EndOf(local, sent, line, owed), true);
      r' == EndOf(local, local, Retracked(Port(sent, line, {}, sent), local, local).line, false)
  {
    var r := EndOf(local, sent, line, owed);
    forall k ensures PeerAccepts(END_NODE, "b", of(k)) {
      Acceptance(of(k));
    }
    assert Desired(of, END_NODE, r, "b") == local && Attached(r, "b") == local;
    hide Desired, Attached;
    var r' := Recomputed(of, END_NODE, r, true);
    assert Retracked(Port(sent, line, {}, sent), local, local).own == local;
    assert r'.ports == map["b" := Retracked(Port(sent, line, {}, sent), local, local)];
  }

  lemma MiddleSendsNothing(of: Topics, remote: map<TrackKey, NodeId>, drained: set<TrackKey>, owed: bool)
    ensures Recomputed(of, MIDDLE_NODE, MiddleOf(remote, drained, owed), true) == MiddleOf(remote, drained, false)
  {
    var r := MiddleOf(remote, drained, owed);
    forall k, m ensures !PeerAccepts(MIDDLE_NODE, m, of(k)) {
      Acceptance(of(k));
    }
    assert Desired(of, MIDDLE_NODE, r, "a") == {} && Desired(of, MIDDLE_NODE, r, "c") == {};
    hide Desired;
    assert Retracked(NEW_PORT, {}, Attached(r, "a")) == NEW_PORT;
    assert Retracked(Port({}, map[], drained, {}), {}, Attached(r, "c")) == Port({}, map[], drained, {});
    hide Retracked, Attached;
    var r' := Recomputed(of, MIDDLE_NODE, r, true);
    assert r'.ports == map["a" := NEW_PORT, "c" := Port({}, map[], drained, {})];
  }

  lemma RestNodes()
    ensures REST.Keys == {"a", "b", "c"} && REST["a"] == END_NODE && REST["b"] == MIDDLE_NODE && REST["c"] == END_NODE
  {}

  lemma Lines()
    ensures Retracked(Port({}, map[], {}, {}), {"k"}, {"k"}).line == map["k" := [Up]]
    ensures Retracked(Port({"k"}, map["k" := []], {}, {"k"}), {}, {}).line == map["k" := [End]]
  {
    var none: seq<Sign> := [];
    assert none + [Up] == [Up] && none + [End] == [End];
    var p, q := Port({}, map[], {}, {}), Port({"k"}, map["k" := none], {}, {"k"});
    assert Queue(p, "k") == none && Queue(q, "k") == none;
    assert Retracked(p, {"k"}, {"k"}).line == map["k" := none + [Up]];
    assert Retracked(q, {}, {}).line == map["k" := none + [End]];
  }

  lemma AtWithA(s: Net, a: Relay, b: Relay, c: Relay, r: Relay)
    ensures WithRelay(At(s, a, b, c), "a", r) == At(s, r, b, c)
  {
    assert WithRelay(At(s, a, b, c), "a", r).relays == At(s, r, b, c).relays;
  }

  lemma AtWithB(s: Net, a: Relay, b: Relay, c: Relay, r: Relay)
    ensures WithRelay(At(s, a, b, c), "b", r) == At(s, a, r, c)
  {
    assert WithRelay(At(s, a, b, c), "b", r).relays == At(s, a, r, c).relays;
  }

  lemma AtWithC(s: Net, a: Relay, b: Relay, c: Relay, r: Relay)
    ensures WithRelay(At(s, a, b, c), "c", r) == At(s, a, b, r)
  {
    assert WithRelay(At(s, a, b, c), "c", r).relays == At(s, a, b, r).relays;
  }

  lemma FirstEndOffers(of: Topics, b: Relay, c: Relay)
    ensures Step(of, At(REST, NEW_AT_A, b, c), Recompute("a", true), At(REST, OFFERED, b, c))
    ensures Step(of, At(REST, GONE, b, c), Recompute("a", true), At(REST, ENDING, b, c))
  {
    RestNodes();
    Lines();
    EndSends(of, {"k"}, {}, map[], true);
    EndSends(of, {}, {"k"}, map["k" := []], true);
    hide NetOf, Recomputed, Retracked;
    AtWithA(REST, NEW_AT_A, b, c, OFFERED);
    AtWithA(REST, GONE, b, c, ENDING);
    hide WithRelay;
  }

  lemma SecondEndOffers(of: Topics, a: Relay, b: Relay)
    ensures Step(of, At(REST, a, b, NEW_AT_A), Recompute("c", true), At(REST, a, b, OFFERED))
  {
    RestNodes();
    Lines();
    EndSends(of, {"k"}, {}, map[], true);
    hide NetOf, Recomputed, Retracked;
    AtWithC(REST, a, b, NEW_AT_A, OFFERED);
    hide WithRelay;
  }

  lemma MiddleRests(of: Topics, a: Relay, c: Relay, remote: map<TrackKey, NodeId>, drained: set<TrackKey>)
    ensures Step(of, At(REST, a, MiddleOf(remote, drained, true), c), Recompute("b", true),
              At(REST, a, MiddleOf(remote, drained, false), c))
  {
    RestNodes();
    MiddleSendsNothing(of, remote, drained, true);
    hide NetOf, Recomputed, MiddleOf;
    AtWithB(REST, a, MiddleOf(remote, drained, true), c, MiddleOf(remote, drained, false));
    hide WithRelay;
  }

  lemma ArriveFromA(of: Topics, a: Relay, a': Relay, b: Relay, b': Relay, c: Relay, sign: Sign)
    requires "b" in a.ports && Queue(a.ports["b"], "k") == [sign] && "a" in b.ports
    requires a' == Taken(a, "b", "k") && b' == Seen(b, "a", "k", sign)
    ensures Step(of, At(REST, a, b, c), Arrive("a", "b", "k"), At(REST, a', b', c))
  {
    hide NetOf, Taken, Seen, Queue;
    var x := At(REST, a, b, c);
    assert x.relays["a" := a']["b" := b'] == At(REST, a', b', c).relays;
  }

  lemma ArriveFromC(of: Topics, a: Relay, b: Relay, b': Relay, c: Relay, c': Relay, sign: Sign)
    requires "b" in c.ports && Queue(c.ports["b"], "k") == [sign] && "c" in b.ports
    requires c' == Taken(c, "b", "k") && b' == Seen(b, "c", "k", sign)
    ensures Step(of, At(REST, a, b, c), Arrive("c", "b", "k"), At(REST, a, b', c'))
  {
    hide NetOf, Taken, Seen, Queue;
    var x := At(REST, a, b, c);
    assert x.relays["c" := c']["b" := b'] == At(REST, a, b', c').relays;
  }

  lemma Takes()
    ensures Taken(OFFERED, "b", "k") == SENT && Taken(ENDING, "b", "k") == ENDED
  {
    var none: seq<Sign> := [];
    assert [Up][1..] == none && [End][1..] == none;
    assert map["k" := [Up]]["k" := none] == map["k" := none] == map["k" := [End]]["k" := none];
    assert Taken(OFFERED, "b", "k").ports == SENT.ports;
    assert Taken(ENDING, "b", "k").ports == ENDED.ports;
  }

  lemma Sees()
    ensures Seen(FRESH_MIDDLE, "a", "k", Up) == MiddleOf(map["k" := "a"], {}, true)
    ensures Seen(MiddleOf(map["k" := "a"], {}, false), "c", "k", Up) == MiddleOf(map["k" := "a"], {"k"}, false)
    ensures Seen(MiddleOf(map["k" := "a"], {"k"}, false), "a", "k", End) == MiddleOf(map[], {"k"}, true)
  {
    assert Seen(FRESH_MIDDLE, "a", "k", Up).remote == map["k" := "a"];
    var m := MiddleOf(map["k" := "a"], {}, false);
    assert Refused(m, "c", "k");
    assert m.ports["c"].drained + {"k"} == {"k"};
    assert m.ports["c" := m.ports["c"].(drained := {"k"})] == MiddleOf(map[], {"k"}, true).ports;
    assert map["k" := "a"] - {"k"} == map[];
  }

  lemma FirstIsFree()
    ensures Free(PATH, Opening(REST), "a", "k")
  {
    hide NetOf, Trace;
    forall a, b ensures !Trace(Opening(REST), a, b, "k") {
      NothingYet(a, b);
    }
    assert forall m :: !Publishes(Opening(REST), m, "k");
    assert forall m :: Way(Opening(REST), m, "a", "k") == [];
  }

  lemma NothingYet(a: NodeId, b: NodeId)
    ensures !Trace(Opening(REST), a, b, "k")
  {
    hide NetOf;
  }

  lemma PublishSteps(of: Topics, a: Relay, b: Relay, c: Relay)
    ensures Step(of, At(REST, FRESH_END, b, c), Publish("a", "k"), At(REST, NEW_AT_A, b, c))
    ensures Step(of, At(REST, a, b, FRESH_END), Publish("c", "k"), At(REST, a, b, NEW_AT_A))
    ensures Step(of, At(REST, SENT, b, c), Unpublish("a", "k"), At(REST, GONE, b, c))
  {
    hide NetOf, WithRelay;
    var none: set<TrackKey> := {};
    assert none + {"k"} == {"k"} && {"k"} - {"k"} == none;
    AtWithA(REST, FRESH_END, b, c, NEW_AT_A);
    AtWithC(REST, a, b, FRESH_END, NEW_AT_A);
    AtWithA(REST, SENT, b, c, GONE);
    assert FRESH_END.(local := FRESH_END.local + {"k"}, owed := true) == NEW_AT_A;
    assert SENT.(local := SENT.local - {"k"}, owed := true) == GONE;
  }

  /** a publishes, and b takes the track from a. */
  lemma FirstCopy(of: Topics) returns (xs: seq<System>, evs: seq<Event>)
    ensures Scene(of, xs, evs, At(REST, SENT, MiddleOf(map["k" := "a"], {}, false), FRESH_END))
  {
    hide Scene, Step, At, Free;
    xs, evs := AllKnow(of);
    var held := MiddleOf(map["k" := "a"], {}, true);
    FirstIsFree();
    PublishSteps(of, SENT, FRESH_MIDDLE, FRESH_END);
    xs, evs := Go(of, xs, evs, Opening(REST), Publish("a", "k"), At(REST, NEW_AT_A, FRESH_MIDDLE, FRESH_END));
    FirstEndOffers(of, FRESH_MIDDLE, FRESH_END);
    xs, evs := Go(of, xs, evs, At(REST, NEW_AT_A, FRESH_MIDDLE, FRESH_END), Recompute("a", true),
        At(REST, OFFERED, FRESH_MIDDLE, FRESH_END));
    Takes();
    Sees();
    ArriveFromA(of, OFFERED, SENT, FRESH_MIDDLE, held, FRESH_END, Up);
    xs, evs := Go(of, xs, evs, At(REST, OFFERED, FRESH_MIDDLE, FRESH_END), Arrive("a", "b", "k"),
        At(REST, SENT, held, FRESH_END));
    MiddleRests(of, SENT, FRESH_END, map["k" := "a"], {});
    xs, evs := Go(of, xs, evs, At(REST, SENT, held, FRESH_END), Recompute("b", true),
        At(REST, SENT, MiddleOf(map["k" := "a"], {}, false), FRESH_END));
  }

  /** c publishes the same track, and b refuses it. */
  lemma SecondCopy(of: Topics) returns (xs: seq<System>, evs: seq<Event>)
    ensures Scene(of, xs, evs, At(REST, SENT, MiddleOf(map["k" := "a"], {"k"}, false), SENT))
  {
    hide Scene, Step, At, Free;
    var b := MiddleOf(map["k" := "a"], {}, false);
    xs, evs := FirstCopy(of);
    PublishSteps(of, SENT, b, FRESH_END);
    xs, evs := Go(of, xs, evs, At(REST, SENT, b, FRESH_END), Publish("c", "k"), At(REST, SENT, b, NEW_AT_A));
    SecondEndOffers(of, SENT, b);
    xs, evs := Go(of, xs, evs, At(REST, SENT, b, NEW_AT_A), Recompute("c", true), At(REST, SENT, b, OFFERED));
    Takes();
    Sees();
    var b' := MiddleOf(map["k" := "a"], {"k"}, false);
    ArriveFromC(of, SENT, b, b', OFFERED, SENT, Up);
    xs, evs := Go(of, xs, evs, At(REST, SENT, b, OFFERED), Arrive("c", "b", "k"), At(REST, SENT, b', SENT));
  }

  const LOST := At(REST, ENDED, MiddleOf(map[], {"k"}, false), SENT)

  /** a's copy ends at b, and everything comes to rest. */
  lemma FirstCopyEnds(of: Topics) returns (xs: seq<System>, evs: seq<Event>)
    ensures Scene(of, xs, evs, LOST)
  {
    hide Scene, Step, At, Free;
    var b, b' := MiddleOf(map["k" := "a"], {"k"}, false), MiddleOf(map[], {"k"}, true);
    xs, evs := SecondCopy(of);
    PublishSteps(of, SENT, b, SENT);
    xs, evs := Go(of, xs, evs, At(REST, SENT, b, SENT), Unpublish("a", "k"), At(REST, GONE, b, SENT));
    FirstEndOffers(of, b, SENT);
    xs, evs := Go(of, xs, evs, At(REST, GONE, b, SENT), Recompute("a", true), At(REST, ENDING, b, SENT));
    Takes();
    Sees();
    ArriveFromA(of, ENDING, ENDED, b, b', SENT, End);
    xs, evs := Go(of, xs, evs, At(REST, ENDING, b, SENT), Arrive("a", "b", "k"), At(REST, ENDED, b', SENT));
    MiddleRests(of, ENDED, SENT, map[], {"k"});
    xs, evs := Go(of, xs, evs, At(REST, ENDED, b', SENT), Recompute("b", true), LOST);
  }

  lemma LostIsStill()
    ensures Still(LOST)
  {
    RestNodes();
    hide NetOf;
  }

  /** The moved publisher: at rest, with one publisher and every publication but c's free, b demands
      k, c publishes and sends it, and b does not have it. */
  lemma MovedTrackIsLost(of: Topics) returns (xs: seq<System>, evs: seq<Event>)
    ensures MediaRun(PATH, of, xs, evs) && xs[|xs| - 1] == LOST
    ensures forall i | 0 <= i < |evs| && evs[i].Publish? && evs[i].n != "c" :: Free(PATH, xs[i], evs[i].n, evs[i].k)
    ensures Still(LOST) && Sole(LOST)
    ensures LOST.net["b"].local.Accepts(of("k")) && Publishes(LOST, "c", "k") && Sends(LOST, "c", "b", "k")
    ensures "k" !in LOST.relays["b"].local && "k" !in LOST.relays["b"].remote && Drains(LOST, "b", "c", "k")
  {
    hide MediaRun, Free, Still, Sole, At, MiddleOf, EndOf, NetOf;
    xs, evs := FirstCopyEnds(of);
    LostIsStill();
    LostLacksIt(of("k"));
  }

  lemma LostLacksIt(t: Topic)
    ensures LOST.relays.Keys == LOST.net.Keys == {"a", "b", "c"} && Sole(LOST)
    ensures LOST.net["b"].local.Accepts(t) && Publishes(LOST, "c", "k") && Sends(LOST, "c", "b", "k")
    ensures "k" !in LOST.relays["b"].local && "k" !in LOST.relays["b"].remote && Drains(LOST, "b", "c", "k")
  {
    RestNodes();
    hide NetOf;
    Acceptance(t);
    assert forall n, k :: Publishes(LOST, n, k) ==> n == "c";
  }
}
