/** The room and session registries of a node: which rooms are listed, who is in them, and the
    gauges that report both. */
module Registries {
  import opened Options

  type RoomId = string
  type Sid = string
  type ObjId = nat
  type PartId = nat

  /** A room object; several may have had the same id, at most one is listed. */
  datatype RoomObj = RoomObj(id: RoomId, parts: map<Sid, PartId>, ensured: bool, removed: bool)

  datatype Person = Person(sid: Sid, room: ObjId, closed: bool)

  datatype Registry = Registry(
    maxUsers: int, draining: bool, rooms: map<RoomId, ObjId>, bySid: map<Sid, PartId>,
    objs: map<ObjId, RoomObj>, people: map<PartId, Person>, roomGauge: int, partGauge: int)

  /** A session that is not closed is indexed under its sid. */
  ghost predicate PersonOk(g: Registry, p: PartId)
    requires p in g.people
  {
    var x := g.people[p];
    x.room in g.objs && (!x.closed ==> x.sid in g.bySid && g.bySid[x.sid] == p)
  }

  /** Who is in a room is an open session of that room, and indexed. */
  ghost predicate EntryOk(g: Registry, o: ObjId, sid: Sid)
    requires o in g.objs && sid in g.objs[o].parts
  {
    var p := g.objs[o].parts[sid];
    p in g.people && g.people[p] == Person(sid, o, false) && sid in g.bySid && g.bySid[sid] == p
  }

  /** Who is indexed is an open session, in its room. */
  ghost predicate IndexOk(g: Registry, sid: Sid)
    requires sid in g.bySid
  {
    var p := g.bySid[sid];
    && p in g.people && g.people[p].sid == sid && !g.people[p].closed && g.people[p].room in g.objs
    && sid in g.objs[g.people[p].room].parts && g.objs[g.people[p].room].parts[sid] == p
  }

  /** A room is listed until it is removed, and while listed it is ensured or in use. */
  ghost predicate ObjOk(g: Registry, o: ObjId)
    requires o in g.objs
  {
    var r := g.objs[o];
    && (!r.removed <==> r.id in g.rooms && g.rooms[r.id] == o)
    && (!r.removed ==> r.ensured || r.parts != map[])
  }

  ghost predicate ListedOk(g: Registry, id: RoomId)
    requires id in g.rooms
  {
    g.rooms[id] in g.objs && g.objs[g.rooms[id]].id == id
  }

  ghost predicate GaugesOk(g: Registry) {
    g.roomGauge == |g.rooms| && g.partGauge == |g.bySid| && (g.maxUsers > 0 ==> |g.bySid| <= g.maxUsers)
  }

  ghost predicate Inv(g: Registry) {
    && (forall p | p in g.people :: PersonOk(g, p))
    && (forall o, sid | o in g.objs && sid in g.objs[o].parts :: EntryOk(g, o, sid))
    && (forall sid | sid in g.bySid :: IndexOk(g, sid))
    && (forall o | o in g.objs :: ObjOk(g, o))
    && (forall id | id in g.rooms :: ListedOk(g, id))
    && GaugesOk(g)
  }

  /** The session index is the disjoint union of the rooms' members. */
  lemma IndexIsDisjointUnion(g: Registry, sid: Sid, p: PartId)
    requires Inv(g)
    ensures sid in g.bySid && g.bySid[sid] == p <==>
              exists o :: o in g.objs && sid in g.objs[o].parts && g.objs[o].parts[sid] == p
    ensures forall a, b | a in g.objs && b in g.objs && sid in g.objs[a].parts && sid in g.objs[b].parts :: a == b
  {
    hide PersonOk, ObjOk, ListedOk, GaugesOk;
    if sid in g.bySid && g.bySid[sid] == p {
      assert IndexOk(g, sid);
    }
    forall o | o in g.objs && sid in g.objs[o].parts ensures sid in g.bySid && g.bySid[sid] == g.objs[o].parts[sid] {
      assert EntryOk(g, o, sid);
    }
    forall a, b | a in g.objs && b in g.objs && sid in g.objs[a].parts && sid in g.objs[b].parts ensures a == b {
      assert EntryOk(g, a, sid) && EntryOk(g, b, sid);
    }
  }

  // ---------------------------------------------------------------------------------------------
  // Operations
  // ---------------------------------------------------------------------------------------------

  function Listed(g: Registry, id: RoomId, o: ObjId, ensured: bool): Registry {
    g.(rooms := g.rooms[id := o], objs := g.objs[o := RoomObj(id, map[], ensured, false)], roomGauge := g.roomGauge + 1)
  }

  function EnsuredRoom(g: Registry, id: RoomId, spare: ObjId): Registry {
    if id in g.rooms && g.rooms[id] in g.objs
    then g.(objs := g.objs[g.rooms[id] := g.objs[g.rooms[id]].(ensured := true)])
    else Listed(g, id, spare, true)
  }

  /** Close with removeParticipant: an empty room nobody ensured is unlisted, unless it already was. */
  function ClosedPart(g: Registry, p: PartId): Registry
    requires p in g.people && g.people[p].room in g.objs
  {
    var x := g.people[p];
    var r := g.objs[x.room];
    if x.closed then g
    else if x.sid !in r.parts then g.(people := g.people[p := x.(closed := true)])
    else
      var parts := r.parts - {x.sid};
      var gone := parts == map[] && !r.ensured && !r.removed;
      g.(people := g.people[p := x.(closed := true)], bySid := g.bySid - {x.sid},
         objs := g.objs[x.room := r.(parts := parts, removed := r.removed || gone)],
         rooms := if gone then g.rooms - {r.id} else g.rooms,
         roomGauge := if gone then g.roomGauge - 1 else g.roomGauge,
         partGauge := g.partGauge - 1)
  }

  function Entered(g: Registry, sid: Sid, o: ObjId, p: PartId): Registry
    requires o in g.objs
  {
    g.(objs := g.objs[o := g.objs[o].(parts := g.objs[o].parts[sid := p])], bySid := g.bySid[sid := p],
       people := g.people[p := Person(sid, o, false)], partGauge := g.partGauge + 1)
  }

  /** Into the listed room of that id, or into a new one that nobody ensured. */
  function Admitted(g: Registry, sid: Sid, id: RoomId, spare: ObjId, p: PartId): Registry {
    if id in g.rooms && g.rooms[id] in g.objs then Entered(g, sid, g.rooms[id], p)
    else Entered(Listed(g, id, spare, false), sid, spare, p)
  }

  datatype Refusal = Accepted | NodeDraining | AtCapacity

  /** The session of the same sid that must give way. */
  function Vacated(g: Registry, sid: Sid): Registry {
    if sid in g.bySid && g.bySid[sid] in g.people && g.people[g.bySid[sid]].room in g.objs
    then ClosedPart(g, g.bySid[sid]) else g
  }

  function JoinVerdict(g: Registry, sid: Sid): Refusal {
    if g.draining then NodeDraining
    else if g.maxUsers > 0 && |Vacated(g, sid).bySid| >= g.maxUsers then AtCapacity
    else Accepted
  }

  function Joined(g: Registry, sid: Sid, id: RoomId, spare: ObjId, p: PartId): Registry {
    if JoinVerdict(g, sid) == NodeDraining then g
    else
      var g1 := Vacated(g, sid);
      if JoinVerdict(g, sid) == AtCapacity then g1
      else Admitted(g1, sid, id, spare, p)
  }

  /** The first half of closing a room: it is unlisted before its members are closed. */
  function Unlisted(g: Registry, id: RoomId): Registry {
    if id in g.rooms && g.rooms[id] in g.objs
    then g.(rooms := g.rooms - {id}, objs := g.objs[g.rooms[id] := g.objs[g.rooms[id]].(removed := true)],
           roomGauge := g.roomGauge - 1)
    else g
  }

  // ---------------------------------------------------------------------------------------------
  // Every operation keeps the invariant
  // ---------------------------------------------------------------------------------------------

  lemma SizeWithout<K, V>(m: map<K, V>, k: K)
    requires k in m
    ensures |m - {k}| == |m| - 1
  {
    assert (m - {k}).Keys == m.Keys - {k};
  }

  lemma SizeWith<K, V>(m: map<K, V>, k: K, v: V)
    ensures |m[k := v]| == if k in m then |m| else |m| + 1
  {
    assert m[k := v].Keys == m.Keys + {k};
  }

  // What one element's obligation depends on.

  lemma PersonStays(g: Registry, g': Registry, p: PartId)
    requires p in g.people && p in g'.people && PersonOk(g, p) && g'.people[p] == g.people[p]
    requires g.objs.Keys <= g'.objs.Keys
    requires g.people[p].sid in g.bySid ==>
               g.people[p].sid in g'.bySid && g'.bySid[g.people[p].sid] == g.bySid[g.people[p].sid]
    ensures PersonOk(g', p)
  {}

  lemma EntryStays(g: Registry, g': Registry, o: ObjId, sid: Sid)
    requires o in g.objs && o in g'.objs && sid in g.objs[o].parts && sid in g'.objs[o].parts && EntryOk(g, o, sid)
    requires g'.objs[o].parts[sid] == g.objs[o].parts[sid] && g'.people == g.people && g'.bySid == g.bySid
    ensures EntryOk(g', o, sid)
  {}

  lemma IndexStays(g: Registry, g': Registry, sid: Sid)
    requires sid in g.bySid && g'.bySid == g.bySid && g'.people == g.people && IndexOk(g, sid)
    requires g.objs.Keys <= g'.objs.Keys
    requires forall o | o in g.objs :: g'.objs[o].parts == g.objs[o].parts
    ensures IndexOk(g', sid)
  {}

  lemma ObjStays(g: Registry, g': Registry, o: ObjId)
    requires o in g.objs && o in g'.objs && ObjOk(g, o)
    requires g'.objs[o] == g.objs[o] || g'.objs[o] == g.objs[o].(ensured := true)
    requires g.objs[o].id in g.rooms && g.rooms[g.objs[o].id] == o <==>
               g.objs[o].id in g'.rooms && g'.rooms[g.objs[o].id] == o
    ensures ObjOk(g', o)
  {}

  lemma ListedStays(g: Registry, g': Registry, id: RoomId)
    requires id in g.rooms && id in g'.rooms && g'.rooms[id] == g.rooms[id] && ListedOk(g, id)
    requires g.objs.Keys <= g'.objs.Keys
    requires forall o | o in g.objs :: g'.objs[o].id == g.objs[o].id
    ensures ListedOk(g', id)
  {}

  lemma ListedGives(g: Registry, id: RoomId)
    requires Inv(g) && id in g.rooms
    ensures g.rooms[id] in g.objs && g.objs[g.rooms[id]].id == id && !g.objs[g.rooms[id]].removed
  {
    assert ListedOk(g, id) && ObjOk(g, g.rooms[id]);
    hide PersonOk, EntryOk, IndexOk, GaugesOk;
  }

  /** Changes to room objects and to what is listed leave the members alone. */
  lemma RoomChangeKeepsMembers(g: Registry, g': Registry)
    requires Inv(g) && g'.people == g.people && g'.bySid == g.bySid && g.objs.Keys <= g'.objs.Keys
    requires forall o | o in g.objs :: g'.objs[o].parts == g.objs[o].parts
    requires forall o | o in g'.objs && o !in g.objs :: g'.objs[o].parts == map[]
    ensures forall p | p in g'.people :: PersonOk(g', p)
    ensures forall o, sid | o in g'.objs && sid in g'.objs[o].parts :: EntryOk(g', o, sid)
    ensures forall sid | sid in g'.bySid :: IndexOk(g', sid)
  {
    hide PersonOk, EntryOk, IndexOk, ObjOk, ListedOk, GaugesOk;
    forall p | p in g'.people ensures PersonOk(g', p) {
      PersonStays(g, g', p);
    }
    forall o, sid | o in g'.objs && sid in g'.objs[o].parts ensures EntryOk(g', o, sid) {
      EntryStays(g, g', o, sid);
    }
    forall sid | sid in g'.bySid ensures IndexOk(g', sid) {
      IndexStays(g, g', sid);
    }
  }

  /** Adding one room object that nobody is in yet. */
  lemma ListedKeepsInv(g: Registry, id: RoomId, o: ObjId, ensured: bool)
    requires Inv(g) && id !in g.rooms && o !in g.objs
    ensures var g' := Listed(g, id, o, ensured); InvBut(g', o) && (ensured ==> Inv(g'))
  {
    hide PersonOk, EntryOk, IndexOk, ObjOk, ListedOk;
    var g' := Listed(g, id, o, ensured);
    SizeWith(g.rooms, id, o);
    assert GaugesOk(g');
    RoomChangeKeepsMembers(g, g');
    forall x | x in g'.objs && x != o ensures ObjOk(g', x) {
      NotListed(g, id, x);
      ObjStays(g, g', x);
    }
    forall x | x in g'.rooms ensures ListedOk(g', x) {
      if x == id {
        NewListed(g, id, o, ensured);
      } else {
        ListedStays(g, g', x);
      }
    }
    NewListed(g, id, o, ensured);
  }

  lemma NotListed(g: Registry, id: RoomId, x: ObjId)
    requires x in g.objs && ObjOk(g, x) && id !in g.rooms
    ensures g.objs[x].id == id ==> g.objs[x].removed
  {}

  lemma NewListed(g: Registry, id: RoomId, o: ObjId, ensured: bool)
    ensures var g' := Listed(g, id, o, ensured); ListedOk(g', id) && (ensured ==> ObjOk(g', o))
  {}

  lemma EnsureKeepsInv(g: Registry, id: RoomId, spare: ObjId)
    requires Inv(g) && spare !in g.objs
    ensures Inv(EnsuredRoom(g, id, spare))
  {
    hide PersonOk, EntryOk, IndexOk, ObjOk, ListedOk;
    if id in g.rooms {
      ListedGives(g, id);
      var g' := EnsuredRoom(g, id, spare);
      RoomChangeKeepsMembers(g, g');
      forall x | x in g'.objs ensures ObjOk(g', x) {
        ObjStays(g, g', x);
      }
      forall x | x in g'.rooms ensures ListedOk(g', x) {
        ListedStays(g, g', x);
      }
    } else {
      hide Inv;
      ListedKeepsInv(g, id, spare, true);
    }
  }

  lemma ClosePerson(g: Registry, p: PartId, y: PartId)
    requires p in g.people && y in g.people && PersonOk(g, p) && PersonOk(g, y) && !g.people[p].closed
    ensures PersonOk(ClosedPart(g, p), y)
  {}

  lemma CloseEntry(g: Registry, p: PartId, o: ObjId, sid: Sid)
    requires p in g.people && g.people[p].room in g.objs && !g.people[p].closed
    requires g.people[p].sid in g.objs[g.people[p].room].parts
    requires o in ClosedPart(g, p).objs && sid in ClosedPart(g, p).objs[o].parts
    requires sid in g.objs[o].parts && EntryOk(g, o, sid) && EntryOk(g, g.people[p].room, g.people[p].sid)
    ensures EntryOk(ClosedPart(g, p), o, sid)
  {}

  lemma CloseIndex(g: Registry, p: PartId, sid: Sid)
    requires p in g.people && g.people[p].room in g.objs && !g.people[p].closed
    requires g.people[p].sid in g.objs[g.people[p].room].parts
    requires sid in ClosedPart(g, p).bySid && sid in g.bySid && IndexOk(g, sid)
    ensures IndexOk(ClosedPart(g, p), sid)
  {}

  lemma CloseObj(g: Registry, p: PartId, o: ObjId)
    requires p in g.people && g.people[p].room in g.objs && o in g.objs && ObjOk(g, o) && ObjOk(g, g.people[p].room)
    ensures o in ClosedPart(g, p).objs && ObjOk(ClosedPart(g, p), o)
  {}

  lemma CloseGauges(g: Registry, p: PartId)
    requires p in g.people && PersonOk(g, p) && !g.people[p].closed && GaugesOk(g)
    requires g.people[p].sid in g.objs[g.people[p].room].parts && ObjOk(g, g.people[p].room)
    ensures GaugesOk(ClosedPart(g, p))
  {
    var x := g.people[p];
    SizeWithout(g.bySid, x.sid);
    if !g.objs[x.room].removed {
      SizeWithout(g.rooms, g.objs[x.room].id);
    }
  }

  lemma CloseListed(g: Registry, p: PartId, id: RoomId)
    requires p in g.people && g.people[p].room in g.objs && id in g.rooms && id in ClosedPart(g, p).rooms
    requires ListedOk(g, id)
    ensures ListedOk(ClosedPart(g, p), id)
  {}

  lemma CloseShape(g: Registry, p: PartId)
    requires p in g.people && g.people[p].room in g.objs && !g.people[p].closed
    requires g.people[p].sid in g.objs[g.people[p].room].parts
    ensures var g' := ClosedPart(g, p);
      && g'.people.Keys == g.people.Keys && g'.objs.Keys == g.objs.Keys && g'.bySid == g.bySid - {g.people[p].sid}
      && (forall o, sid | o in g.objs && sid in g'.objs[o].parts :: sid in g.objs[o].parts)
      && (forall id | id in g'.rooms :: id in g.rooms)
  {}

  lemma OpenGives(g: Registry, p: PartId)
    requires Inv(g) && p in g.people
    ensures g.people[p].room in g.objs
    ensures var x := g.people[p];
      if x.closed then x.sid in g.bySid ==> g.bySid[x.sid] != p
      else x.sid in g.objs[x.room].parts && g.objs[x.room].parts[x.sid] == p && x.sid in g.bySid && g.bySid[x.sid] == p
  {
    assert PersonOk(g, p);
    if g.people[p].sid in g.bySid {
      assert IndexOk(g, g.people[p].sid);
    }
    hide EntryOk, ObjOk, ListedOk, GaugesOk;
  }

  lemma CloseKeepsInv(g: Registry, p: PartId)
    requires Inv(g) && p in g.people
    ensures g.people[p].room in g.objs && Inv(ClosedPart(g, p))
    ensures g.people[p].sid in g.bySid && g.bySid[g.people[p].sid] == p ==> g.people[p].sid !in ClosedPart(g, p).bySid
  {
    hide PersonOk, EntryOk, IndexOk, ObjOk, ListedOk, GaugesOk;
    OpenGives(g, p);
    if !g.people[p].closed {
      CloseShape(g, p);
      assert EntryOk(g, g.people[p].room, g.people[p].sid) && PersonOk(g, p) && ObjOk(g, g.people[p].room);
      hide ClosedPart;
      var g' := ClosedPart(g, p);
      CloseGauges(g, p);
      forall y | y in g'.people ensures PersonOk(g', y) {
        ClosePerson(g, p, y);
      }
      forall o, sid | o in g'.objs && sid in g'.objs[o].parts ensures EntryOk(g', o, sid) {
        CloseEntry(g, p, o, sid);
      }
      forall sid | sid in g'.bySid ensures IndexOk(g', sid) {
        CloseIndex(g, p, sid);
      }
      forall o | o in g'.objs ensures ObjOk(g', o) {
        CloseObj(g, p, o);
      }
      forall id | id in g'.rooms ensures ListedOk(g', id) {
        CloseListed(g, p, id);
      }
    }
  }

  /** Draining a closed room never unlists anything, a new room of the same id least of all. */
  lemma DrainingKeepsRooms(g: Registry, p: PartId)
    requires p in g.people && g.people[p].room in g.objs && g.objs[g.people[p].room].removed
    ensures ClosedPart(g, p).rooms == g.rooms && ClosedPart(g, p).roomGauge == g.roomGauge
  {}

  lemma UnlistObj(g: Registry, id: RoomId, o: ObjId)
    requires id in g.rooms && g.rooms[id] in g.objs && g.objs[g.rooms[id]].id == id && o in g.objs && ObjOk(g, o)
    ensures o in Unlisted(g, id).objs && ObjOk(Unlisted(g, id), o)
  {}

  lemma UnlistKeepsInv(g: Registry, id: RoomId)
    requires Inv(g)
    ensures Inv(Unlisted(g, id))
  {
    hide PersonOk, EntryOk, IndexOk, ObjOk, ListedOk;
    if id in g.rooms {
      ListedGives(g, id);
      var g' := Unlisted(g, id);
      SizeWithout(g.rooms, id);
      assert GaugesOk(g');
      RoomChangeKeepsMembers(g, g');
      forall o | o in g'.objs ensures ObjOk(g', o) {
        UnlistObj(g, id, o);
      }
      forall x | x in g'.rooms ensures ListedOk(g', x) {
        ListedStays(g, g', x);
      }
    }
  }

  /** All of the invariant except what the room about to be entered owes. */
  ghost predicate InvBut(g: Registry, o: ObjId) {
    && (forall p | p in g.people :: PersonOk(g, p))
    && (forall x, sid | x in g.objs && sid in g.objs[x].parts :: EntryOk(g, x, sid))
    && (forall sid | sid in g.bySid :: IndexOk(g, sid))
    && (forall x | x in g.objs && x != o :: ObjOk(g, x))
    && (forall id | id in g.rooms :: ListedOk(g, id))
    && GaugesOk(g)
  }

  lemma EnterPerson(g: Registry, sid: Sid, o: ObjId, p: PartId, y: PartId)
    requires o in g.objs && p !in g.people && sid !in g.bySid && (y == p || (y in g.people && PersonOk(g, y)))
    ensures PersonOk(Entered(g, sid, o, p), y)
  {}

  lemma EnterEntry(g: Registry, sid: Sid, o: ObjId, p: PartId, x: ObjId, s: Sid)
    requires o in g.objs && p !in g.people && sid !in g.bySid
    requires x in g.objs && s in Entered(g, sid, o, p).objs[x].parts && (s in g.objs[x].parts ==> EntryOk(g, x, s))
    ensures EntryOk(Entered(g, sid, o, p), x, s)
  {}

  lemma EnterIndex(g: Registry, sid: Sid, o: ObjId, p: PartId, s: Sid)
    requires o in g.objs && p !in g.people && sid !in g.bySid
    requires s == sid || (s in g.bySid && IndexOk(g, s))
    ensures IndexOk(Entered(g, sid, o, p), s)
  {}

  lemma EnterObj(g: Registry, sid: Sid, o: ObjId, p: PartId, x: ObjId)
    requires o in g.objs && x in g.objs && x != o && ObjOk(g, x)
    ensures x in Entered(g, sid, o, p).objs && ObjOk(Entered(g, sid, o, p), x)
  {}

  lemma EnterShape(g: Registry, sid: Sid, o: ObjId, p: PartId)
    requires o in g.objs && p !in g.people && sid !in g.bySid && (g.maxUsers > 0 ==> |g.bySid| < g.maxUsers)
    requires GaugesOk(g)
    requires !g.objs[o].removed && g.objs[o].id in g.rooms && g.rooms[g.objs[o].id] == o
    ensures var g' := Entered(g, sid, o, p);
      && g'.people.Keys == g.people.Keys + {p} && g'.objs.Keys == g.objs.Keys && g'.bySid == g.bySid[sid := p]
      && g'.rooms == g.rooms
      && (forall x | x in g.objs :: g'.objs[x].id == g.objs[x].id)
      && ObjOk(g', o) && GaugesOk(g')
  {
    SizeWith(g.bySid, sid, p);
    assert sid in Entered(g, sid, o, p).objs[o].parts;
  }

  lemma EnterKeepsInv(g: Registry, sid: Sid, o: ObjId, p: PartId)
    requires o in g.objs && p !in g.people && sid !in g.bySid && (g.maxUsers > 0 ==> |g.bySid| < g.maxUsers)
    requires InvBut(g, o) && !g.objs[o].removed && g.objs[o].id in g.rooms && g.rooms[g.objs[o].id] == o
    ensures Inv(Entered(g, sid, o, p))
  {
    hide PersonOk, EntryOk, IndexOk, ObjOk, ListedOk, GaugesOk, Entered;
    var g' := Entered(g, sid, o, p);
    EnterShape(g, sid, o, p);
    forall y | y in g'.people ensures PersonOk(g', y) {
      EnterPerson(g, sid, o, p, y);
    }
    forall x, s | x in g'.objs && s in g'.objs[x].parts ensures EntryOk(g', x, s) {
      EnterEntry(g, sid, o, p, x, s);
    }
    forall s | s in g'.bySid ensures IndexOk(g', s) {
      EnterIndex(g, sid, o, p, s);
    }
    forall x | x in g'.objs ensures ObjOk(g', x) {
      if x != o {
        EnterObj(g, sid, o, p, x);
      }
    }
    forall id | id in g'.rooms ensures ListedOk(g', id) {
      ListedStays(g, g', id);
    }
  }

  lemma VacatedKeepsInv(g: Registry, sid: Sid)
    requires Inv(g)
    ensures var g' := Vacated(g, sid);
      Inv(g') && sid !in g'.bySid && g'.objs.Keys == g.objs.Keys && g'.people.Keys == g.people.Keys
          && g'.maxUsers == g.maxUsers
  {
    if sid in g.bySid {
      assert IndexOk(g, sid);
      assert g.bySid[sid] in g.people && g.people[g.bySid[sid]].sid == sid;
      hide Inv, IndexOk;
      CloseKeepsInv(g, g.bySid[sid]);
    }
  }

  lemma JoinKeepsInv(g: Registry, sid: Sid, id: RoomId, spare: ObjId, p: PartId)
    requires Inv(g) && spare !in g.objs && p !in g.people
    ensures Inv(Joined(g, sid, id, spare, p))
    ensures JoinVerdict(g, sid) == Accepted ==>
              var g' := Joined(g, sid, id, spare, p); sid in g'.bySid && g'.bySid[sid] == p && id in g'.rooms
  {
    hide Vacated, PersonOk, EntryOk, IndexOk, ObjOk, ListedOk, GaugesOk;
    VacatedKeepsInv(g, sid);
    var g1 := Vacated(g, sid);
    if JoinVerdict(g, sid) == Accepted {
      if id in g1.rooms {
        ListedGives(g1, id);
        assert InvBut(g1, g1.rooms[id]);
        hide Inv, InvBut;
        EnterKeepsInv(g1, sid, g1.rooms[id], p);
      } else {
        hide Inv, InvBut;
        ListedKeepsInv(g1, id, spare, false);
        EnterKeepsInv(Listed(g1, id, spare, false), sid, spare, p);
      }
    }
  }

  // ---------------------------------------------------------------------------------------------
  // Runs
  // ---------------------------------------------------------------------------------------------

  datatype Event =
    | Join(sid: Sid, id: RoomId, spare: ObjId, p: PartId)
    | Ensure(id: RoomId, spare: ObjId)
    | UnlistRoom(id: RoomId)   // CloseRoom; its members are closed by Close events, in any order
    | Close(p: PartId)
    | SetDraining(on: bool)

  predicate Enabled(g: Registry, ev: Event) {
    match ev
    case Join(_, _, spare, p) => spare !in g.objs && p !in g.people
    case Ensure(_, spare) => spare !in g.objs
    case Close(p) => p in g.people && g.people[p].room in g.objs
    case _ => true
  }

  function Next(g: Registry, ev: Event): Registry
    requires Enabled(g, ev)
  {
    match ev
    case Join(sid, id, spare, p) => Joined(g, sid, id, spare, p)
    case Ensure(id, spare) => EnsuredRoom(g, id, spare)
    case UnlistRoom(id) => Unlisted(g, id)
    case Close(p) => ClosedPart(g, p)
    case SetDraining(on) => g.(draining := on)
  }

  lemma StepKeepsInv(g: Registry, ev: Event)
    requires Inv(g) && Enabled(g, ev)
    ensures Inv(Next(g, ev))
  {
    match ev
    case Join(sid, id, spare, p) =>
      hide Inv, Joined;
      JoinKeepsInv(g, sid, id, spare, p);
    case Ensure(id, spare) =>
      hide Inv, EnsuredRoom;
      EnsureKeepsInv(g, id, spare);
    case UnlistRoom(id) =>
      hide Inv, Unlisted;
      UnlistKeepsInv(g, id);
    case Close(p) =>
      hide Inv, ClosedPart;
      CloseKeepsInv(g, p);
    case SetDraining(on) => DrainingKeepsInv(g, on);
  }

  lemma DrainingKeepsInv(g: Registry, on: bool)
    requires Inv(g)
    ensures Inv(g.(draining := on))
  {
    var g' := g.(draining := on);
    hide PersonOk, EntryOk, IndexOk, ObjOk, ListedOk;
    RoomChangeKeepsMembers(g, g');
    forall o | o in g'.objs ensures ObjOk(g', o) {
      ObjStays(g, g', o);
    }
    forall x | x in g'.rooms ensures ListedOk(g', x) {
      ListedStays(g, g', x);
    }
  }

  ghost predicate Run(states: seq<Registry>, evs: seq<Event>) {
    && |states| == |evs| + 1
    && (exists maxUsers: int :: states[0] == Registry(maxUsers, false, map[], map[], map[], map[], 0, 0))
    && forall i | 0 <= i < |evs| :: Enabled(states[i], evs[i]) && states[i + 1] == Next(states[i], evs[i])
  }

  /** Over every run: index and rooms agree, the user limit holds, listed rooms are ensured or in
      use, and the gauges are the sizes of the registries. */
  lemma {:induction false} RegistryIsCoherent(states: seq<Registry>, evs: seq<Event>, i: nat)
    requires Run(states, evs) && i < |states|
    ensures Inv(states[i])
  {
    if i > 0 {
      RegistryIsCoherent(states, evs, i - 1);
      hide Inv, Next, Enabled;
      StepKeepsInv(states[i - 1], evs[i - 1]);
    }
  }

  // ---------------------------------------------------------------------------------------------
  // The manager object
  // ---------------------------------------------------------------------------------------------

  /** What closing one member of a removed room changes. */
  lemma CloseInRemoved(g: Registry, p: PartId, o: ObjId)
    requires Inv(g) && p in g.people && g.people[p].room == o && o in g.objs && g.objs[o].removed
    ensures var g' := ClosedPart(g, p);
      && Inv(g') && g'.rooms == g.rooms && g'.objs.Keys == g.objs.Keys && g'.people.Keys == g.people.Keys
      && g'.maxUsers == g.maxUsers
      && (forall x | x in g.objs && x != o :: g'.objs[x] == g.objs[x])
      && g'.objs[o].removed
      && (forall y | y in g.people :: g'.people[y].room == g.people[y].room && g'.people[y].sid == g.people[y].sid)
      && g'.people[p].closed && (forall y | y in g.people && g.people[y].closed :: g'.people[y].closed)
      && (forall sid | sid in g'.objs[o].parts ::
           sid in g.objs[o].parts && g'.objs[o].parts[sid] == g.objs[o].parts[sid])
      && (forall sid | sid in g'.bySid :: sid in g.bySid && g'.bySid[sid] == g.bySid[sid])
      && (forall sid | sid in g.bySid && g.bySid[sid] != p :: sid in g'.bySid)
  {
    hide PersonOk, EntryOk, IndexOk, ObjOk, ListedOk, GaugesOk;
    CloseKeepsInv(g, p);
    OpenGives(g, p);
  }

  /** Closing a room: unlisted first, then every member closed. Nothing else is touched. */
  method DrainRoom(g: Registry, id: RoomId) returns (g': Registry)
    requires Inv(g) && id in g.rooms && g.rooms[id] in g.objs
    ensures Inv(g') && g'.rooms == g.rooms - {id} && g'.objs.Keys == g.objs.Keys && g'.maxUsers == g.maxUsers
    ensures g'.objs[g.rooms[id]].parts == map[] && forall x | x in g.objs && x != g.rooms[id] :: g'.objs[x] == g.objs[x]
    ensures forall sid :: sid in g'.bySid <==> sid in g.bySid && sid !in g.objs[g.rooms[id]].parts
    ensures forall sid | sid in g'.bySid :: g'.bySid[sid] == g.bySid[sid]
  {
    hide Inv, ClosedPart;
    var o := g.rooms[id];
    UnlistKeepsInv(g, id);
    g' := Unlisted(g, id);
    var parts := g.objs[o].parts;
    var todo := parts.Values;
    MembersOf(g, o);
    while todo != {}
      invariant Inv(g') && g'.rooms == g.rooms - {id} && g'.objs.Keys == g.objs.Keys && g'.objs[o].removed
      invariant todo <= parts.Values && g'.people.Keys == g.people.Keys && g'.maxUsers == g.maxUsers
      invariant forall x | x in g.objs && x != o :: g'.objs[x] == g.objs[x]
      invariant forall y | y in g.people :: g'.people[y].room == g.people[y].room && g'.people[y].sid == g.people[y].sid
      invariant forall y | y in parts.Values && y !in todo :: g'.people[y].closed
      invariant forall sid | sid in g'.objs[o].parts :: sid in parts && g'.objs[o].parts[sid] == parts[sid]
      invariant forall sid | sid in g'.bySid :: sid in g.bySid && g'.bySid[sid] == g.bySid[sid]
      invariant forall sid | sid in g.bySid && g.bySid[sid] !in parts.Values :: sid in g'.bySid
      decreases todo
    {
      var p :| p in todo;
      todo := todo - {p};
      CloseInRemoved(g', p, o);
      g' := ClosedPart(g', p);
    }
    NobodyLeft(g, g', o, parts);
  }

  lemma MembersOf(g: Registry, o: ObjId)
    requires Inv(g) && o in g.objs
    ensures forall p | p in g.objs[o].parts.Values :: p in g.people && g.people[p].room == o
    ensures forall sid | sid in g.bySid :: g.bySid[sid] in g.objs[o].parts.Values <==> sid in g.objs[o].parts
    ensures forall sid | sid in g.objs[o].parts :: sid in g.bySid && g.bySid[sid] == g.objs[o].parts[sid]
  {
    hide PersonOk, ObjOk, ListedOk, GaugesOk;
    forall sid | sid in g.objs[o].parts
      ensures g.objs[o].parts[sid] in g.people && g.people[g.objs[o].parts[sid]] == Person(sid, o, false)
      ensures sid in g.bySid && g.bySid[sid] == g.objs[o].parts[sid]
    {
      assert EntryOk(g, o, sid);
    }
    forall sid | sid in g.bySid && g.bySid[sid] in g.objs[o].parts.Values ensures sid in g.objs[o].parts {
      assert IndexOk(g, sid);
    }
  }

  lemma NobodyLeft(g: Registry, g': Registry, o: ObjId, parts: map<Sid, PartId>)
    requires Inv(g) && Inv(g') && o in g.objs && o in g'.objs && parts == g.objs[o].parts
    requires g'.people.Keys == g.people.Keys
    requires forall y | y in parts.Values :: y in g'.people && g'.people[y].closed
    requires forall sid | sid in g'.objs[o].parts :: sid in parts && g'.objs[o].parts[sid] == parts[sid]
    requires forall sid | sid in g'.bySid :: sid in g.bySid && g'.bySid[sid] == g.bySid[sid]
    requires forall sid | sid in g.bySid && g.bySid[sid] !in parts.Values :: sid in g'.bySid
    ensures g'.objs[o].parts == map[]
    ensures forall sid :: sid in g'.bySid <==> sid in g.bySid && sid !in parts
  {
    hide PersonOk, ObjOk, ListedOk, GaugesOk;
    MembersOf(g, o);
    forall sid | sid in g'.objs[o].parts
      ensures g'.objs[o].parts[sid] in g'.people && !g'.people[g'.objs[o].parts[sid]].closed
    {
      assert EntryOk(g', o, sid);
    }
    forall sid | sid in g'.bySid ensures g'.bySid[sid] in g'.people && !g'.people[g'.bySid[sid]].closed {
      assert IndexOk(g', sid);
    }
    hide Inv;
    assert forall sid | sid in parts :: parts[sid] in parts.Values;
  }

  /** Who is indexed, and what is listed, after a close. */
  lemma ClosePartSays(g: Registry, p: PartId)
    requires Inv(g) && p in g.people && g.people[p].room in g.objs
    ensures var g' := ClosedPart(g, p);
      && p in g'.people && g'.people[p].closed
      && (forall s :: s in g'.bySid <==> s in g.bySid && g.bySid[s] != p)
      && (forall s | s in g'.bySid :: g'.bySid[s] == g.bySid[s])
    ensures var g', x := ClosedPart(g, p), g.people[p];
      var r := g.objs[x.room];
      && (forall id :: id in g'.rooms <==>
            id in g.rooms && !(g.rooms[id] == x.room && !x.closed && r.parts.Keys == {x.sid} && !r.ensured))
      && (forall id | id in g'.rooms :: g'.rooms[id] == g.rooms[id])
  {
    hide Inv;
    OpenGives(g, p);
    forall s | s in g.bySid ensures g.bySid[s] in g.people && g.people[g.bySid[s]].sid == s {
      IndexNames(g, s);
    }
    var r := g.objs[g.people[p].room];
    forall id | id in g.rooms && g.rooms[id] == g.people[p].room ensures id == r.id && !r.removed {
      ListedGives(g, id);
    }
    ObjNames(g, g.people[p].room);
    CloseIndexed(g, p);
    CloseListing(g, p);
    hide ClosedPart;
  }

  lemma IndexNames(g: Registry, s: Sid)
    requires Inv(g) && s in g.bySid
    ensures g.bySid[s] in g.people && g.people[g.bySid[s]].sid == s
  {
    assert IndexOk(g, s);
  }

  lemma ObjNames(g: Registry, o: ObjId)
    requires Inv(g) && o in g.objs
    ensures !g.objs[o].removed <==> g.objs[o].id in g.rooms && g.rooms[g.objs[o].id] == o
  {
    assert ObjOk(g, o);
  }

  lemma CloseIndexed(g: Registry, p: PartId)
    requires p in g.people && g.people[p].room in g.objs
    requires !g.people[p].closed ==> g.people[p].sid in g.objs[g.people[p].room].parts
    ensures var g', x := ClosedPart(g, p), g.people[p];
      && p in g'.people && g'.people[p].closed && g'.bySid == if x.closed then g.bySid else g.bySid - {x.sid}
  {}

  lemma CloseListing(g: Registry, p: PartId)
    requires p in g.people && g.people[p].room in g.objs
    requires !g.people[p].closed ==> g.people[p].sid in g.objs[g.people[p].room].parts
    ensures var g', x := ClosedPart(g, p), g.people[p];
      var r := g.objs[x.room];
      g'.rooms == if !x.closed && r.parts.Keys == {x.sid} && !r.ensured && !r.removed then g.rooms - {r.id} else g.rooms
  {
    var x := g.people[p];
    var r := g.objs[x.room];
    assert (r.parts - {x.sid}).Keys == r.parts.Keys - {x.sid};
    if r.parts.Keys <= {x.sid} {
      assert (r.parts - {x.sid}).Keys == {};
      assert r.parts - {x.sid} == map[];
    } else {
      assert (r.parts - {x.sid}).Keys != {};
    }
  }

  /** A session that reconnects is let in even to a full node, because its old one goes first. */
  lemma VerdictIsExact(g: Registry, sid: Sid)
    requires Inv(g)
    ensures var v := JoinVerdict(g, sid);
      && (v.NodeDraining? <==> g.draining)
      && (v.Accepted? <==> !g.draining && (g.maxUsers <= 0 || sid in g.bySid || |g.bySid| < g.maxUsers))
  {
    hide Inv, Vacated;
    VacatedSays(g, sid);
  }

  /** A refused join changes nothing; an accepted one, nobody else's entry. */
  lemma JoinSays(g: Registry, sid: Sid, id: RoomId, spare: ObjId, p: PartId)
    requires Inv(g) && spare !in g.objs && p !in g.people
    ensures var v, g' := JoinVerdict(g, sid), Joined(g, sid, id, spare, p);
      && (!v.Accepted? ==> g' == g)
      && (v.Accepted? ==>
            && sid in g'.bySid && g'.bySid[sid] == p && id in g'.rooms && g'.rooms[id] in g'.objs
            && sid in g'.objs[g'.rooms[id]].parts && g'.objs[g'.rooms[id]].parts[sid] == p
            && (sid in g.bySid ==> g.bySid[sid] in g'.people && g'.people[g.bySid[sid]].closed))
      && (forall s | s != sid :: s in g'.bySid <==> s in g.bySid)
      && (forall s | s != sid && s in g'.bySid :: g'.bySid[s] == g.bySid[s])
  {
    hide Inv, Vacated, Admitted;
    VerdictIsExact(g, sid);
    VacatedSays(g, sid);
    VacatedKeepsInv(g, sid);
    AdmittedSays(Vacated(g, sid), sid, id, spare, p);
  }

  lemma VacatedSays(g: Registry, sid: Sid)
    requires Inv(g)
    ensures var g' := Vacated(g, sid);
      && g'.bySid == g.bySid - {sid} && |g'.bySid| == |g.bySid| - (if sid in g.bySid then 1 else 0)
      && (sid !in g.bySid ==> g' == g) && (g.maxUsers > 0 ==> |g.bySid| <= g.maxUsers)
      && g'.maxUsers == g.maxUsers
      && (sid in g.bySid ==> g.bySid[sid] in g'.people && g'.people[g.bySid[sid]].closed)
  {
    if sid in g.bySid {
      assert IndexOk(g, sid);
      SizeWithout(g.bySid, sid);
    } else {
      assert g.bySid - {sid} == g.bySid;
    }
  }

  lemma AdmittedSays(g: Registry, sid: Sid, id: RoomId, spare: ObjId, p: PartId)
    requires p !in g.people
    ensures var g' := Admitted(g, sid, id, spare, p);
      && g'.bySid == g.bySid[sid := p] && id in g'.rooms && g'.rooms[id] in g'.objs
      && sid in g'.objs[g'.rooms[id]].parts && g'.objs[g'.rooms[id]].parts[sid] == p
      && (forall q | q in g.people :: q in g'.people && g'.people[q] == g.people[q])
  {}

  class Manager {
    const maxUsers: int
    var draining: bool
    var rooms: map<RoomId, ObjId>
    var bySid: map<Sid, PartId>
    var objs: map<ObjId, RoomObj>
    var people: map<PartId, Person>
    var roomGauge: int
    var partGauge: int

    ghost function View(): Registry
      reads this
    {
      Registry(maxUsers, draining, rooms, bySid, objs, people, roomGauge, partGauge)
    }

    constructor (maxUsers: int)
      ensures View() == Registry(maxUsers, false, map[], map[], map[], map[], 0, 0) && Inv(View())
    {
      this.maxUsers, draining, rooms, bySid, objs, people, roomGauge, partGauge := maxUsers, false, map[], map[],
          map[], map[], 0, 0;
    }

    method EnsureRoom(id: RoomId, spare: ObjId)
      requires Inv(View()) && spare !in objs
      modifies this
      ensures View() == EnsuredRoom(old(View()), id, spare) && Inv(View())
      ensures id in rooms && rooms[id] in objs && objs[rooms[id]].ensured && objs[rooms[id]].id == id
      ensures id in old(rooms) ==> rooms == old(rooms) && objs.Keys == old(objs).Keys
                                   && objs[rooms[id]].parts == old(objs)[rooms[id]].parts
      ensures id !in old(rooms) ==> rooms == old(rooms)[id := spare] && objs[spare].parts == map[]
      ensures bySid == old(bySid) && people == old(people)
      ensures forall o | o in old(objs) && !(id in rooms && o == rooms[id]) :: o in objs && objs[o] == old(objs)[o]
    {
      if id in rooms {
        ListedGives(View(), id);
      }
      hide Inv;
      EnsureKeepsInv(View(), id, spare);
      if id in rooms && rooms[id] in objs {
        objs := objs[rooms[id] := objs[rooms[id]].(ensured := true)];
        return;
      }
      rooms, objs, roomGauge := rooms[id := spare], objs[spare := RoomObj(id, map[], true, false)], roomGauge + 1;
    }

    /** Participant.Close with removeParticipant. */
    method ClosePart(p: PartId)
      requires Inv(View()) && p in people && people[p].room in objs
      modifies this
      ensures View() == ClosedPart(old(View()), p) && Inv(View())
      ensures p in people && people[p].closed
      ensures forall s :: s in bySid <==> s in old(bySid) && old(bySid)[s] != p
      ensures forall s | s in bySid :: bySid[s] == old(bySid)[s]
      ensures var x := old(people)[p]; var r := old(objs)[x.room];
        forall id :: id in rooms <==>
          id in old(rooms) && !(old(rooms)[id] == x.room && !x.closed && r.parts.Keys == {x.sid} && !r.ensured)
      ensures forall id | id in rooms :: rooms[id] == old(rooms)[id]
    {
      hide Inv, ClosedPart;
      ClosePartSays(View(), p);
      CloseKeepsInv(View(), p);
      Remove(p);
    }

    method Remove(p: PartId)
      requires p in people && people[p].room in objs
      modifies this
      ensures View() == ClosedPart(old(View()), p)
    {
      var x := people[p];
      if x.closed {
        return;
      }
      people := people[p := x.(closed := true)];
      var r := objs[x.room];
      if x.sid !in r.parts {
        return;
      }
      r := r.(parts := r.parts - {x.sid});
      bySid := bySid - {x.sid};
      var gone := r.parts == map[] && !r.ensured && !r.removed;
      if gone {
        rooms := rooms - {r.id};
        r := r.(removed := true);
        roomGauge := roomGauge - 1;
      }
      objs := objs[x.room := r];
      partGauge := partGauge - 1;
    }

    method Join(sid: Sid, id: RoomId, spare: ObjId, p: PartId) returns (verdict: Refusal)
      requires Inv(View()) && spare !in objs && p !in people
      modifies this
      ensures verdict == JoinVerdict(old(View()), sid)
      ensures View() == Joined(old(View()), sid, id, spare, p) && Inv(View())
      ensures verdict.NodeDraining? <==> old(draining)
      ensures verdict.Accepted? <==>
                !old(draining) && (maxUsers <= 0 || sid in old(bySid) || |old(bySid)| < maxUsers)
      ensures !verdict.Accepted? ==> View() == old(View())
      ensures verdict.Accepted? ==>
        && sid in bySid && bySid[sid] == p && id in rooms && rooms[id] in objs
        && sid in objs[rooms[id]].parts && objs[rooms[id]].parts[sid] == p
        && (sid in old(bySid) ==> old(bySid)[sid] in people && people[old(bySid)[sid]].closed)
      ensures forall s | s != sid :: s in bySid <==> s in old(bySid)
      ensures forall s | s != sid && s in bySid :: bySid[s] == old(bySid)[s]
    {
      JoinSays(View(), sid, id, spare, p);
      VerdictIsExact(View(), sid);
      hide Inv, ClosedPart, Admitted;
      JoinKeepsInv(View(), sid, id, spare, p);
      VacatedKeepsInv(View(), sid);
      if draining {
        return NodeDraining;
      }
      if sid in bySid && bySid[sid] in people && people[bySid[sid]].room in objs {
        ClosePart(bySid[sid]);
      }
      if maxUsers > 0 && |bySid| >= maxUsers {
        return AtCapacity;
      }
      Admit(sid, id, spare, p);
      return Accepted;
    }

    /** Into the listed room, or a new one nobody ensured. */
    method Admit(sid: Sid, id: RoomId, spare: ObjId, p: PartId)
      modifies this
      ensures View() == Admitted(old(View()), sid, id, spare, p)
    {
      var o := spare;
      if id in rooms && rooms[id] in objs {
        o := rooms[id];
      } else {
        rooms, objs, roomGauge := rooms[id := spare], objs[spare := RoomObj(id, map[], false, false)], roomGauge + 1;
      }
      objs := objs[o := objs[o].(parts := objs[o].parts[sid := p])];
      bySid, people, partGauge := bySid[sid := p], people[p := Person(sid, o, false)], partGauge + 1;
    }

    method CloseRoom(id: RoomId)
      requires Inv(View())
      modifies this
      ensures Inv(View())
      ensures id !in old(rooms) ==> View() == old(View())
      ensures id in old(rooms) ==>
        && old(rooms)[id] in old(objs) && rooms == old(rooms) - {id} && objs.Keys == old(objs).Keys
        && objs[old(rooms)[id]].parts == map[]
        && (forall x | x in old(objs) && x != old(rooms)[id] :: objs[x] == old(objs)[x])
        && (forall s :: s in bySid <==> s in old(bySid) && s !in old(objs)[old(rooms)[id]].parts)
    {
      hide Inv;
      if id !in rooms {
        return;
      }
      ListedGives(View(), id);
      var g := DrainRoom(Registry(maxUsers, draining, rooms, bySid, objs, people, roomGauge, partGauge), id);
      draining, rooms, bySid, objs, people, roomGauge, partGauge := g.draining, g.rooms, g.bySid, g.objs, g.people,
          g.roomGauge, g.partGauge;
      assert View() == g;
    }
  }
}
