/** The command de-duplication window: the last acknowledgements, replayed to repeated commands. */
module AckCaches {
  import opened Sizes

  type Id = string

  datatype Ack = Ack(commandId: Id, ok: bool, errorCode: string, errorMessage: string)

  datatype Cache = Cache(limit: nat, m: map<Id, Ack>, order: seq<Id>)

  /** The queue lists exactly the cached ids, once each, and never more than the window. */
  ghost predicate Valid(c: Cache) {
    && c.limit >= 1
    && Unique(c.order)
    && (forall x :: x in c.order <==> x in c.m)
    && |c.order| <= c.limit
    && (forall x | x in c.m :: c.m[x].commandId == x)
    && "" !in c.m
  }

  ghost predicate Unique(xs: seq<Id>) {
    forall i, j | 0 <= i < j < |xs| :: xs[i] != xs[j]
  }

  function Put(c: Cache, ack: Ack): Cache {
    var id := ack.commandId;
    if id == "" then c
    else if id in c.m then c.(m := c.m[id := ack])
    else if |c.order| < c.limit then c.(m := c.m[id := ack], order := c.order + [id])
    else if c.order == [] then c.(m := c.m[id := ack])
    else c.(m := (c.m - {c.order[0]})[id := ack], order := c.order[1..] + [id])
  }

  class AckCache {
    const limit: nat
    var m: map<Id, Ack>
    var order: seq<Id>

    ghost function View(): Cache
      reads this
    {
      Cache(limit, m, order)
    }

    constructor (limit: nat)
      ensures View() == Cache(limit, map[], [])
      ensures limit >= 1 ==> Valid(View())
    {
      this.limit, m, order := limit, map[], [];
    }

    /** A hit is a replayed command. */
    method Get(id: Id) returns (ack: Ack, hit: bool)
      ensures hit <==> id in m
      ensures hit ==> ack == m[id]
    {
      hit := id in m;
      ack := if hit then m[id] else Ack(id, false, "", "");
    }

    /** Evicts from the front while the queue is over the window, then records. */
    method Record(ack: Ack)
      requires Valid(View())
      modifies this
      ensures View() == Put(old(View()), ack) && Valid(View())
    {
      PutKeepsValid(View(), ack);
      if ack.commandId == "" {
        return;
      }
      if ack.commandId !in m {
        ghost var was := View();
        order := order + [ack.commandId];
        while |order| > limit
          invariant limit >= 1 && |order| <= limit + 1
          invariant if |order| == limit + 1 then order == was.order + [ack.commandId] && m == was.m
                    else if |was.order| < limit then order == was.order + [ack.commandId] && m == was.m
                    else order == was.order[1..] + [ack.commandId] && m == was.m - {was.order[0]}
          decreases |order|
        {
          var oldest := order[0];
          order := order[1..];
          m := m - {oldest};
        }
      }
      m := m[ack.commandId := ack];
    }

    /** handleCommand; `result` is what executing the command would answer. */
    method HandleCommand(id: Id, result: Ack) returns (ack: Ack, executed: bool)
      requires Valid(View()) && result.commandId == id
      modifies this
      ensures executed <==> id !in old(m)
      ensures executed ==> ack == result && (id != "" ==> id in m && m[id] == result)
      ensures executed && id != "" ==> order != [] && order[|order| - 1] == id
      ensures !executed ==> ack == old(m)[id] && View() == old(View())
      ensures forall x | x in m && x != id :: x in old(m) && m[x] == old(m)[x]
      ensures ack == Answer(old(View()), id, result)
      ensures View() == After(old(View()), id, result) && Valid(View())
    {
      var cached, hit := Get(id);
      if hit {
        return cached, false;
      }
      Record(result);
      return result, true;
    }
  }

  lemma Appended(xs: seq<Id>, x: Id)
    requires Unique(xs) && x !in xs
    ensures Unique(xs + [x]) && forall y :: y in xs + [x] <==> y in xs || y == x
  {}

  lemma Shifted(xs: seq<Id>)
    requires Unique(xs) && xs != []
    ensures Unique(xs[1..]) && forall y :: y in xs[1..] <==> y in xs && y != xs[0]
  {
    assert xs == [xs[0]] + xs[1..];
  }

  lemma PutKeepsValid(c: Cache, ack: Ack)
    requires Valid(c)
    ensures Valid(Put(c, ack))
  {
    if ack.commandId != "" && ack.commandId !in c.m {
      if |c.order| < c.limit {
        Appended(c.order, ack.commandId);
      } else {
        Shifted(c.order);
        Appended(c.order[1..], ack.commandId);
      }
    }
    hide Unique;
  }

  // ---------------------------------------------------------------------------------------------
  // Streams of commands
  // ---------------------------------------------------------------------------------------------

  function Answer(c: Cache, id: Id, result: Ack): Ack {
    if id in c.m then c.m[id] else result
  }

  function After(c: Cache, id: Id, result: Ack): Cache {
    if id in c.m then c else Put(c, result)
  }

  /** Command i arrives in states[i]; results[i] is what executing it would answer. */
  ghost predicate Stream(states: seq<Cache>, ids: seq<Id>, results: seq<Ack>) {
    && |states| == |ids| + 1 && |results| == |ids|
    && Valid(states[0])
    && forall i | 0 <= i < |ids| ::
         results[i].commandId == ids[i] && states[i + 1] == After(states[i], ids[i], results[i])
  }

  ghost predicate Executed(states: seq<Cache>, ids: seq<Id>, i: nat)
    requires i < |ids| < |states|
  {
    ids[i] !in states[i].m
  }

  lemma {:induction false} StreamIsValid(states: seq<Cache>, ids: seq<Id>, results: seq<Ack>, i: nat)
    requires Stream(states, ids, results) && i < |states|
    ensures Valid(states[i]) && states[i].limit == states[0].limit
  {
    if i > 0 {
      StreamIsValid(states, ids, results, i - 1);
      PutKeepsValid(states[i - 1], results[i - 1]);
    }
  }

  /** The non-empty ids other than `id` executed from a up to, not including, b. */
  ghost function Others(states: seq<Cache>, ids: seq<Id>, id: Id, a: nat, b: nat): set<Id>
    requires b <= |ids| < |states|
  {
    set i | a <= i < b && Executed(states, ids, i) && ids[i] != id && ids[i] != "" :: ids[i]
  }

  /** Everything behind `id` in the queue has been executed since a, or a whole window has. */
  ghost predicate Sheltered(states: seq<Cache>, ids: seq<Id>, id: Id, a: nat, t: nat)
    requires t <= |ids| < |states|
  {
    var c, since := states[t], Others(states, ids, id, a, t);
    || |since| >= c.limit
    || exists p :: 0 <= p < |c.order| && c.order[p] == id && forall q | p < q < |c.order| :: c.order[q] in since
  }

  lemma OthersGrow(states: seq<Cache>, ids: seq<Id>, id: Id, a: nat, b: nat)
    requires b < |ids| < |states| && a <= b
    ensures var was, now := Others(states, ids, id, a, b), Others(states, ids, id, a, b + 1);
      && was <= now
      && (Executed(states, ids, b) && ids[b] != id && ids[b] != "" ==> ids[b] in now)
      && |was| <= |now|
  {
    var was, now := Others(states, ids, id, a, b), Others(states, ids, id, a, b + 1);
    SubsetSize(was, now);
  }

  /** One more command: the id moves towards the front, or leaves with a window's worth behind it. */
  lemma ShelterStep(states: seq<Cache>, ids: seq<Id>, results: seq<Ack>, id: Id, a: nat, t: nat)
    requires Stream(states, ids, results) && a <= t < |ids| && Sheltered(states, ids, id, a, t)
    requires id in states[t].m || |Others(states, ids, id, a, t)| >= states[t].limit
    ensures Sheltered(states, ids, id, a, t + 1)
  {
    StreamIsValid(states, ids, results, t);
    OthersGrow(states, ids, id, a, t);
    var c, c', x := states[t], states[t + 1], ids[t];
    var was, now := Others(states, ids, id, a, t), Others(states, ids, id, a, t + 1);
    assert c' == After(c, x, results[t]) && results[t].commandId == x;
    hide Others, Stream, Unique;
    if |was| < c.limit {
      var p :| 0 <= p < |c.order| && c.order[p] == id && forall q | p < q < |c.order| :: c.order[q] in was;
      if x in c.m || x == "" {
        assert c'.order == c.order;
      } else {
        assert x !in c.order && x in now;
        MovesUp(c, c', x, id, p, was, now);
      }
    }
  }

  lemma MovesUp(c: Cache, c': Cache, x: Id, id: Id, p: nat, was: set<Id>, now: set<Id>)
    requires Unique(c.order) && x !in c.order && x in now && was <= now && c'.limit == c.limit && |c.order| <= c.limit
    requires p < |c.order| && c.order[p] == id && forall q | p < q < |c.order| :: c.order[q] in was
    requires c'.order == if |c.order| < c.limit then c.order + [x] else c.order[1..] + [x]
    ensures |now| >= c'.limit || exists p' ::
              0 <= p' < |c'.order| && c'.order[p'] == id && forall q | p' < q < |c'.order| :: c'.order[q] in now
  {
    if |c.order| < c.limit {
      assert c'.order[p] == id;
    } else if p > 0 {
      assert c'.order[p - 1] == id;
    } else {
      Shifted(c.order);
      Appended(c.order[1..], x);
      DistinctIsSmall(c'.order, now);
    }
  }

  lemma {:induction false} ShelteredUntil(states: seq<Cache>, ids: seq<Id>, results: seq<Ack>, i: nat, t: nat)
    requires Stream(states, ids, results) && i < t <= |ids| && ids[i] != "" && Executed(states, ids, i)
    ensures Sheltered(states, ids, ids[i], i + 1, t)
    ensures |Others(states, ids, ids[i], i + 1, t)| < states[t].limit ==> ids[i] in states[t].m
    decreases t
  {
    if t == i + 1 {
      ShelteredFirst(states, ids, results, i);
    } else {
      hide Others, Executed;
      ShelteredUntil(states, ids, results, i, t - 1);
      StreamIsValid(states, ids, results, t - 1);
      ShelterStep(states, ids, results, ids[i], i + 1, t - 1);
    }
    hide Others, Executed, Stream;
    StreamIsValid(states, ids, results, t);
  }

  lemma ShelteredFirst(states: seq<Cache>, ids: seq<Id>, results: seq<Ack>, i: nat)
    requires Stream(states, ids, results) && i < |ids| && ids[i] != "" && Executed(states, ids, i)
    ensures Sheltered(states, ids, ids[i], i + 1, i + 1)
  {
    StreamIsValid(states, ids, results, i);
    var c' := states[i + 1];
    assert c'.order[|c'.order| - 1] == ids[i];
  }

  /** Between two executions of one command id, at least a window's worth of other ids was executed. */
  lemma ReexecutionNeedsAWindow(states: seq<Cache>, ids: seq<Id>, results: seq<Ack>, i: nat, j: nat)
    requires Stream(states, ids, results) && i < j < |ids| && ids[i] == ids[j] && ids[i] != ""
    requires Executed(states, ids, i) && Executed(states, ids, j)
    ensures |Others(states, ids, ids[i], i + 1, j)| >= states[0].limit
  {
    ShelteredUntil(states, ids, results, i, j);
    StreamIsValid(states, ids, results, j);
  }

  lemma {:induction false} RecordStays(states: seq<Cache>, ids: seq<Id>, results: seq<Ack>, i: nat, t: nat)
    requires Stream(states, ids, results) && i < t <= |ids| && ids[i] != "" && Executed(states, ids, i)
    requires forall u | i < u < t && Executed(states, ids, u) :: ids[u] != ids[i]
    ensures ids[i] in states[t].m ==> states[t].m[ids[i]] == results[i]
    decreases t
  {
    if t > i + 1 {
      RecordStays(states, ids, results, i, t - 1);
    }
  }

  /** A repeat inside the window is not executed again and gets the recorded answer. */
  lemma ReplayIsFaithful(states: seq<Cache>, ids: seq<Id>, results: seq<Ack>, i: nat, j: nat)
    requires Stream(states, ids, results) && i < j < |ids| && ids[i] == ids[j] && ids[i] != ""
    requires Executed(states, ids, i) && |Others(states, ids, ids[i], i + 1, j)| < states[0].limit
    ensures ids[j] in states[j].m && states[j].m[ids[j]] == results[i]
    ensures !Executed(states, ids, j) && Answer(states[j], ids[j], results[j]) == results[i]
  {
    StreamIsValid(states, ids, results, j);
    ShelteredUntil(states, ids, results, i, j);
    forall u | i < u < j && Executed(states, ids, u) ensures ids[u] != ids[i] {
      if ids[u] == ids[i] {
        ReexecutionNeedsAWindow(states, ids, results, i, u);
        StillFewer(states, ids, ids[i], i + 1, u, j);
      }
    }
    RecordStays(states, ids, results, i, j);
  }

  lemma StillFewer(states: seq<Cache>, ids: seq<Id>, id: Id, a: nat, b: nat, c: nat)
    requires b <= c <= |ids| < |states|
    ensures |Others(states, ids, id, a, b)| <= |Others(states, ids, id, a, c)|
  {
    SubsetSize(Others(states, ids, id, a, b), Others(states, ids, id, a, c));
  }

  /** Execution i is the last of id before t. */
  ghost predicate LastExecution(states: seq<Cache>, ids: seq<Id>, id: Id, i: nat, t: nat)
    requires t <= |ids| < |states|
  {
    i < t && ids[i] == id && Executed(states, ids, i) && forall u | i < u < t ::
        !(ids[u] == id && Executed(states, ids, u))
  }

  lemma {:induction false} RecordHasSource(states: seq<Cache>, ids: seq<Id>, results: seq<Ack>, t: nat, id: Id)
    returns (i: nat)
    requires Stream(states, ids, results) && states[0].m == map[] && t <= |ids| && id in states[t].m
    ensures LastExecution(states, ids, id, i, t) && states[t].m[id] == results[i]
    decreases t
  {
    StreamIsValid(states, ids, results, t - 1);
    var c, x := states[t - 1], ids[t - 1];
    assert states[t] == After(c, x, results[t - 1]) && results[t - 1].commandId == x;
    if x == id && x !in c.m {
      i := t - 1;
    } else {
      i := RecordHasSource(states, ids, results, t - 1, id);
    }
  }

  /** From an empty cache, every command is answered with the result of the last execution of its id: its own
      if it is executed, an earlier one's if it is not. */
  lemma AnswersComeFromExecutions(states: seq<Cache>, ids: seq<Id>, results: seq<Ack>, j: nat) returns (i: nat)
    requires Stream(states, ids, results) && states[0].m == map[] && j < |ids|
    ensures LastExecution(states, ids, ids[j], i, j + 1) && Answer(states[j], ids[j], results[j]) == results[i]
    ensures i == j <==> Executed(states, ids, j)
  {
    if Executed(states, ids, j) {
      i := j;
    } else {
      i := RecordHasSource(states, ids, results, j, ids[j]);
    }
  }
}
