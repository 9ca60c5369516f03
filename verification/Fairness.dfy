/**
 What the rotation buys: weighted fairness over any window, and a wait that
 does not depend on anybody's backlog. All weights are at most 1, as the
 tiers' weights are.
 */
module Fairness {
  import opened FairQueueSpec
  import opened FairQueueInvariant
  import opened FairQueueHistory
  import opened Tiers

  predicate LightWeights<T>(ops: seq<Op<T>>) {
    forall i :: 0 <= i < |ops| && ops[i].OpPush? ==> 0.0 < ops[i].weight <= 1.0
  }

  // ----- One pop -----

  /** How many turns of credit the next pop gives to tenant `k`. */
  ghost function TurnsGiven<T>(q: Queue<T>, k: Key): nat
    requires Structured(q)
  {
    if q.active == [] || q.turnStarted then 0
    else if k in q.active[..ServedIndex(q) + 1] then Rounds(q)
    else Rounds(q) - 1
  }

  /** The tenant served goes to the back or leaves; everybody ahead of it went there before it. */
  ghost function RotationAfter<T>(q: Queue<T>): seq<Key>
    requires Structured(q) && q.active != []
  {
    var p := ServedIndex(q);
    q.active[p + 1..] + q.active[..p] + (if |q.queues[q.active[p]].items| == 1 then [] else [q.active[p]])
  }

  /** Every tenant's entry after a pop. */
  ghost function EntryAfter<T>(q: Queue<T>, k: Key): TenantQueue<T>
    requires Structured(q) && q.active != [] && k in q.queues
  {
    var t := q.queues[k];
    var credit := Credit(t, TurnsGiven(q, k));
    if k == q.active[ServedIndex(q)] then t.(deficit := credit - 1.0, items := t.items[1..])
    else t.(deficit := credit)
  }

  /** Serving a tenant whose remaining credit is below 1 ends its turn. */
  lemma ServeEndsTurn<T>(q: Queue<T>)
    requires ReadyToServe(q) && q.queues[q.active[0]].deficit < 2.0
    ensures var q', s := Serve(q).0, q.active[0];
      var t := q.queues[s];
      var drained := |t.items| == 1;
      && !q'.turnStarted
      && q'.active == q.active[1..] + (if drained then [] else [s])
      && q'.queues == if drained then q.queues - {s}
                      else q.queues[s := t.(deficit := t.deficit - 1.0, items := t.items[1..])]
  {
  }

  /** A tenant of weight at most 1 reaches its first full credit with less than 2. */
  lemma FirstCreditBelowTwo<T>(q: Queue<T>)
    requires Light(q) && q.active != []
    ensures var t := q.queues[q.active[ServedIndex(q)]];
      Rounds(q) >= 1 && 1.0 <= Credit(t, Rounds(q)) < 2.0
  {
    hide Need, Winner;
    WinnerPaysFirst(q);
  }

  /** The queue in which the pop serves, tenant by tenant. */
  lemma ServedCredit<T>(q: Queue<T>)
    requires Light(q) && q.active != []
    ensures Served(q).active == Rotated(q.active, ServedIndex(q))
    ensures Served(q).queues.Keys == q.queues.Keys
    ensures forall k :: k in q.queues ==>
      Served(q).queues[k] == q.queues[k].(deficit := Credit(q.queues[k], TurnsGiven(q, k)))
  {
    hide Need, Winner, Rotated, Total, Credit;
  }

  /** The effect of a pop when no turn is open and no weight exceeds 1. */
  lemma LightPop<T>(q: Queue<T>)
    requires Light(q) && q.active != []
    ensures q.len > 0
    ensures Pop(q).0.active == RotationAfter(q) && !Pop(q).0.turnStarted
    ensures forall k :: k in Pop(q).0.queues <==>
      k in q.queues && !(k == q.active[ServedIndex(q)] && |q.queues[k].items| == 1)
    ensures forall k :: k in Pop(q).0.queues ==> Pop(q).0.queues[k] == EntryAfter(q, k)
  {
    hide Need, Winner, WithTurns, Serve, Served, ReadyToServe, Pop, Total, Credit, Rounds;
    var p := ServedIndex(q);
    PopServes(q);
    FirstCreditBelowTwo(q);
    ServedCredit(q);
    assert q.active[p] in q.active[..p + 1];
    assert Rotated(q.active, p)[1..] == q.active[p + 1..] + q.active[..p];
    ServeEndsTurn(Served(q));
  }

  // ----- Histories -----

  lemma StepLight<T>(q: Queue<T>, op: Op<T>)
    requires Light(q) && (op.OpPush? ==> 0.0 < op.weight <= 1.0)
    ensures Light(Step(q, op).0)
  {
    hide Need, Winner, ServedIndex, RotationAfter, Total, Credit;
    if op.OpPop? && q.active != [] {
      LightPop(q);
    }
  }

  /** With weights of at most 1 no turn is ever left open between calls. */
  lemma {:induction false} AfterLight<T>(q: Queue<T>, ops: seq<Op<T>>)
    requires Light(q) && LightWeights(ops)
    ensures Light(After(q, ops))
  {
    hide WellFormed, Step;
    if ops != [] {
      AfterLight(q, ops[..|ops| - 1]);
      StepLight(After(q, ops[..|ops| - 1]), ops[|ops| - 1]);
    }
  }

  /** Tenant `k` has something queued at every moment of the window. */
  ghost predicate Continuously<T>(q: Queue<T>, ops: seq<Op<T>>, k: Key)
    requires WellFormed(q) && PositiveWeights(ops)
  {
    forall n :: 0 <= n <= |ops| ==> k in After(q, ops[..n]).queues
  }

  lemma ContinuouslyBefore<T>(q: Queue<T>, ops: seq<Op<T>>, k: Key)
    requires WellFormed(q) && PositiveWeights(ops) && Continuously(q, ops, k)
    ensures k in q.queues && k in After(q, ops).queues
    ensures ops != [] ==> Continuously(q, ops[..|ops| - 1], k)
  {
    hide WellFormed, Step;
    assert ops[..0] == [] && ops[..|ops|] == ops;
    if ops != [] {
      var before := ops[..|ops| - 1];
      forall n | 0 <= n <= |before|
        ensures k in After(q, before[..n]).queues
      {
        assert before[..n] == ops[..n];
      }
    }
  }

  lemma ContinuouslyAt<T>(q: Queue<T>, ops: seq<Op<T>>, op: Op<T>, k: Key, n: nat)
    requires WellFormed(q) && PositiveWeights(ops) && Continuously(q, ops, k)
    requires PositiveWeights(ops + [op]) && k in After(q, ops + [op]).queues && n <= |ops + [op]|
    ensures k in After(q, (ops + [op])[..n]).queues
  {
    hide WellFormed, Step, After;
    if n <= |ops| {
      assert (ops + [op])[..n] == ops[..n];
    } else {
      assert (ops + [op])[..n] == ops + [op];
    }
  }

  lemma ContinuouslyAfter<T>(q: Queue<T>, ops: seq<Op<T>>, op: Op<T>, k: Key)
    requires WellFormed(q) && PositiveWeights(ops) && Continuously(q, ops, k)
    requires PositiveWeights(ops + [op]) && k in After(q, ops + [op]).queues
    ensures Continuously(q, ops + [op], k)
  {
    hide WellFormed, Step, After;
    forall n | 0 <= n <= |ops + [op]|
      ensures k in After(q, (ops + [op])[..n]).queues
    {
      ContinuouslyAt(q, ops, op, k, n);
    }
  }

  /** The turns that tenant `k` is given in one step. */
  ghost function TurnsNow<T>(q: Queue<T>, op: Op<T>, k: Key): nat
    requires Structured(q)
  {
    if op.OpPop? then TurnsGiven(q, k) else 0
  }

  ghost function TurnsOver<T>(q: Queue<T>, ops: seq<Op<T>>, k: Key): nat
    requires WellFormed(q) && PositiveWeights(ops)
  {
    if ops == [] then 0
    else TurnsOver(q, ops[..|ops| - 1], k) + TurnsNow(After(q, ops[..|ops| - 1]), ops[|ops| - 1], k)
  }

  // ----- Credit is conserved -----

  /** The queue in which a pop serves, tenant by tenant, whatever the weights. */
  lemma ServedEntry<T>(q: Queue<T>, k: Key)
    requires WellFormed(q) && q.active != [] && k in q.queues
    ensures k in Served(q).queues
    ensures Served(q).queues[k] == q.queues[k].(deficit := Credit(q.queues[k], TurnsGiven(q, k)))
  {
    hide Need, Winner, Rotated, Total;
  }

  /** Serving costs the front tenant one credit and nobody else any. */
  lemma ServeCosts<T>(q: Queue<T>, k: Key)
    requires ReadyToServe(q) && k in q.queues
    ensures k in Serve(q).0.queues ==>
      Serve(q).0.queues[k].weight == q.queues[k].weight
      && Serve(q).0.queues[k].deficit == q.queues[k].deficit - if k == q.active[0] then 1.0 else 0.0
  {
  }

  lemma StepCredit<T>(q: Queue<T>, op: Op<T>, k: Key)
    requires WellFormed(q) && (op.OpPush? ==> op.weight > 0.0) && k in q.queues
    ensures |PoppedNow(q, op, k)| as real <= Credit(q.queues[k], TurnsNow(q, op, k))
    ensures k in Step(q, op).0.queues ==>
      var t, t' := q.queues[k], Step(q, op).0.queues[k];
      && t'.weight == t.weight
      && t'.deficit == Credit(t, TurnsNow(q, op, k)) - |PoppedNow(q, op, k)| as real
  {
    hide Need, Winner, Total, Serve, Rounds, TurnsGiven, Rotated, Granted;
    if op.OpPush? {
      assert Credit(q.queues[k], 0) == q.queues[k].deficit;
    } else {
      PopServes(q);
      PopEffect(q, q.active[ServedIndex(q)]);
      ServedEntry(q, k);
      ServeCosts(Served(q), k);
      hide Served, FairQueueSpec.Pop, ServedIndex;
    }
  }

  lemma {:induction false} CreditSum<T>(t: TenantQueue<T>, t': TenantQueue<T>, a: nat, b: nat, s: real)
    requires t'.weight == t.weight && t'.deficit == Credit(t, a) - s
    ensures Credit(t', b) == Credit(t, a + b) - s
  {
    if b > 0 { CreditSum(t, t', a, b - 1, s); }
  }

  /** A dispatch costs one credit, a turn earns the weight, and nothing else changes a tenant's credit. */
  lemma {:induction false} CreditConserved<T>(q: Queue<T>, ops: seq<Op<T>>, k: Key)
    requires WellFormed(q) && PositiveWeights(ops) && Continuously(q, ops, k)
    ensures k in q.queues && k in After(q, ops).queues
    ensures var t, t' := q.queues[k], After(q, ops).queues[k];
      && t'.weight == t.weight
      && t'.deficit == Credit(t, TurnsOver(q, ops, k)) - |PoppedItems(q, ops, k)| as real
  {
    hide Structured, Credited, Step, TurnsNow, PoppedNow, Continuously;
    ContinuouslyBefore(q, ops, k);
    if ops != [] {
      var before, op := ops[..|ops| - 1], ops[|ops| - 1];
      var now := After(q, before);
      ContinuouslyBefore(q, before, k);
      CreditConserved(q, before, k);
      StepCredit(now, op, k);
      CreditSum(q.queues[k], now.queues[k], TurnsOver(q, before, k), TurnsNow(now, op, k), |PoppedItems(q, before, k)| as real);
    }
  }

  // ----- A newcomer starts from nothing -----

  /** A tenant with nothing queued that comes in with a weight. */
  ghost predicate ComesIn<T>(q: Queue<T>, op: Op<T>) {
    WellFormed(q) && op.OpPush? && op.key !in q.queues && op.weight > 0.0 && q.len < q.capacity
  }

  lemma Newcomer<T>(q: Queue<T>, op: Op<T>)
    requires ComesIn(q, op)
    ensures var q' := Step(q, op).0;
      && op.key in q'.queues && q'.queues[op.key].weight == op.weight && q'.queues[op.key].deficit == 0.0
      && q'.active != [] && q'.active[|q'.active| - 1] == op.key
  {
    hide Total;
  }

  lemma CreditFromNothing<T>(t: TenantQueue<T>, turns: nat)
    requires t.deficit == 0.0
    ensures Credit(t, turns) == turns as real * t.weight
  {
    CreditIs(t, turns);
  }

  /**
   From the push that brings a tenant in, whatever it had been served before,
   all its credit is from turns since: as long as it stays queued it holds its
   turns times its weight less the items served.
   */
  lemma JoinsWithoutCredit<T>(q: Queue<T>, op: Op<T>, ops: seq<Op<T>>)
    requires ComesIn(q, op)
    requires PositiveWeights(ops) && Continuously(Step(q, op).0, ops, op.key)
    ensures var q', k := Step(q, op).0, op.key;
      var turns, served := TurnsOver(q', ops, k) as real, |PoppedItems(q', ops, k)| as real;
      && k in After(q', ops).queues
      && After(q', ops).queues[k].deficit == turns * op.weight - served
      && served <= turns * op.weight
  {
    hide Step, TurnsOver, PoppedItems, Continuously, Structured, After;
    var q', k := Step(q, op).0, op.key;
    Newcomer(q, op);
    CreditConserved(q', ops, k);
    CreditFromNothing(q'.queues[k], TurnsOver(q', ops, k));
  }

  lemma OneMoreTurns<T>(q: Queue<T>, ops: seq<Op<T>>, op: Op<T>, k: Key)
    requires WellFormed(q) && PositiveWeights(ops) && PositiveWeights(ops + [op])
    ensures op.OpPush? ==> op.weight > 0.0
    ensures TurnsOver(q, ops + [op], k) == TurnsOver(q, ops, k) + TurnsNow(After(q, ops), op, k)
    ensures |PoppedItems(q, ops + [op], k)| == |PoppedItems(q, ops, k)| + |PoppedNow(After(q, ops), op, k)|
  {
    hide Step, TurnsNow, PoppedNow, Structured, After;
    assert (ops + [op])[..|ops + [op]| - 1] == ops && (ops + [op])[|ops|] == op;
  }

  /** And over its whole stay, the operation that empties its queue included, it is served no more than its turns earned. */
  lemma StayWithinTurns<T>(q: Queue<T>, op: Op<T>, ops: seq<Op<T>>, last: Op<T>)
    requires ComesIn(q, op)
    requires PositiveWeights(ops) && PositiveWeights(ops + [last]) && Continuously(Step(q, op).0, ops, op.key)
    ensures var q', k := Step(q, op).0, op.key;
      |PoppedItems(q', ops + [last], k)| as real <= TurnsOver(q', ops + [last], k) as real * op.weight
  {
    hide Step, TurnsNow, PoppedNow, Continuously, Structured, Credited, After, Credit, TurnsOver, PoppedItems;
    Newcomer(q, op);
    var q', k := Step(q, op).0, op.key;
    var now := After(q', ops);
    var t, turns, more := q'.queues[k], TurnsOver(q', ops, k), TurnsNow(now, last, k);
    OneMoreTurns(q', ops, last, k);
    CreditConserved(q', ops, k);
    StepCredit(now, last, k);
    CreditSum(t, now.queues[k], turns, more, |PoppedItems(q', ops, k)| as real);
    CreditFromNothing(t, turns + more);
  }

  /** A tenant that comes in needs as many turns as its weight takes to earn one credit: a paid one one, a free one two. */
  lemma NewcomerNeed<T>(q: Queue<T>, op: Op<T>)
    requires ComesIn(q, op)
    ensures var q' := Step(q, op).0;
      && op.key in q'.queues && q'.queues[op.key].weight > 0.0
      && Need(q'.queues[op.key]) == Ceil(1.0 / op.weight)
      && (op.weight == Paid.Weight() ==> Need(q'.queues[op.key]) == 1)
      && (op.weight == Free.Weight() ==> Need(q'.queues[op.key]) == 2)
  {
    hide Step, Need;
    Newcomer(q, op);
    var t := Step(q, op).0.queues[op.key];
    LeastTurns(t);
  }

  lemma CeilBounds(x: real)
    ensures (Ceil(x) - 1) as real < x <= Ceil(x) as real
  {
  }

  lemma BelowQuotient(y: real, x: real, w: real)
    requires w > 0.0 && y < x
    ensures y * w < x * w
  {
  }

  /** From nothing, one credit takes as many turns as its quotient by the weight. */
  lemma EarnsBy<T>(t: TenantQueue<T>, r: nat)
    requires t.weight > 0.0 && t.deficit == 0.0
    ensures Credit(t, r) >= 1.0 <==> r as real >= 1.0 / t.weight
  {
    hide Credit;
    var x := 1.0 / t.weight;
    Quotient(1.0, t.weight);
    CreditFromNothing(t, r);
    if r as real >= x {
      MulMonotone(x, r as real, t.weight);
    } else {
      BelowQuotient(r as real, x, t.weight);
    }
  }

  lemma LeastTurns<T>(t: TenantQueue<T>)
    requires t.weight > 0.0 && t.deficit == 0.0
    ensures Need(t) == Ceil(1.0 / t.weight)
  {
    hide Need, Credit, Ceil;
    var c := Ceil(1.0 / t.weight);
    CeilBounds(1.0 / t.weight);
    EarnsBy(t, 0);
    assert Credit(t, 0) == 0.0 by { CreditFromNothing(t, 0); }
    assert c >= 1;
    EarnsBy(t, c);
    NeedIsLeast(t, c);
    if c > 1 {
      EarnsBy(t, c - 1);
      NeedIsLeast(t, c - 1);
    }
  }

  // ----- The rotation keeps turns in step -----

  function Position(keys: seq<Key>, k: Key): (i: nat)
    requires k in keys
    ensures i < |keys| && keys[i] == k
  {
    if keys[0] == k then 0 else 1 + Position(keys[1..], k)
  }

  lemma PositionUnique(keys: seq<Key>, k: Key, i: nat)
    requires NoDuplicates(keys) && i < |keys| && keys[i] == k
    ensures Position(keys, k) == i
  {
  }

  lemma RotationPosition(keys: seq<Key>, p: nat, last: seq<Key>, k: Key)
    requires NoDuplicates(keys) && p < |keys| && k in keys
    requires last == [] || last == [keys[p]]
    requires k == keys[p] ==> last != []
    ensures var after, x, n := keys[p + 1..] + keys[..p] + last, Position(keys, k), |keys|;
      && k in after
      && (NoDuplicates(after) ==>
            Position(after, k) == if x > p then x - p - 1 else if x < p then n - p - 1 + x else n - 1)
  {
    var after, x, n := keys[p + 1..] + keys[..p] + last, Position(keys, k), |keys|;
    var y := if x > p then x - p - 1 else if x < p then n - p - 1 + x else n - 1;
    assert y < |after| && after[y] == k;
    if NoDuplicates(after) { PositionUnique(after, k, y); }
  }

  lemma AmongFirst(keys: seq<Key>, p: nat, k: Key)
    requires NoDuplicates(keys) && p < |keys| && k in keys
    ensures k in keys[..p + 1] <==> Position(keys, k) <= p
  {
    if k in keys[..p + 1] {
      var i :| 0 <= i <= p && keys[i] == k;
      PositionUnique(keys, k, i);
    }
  }

  /** Where a pop moves a tenant, by position. */
  lemma PositionAfterPop<T>(q: Queue<T>, k: Key)
    requires Light(q) && q.active != [] && k in q.queues && q.len > 0 && k in Pop(q).0.queues
    ensures k in Pop(q).0.active
    ensures var x, p, n := Position(q.active, k), ServedIndex(q), |q.active|;
      Position(Pop(q).0.active, k) == if x > p then x - p - 1 else if x < p then n - p - 1 + x else n - 1
  {
    hide Need, Winner, Pop, Total, Credit, Rounds, NoDuplicates, Position, TurnsGiven, Credited;
    LightPop(q);
    PopWellFormed(q);
    var p := ServedIndex(q);
    RotationPosition(q.active, p, if |q.queues[q.active[p]].items| == 1 then [] else [q.active[p]], k);
  }

  /** How many turns a pop gives a tenant, by position. */
  lemma TurnsByPosition<T>(q: Queue<T>, k: Key)
    requires Light(q) && k in q.active
    ensures TurnsGiven(q, k) == if Position(q.active, k) <= ServedIndex(q) then Rounds(q) else Rounds(q) - 1
  {
    hide Need, Winner, Rounds;
    AmongFirst(q.active, ServedIndex(q), k);
  }

  /** 1 if tenant `i` comes before tenant `j` in the rotation, otherwise 0. */
  ghost function Ahead<T>(q: Queue<T>, i: Key, j: Key): int
    requires i in q.active && j in q.active
  {
    if Position(q.active, i) < Position(q.active, j) then 1 else 0
  }

  lemma StepOrder<T>(q: Queue<T>, op: Op<T>, i: Key, j: Key)
    requires Light(q) && (op.OpPush? ==> 0.0 < op.weight <= 1.0) && i != j
    requires i in q.active && j in q.active && i in Step(q, op).0.active && j in Step(q, op).0.active
    ensures TurnsNow(q, op, i) - TurnsNow(q, op, j) == Ahead(q, i, j) - Ahead(Step(q, op).0, i, j)
  {
    hide Need, Winner, Pop, Total, Credit, Rounds, TurnsGiven, Position, ServedIndex;
    match op
    case OpPush(key, weight, item) =>
      PushWellFormed(q, key, weight, item);
      var after := Push(q, key, weight, item).0.active;
      PositionUnique(after, i, Position(q.active, i));
      PositionUnique(after, j, Position(q.active, j));
    case OpPop =>
      LenPositive(q);
      PopWellFormed(q);
      PositionAfterPop(q, i);
      PositionAfterPop(q, j);
      TurnsByPosition(q, i);
      TurnsByPosition(q, j);
  }

  /** Two tenants that stay queued are given the same number of turns, give or take the one that is ahead. */
  lemma {:induction false} TurnsInStep<T>(q: Queue<T>, ops: seq<Op<T>>, i: Key, j: Key)
    requires Light(q) && LightWeights(ops) && i != j
    requires Continuously(q, ops, i) && Continuously(q, ops, j)
    ensures i in q.active && j in q.active && i in After(q, ops).active && j in After(q, ops).active
    ensures TurnsOver(q, ops, i) - TurnsOver(q, ops, j) == Ahead(q, i, j) - Ahead(After(q, ops), i, j)
  {
    hide Credited, Step, TurnsNow, Ahead, Continuously;
    ContinuouslyBefore(q, ops, i);
    ContinuouslyBefore(q, ops, j);
    AfterLight(q, ops);
    if ops != [] {
      var before := ops[..|ops| - 1];
      TurnsInStep(q, before, i, j);
      AfterLight(q, before);
      StepOrder(After(q, before), ops[|ops| - 1], i, j);
    }
  }

  // ----- Weighted fairness -----

  /** How often tenant `k` was served in a window. */
  ghost function Share<T>(q: Queue<T>, ops: seq<Op<T>>, k: Key): nat
    requires WellFormed(q) && PositiveWeights(ops)
  {
    |PoppedItems(q, ops, k)|
  }

  lemma DivideShare<T>(t: TenantQueue<T>, d': real, turns: nat, s: nat)
    requires 0.0 < t.weight && 0.0 <= t.deficit < 1.0 && 0.0 <= d' < 1.0
    requires d' == Credit(t, turns) - s as real
    ensures turns as real - 1.0 / t.weight < s as real / t.weight < turns as real + 1.0 / t.weight
  {
    CreditIs(t, turns);
    hide Credit;
    Quotient(s as real, t.weight);
    Quotient(1.0, t.weight);
    WithinUnit(t.weight, 1.0 / t.weight, turns as real, s as real / t.weight);
  }

  lemma WithinUnit(w: real, u: real, turns: real, x: real)
    requires 0.0 < w && u * w == 1.0 && -1.0 < turns * w - x * w < 1.0
    ensures turns - u < x < turns + u
  {
    assert (turns - x) * w == turns * w - x * w;
    assert (x - turns) * w == x * w - turns * w;
    if turns - x >= u { MulMonotone(u, turns - x, w); }
    if x - turns >= u { MulMonotone(u, x - turns, w); }
  }

  /** A tenant's share, per unit of weight, is within 1/weight of the turns that it was given. */
  lemma ShareFollowsTurns<T>(q: Queue<T>, ops: seq<Op<T>>, k: Key)
    requires Light(q) && LightWeights(ops) && Continuously(q, ops, k)
    ensures k in q.queues && q.queues[k].weight > 0.0
    ensures var w, s, turns := q.queues[k].weight, Share(q, ops, k) as real, TurnsOver(q, ops, k) as real;
      turns - 1.0 / w < s / w < turns + 1.0 / w
  {
    hide Continuously, TurnsOver, PoppedItems, Total, Credit, After;
    CreditConserved(q, ops, k);
    AfterLight(q, ops);
    DivideShare(q.queues[k], After(q, ops).queues[k].deficit, TurnsOver(q, ops, k), Share(q, ops, k));
  }

  /**
   Over any window in which tenants `i` and `j` stay queued, whatever else is
   pushed and popped meanwhile, their shares are in proportion to their weights.
   */
  lemma WeightedFairness<T>(q: Queue<T>, ops: seq<Op<T>>, i: Key, j: Key)
    requires Light(q) && LightWeights(ops) && i != j
    requires Continuously(q, ops, i) && Continuously(q, ops, j)
    ensures i in q.queues && j in q.queues && q.queues[i].weight > 0.0 && q.queues[j].weight > 0.0
    ensures var wi, wj := q.queues[i].weight, q.queues[j].weight;
      var bound := 1.0 + 1.0 / wi + 1.0 / wj;
      -bound < Share(q, ops, i) as real / wi - Share(q, ops, j) as real / wj < bound
  {
    hide WellFormed, Continuously, Share, TurnsOver;
    ShareFollowsTurns(q, ops, i);
    ShareFollowsTurns(q, ops, j);
    TurnsInStep(q, ops, i, j);
    var ti: int, tj: int := TurnsOver(q, ops, i), TurnsOver(q, ops, j);
    assert -1 <= ti - tj <= 1;
    assert ti as real - tj as real == (ti - tj) as real;
  }

  // ----- The two tiers -----

  predicate TierWeights<T>(ops: seq<Op<T>>) {
    forall i :: 0 <= i < |ops| && ops[i].OpPush? ==> ops[i].weight == Free.Weight() || ops[i].weight == Paid.Weight()
  }

  /** Between calls a paid tenant holds no credit and a free tenant none or one half. */
  ghost predicate TierCredit<T>(t: TenantQueue<T>) {
    || (t.weight == Paid.Weight() && t.deficit == 0.0)
    || (t.weight == Free.Weight() && (t.deficit == 0.0 || t.deficit == 0.5))
  }

  ghost predicate InTiers<T>(q: Queue<T>) {
    Light(q) && forall k :: k in q.queues ==> TierCredit(q.queues[k])
  }

  lemma TierCreditStep<T>(t: TenantQueue<T>, turns: nat, s: nat, t': TenantQueue<T>)
    requires TierCredit(t) && t'.weight == t.weight
    requires t'.deficit == Credit(t, turns) - s as real && 0.0 <= t'.deficit < 1.0
    ensures TierCredit(t')
    ensures t.weight == Paid.Weight() ==> s == turns
    ensures t.weight == Free.Weight() ==> -1 <= turns as int - 2 * s <= 1
  {
    CreditIs(t, turns);
    var rest: int := turns - s;
    var rest2: int := turns - 2 * s;
    if t.weight == Paid.Weight() {
      assert t'.deficit == rest as real;
    } else {
      assert 2.0 * t'.deficit == 2.0 * t.deficit + rest2 as real;
      assert 2.0 * t.deficit == 0.0 || 2.0 * t.deficit == 1.0;
    }
  }

  lemma StepInTiers<T>(q: Queue<T>, op: Op<T>)
    requires InTiers(q) && (op.OpPush? ==> op.weight == Free.Weight() || op.weight == Paid.Weight())
    ensures InTiers(Step(q, op).0)
  {
    hide Need, Winner, Total, Serve, Granted, Rounds, TurnsGiven, Credit;
    StepLight(q, op);
    LenPositive(q);
    if op.OpPop? && q.active != [] { PopKeepsKeys(q); }
    var q' := Step(q, op).0;
    forall k | k in q'.queues
      ensures TierCredit(q'.queues[k])
    {
      if k in q.queues {
        StepCredit(q, op, k);
        TierCreditStep(q.queues[k], TurnsNow(q, op, k), |PoppedNow(q, op, k)|, q'.queues[k]);
      }
    }
  }

  lemma EmptyInTiers<T>(capacity: nat)
    ensures InTiers(Empty<T>(capacity))
  {
  }

  /** Every queue that the gateway can reach. */
  lemma {:induction false} AfterInTiers<T>(q: Queue<T>, ops: seq<Op<T>>)
    requires InTiers(q) && TierWeights(ops)
    ensures InTiers(After(q, ops))
  {
    hide Structured, Credited, TierCredit, Step;
    if ops != [] {
      AfterInTiers(q, ops[..|ops| - 1]);
      StepInTiers(After(q, ops[..|ops| - 1]), ops[|ops| - 1]);
    }
  }

  /** A paid tenant's share is its turns; a free tenant's is half of them, give or take one turn. */
  lemma TierShare<T>(q: Queue<T>, ops: seq<Op<T>>, k: Key)
    requires InTiers(q) && TierWeights(ops) && Continuously(q, ops, k)
    ensures k in q.queues
    ensures q.queues[k].weight == Paid.Weight() ==> Share(q, ops, k) == TurnsOver(q, ops, k)
    ensures q.queues[k].weight == Free.Weight() ==> -1 <= TurnsOver(q, ops, k) as int - 2 * Share(q, ops, k) <= 1
  {
    hide Continuously, TurnsOver, PoppedItems, Total, Credit, TierCredit, After;
    CreditConserved(q, ops, k);
    AfterLight(q, ops);
    TierCreditStep(q.queues[k], TurnsOver(q, ops, k), Share(q, ops, k), After(q, ops).queues[k]);
  }

  /**
   Over any window in which both stay queued, a paid tenant is served twice as
   often as a free one, give or take two dispatches, and two tenants of one
   tier equally often, give or take one.
   */
  lemma TierFairness<T>(q: Queue<T>, ops: seq<Op<T>>, i: Key, j: Key)
    requires InTiers(q) && TierWeights(ops) && i != j
    requires Continuously(q, ops, i) && Continuously(q, ops, j)
    ensures i in q.queues && j in q.queues
    ensures var wi, wj, si: int, sj: int := q.queues[i].weight, q.queues[j].weight, Share(q, ops, i), Share(q, ops, j);
      && (wi == Paid.Weight() && wj == Free.Weight() ==> -2 <= si - 2 * sj <= 2)
      && (wi == wj ==> -1 <= si - sj <= 1)
  {
    hide After, Continuously, TurnsOver, Share, Structured, Credited, Total, Position;
    TierShare(q, ops, i);
    TierShare(q, ops, j);
    TurnsInStep(q, ops, i, j);
    var ti: int, tj: int, si: int, sj: int := TurnsOver(q, ops, i), TurnsOver(q, ops, j), Share(q, ops, i), Share(q, ops, j);
    assert -1 <= ti - tj <= 1;
  }

  // ----- Bounded wait -----

  /**
   An upper bound on the pops of others before tenant `k` is served, while at
   most `n` tenants are queued at once: those ahead of it in the rotation, and
   one pop of everybody else for each further turn that it needs.
   */
  ghost function Wait<T>(q: Queue<T>, k: Key, n: int): int
    requires Structured(q) && k in q.queues
  {
    Span(Position(q.active, k), Need(q.queues[k]), n)
  }

  /** Pops of others until the turn that pays: `ahead` now, and `n - 1` for each turn before it. */
  function Span(ahead: int, need: int, n: int): int { ahead + (need - 1) * (n - 1) }

  /** Turns that do not suffice to pay count towards the need. */
  lemma NeedAfterTurns<T>(t: TenantQueue<T>, g: nat, t': TenantQueue<T>)
    requires t.weight > 0.0 && t'.weight == t.weight && t'.deficit == Credit(t, g)
    requires g < Need(t)
    ensures Need(t') == Need(t) - g
  {
    var n := Need(t);
    CreditSum(t, t', g, n - g, 0.0);
    NeedIsLeast(t', n - g);
    if n - g > 1 {
      CreditSum(t, t', g, n - g - 1, 0.0);
      NeedIsLeast(t', n - g - 1);
    }
  }

  /** A tenant passed over by a pop was given too few turns to pay. */
  lemma PassedOverNeeds<T>(q: Queue<T>, k: Key)
    requires Light(q) && k in q.active && k != q.active[ServedIndex(q)]
    ensures TurnsGiven(q, k) < Need(q.queues[k])
    ensures Rounds(q) >= 1
  {
    var x, p, m := Position(q.active, k), ServedIndex(q), Rounds(q);
    TurnsByPosition(q, k);
    WinnerPaysFirst(q);
    if TurnsGiven(q, k) > 0 { NeedIsLeast(q.queues[k], TurnsGiven(q, k)); }
  }

  /** What a pop that serves somebody else does to tenant `k`'s need. */
  lemma NeedAfterPop<T>(q: Queue<T>, k: Key)
    requires Light(q) && k in q.queues && k != q.active[ServedIndex(q)]
    ensures q.len > 0 && Light(Pop(q).0) && k in Pop(q).0.queues
    ensures Need(Pop(q).0.queues[k]) == Need(q.queues[k]) - TurnsGiven(q, k)
  {
    hide Need, Winner, Rounds, Serve, Granted, Total, Credit, Position, TurnsGiven, NoDuplicates, FairQueueSpec.Pop, RotationAfter;
    LightPop(q);
    StepLight(q, OpPop);
    PassedOverNeeds(q, k);
    NeedAfterTurns(q.queues[k], TurnsGiven(q, k), Pop(q).0.queues[k]);
  }

  /** Every pop that serves somebody else brings tenant `k` closer to being served. */
  lemma PopShortensWait<T>(q: Queue<T>, k: Key, n: int)
    requires Light(q) && k in q.queues && |q.active| <= n
    requires k != q.active[ServedIndex(q)]
    ensures q.len > 0 && k in Pop(q).0.queues
    ensures Light(Pop(q).0)
    ensures Wait(Pop(q).0, k, n) < Wait(q, k, n)
  {
    hide Need, Winner, Rounds, Credit, Position, TurnsGiven, Credited, NoDuplicates, Span, FairQueueSpec.Pop;
    NeedAfterPop(q, k);
    PositionAfterPop(q, k);
    TurnsByPosition(q, k);
    PassedOverNeeds(q, k);
    WaitDrops(Position(q.active, k), ServedIndex(q), |q.active|, n, Need(q.queues[k]), Rounds(q), TurnsGiven(q, k));
  }

  lemma WaitDrops(x: int, p: int, size: int, n: int, need: int, m: int, g: int)
    requires 0 <= x < size <= n && 0 <= p < size && x != p
    requires m >= 1 && g == (if x <= p then m else m - 1)
    ensures Span(if x > p then x - p - 1 else size - p - 1 + x, need - g, n) < Span(x, need, n)
  {
    assert (need - g - 1) * (n - 1) == (need - 1) * (n - 1) - g * (n - 1);
    if x < p { MulAtLeast(g, n - 1); } else { MulNonNegative(g, n - 1); }
  }

  lemma MulNonNegative(g: int, n: int)
    requires g >= 0 && n >= 0
    ensures g * n >= 0
  {
  }

  lemma MulAtLeast(g: int, n: int)
    requires g >= 1 && n >= 0
    ensures g * n >= n
  {
    assert g * n == (g - 1) * n + n;
    MulNonNegative(g - 1, n);
  }

  /** At most `n` tenants are queued at every moment of the window. */
  ghost predicate AtMost<T>(q: Queue<T>, ops: seq<Op<T>>, n: nat)
    requires WellFormed(q) && PositiveWeights(ops)
  {
    forall i :: 0 <= i <= |ops| ==> |After(q, ops[..i]).active| <= n
  }

  lemma AtMostBefore<T>(q: Queue<T>, ops: seq<Op<T>>, n: nat)
    requires WellFormed(q) && PositiveWeights(ops) && AtMost(q, ops, n)
    ensures |After(q, ops).active| <= n
    ensures ops != [] ==> AtMost(q, ops[..|ops| - 1], n)
  {
    hide WellFormed, Step, After;
    assert ops[..|ops|] == ops;
    if ops != [] {
      var before := ops[..|ops| - 1];
      forall i | 0 <= i <= |before|
        ensures |After(q, before[..i]).active| <= n
      {
        assert before[..i] == ops[..i];
      }
    }
  }

  function Pops<T>(ops: seq<Op<T>>): nat {
    if ops == [] then 0 else Pops(ops[..|ops| - 1]) + if ops[|ops| - 1].OpPop? then 1 else 0
  }

  lemma StepShortensWait<T>(q: Queue<T>, op: Op<T>, k: Key, n: int)
    requires Light(q) && (op.OpPush? ==> 0.0 < op.weight <= 1.0)
    requires k in q.queues && |q.active| <= n && PoppedNow(q, op, k) == []
    ensures k in Step(q, op).0.queues
    ensures Wait(Step(q, op).0, k, n) + (if op.OpPop? then 1 else 0) <= Wait(q, k, n)
  {
    hide Need, Winner, Rounds, Serve, Granted, Total, Position, ServedIndex;
    match op
    case OpPush(key, weight, item) =>
      PushWellFormed(q, key, weight, item);
      PositionUnique(Push(q, key, weight, item).0.active, k, Position(q.active, k));
      assert Need(Step(q, op).0.queues[k]) == Need(q.queues[k]) by { NeedAfterTurns(q.queues[k], 0, Step(q, op).0.queues[k]); }
    case OpPop =>
      LenPositive(q);
      PopEffect(q, k);
      PopShortensWait(q, k, n);
  }

  /** The need of a tenant that starts from nothing: no tenant of this weight ever needs more turns. */
  function LongestNeed<T>(t: TenantQueue<T>): nat
    requires t.weight > 0.0
  {
    Need(t.(items := [], deficit := 0.0))
  }

  lemma {:induction false} MoreDeficitMoreCredit<T>(t: TenantQueue<T>, t': TenantQueue<T>, r: nat)
    requires t.weight == t'.weight && t.deficit <= t'.deficit
    ensures Credit(t, r) <= Credit(t', r)
  {
    if r > 0 { MoreDeficitMoreCredit(t, t', r - 1); }
  }

  lemma NeedAtMostLongest<T>(t: TenantQueue<T>)
    requires t.weight > 0.0 && t.deficit >= 0.0
    ensures 1 <= Need(t) <= LongestNeed(t)
  {
    var t0, m := t.(items := [], deficit := 0.0), LongestNeed(t);
    MoreDeficitMoreCredit(t0, t, m);
    NeedIsLeast(t, m);
  }

  /** What each service costs a tenant that stays queued: the service itself, and a full wait from the back. */
  function Cycle<T>(t: TenantQueue<T>, n: int): int
    requires t.weight > 0.0
  {
    1 + LongestNeed(t) * (n - 1)
  }

  /** A tenant that has been served and stays queued is at the back. */
  lemma ServedWait<T>(q: Queue<T>, k: Key, n: int)
    requires Light(q) && q.active != [] && k == q.active[ServedIndex(q)] && |q.active| <= n
    requires q.len > 0 && k in Pop(q).0.queues
    ensures Light(Pop(q).0) && k in q.queues && Wait(Pop(q).0, k, n) + 1 <= Cycle(q.queues[k], n)
  {
    hide Need, Winner, Rounds, Credit, Position, NoDuplicates, FairQueueSpec.Pop, TurnsGiven, LongestNeed;
    ServedToBack(q, k);
    var t', need := Pop(q).0.queues[k], LongestNeed(q.queues[k]);
    NeedAtMostLongest(t');
    SameLongest(q.queues[k], t');
    MulAtMost(Need(t'), need, n - 1);
    assert Wait(Pop(q).0, k, n) == Span(|q.active| - 1, Need(t'), n);
  }

  lemma SameLongest<T>(t: TenantQueue<T>, t': TenantQueue<T>)
    requires t.weight > 0.0 && t'.weight == t.weight
    ensures LongestNeed(t') == LongestNeed(t)
  {
  }

  /** Where a pop leaves the tenant that it serves. */
  lemma ServedToBack<T>(q: Queue<T>, k: Key)
    requires Light(q) && q.active != [] && k == q.active[ServedIndex(q)] && q.len > 0 && k in Pop(q).0.queues
    ensures Light(Pop(q).0) && k in q.queues && k in Pop(q).0.active
    ensures Pop(q).0.queues[k].weight == q.queues[k].weight
    ensures Position(Pop(q).0.active, k) == |q.active| - 1
  {
    hide Need, Winner, Rounds, Credit, Position, NoDuplicates, FairQueueSpec.Pop, TurnsGiven, RotationAfter;
    LightPop(q);
    StepLight(q, OpPop);
    PositionUnique(q.active, k, ServedIndex(q));
    PositionAfterPop(q, k);
  }

  lemma MulAtMost(x: int, y: int, n: int)
    requires x <= y && n >= 0
    ensures (x - 1) * n + n <= y * n
  {
    assert (x - 1) * n + n == x * n;
    MulNonNegative(y - x, n);
    assert (y - x) * n == y * n - x * n;
  }

  function Times(x: int, c: int): int { x * c }

  /** One step: a pop for another tenant uses up some of tenant `k`'s wait, a pop for it starts a new one. */
  lemma StepWaits<T>(q: Queue<T>, op: Op<T>, k: Key, n: int)
    requires Light(q) && (op.OpPush? ==> 0.0 < op.weight <= 1.0) && |q.active| <= n
    requires k in q.queues && k in Step(q, op).0.queues
    ensures Step(q, op).0.queues[k].weight == q.queues[k].weight && |PoppedNow(q, op, k)| <= 1
    ensures Wait(Step(q, op).0, k, n) + (if op.OpPop? then 1 else 0)
         <= Wait(q, k, n) + Times(|PoppedNow(q, op, k)|, Cycle(q.queues[k], n))
  {
    hide Need, Winner, Rounds, Serve, Granted, Total, Position, ServedIndex, Credit, Wait, Cycle, TurnsGiven, TurnsNow, Times;
    TimesNothing(Cycle(q.queues[k], n));
    StepCredit(q, op, k);
    if PoppedNow(q, op, k) == [] {
      StepShortensWait(q, op, k, n);
    } else {
      LenPositive(q);
      PopWellFormed(q);
      ServedWait(q, k, n);
      WaitNonNegative(q, k, n);
    }
  }

  /** Tenant `k` is still queued, and every pop has been paid for by its wait or by one of its items. */
  ghost predicate WaitPays<T>(q: Queue<T>, ops: seq<Op<T>>, k: Key, n: nat)
    requires Light(q) && LightWeights(ops) && k in q.queues
  {
    && k in After(q, ops).queues && After(q, ops).queues[k].weight == q.queues[k].weight
    && Wait(After(q, ops), k, n) + Pops(ops) <= Wait(q, k, n) + Times(|PoppedItems(q, ops, k)|, Cycle(q.queues[k], n))
  }

  lemma LastOp<T>(q: Queue<T>, ops: seq<Op<T>>, k: Key)
    requires Light(q) && LightWeights(ops) && ops != []
    ensures var before, op := ops[..|ops| - 1], ops[|ops| - 1];
      && After(q, ops) == Step(After(q, before), op).0
      && Pops(ops) == Pops(before) + (if op.OpPop? then 1 else 0)
      && |PoppedItems(q, ops, k)| == |PoppedItems(q, before, k)| + |PoppedNow(After(q, before), op, k)|
  {
    hide WellFormed, Step, PoppedNow;
  }

  lemma PayStep<T>(
      t: TenantQueue<T>, now: Queue<T>, op: Op<T>, k: Key, n: nat, wait: int, pops: int, served: nat, served': nat)
    requires Light(now) && (op.OpPush? ==> 0.0 < op.weight <= 1.0) && |now.active| <= n
    requires k in now.queues && k in Step(now, op).0.queues && t.weight > 0.0 && now.queues[k].weight == t.weight
    requires Wait(now, k, n) + pops <= wait + Times(served, Cycle(t, n)) && served' == served + |PoppedNow(now, op, k)|
    ensures Step(now, op).0.queues[k].weight == t.weight
    ensures Wait(Step(now, op).0, k, n) + pops + (if op.OpPop? then 1 else 0) <= wait + Times(served', Cycle(t, n))
  {
    hide Step, PoppedNow, Wait, Cycle, Times, Structured, Credited;
    StepWaits(now, op, k, n);
    SameCycle(t, now.queues[k], n);
    MulSum(served, |PoppedNow(now, op, k)|, Cycle(t, n));
  }

  lemma WaitPaysStep<T>(q: Queue<T>, ops: seq<Op<T>>, k: Key, n: nat)
    requires Light(q) && LightWeights(ops) && k in q.queues && ops != []
    requires WaitPays(q, ops[..|ops| - 1], k, n)
    requires k in After(q, ops).queues && |After(q, ops[..|ops| - 1]).active| <= n
    ensures WaitPays(q, ops, k, n)
  {
    var before, op := ops[..|ops| - 1], ops[|ops| - 1];
    PrefixLight(ops);
    AfterLight(q, before);
    assert q.queues[k].weight > 0.0;
    hide LightWeights, PositiveWeights, Light, WellFormed, Structured, Step, PoppedNow, Wait, Cycle, Times, PoppedItems, Pops, After;
    LastOp(q, ops, k);
    PayStep(q.queues[k], After(q, before), op, k, n, Wait(q, k, n), Pops(before),
            |PoppedItems(q, before, k)|, |PoppedItems(q, ops, k)|);
  }

  lemma PrefixLight<T>(ops: seq<Op<T>>)
    requires LightWeights(ops) && ops != []
    ensures LightWeights(ops[..|ops| - 1]) && PositiveWeights(ops[..|ops| - 1]) && PositiveWeights(ops)
    ensures var op := ops[|ops| - 1]; op.OpPush? ==> 0.0 < op.weight <= 1.0
  {
  }

  /** That is so as long as no more than `d` of the items that it had queued have come out. */
  lemma {:induction false} WaitRunsOut<T>(q: Queue<T>, ops: seq<Op<T>>, k: Key, n: nat, d: nat)
    requires Light(q) && LightWeights(ops) && k in q.queues && AtMost(q, ops, n)
    requires |PoppedItems(q, ops, k)| <= d < |q.queues[k].items|
    ensures WaitPays(q, ops, k, n)
  {
    assert q.queues[k].weight > 0.0;
    hide AtMost, Structured, Credited, Step, PoppedNow, Wait, Cycle, Times;
    StaysQueued(q, ops, k, d);
    if ops == [] {
      TimesNothing(Cycle(q.queues[k], n));
    } else {
      hide WaitPays, After;
      var before := ops[..|ops| - 1];
      AtMostBefore(q, ops, n);
      AtMostBefore(q, before, n);
      WaitRunsOut(q, before, k, n, d);
      WaitPaysStep(q, ops, k, n);
    }
  }

  lemma TimesNothing(c: int)
    ensures Times(0, c) == 0 && Times(1, c) == c
  {
  }

  lemma MulSum(x: int, y: int, c: int)
    ensures Times(x + y, c) == Times(x, c) + Times(y, c)
  {
  }

  lemma SameCycle<T>(t: TenantQueue<T>, t': TenantQueue<T>, n: int)
    requires t.weight > 0.0 && t'.weight == t.weight
    ensures Cycle(t', n) == Cycle(t, n)
  {
  }

  /** A tenant stays queued until all that it had queued has come out. */
  lemma StaysQueued<T>(q: Queue<T>, ops: seq<Op<T>>, k: Key, d: nat)
    requires WellFormed(q) && PositiveWeights(ops) && k in q.queues
    requires |PoppedItems(q, ops, k)| <= d < |q.queues[k].items|
    ensures k in After(q, ops).queues
  {
    hide WellFormed, PoppedItems, AcceptedItems, After;
    TenantFifo(q, ops, k);
    assert |Waiting(q, k) + AcceptedItems(q, ops, k)| == |PoppedItems(q, ops, k) + Waiting(After(q, ops), k)|;
  }

  lemma WaitNonNegative<T>(q: Queue<T>, k: Key, n: int)
    requires Structured(q) && k in q.queues && n >= 1
    ensures Wait(q, k, n) >= 0
  {
    MulNonNegative(Need(q.queues[k]) - 1, n - 1);
  }

  /** What comes out of a tenant's queue is what was in it, item by item. */
  lemma PoppedAt<T>(q: Queue<T>, ops: seq<Op<T>>, k: Key, d: nat)
    requires WellFormed(q) && PositiveWeights(ops) && d < |Waiting(q, k)| && d < |PoppedItems(q, ops, k)|
    ensures PoppedItems(q, ops, k)[d] == Waiting(q, k)[d]
  {
    hide WellFormed, PoppedItems, AcceptedItems, Waiting;
    TenantFifo(q, ops, k);
    assert (PoppedItems(q, ops, k) + Waiting(After(q, ops), k))[d] == PoppedItems(q, ops, k)[d];
    assert (Waiting(q, k) + AcceptedItems(q, ops, k))[d] == Waiting(q, k)[d];
  }

  lemma AtMostNonEmpty<T>(q: Queue<T>, ops: seq<Op<T>>, n: nat, k: Key)
    requires WellFormed(q) && PositiveWeights(ops) && AtMost(q, ops, n) && k in After(q, ops).queues
    ensures n >= 1
  {
    hide After, Credited, Total;
    AtMostBefore(q, ops, n);
  }

  /**
   Bounded wait, for every item. The item at depth `d` of tenant `k`'s own queue
   is out after the tenant's wait, one cycle for each item before it, and one
   pop more, whatever is pushed meanwhile and however deep the others' backlogs are.
   */
  lemma BoundedWaitAt<T>(q: Queue<T>, ops: seq<Op<T>>, k: Key, n: nat, d: nat)
    requires Light(q) && LightWeights(ops) && k in q.queues && AtMost(q, ops, n) && d < |q.queues[k].items|
    requires Pops(ops) > Wait(q, k, n) + Times(d, Cycle(q.queues[k], n))
    ensures d < |PoppedItems(q, ops, k)| && PoppedItems(q, ops, k)[d] == q.queues[k].items[d]
  {
    hide Credited, Wait, PoppedItems, AtMost, After, Cycle, Times;
    var m := |PoppedItems(q, ops, k)|;
    if m <= d {
      WaitRunsOut(q, ops, k, n, d);
      AfterLight(q, ops);
      AtMostNonEmpty(q, ops, n, k);
      WaitNonNegative(After(q, ops), k, n);
      CyclePositive(q.queues[k], n);
      MulMore(m, d, Cycle(q.queues[k], n));
      assert false;
    }
    PoppedAt(q, ops, k, d);
  }

  lemma CyclePositive<T>(t: TenantQueue<T>, n: int)
    requires t.weight > 0.0 && n >= 1
    ensures Cycle(t, n) >= 1
  {
    MulNonNegative(LongestNeed(t), n - 1);
  }

  lemma MulMore(x: int, y: int, c: int)
    requires x <= y && c >= 0
    ensures Times(x, c) <= Times(y, c)
  {
    MulNonNegative(y - x, c);
    assert (y - x) * c == y * c - x * c;
  }

  /** For the first item: its tenant's wait, and one pop more. */
  lemma BoundedWait<T>(q: Queue<T>, ops: seq<Op<T>>, k: Key, n: nat)
    requires Light(q) && LightWeights(ops) && k in q.queues && AtMost(q, ops, n)
    requires Pops(ops) > Wait(q, k, n)
    ensures PoppedItems(q, ops, k) != [] && PoppedItems(q, ops, k)[0] == q.queues[k].items[0]
  {
    hide Credited, Wait, PoppedItems, AtMost, Cycle;
    BoundedWaitAt(q, ops, k, n, 0);
  }

  lemma {:induction false} TenantsAtMostItems<T>(keys: seq<Key>, queues: map<Key, TenantQueue<T>>)
    requires forall k :: k in keys ==> k in queues && queues[k].items != []
    ensures |keys| <= Total(keys, queues)
  {
    if keys != [] { TenantsAtMostItems(keys[1..], queues); }
  }

  lemma AtMostCapacity<T>(q: Queue<T>, ops: seq<Op<T>>)
    requires WellFormed(q) && PositiveWeights(ops)
    ensures AtMost(q, ops, q.capacity)
  {
    forall i | 0 <= i <= |ops|
      ensures |After(q, ops[..i]).active| <= q.capacity
    {
      var q' := After(q, ops[..i]);
      hide Credited, Total, After;
      TenantsAtMostItems(q'.active, q'.queues);
    }
  }

  /**
   A tenant of weight 1 at position `p` of the rotation waits for at most the
   `p` tenants ahead of it: its first item comes out by pop number `p + 1`,
   with no bound on tenants or backlogs.
   */
  lemma FullWeightWait<T>(q: Queue<T>, ops: seq<Op<T>>, k: Key)
    requires Light(q) && LightWeights(ops) && k in q.queues && q.queues[k].weight == Paid.Weight()
    requires Pops(ops) > Position(q.active, k)
    ensures PoppedItems(q, ops, k) != [] && PoppedItems(q, ops, k)[0] == q.queues[k].items[0]
  {
    hide Total, AtMost, Pops, PoppedItems;
    AtMostCapacity(q, ops);
    assert Credit(q.queues[k], 1) == q.queues[k].deficit + 1.0;
    NeedIsLeast(q.queues[k], 1);
    BoundedWait(q, ops, k, q.capacity);
  }
}
