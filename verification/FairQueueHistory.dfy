/** Whole histories of pushes and pops: order, conservation and the single-queue mode. */
module FairQueueHistory {
  import opened Prelude
  import opened FairQueueSpec
  import opened FairQueueInvariant

  datatype Op<T> = OpPush(key: Key, weight: real, item: T) | OpPop

  datatype Outcome<T> = Pushed(result: PushResult<T>) | Popped(item: Option<T>)

  /** Every tenant has a positive weight, as every tier's is. */
  predicate PositiveWeights<T>(ops: seq<Op<T>>) {
    forall i :: 0 <= i < |ops| && ops[i].OpPush? ==> ops[i].weight > 0.0
  }

  ghost function Step<T>(q: Queue<T>, op: Op<T>): (r: (Queue<T>, Outcome<T>))
    requires WellFormed(q) && (op.OpPush? ==> op.weight > 0.0)
    ensures WellFormed(r.0) && r.0.capacity == q.capacity
  {
    match op
    case OpPush(key, weight, item) =>
      PushWellFormed(q, key, weight, item);
      var (q', result) := Push(q, key, weight, item);
      (q', Pushed(result))
    case OpPop =>
      PopWellFormed(q);
      var (q', item) := Pop(q);
      (q', Popped(item))
  }

  /** The queue after a history. Structure, credit bounds and capacity hold in every such queue. */
  ghost function After<T>(q: Queue<T>, ops: seq<Op<T>>): (q': Queue<T>)
    requires WellFormed(q) && PositiveWeights(ops)
    ensures WellFormed(q') && q'.capacity == q.capacity
  {
    if ops == [] then q else Step(After(q, ops[..|ops| - 1]), ops[|ops| - 1]).0
  }

  /** What the callers were told. */
  ghost function Outcomes<T>(q: Queue<T>, ops: seq<Op<T>>): seq<Outcome<T>>
    requires WellFormed(q) && PositiveWeights(ops)
  {
    if ops == [] then []
    else
      var before := ops[..|ops| - 1];
      Outcomes(q, before) + [Step(After(q, before), ops[|ops| - 1]).1]
  }

  // ----- One step, tenant by tenant -----

  /** A push adds to the back of one tenant's queue, or changes nothing at all. */
  lemma PushEffect<T>(q: Queue<T>, key: Key, weight: real, item: T, k: Key)
    ensures var (q', r) := Push(q, key, weight, item);
      && (r == Accepted <==> q.len < q.capacity)
      && q'.len == (if r.Accepted? then q.len + 1 else q.len)
      && (r.Accepted? ==> Waiting(q', k) == if k == key then Waiting(q, k) + [item] else Waiting(q, k))
      && (r.Rejected? ==> q' == q && r.item == item)
  {
  }

  /** A pop takes the first item of the tenant served and leaves the others' items alone. */
  lemma PopEffect<T>(q: Queue<T>, k: Key)
    requires WellFormed(q) && q.active != []
    ensures q.len > 0
    ensures var (q', r), s := Pop(q), q.active[ServedIndex(q)];
      && Waiting(q, s) != [] && r == Some(Waiting(q, s)[0])
      && Waiting(q', k) == if k == s then Waiting(q, k)[1..] else Waiting(q, k)
  {
    PopServes(q);
    ServeEffect(Served(q), k);
    ServedItems(q, k);
    ServedItems(q, q.active[ServedIndex(q)]);
  }

  lemma ServeEffect<T>(q: Queue<T>, k: Key)
    requires ReadyToServe(q)
    ensures var (q', r), s := Serve(q), q.active[0];
      && Waiting(q, s) != [] && r == Some(Waiting(q, s)[0])
      && Waiting(q', k) == if k == s then Waiting(q, k)[1..] else Waiting(q, k)
  {
  }

  lemma ServedItems<T>(q: Queue<T>, k: Key)
    requires Structured(q) && q.active != []
    ensures Waiting(Served(q), k) == Waiting(q, k)
  {
    hide Rotated;
  }

  // ----- First in, first out, for every tenant -----

  /** The tenant that a pop serves. */
  ghost function ServedKey<T>(q: Queue<T>): Option<Key>
    requires Structured(q)
  {
    if q.active == [] then None else Some(q.active[ServedIndex(q)])
  }

  /** What one step adds to the back of tenant `k`'s queue. */
  ghost function AcceptedNow<T>(q: Queue<T>, op: Op<T>, k: Key): seq<T>
    requires WellFormed(q) && (op.OpPush? ==> op.weight > 0.0)
  {
    if op.OpPush? && op.key == k && Step(q, op).1.result.Accepted? then [op.item] else []
  }

  /** What one step returns out of tenant `k`'s turn. */
  ghost function PoppedNow<T>(q: Queue<T>, op: Op<T>, k: Key): seq<T>
    requires WellFormed(q) && (op.OpPush? ==> op.weight > 0.0)
  {
    if op.OpPop? && ServedKey(q) == Some(k) && Step(q, op).1.item.Some? then [Step(q, op).1.item.value] else []
  }

  /** The items of tenant `k` accepted during a history, in order. */
  ghost function AcceptedItems<T>(q: Queue<T>, ops: seq<Op<T>>, k: Key): seq<T>
    requires WellFormed(q) && PositiveWeights(ops)
  {
    if ops == [] then []
    else
      var before := ops[..|ops| - 1];
      AcceptedItems(q, before, k) + AcceptedNow(After(q, before), ops[|ops| - 1], k)
  }

  /** The items popped during a history out of turns of tenant `k`, in order. */
  ghost function PoppedItems<T>(q: Queue<T>, ops: seq<Op<T>>, k: Key): seq<T>
    requires WellFormed(q) && PositiveWeights(ops)
  {
    if ops == [] then []
    else
      var before := ops[..|ops| - 1];
      PoppedItems(q, before, k) + PoppedNow(After(q, before), ops[|ops| - 1], k)
  }

  lemma FifoPush<T>(q: Queue<T>, op: Op<T>, k: Key)
    requires WellFormed(q) && op.OpPush? && op.weight > 0.0
    ensures Waiting(q, k) + AcceptedNow(q, op, k) == Waiting(Step(q, op).0, k)
  {
    PushEffect(q, op.key, op.weight, op.item, k);
  }

  lemma FifoPop<T>(q: Queue<T>, op: Op<T>, k: Key)
    requires WellFormed(q) && op.OpPop?
    ensures Waiting(q, k) == PoppedNow(q, op, k) + Waiting(Step(q, op).0, k)
  {
    hide Serve, Rotated, Need, Winner, WithTurns;
    LenPositive(q);
    if q.active != [] {
      PopEffect(q, k);
      if ServedKey(q) == Some(k) {
        assert Waiting(q, k) == [Waiting(q, k)[0]] + Waiting(q, k)[1..];
      }
    }
  }

  lemma FifoStep<T>(q: Queue<T>, op: Op<T>, k: Key)
    requires WellFormed(q) && (op.OpPush? ==> op.weight > 0.0)
    ensures Waiting(q, k) + AcceptedNow(q, op, k) == PoppedNow(q, op, k) + Waiting(Step(q, op).0, k)
  {
    if op.OpPush? {
      FifoPush(q, op, k);
    } else {
      FifoPop(q, op, k);
    }
  }

  lemma Chain<T>(w0: seq<T>, accepted: seq<T>, popped: seq<T>, w1: seq<T>, a: seq<T>, p: seq<T>, w2: seq<T>)
    requires w0 + accepted == popped + w1 && w1 + a == p + w2
    ensures w0 + (accepted + a) == (popped + p) + w2
  {
    assert w0 + (accepted + a) == (w0 + accepted) + a;
    assert (popped + w1) + a == popped + (w1 + a);
    assert popped + (p + w2) == (popped + p) + w2;
  }

  /**
   Nothing is lost, duplicated or reordered, however often the tenant's entry
   is deleted and created anew.
   */
  lemma {:induction false} TenantFifo<T>(q: Queue<T>, ops: seq<Op<T>>, k: Key)
    requires WellFormed(q) && PositiveWeights(ops)
    ensures Waiting(q, k) + AcceptedItems(q, ops, k) == PoppedItems(q, ops, k) + Waiting(After(q, ops), k)
  {
    hide WellFormed, Step, Waiting, AcceptedNow, PoppedNow;
    if ops != [] {
      var before, op := ops[..|ops| - 1], ops[|ops| - 1];
      var now := After(q, before);
      TenantFifo(q, before, k);
      FifoStep(now, op, k);
      Chain(Waiting(q, k), AcceptedItems(q, before, k), PoppedItems(q, before, k), Waiting(now, k),
            AcceptedNow(now, op, k), PoppedNow(now, op, k), Waiting(Step(now, op).0, k));
    }
  }

  // ----- One shared queue -----

  /** A plain bounded queue. */
  function BoundedStep<T>(s: seq<T>, capacity: nat, op: Op<T>): (seq<T>, Outcome<T>) {
    match op
    case OpPush(_, _, item) => if |s| < capacity then (s + [item], Pushed(Accepted)) else (s, Pushed(Rejected(item)))
    case OpPop => if s == [] then (s, Popped(None)) else (s[1..], Popped(Some(s[0])))
  }

  function BoundedAfter<T>(capacity: nat, ops: seq<Op<T>>): seq<T> {
    if ops == [] then [] else BoundedStep(BoundedAfter(capacity, ops[..|ops| - 1]), capacity, ops[|ops| - 1]).0
  }

  function BoundedOutcomes<T>(capacity: nat, ops: seq<Op<T>>): seq<Outcome<T>> {
    if ops == [] then []
    else
      var before := ops[..|ops| - 1];
      BoundedOutcomes(capacity, before) + [BoundedStep(BoundedAfter(capacity, before), capacity, ops[|ops| - 1]).1]
  }

  predicate SharedKey<T>(ops: seq<Op<T>>, key: Key) {
    forall i :: 0 <= i < |ops| && ops[i].OpPush? ==> ops[i].key == key
  }

  /** The simulation relation: at most one tenant, and its items are the bounded queue. */
  ghost predicate Simulates<T>(q: Queue<T>, key: Key, s: seq<T>) {
    && WellFormed(q)
    && (forall k :: k in q.queues ==> k == key)
    && Waiting(q, key) == s
  }

  lemma SingleTenant<T>(q: Queue<T>, key: Key, s: seq<T>)
    requires Simulates(q, key, s)
    ensures q.len == |s|
    ensures q.active == if s == [] then [] else [key]
  {
    if q.active == [] {
      assert key !in q.queues;
    } else {
      assert q.active[0] in q.active && q.active[|q.active| - 1] in q.active;
      if |q.active| > 1 {
        assert false;
      }
      assert q.active == [key] && Total(q.active[1..], q.queues) == 0;
    }
  }

  lemma SimulationStep<T>(q: Queue<T>, key: Key, s: seq<T>, op: Op<T>)
    requires Simulates(q, key, s)
    requires op.OpPush? ==> op.key == key && op.weight > 0.0
    ensures Simulates(Step(q, op).0, key, BoundedStep(s, q.capacity, op).0)
    ensures Step(q, op).1 == BoundedStep(s, q.capacity, op).1
  {
    SingleTenant(q, key, s);
    match op
    case OpPush(_, weight, item) => PushEffect(q, key, weight, item, key);
    case OpPop =>
      if q.active != [] {
        PopEffect(q, key);
        PopKeepsKeys(q);
      }
  }

  lemma PopKeepsKeys<T>(q: Queue<T>)
    requires WellFormed(q) && q.active != []
    ensures q.len > 0
    ensures forall k :: k in Pop(q).0.queues ==> k in q.queues
  {
    hide Rotated, Need, Winner;
    PopServes(q);
  }

  /** With one shared key, deficit round robin is a bounded first-in-first-out queue. */
  lemma {:induction false} SharedKeyIsFifo<T>(capacity: nat, ops: seq<Op<T>>, key: Key)
    requires PositiveWeights(ops) && SharedKey(ops, key)
    ensures Simulates(After(Empty(capacity), ops), key, BoundedAfter(capacity, ops))
    ensures Outcomes(Empty(capacity), ops) == BoundedOutcomes(capacity, ops)
  {
    hide Step, BoundedStep;
    if ops != [] {
      var before := ops[..|ops| - 1];
      SharedKeyIsFifo(capacity, before, key);
      SimulationStep(After(Empty(capacity), before), key, BoundedAfter(capacity, before), ops[|ops| - 1]);
    }
  }
}
