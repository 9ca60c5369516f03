/**
 What the rotation buys the gateway's tenants. The queue of a gateway run goes
 through a history of pushes and pops, so the theorems on such histories hold of
 every window of every run, with handlers, scheduler and dispatch tasks
 interleaved in any way.
 */
module GatewayFairness {
  import opened Prelude
  import opened Tiers
  import opened Tenants
  import opened FairQueueSpec
  import Q = FairQueueHistory
  import D = Fairness
  import opened Gateway
  import opened GatewayInvariant
  import opened GatewaySteps
  import opened GatewaySafety

  // ----- A run is a history of the queue -----

  /** What the step does to the queue. */
  function OpOf(cfg: Config, s: State, a: Action): Option<Q.Op<Rid>> {
    match a
    case Submit(r, _) =>
      if r < |s.requests| then Some(Q.OpPush(QueueKey(cfg, s.requests[r]), KeyWeight(cfg, QueueKey(cfg, s.requests[r])), r)) else None
    case PopNext => Some(Q.OpPop)
    case _ => None
  }

  lemma OpWeight(cfg: Config, s: State, a: Action)
    ensures match OpOf(cfg, s, a)
      case Some(op) =>
        op.OpPush? ==> op.weight == KeyWeight(cfg, op.key) && (op.weight == Free.Weight() || op.weight == Paid.Weight())
      case None => true
  {
  }

  /** The scheduler's pop is a pop of the queue; in fair mode it takes a request of the tenant served. */
  lemma PopIsOp(cfg: Config, s: State)
    requires Inv(cfg, s) && Bounded(s) && s.pc.Pop?
    ensures WellFormed(s.queue) && PopStep(cfg, s).queue == FairQueueSpec.Pop(s.queue).0
    ensures match FairQueueSpec.Pop(s.queue).1
      case Some(r) => r < |s.requests| && Q.ServedKey(s.queue) == Some(QueueKey(cfg, s.requests[r]))
        && r < |PopStep(cfg, s).requests| && PopStep(cfg, s).requests[r].server.Batched?
      case None => s.queue.active == []
  {
    hide Structured, Serve, Granted, ServedIndex, BatchHolds, LogHolds, AccountsBalance, PermitsBalance, SchedulerShape, Sum, DistinctRids;
    if s.queue.active != [] {
      var r := PopHolds(cfg, s.requests, s.queue, s.pc.first);
      var key := s.queue.active[ServedIndex(s.queue)];
      Q.PopEffect(s.queue, key);
      hide FairQueueSpec.Pop;
      assert WaitsAt(s.queue, key, r);
    }
  }

  lemma SubmitIsOp(cfg: Config, s: State, r: Rid, now: real)
    requires r < |s.requests| && s.requests[r].tenant in s.accounts
    ensures SubmitStep(cfg, s, r, now).queue == Push(s.queue, QueueKey(cfg, s.requests[r]), KeyWeight(cfg, QueueKey(cfg, s.requests[r])), r).0
  {
    hide Settlement, QueueKey, KeyWeight;
  }

  lemma OtherIsNoOp(cfg: Config, s: State, a: Action)
    requires Bounded(s) && Enabled(cfg, s, a) && !a.Submit? && !a.PopNext?
    ensures Next(cfg, s, a).queue == s.queue
  {
    hide Structured, Settlement, Admission, FairQueueSpec.Pop, Push, PopStep, SubmitStep;
  }

  lemma StepIsOp(cfg: Config, s: State, a: Action)
    requires Inv(cfg, s) && Bounded(s) && Enabled(cfg, s, a)
    ensures WellFormed(s.queue)
    ensures match OpOf(cfg, s, a)
      case Some(op) => (op.OpPush? ==> op.weight > 0.0) && Next(cfg, s, a).queue == Q.Step(s.queue, op).0
      case None => Next(cfg, s, a).queue == s.queue
  {
    OpWeight(cfg, s, a);
    if a.PopNext? {
      PopIsOp(cfg, s);
    } else if a.Submit? {
      SubmitIsOp(cfg, s, a.r, a.now);
    } else {
      OtherIsNoOp(cfg, s, a);
    }
    hide Bounded, Structured, Credited, FairQueueSpec.Pop, Push, PopStep, SubmitStep, QueueKey, KeyWeight, ItemsHold, BatchHolds, LogHolds, PermitsBalance, AccountsBalance;
  }

  /** The pushes and pops in the first `n` steps of a run. */
  ghost function OpsOf(cfg: Config, states: seq<State>, actions: seq<Action>, n: nat): (ops: seq<Q.Op<Rid>>)
    requires n <= |actions| && n < |states|
    ensures D.TierWeights(ops)
  {
    if n == 0 then []
    else
      OpWeight(cfg, states[n - 1], actions[n - 1]);
      OpsOf(cfg, states, actions, n - 1)
      + match OpOf(cfg, states[n - 1], actions[n - 1]) case Some(op) => [op] case None => []
  }

  /** One more step of a run, as the queue sees it. */
  lemma OneMoreOp(cfg: Config, states: seq<State>, actions: seq<Action>, n: nat)
    requires Run(cfg, states, actions) && Reachable(cfg, states[0]) && 0 < n <= |actions|
    ensures var now, ops := states[n - 1], OpsOf(cfg, states, actions, n - 1);
      && Inv(cfg, now) && WellFormed(now.queue) && StepTo(cfg, now, actions[n - 1], states[n])
      && match OpOf(cfg, now, actions[n - 1])
         case Some(op) => (op.OpPush? ==> op.weight > 0.0) && states[n].queue == Q.Step(now.queue, op).0
           && OpsOf(cfg, states, actions, n) == ops + [op] && (ops + [op])[..|ops|] == ops
         case None => states[n].queue == now.queue && OpsOf(cfg, states, actions, n) == ops
  {
    hide Inv, Reachable, Bounded, Next, Enabled, WellFormed, OpOf;
    RunReachable(cfg, states, actions, n - 1);
    ReachableInv(cfg, states[n - 1]);
    assert StepTo(cfg, states[n - 1], actions[n - 1], states[n]);
    StepIsOp(cfg, states[n - 1], actions[n - 1]);
  }

  lemma StartWellFormed(cfg: Config, s: State)
    requires Reachable(cfg, s)
    ensures WellFormed(s.queue) && s.queue.capacity == cfg.queueDepth
  {
    ReachableInv(cfg, s);
    hide Reachable, Structured, Credited;
  }

  /** At every point of every run the queue is what the queue model makes of the run's pushes and pops. */
  lemma {:induction false} RunIsQueueHistory(cfg: Config, states: seq<State>, actions: seq<Action>, n: nat)
    requires Run(cfg, states, actions) && Reachable(cfg, states[0]) && n <= |actions|
    ensures WellFormed(states[0].queue)
    ensures Q.After(states[0].queue, OpsOf(cfg, states, actions, n)) == states[n].queue
  {
    hide Inv, Reachable, StepTo, Q.Step, WellFormed, OpOf;
    StartWellFormed(cfg, states[0]);
    if n > 0 {
      RunIsQueueHistory(cfg, states, actions, n - 1);
      OneMoreOp(cfg, states, actions, n);
    }
  }

  /** In every run the requests of a key leave the queue in the order in which they entered it, and none is lost. */
  lemma KeysInOrder(cfg: Config, states: seq<State>, actions: seq<Action>, k: Key)
    requires Run(cfg, states, actions) && Initial(cfg, states[0])
    ensures WellFormed(states[0].queue)
    ensures var ops := OpsOf(cfg, states, actions, |actions|);
      Q.AcceptedItems(states[0].queue, ops, k) == Q.PoppedItems(states[0].queue, ops, k) + Waiting(states[|actions|].queue, k)
  {
    var q, ops := states[0].queue, OpsOf(cfg, states, actions, |actions|);
    ReachableInitial(cfg, states[0]);
    RunIsQueueHistory(cfg, states, actions, |actions|);
    assert Waiting(q, k) == [];
    hide Reachable, StepTo, OpsOf, WellFormed, Waiting, Q.AcceptedItems, Q.PoppedItems, Q.After, Q.Step;
    Q.TenantFifo(q, ops, k);
    assert [] + Q.AcceptedItems(q, ops, k) == Q.AcceptedItems(q, ops, k);
  }

  // ----- The tenants' weights -----

  ghost predicate Weighed(cfg: Config, q: Queue<Rid>) {
    forall k :: k in q.queues ==> q.queues[k].weight == KeyWeight(cfg, k)
  }

  /** Every tenant is queued with its tier's weight, no turn is open, and credits are those of the tiers. */
  ghost predicate Tiered(cfg: Config, q: Queue<Rid>) {
    D.InTiers(q) && Weighed(cfg, q)
  }

  lemma PopWeighed(cfg: Config, q: Queue<Rid>)
    requires Light(q) && q.active != [] && Weighed(cfg, q)
    ensures q.len > 0 && Weighed(cfg, FairQueueSpec.Pop(q).0)
  {
    D.LightPop(q);
    hide Light, FairQueueSpec.Pop, KeyWeight, D.RotationAfter, D.TurnsGiven, Credit, ServedIndex;
  }

  lemma PushWeighed(cfg: Config, q: Queue<Rid>, key: Key, item: Rid)
    requires Weighed(cfg, q)
    ensures Weighed(cfg, Push(q, key, KeyWeight(cfg, key), item).0)
  {
    hide KeyWeight;
  }

  lemma OpTiered(cfg: Config, q: Queue<Rid>, op: Q.Op<Rid>)
    requires Tiered(cfg, q)
    requires op.OpPush? ==> op.weight == KeyWeight(cfg, op.key) && (op.weight == Free.Weight() || op.weight == Paid.Weight())
    ensures Tiered(cfg, Q.Step(q, op).0)
  {
    assert D.InTiers(q) && Light(q) && WellFormed(q);
    D.StepInTiers(q, op);
    hide D.InTiers, Light, WellFormed, KeyWeight, Weighed, FairQueueSpec.Pop, Push;
    match op
    case OpPush(key, weight, item) => PushWeighed(cfg, q, key, item);
    case OpPop => if q.active != [] { PopWeighed(cfg, q); } else { PopEmpty(q); }
  }

  lemma PopEmpty(q: Queue<Rid>)
    requires WellFormed(q) && q.active == []
    ensures FairQueueSpec.Pop(q).0 == q
  {
  }

  lemma {:induction false} RunTiered(cfg: Config, states: seq<State>, actions: seq<Action>, n: nat)
    requires Run(cfg, states, actions) && Reachable(cfg, states[0]) && Tiered(cfg, states[0].queue) && n <= |actions|
    ensures Tiered(cfg, states[n].queue)
  {
    hide Inv, Reachable, StepTo, Q.Step, WellFormed, Tiered, OpOf, OpsOf;
    if n > 0 {
      RunTiered(cfg, states, actions, n - 1);
      OneMoreOp(cfg, states, actions, n);
      OpWeight(cfg, states[n - 1], actions[n - 1]);
      match OpOf(cfg, states[n - 1], actions[n - 1])
      case Some(op) => OpTiered(cfg, states[n - 1].queue, op);
      case None =>
    }
  }

  lemma ReachableTiered(cfg: Config, s: State)
    requires Reachable(cfg, s)
    ensures Tiered(cfg, s.queue)
  {
    hide Inv, StepTo;
    var states: seq<State>, actions: seq<Action> :|
      Run(cfg, states, actions) && Initial(cfg, states[0]) && s == states[|actions|];
    ReachableInitial(cfg, states[0]);
    D.EmptyInTiers<Rid>(cfg.queueDepth);
    RunTiered(cfg, states, actions, |actions|);
  }

  // ----- Fairness in a window of a run -----

  /** Tenant `k` has something queued at every moment of the window. */
  ghost predicate AlwaysQueued(states: seq<State>, k: Key) {
    forall n :: 0 <= n < |states| ==> k in states[n].queue.queues
  }

  /** The step takes a request of tenant `k` out of the queue. */
  ghost predicate Takes(s: State, a: Action, k: Key)
    requires Bounded(s)
  {
    && a.PopNext?
    && match FairQueueSpec.Pop(s.queue).1
       case Some(r) => r < |s.requests| && s.requests[r].tenant == k
       case None => false
  }

  /** How many requests of tenant `k` leave the queue in the first `n` steps of the window. */
  ghost function TakenIn(cfg: Config, states: seq<State>, actions: seq<Action>, k: Key, n: nat): nat
    requires Run(cfg, states, actions) && n <= |actions|
  {
    if n == 0 then 0
    else
      assert StepTo(cfg, states[n - 1], actions[n - 1], states[n]);
      TakenIn(cfg, states, actions, k, n - 1) + if Takes(states[n - 1], actions[n - 1], k) then 1 else 0
  }

  lemma {:induction false} QueuedContinuously(cfg: Config, states: seq<State>, actions: seq<Action>, k: Key, n: nat)
    requires Run(cfg, states, actions) && Reachable(cfg, states[0]) && AlwaysQueued(states, k) && n <= |actions|
    ensures WellFormed(states[0].queue)
    ensures D.Continuously(states[0].queue, OpsOf(cfg, states, actions, n), k)
  {
    hide Inv, Reachable, StepTo, WellFormed, OpOf, Q.Step, Q.After;
    StartWellFormed(cfg, states[0]);
    RunIsQueueHistory(cfg, states, actions, n);
    if n > 0 {
      QueuedContinuously(cfg, states, actions, k, n - 1);
      OneMoreOp(cfg, states, actions, n);
      hide OpsOf, D.Continuously;
      match OpOf(cfg, states[n - 1], actions[n - 1])
      case Some(op) => D.ContinuouslyAfter(states[0].queue, OpsOf(cfg, states, actions, n - 1), op, k);
      case None =>
    }
  }

  /** In fair mode a tenant's turns are its requests. */
  lemma TakesIsPopped(cfg: Config, s: State, a: Action, k: Key)
    requires cfg.fair && Inv(cfg, s) && Bounded(s) && Enabled(cfg, s, a) && WellFormed(s.queue)
    ensures match OpOf(cfg, s, a)
      case Some(op) => (op.OpPush? ==> op.weight > 0.0) && |Q.PoppedNow(s.queue, op, k)| == if Takes(s, a, k) then 1 else 0
      case None => !Takes(s, a, k)
  {
    hide Inv, Bounded, WellFormed, FairQueueSpec.Pop, PopStep, KeyWeight, Q.ServedKey;
    OpWeight(cfg, s, a);
    if a.PopNext? {
      PopIsOp(cfg, s);
      PopNonEmpty(s.queue);
    }
  }

  lemma PopNonEmpty(q: Queue<Rid>)
    requires WellFormed(q)
    ensures Structured(q) && (q.active != [] ==> q.len > 0)
    ensures Q.Step(q, Q.OpPop).1 == Q.Popped(FairQueueSpec.Pop(q).1)
  {
    LenPositive(q);
    hide Structured, Credited, FairQueueSpec.Pop;
  }

  lemma {:induction false} TakenIsShare(cfg: Config, states: seq<State>, actions: seq<Action>, k: Key, n: nat)
    requires cfg.fair && Run(cfg, states, actions) && Reachable(cfg, states[0]) && n <= |actions|
    ensures WellFormed(states[0].queue)
    ensures TakenIn(cfg, states, actions, k, n) == D.Share(states[0].queue, OpsOf(cfg, states, actions, n), k)
  {
    hide Inv, Reachable, WellFormed, Bounded, Next, Enabled, OpOf, Q.PoppedNow, Takes, Q.Step;
    StartWellFormed(cfg, states[0]);
    if n > 0 {
      TakenIsShare(cfg, states, actions, k, n - 1);
      RunIsQueueHistory(cfg, states, actions, n - 1);
      OneMoreOp(cfg, states, actions, n);
      TakesIsPopped(cfg, states[n - 1], actions[n - 1], k);
      hide OpsOf;
    }
  }

  /**
   Fairness in every window of every run: whatever else arrives, hangs up or is
   served, of two tenants that have something queued throughout, a paid one gets
   twice as many requests out of the queue as a free one, give or take two, and
   two of the same tier get the same number, give or take one.
   */
  lemma TenantsShareFairly(cfg: Config, states: seq<State>, actions: seq<Action>, i: Key, j: Key)
    requires cfg.fair && Run(cfg, states, actions) && Reachable(cfg, states[0])
    requires i in cfg.tiers && j in cfg.tiers && i != j
    requires AlwaysQueued(states, i) && AlwaysQueued(states, j)
    ensures var si: int, sj: int := TakenIn(cfg, states, actions, i, |actions|), TakenIn(cfg, states, actions, j, |actions|);
      && (cfg.tiers[i] == Paid && cfg.tiers[j] == Free ==> -2 <= si - 2 * sj <= 2)
      && (cfg.tiers[i] == cfg.tiers[j] ==> -1 <= si - sj <= 1)
  {
    hide Inv, Reachable, StepTo, D.InTiers, D.Share, TakenIn, OpsOf, WellFormed, AlwaysQueued, D.Continuously;
    var n := |actions|;
    ReachableTiered(cfg, states[0]);
    QueuedContinuously(cfg, states, actions, i, n);
    QueuedContinuously(cfg, states, actions, j, n);
    D.TierFairness(states[0].queue, OpsOf(cfg, states, actions, n), i, j);
    TakenIsShare(cfg, states, actions, i, n);
    TakenIsShare(cfg, states, actions, j, n);
  }

  // ----- Bounded wait in a window of a run -----

  /** The number of pops that the scheduler makes in the first `n` steps. */
  function PopsIn(actions: seq<Action>, n: nat): nat
    requires n <= |actions|
  {
    if n == 0 then 0 else PopsIn(actions, n - 1) + if actions[n - 1].PopNext? then 1 else 0
  }

  lemma PopsOneMore(ops: seq<Q.Op<Rid>>, op: Q.Op<Rid>)
    ensures D.Pops(ops + [op]) == D.Pops(ops) + if op.OpPop? then 1 else 0
  {
    assert (ops + [op])[..|ops + [op]| - 1] == ops;
  }

  lemma {:induction false} PopsOfOps(cfg: Config, states: seq<State>, actions: seq<Action>, n: nat)
    requires Run(cfg, states, actions) && Reachable(cfg, states[0]) && n <= |actions|
    ensures D.Pops(OpsOf(cfg, states, actions, n)) == PopsIn(actions, n)
  {
    hide Inv, Reachable, WellFormed, StepTo, Q.Step, D.Pops;
    if n == 0 {
      assert D.Pops<Rid>([]) == 0 by { NoPops(); }
    } else {
      PopsOfOps(cfg, states, actions, n - 1);
      OneMoreOp(cfg, states, actions, n);
      var ops := OpsOf(cfg, states, actions, n - 1);
      hide OpsOf;
      match OpOf(cfg, states[n - 1], actions[n - 1])
      case Some(op) => PopsOneMore(ops, op);
      case None =>
    }
  }

  lemma NoPops()
    ensures D.Pops<Rid>([]) == 0
  {
  }

  /** Request `r` has been taken out of the queue. */
  predicate LeftQueue(s: State, r: Rid) {
    r < |s.requests| && ServerRank(s.requests[r].server) >= 2
  }

  lemma LeftStays(cfg: Config, s: State, a: Action, r: Rid)
    requires Inv(cfg, s) && Bounded(s) && Enabled(cfg, s, a) && LeftQueue(s, r)
    ensures LeftQueue(Next(cfg, s, a), r)
  {
    RequestsMoveForward(cfg, s, a, r);
    hide Inv, Bounded, Next, Enabled, ClientRank, WasSent;
  }

  lemma PoppedNowIsPop(q: Queue<Rid>, k: Key, r: Rid)
    requires WellFormed(q) && r in Q.PoppedNow(q, Q.OpPop, k)
    ensures Structured(q) && (q.active != [] ==> q.len > 0)
    ensures FairQueueSpec.Pop(q).1 == Some(r)
  {
    LenPositive(q);
    hide Structured, Credited, FairQueueSpec.Pop, Q.ServedKey;
  }

  lemma PopLeaves(cfg: Config, s: State, r: Rid, k: Key)
    requires Inv(cfg, s) && Bounded(s) && s.pc.Pop? && WellFormed(s.queue) && r in Q.PoppedNow(s.queue, Q.OpPop, k)
    ensures LeftQueue(PopStep(cfg, s), r)
  {
    hide Inv, Bounded, WellFormed, FairQueueSpec.Pop, PopStep, Q.PoppedNow, Q.ServedKey;
    PopIsOp(cfg, s);
    PoppedNowIsPop(s.queue, k, r);
  }

  lemma StepLeaves(cfg: Config, s: State, a: Action, r: Rid, k: Key)
    requires Inv(cfg, s) && Bounded(s) && Enabled(cfg, s, a) && WellFormed(s.queue)
    requires match OpOf(cfg, s, a)
      case Some(op) => (op.OpPush? ==> op.weight > 0.0) && (LeftQueue(s, r) || r in Q.PoppedNow(s.queue, op, k))
      case None => LeftQueue(s, r)
    ensures LeftQueue(Next(cfg, s, a), r)
  {
    hide Inv, Bounded, WellFormed, LeftQueue, PopStep;
    if LeftQueue(s, r) {
      LeftStays(cfg, s, a, r);
    } else {
      assert a.PopNext?;
      PopLeaves(cfg, s, r, k);
    }
  }

  lemma NothingPopped(q: Queue<Rid>, k: Key)
    requires WellFormed(q)
    ensures Q.PoppedItems(q, [], k) == []
  {
  }

  lemma PoppedOneMore(q: Queue<Rid>, ops: seq<Q.Op<Rid>>, op: Q.Op<Rid>, k: Key, r: Rid)
    requires WellFormed(q) && D.TierWeights(ops) && D.TierWeights(ops + [op]) && r in Q.PoppedItems(q, ops + [op], k)
    requires op.OpPush? ==> op.weight > 0.0
    ensures r in Q.PoppedItems(q, ops, k) || r in Q.PoppedNow(Q.After(q, ops), op, k)
  {
    hide WellFormed, Q.Step, Q.PoppedNow, Q.After;
    assert (ops + [op])[..|ops + [op]| - 1] == ops;
  }

  /** A request that was popped during the run has left the queue at its end. */
  lemma {:induction false} PoppedLeft(cfg: Config, states: seq<State>, actions: seq<Action>, k: Key, r: Rid, n: nat)
    requires Run(cfg, states, actions) && Reachable(cfg, states[0]) && n <= |actions| && WellFormed(states[0].queue)
    requires r in Q.PoppedItems(states[0].queue, OpsOf(cfg, states, actions, n), k)
    ensures LeftQueue(states[n], r)
  {
    hide Inv, Reachable, WellFormed, Bounded, Next, Enabled, OpOf, Q.PoppedNow, LeftQueue, Q.Step, Q.PoppedItems, Q.After;
    if n == 0 {
      NothingPopped(states[0].queue, k);
    } else {
      RunIsQueueHistory(cfg, states, actions, n - 1);
      OneMoreOp(cfg, states, actions, n);
      var ops := OpsOf(cfg, states, actions, n - 1);
      hide OpsOf, D.TierWeights;
      match OpOf(cfg, states[n - 1], actions[n - 1]) {
        case Some(op) => PoppedOneMore(states[0].queue, ops, op, k, r);
        case None =>
      }
      if r in Q.PoppedItems(states[0].queue, ops, k) {
        PoppedLeft(cfg, states, actions, k, r, n - 1);
      }
      StepLeaves(cfg, states[n - 1], actions[n - 1], r, k);
    }
  }

  lemma ItemPops(cfg: Config, q: Queue<Rid>, ops: seq<Q.Op<Rid>>, k: Key, d: nat)
    requires Tiered(cfg, q) && D.TierWeights(ops) && k in q.queues && d < |q.queues[k].items|
    requires D.Pops(ops) > D.Wait(q, k, q.capacity) + D.Times(d, D.Cycle(q.queues[k], q.capacity))
    ensures q.queues[k].items[d] in Q.PoppedItems(q, ops, k)
  {
    hide Credited, D.Pops, D.Wait, D.Cycle, D.Times, D.TierCredit, KeyWeight, Q.PoppedItems;
    D.AtMostCapacity(q, ops);
    D.BoundedWaitAt(q, ops, k, q.capacity, d);
  }

  lemma PaidPops(cfg: Config, q: Queue<Rid>, ops: seq<Q.Op<Rid>>, k: Key)
    requires Tiered(cfg, q) && D.TierWeights(ops) && k in q.queues
    requires KeyWeight(cfg, k) == Paid.Weight() && D.Pops(ops) > D.Position(q.active, k)
    ensures q.queues[k].items[0] in Q.PoppedItems(q, ops, k)
  {
    hide Credited, D.Pops, D.Position, D.TierCredit, KeyWeight;
    D.FullWeightWait(q, ops, k);
  }

  /**
   Bounded wait in every run, for every queued request: the one at depth `d` of
   its key's queue has left the queue once the scheduler has made the key's wait,
   `d` cycles and one pop more, whatever arrives meanwhile.
   */
  lemma EveryRequestLeaves(cfg: Config, states: seq<State>, actions: seq<Action>, k: Key, d: nat)
    requires Run(cfg, states, actions) && Reachable(cfg, states[0])
    requires Structured(states[0].queue) && k in states[0].queue.queues && d < |states[0].queue.queues[k].items|
    requires PopsIn(actions, |actions|)
      > D.Wait(states[0].queue, k, cfg.queueDepth) + D.Times(d, D.Cycle(states[0].queue.queues[k], cfg.queueDepth))
    ensures LeftQueue(states[|actions|], states[0].queue.queues[k].items[d])
  {
    hide Inv, Reachable, StepTo, Credited, D.Pops, PopsIn, D.Wait, D.Cycle, D.Times, D.TierCredit, OpsOf;
    var q := states[0].queue;
    StartWellFormed(cfg, states[0]);
    ReachableTiered(cfg, states[0]);
    PopsOfOps(cfg, states, actions, |actions|);
    ItemPops(cfg, q, OpsOf(cfg, states, actions, |actions|), k, d);
    PoppedLeft(cfg, states, actions, k, q.queues[k].items[d], |actions|);
  }

  /** A paid tenant's first request has left once the scheduler has made one pop more than tenants are ahead of it. */
  lemma PaidRequestLeaves(cfg: Config, states: seq<State>, actions: seq<Action>, k: Key)
    requires Run(cfg, states, actions) && Reachable(cfg, states[0])
    requires Structured(states[0].queue) && k in states[0].queue.queues && KeyWeight(cfg, k) == Paid.Weight()
    requires PopsIn(actions, |actions|) > D.Position(states[0].queue.active, k)
    ensures LeftQueue(states[|actions|], states[0].queue.queues[k].items[0])
  {
    hide Inv, Reachable, StepTo, Credited, D.Pops, PopsIn, D.Position, D.TierCredit, OpsOf, KeyWeight;
    var q := states[0].queue;
    StartWellFormed(cfg, states[0]);
    ReachableTiered(cfg, states[0]);
    PopsOfOps(cfg, states, actions, |actions|);
    PaidPops(cfg, q, OpsOf(cfg, states, actions, |actions|), k);
    PoppedLeft(cfg, states, actions, k, q.queues[k].items[0], |actions|);
  }
}
