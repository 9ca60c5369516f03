/**
 First in, first out, on request numbers: over all tenants together when the
 queue is one shared queue, and tenant by tenant when queueing is fair.
 */
module GatewayFifo {
  import opened Prelude
  import opened FairQueueSpec
  import Q = FairQueueHistory
  import D = Fairness
  import opened Gateway
  import opened GatewayInvariant
  import opened GatewaySteps
  import opened GatewaySafety
  import F = GatewayFairness
  import opened GatewayOrder

  /** Whose requests are meant: everybody's, or one tenant's. */
  datatype Whose = Everybody | Only(tenant: Key) {
    predicate Has(q: Request) { this.Everybody? || q.tenant == tenant }
  }

  /** Everybody shares a queue, unless queueing is fair and each tenant has its own. */
  predicate HaveOneQueue(cfg: Config, whose: Whose) { whose.Everybody? <==> !cfg.fair }

  /** The key of that queue. */
  function KeyOf(whose: Whose): Key {
    match whose
    case Everybody => ""
    case Only(k) => k
  }

  function Picked(requests: seq<Request>, rids: seq<Rid>, whose: Whose): seq<Rid> {
    if rids != [] && rids[0] < |requests| && whose.Has(requests[rids[0]]) then [rids[0]] else []
  }

  /** The request that a step puts into the queue. */
  function AcceptedNow(s': State, a: Action): seq<Rid> {
    if a.Submit? && a.r < |s'.requests| && s'.requests[a.r].server.Queued? then [a.r] else []
  }

  /** Their requests that the queue accepts in the first `n` steps, in the order in which they are submitted. */
  ghost function AcceptedIn(states: seq<State>, actions: seq<Action>, whose: Whose, n: nat): seq<Rid>
    requires |states| == |actions| + 1 && n <= |actions|
  {
    if n == 0 then []
    else AcceptedIn(states, actions, whose, n - 1) + Picked(states[n].requests, AcceptedNow(states[n], actions[n - 1]), whose)
  }

  /** Their requests that the scheduler takes out of the queue in the first `n` steps, in order. */
  ghost function ReleasedIn(cfg: Config, states: seq<State>, actions: seq<Action>, whose: Whose, n: nat): seq<Rid>
    requires Run(cfg, states, actions) && n <= |actions|
  {
    if n == 0 then []
    else
      assert StepTo(cfg, states[n - 1], actions[n - 1], states[n]);
      ReleasedIn(cfg, states, actions, whose, n - 1)
      + Picked(states[n].requests, ReleasedNow(states[n - 1], actions[n - 1]), whose)
  }

  // ----- One step -----

  /** What is accepted goes to the back of their queue, what is released comes from its front, and nothing else moves in it. */
  ghost predicate InOrder(s: State, a: Action, s': State, whose: Whose)
    requires Bounded(s)
  {
    Waiting(s.queue, KeyOf(whose)) + Picked(s'.requests, AcceptedNow(s', a), whose)
    == Picked(s'.requests, ReleasedNow(s, a), whose) + Waiting(s'.queue, KeyOf(whose))
  }

  lemma SubmitInOrder(cfg: Config, s: State, r: Rid, now: real, whose: Whose)
    requires HaveOneQueue(cfg, whose) && Bounded(s) && r < |s.requests| && s.requests[r].tenant in s.accounts
    ensures InOrder(s, Submit(r, now), SubmitStep(cfg, s, r, now), whose)
  {
    hide Structured;
    var key := QueueKey(cfg, s.requests[r]);
    Q.PushEffect(s.queue, key, KeyWeight(cfg, key), r, KeyOf(whose));
    hide Push, KeyWeight;
  }

  /** The scheduler's pop takes the first request of some key's queue, which is a request of that key. */
  lemma PopTakesFront(cfg: Config, s: State) returns (r: Rid)
    requires Inv(cfg, s) && Bounded(s) && s.pc.Pop? && s.queue.active != []
    ensures r < |s.requests| && ReleasedNow(s, PopNext) == [r]
    ensures forall k ::
      Waiting(s.queue, k) == (if k == QueueKey(cfg, s.requests[r]) then [r] else []) + Waiting(FairQueueSpec.Pop(s.queue).0, k)
  {
    hide Structured, Serve, Granted, ServedIndex, BatchHolds, LogHolds, AccountsBalance, PermitsBalance, SchedulerShape, Sum, DistinctRids;
    hide FairQueueSpec.Pop, QueueKey;
    r := PopHolds(cfg, s.requests, s.queue, s.pc.first);
    var key := s.queue.active[ServedIndex(s.queue)];
    Q.PopEffect(s.queue, key);
    assert WaitsAt(s.queue, key, r);
    forall k
      ensures Waiting(s.queue, k) == (if k == key then [r] else []) + Waiting(FairQueueSpec.Pop(s.queue).0, k)
    {
      Q.PopEffect(s.queue, k);
      hide Inv, Bounded, Waiting;
    }
  }

  lemma PoppedRequest(cfg: Config, s: State, r: Rid)
    requires Bounded(s) && s.pc.Pop? && ReleasedNow(s, PopNext) == [r] && r < |s.requests|
    ensures PopStep(cfg, s).queue == FairQueueSpec.Pop(s.queue).0
    ensures r < |PopStep(cfg, s).requests| && PopStep(cfg, s).requests[r].tenant == s.requests[r].tenant
  {
    hide Structured, FairQueueSpec.Pop;
  }

  lemma PopInOrder(cfg: Config, s: State, whose: Whose)
    requires HaveOneQueue(cfg, whose) && Inv(cfg, s) && Bounded(s) && s.pc.Pop?
    ensures InOrder(s, PopNext, PopStep(cfg, s), whose)
  {
    hide Inv, Structured, PopStep, Waiting;
    if s.queue.active != [] {
      var r := PopTakesFront(cfg, s);
      PoppedRequest(cfg, s, r);
      hide FairQueueSpec.Pop, ReleasedNow;
    } else {
      PopNothing(cfg, s);
      hide FairQueueSpec.Pop;
    }
  }

  lemma PopNothing(cfg: Config, s: State)
    requires Bounded(s) && s.pc.Pop? && s.queue.active == []
    ensures PopStep(cfg, s).queue == s.queue && ReleasedNow(s, PopNext) == []
  {
    hide Structured;
  }

  lemma OtherInOrder(cfg: Config, s: State, a: Action, whose: Whose)
    requires Bounded(s) && Enabled(cfg, s, a) && !a.Submit? && !a.PopNext?
    ensures InOrder(s, a, Next(cfg, s, a), whose)
  {
    F.OtherIsNoOp(cfg, s, a);
    hide Bounded, Enabled, Next, Waiting;
  }

  lemma StepInOrder(cfg: Config, s: State, a: Action, whose: Whose)
    requires HaveOneQueue(cfg, whose) && Inv(cfg, s) && Bounded(s) && Enabled(cfg, s, a)
    ensures InOrder(s, a, Next(cfg, s, a), whose)
  {
    if a.Submit? {
      SubmitInOrder(cfg, s, a.r, a.now, whose);
    } else if a.PopNext? {
      PopInOrder(cfg, s, whose);
    } else {
      OtherInOrder(cfg, s, a, whose);
    }
    hide Inv, Bounded, SubmitStep, PopStep, InOrder;
  }

  // ----- Runs -----

  lemma {:induction false} QueueInOrder(cfg: Config, states: seq<State>, actions: seq<Action>, whose: Whose, n: nat)
    requires HaveOneQueue(cfg, whose) && Run(cfg, states, actions) && Initial(cfg, states[0]) && n <= |actions|
    ensures AcceptedIn(states, actions, whose, n)
         == ReleasedIn(cfg, states, actions, whose, n) + Waiting(states[n].queue, KeyOf(whose))
  {
    hide Inv, Bounded, Next, Enabled, AcceptedNow, ReleasedNow, Picked;
    if n > 0 {
      hide Waiting;
      var s, a := states[n - 1], actions[n - 1];
      QueueInOrder(cfg, states, actions, whose, n - 1);
      InitialInv(cfg, states[0]);
      RunInv(cfg, states, actions, n - 1);
      assert StepTo(cfg, s, a, states[n]);
      StepInOrder(cfg, s, a, whose);
      Q.Chain([], AcceptedIn(states, actions, whose, n - 1), ReleasedIn(cfg, states, actions, whose, n - 1), Waiting(s.queue, KeyOf(whose)),
              Picked(states[n].requests, AcceptedNow(states[n], a), whose), Picked(states[n].requests, ReleasedNow(s, a), whose),
              Waiting(states[n].queue, KeyOf(whose)));
    }
  }

  /** These are their requests that are still queued, each once. */
  ghost predicate AreQueued(s: State, rids: seq<Rid>, whose: Whose) {
    && DistinctRids(rids)
    && forall r: Rid :: r in rids <==> r < |s.requests| && s.requests[r].server.Queued? && whose.Has(s.requests[r])
  }

  lemma WaitingAreQueued(cfg: Config, s: State, whose: Whose)
    requires Inv(cfg, s) && HaveOneQueue(cfg, whose)
    ensures AreQueued(s, Waiting(s.queue, KeyOf(whose)), whose)
  {
    hide WellFormed, BatchHolds, LogHolds, AccountsBalance, PermitsBalance, SchedulerShape, Sum, DistinctRids, Waiting;
    forall r: Rid
      ensures r in Waiting(s.queue, KeyOf(whose)) <==>
        r < |s.requests| && s.requests[r].server.Queued? && whose.Has(s.requests[r])
    {
      assert r in Waiting(s.queue, KeyOf(whose)) <==> WaitsAt(s.queue, KeyOf(whose), r);
    }
  }

  /**
   First in, first out. At every point of every run, the requests of everybody
   (of one tenant, when queueing is fair) that the queue has accepted, in the
   order in which they were submitted, are those that it has let go, in the order
   in which it did, and then those still queued.
   */
  lemma FirstInFirstOut(cfg: Config, states: seq<State>, actions: seq<Action>, whose: Whose, n: nat) returns (queued: seq<Rid>)
    requires HaveOneQueue(cfg, whose) && Run(cfg, states, actions) && Initial(cfg, states[0]) && n <= |actions|
    ensures AcceptedIn(states, actions, whose, n) == ReleasedIn(cfg, states, actions, whose, n) + queued
    ensures AreQueued(states[n], queued, whose)
  {
    hide Inv, StepTo, Waiting, AreQueued, HaveOneQueue;
    QueueInOrder(cfg, states, actions, whose, n);
    InitialInv(cfg, states[0]);
    RunInv(cfg, states, actions, n);
    WaitingAreQueued(cfg, states[n], whose);
    queued := Waiting(states[n].queue, KeyOf(whose));
  }

  // ----- One shared queue: the backend sees the order of arrival -----

  lemma NextOfPop(cfg: Config, s: State, a: Action)
    requires Bounded(s) && Enabled(cfg, s, a)
    ensures a.PopNext? ==> s.pc.Pop? && Next(cfg, s, a) == PopStep(cfg, s)
    ensures !a.PopNext? ==> ReleasedNow(s, a) == []
  {
    hide Structured, PopStep;
  }

  lemma ReleasedExists(cfg: Config, s: State, a: Action)
    requires Inv(cfg, s) && Bounded(s) && Enabled(cfg, s, a)
    ensures Picked(Next(cfg, s, a).requests, ReleasedNow(s, a), Everybody) == ReleasedNow(s, a)
  {
    hide Inv, Bounded, Enabled, Next, PopStep, ReleasedNow;
    NextOfPop(cfg, s, a);
    if a.PopNext? && s.queue.active != [] {
      var r := PopTakesFront(cfg, s);
      PoppedRequest(cfg, s, r);
    } else if a.PopNext? {
      PopNothing(cfg, s);
    }
  }

  lemma {:induction false} EverybodyReleased(cfg: Config, states: seq<State>, actions: seq<Action>, n: nat)
    requires Run(cfg, states, actions) && Initial(cfg, states[0]) && n <= |actions|
    ensures ReleasedIn(cfg, states, actions, Everybody, n) == Released(cfg, states, actions, n)
  {
    hide Inv, Bounded, Next, Enabled, ReleasedNow, Picked;
    if n > 0 {
      EverybodyReleased(cfg, states, actions, n - 1);
      InitialInv(cfg, states[0]);
      RunInv(cfg, states, actions, n - 1);
      assert StepTo(cfg, states[n - 1], actions[n - 1], states[n]);
      ReleasedExists(cfg, states[n - 1], actions[n - 1]);
    }
  }

  lemma {:induction false} KeptConcat(a: seq<Rid>, b: seq<Rid>, requests: seq<Request>)
    requires forall r :: r in b ==> !WasSkipped(requests, r)
    ensures Kept(a + b, requests) == Kept(a, requests) + b
  {
    hide WasSkipped;
    if b == [] {
      assert a + b == a;
    } else {
      assert (a + b)[..|a + b| - 1] == a + b[..|b| - 1];
      KeptConcat(a, b[..|b| - 1], requests);
      assert b == b[..|b| - 1] + [b[|b| - 1]];
    }
  }

  /**
   With one shared queue, in every run: what went to the backend, then the
   scheduler's batch, then the queue, are all tenants' requests in the order in
   which they were accepted, without those skipped because their clients had
   hung up. Nobody overtakes.
   */
  lemma SentInArrivalOrder(cfg: Config, states: seq<State>, actions: seq<Action>, n: nat) returns (queued: seq<Rid>)
    requires !cfg.fair && Run(cfg, states, actions) && Initial(cfg, states[0]) && n <= |actions|
    ensures AreQueued(states[n], queued, Everybody)
    ensures states[n].sent + Rids(states[n].batch) + queued
         == Kept(AcceptedIn(states, actions, Everybody, n), states[n].requests)
  {
    hide StepTo, Initial, Kept, Rids;
    queued := FirstInFirstOut(cfg, states, actions, Everybody, n);
    EverybodyReleased(cfg, states, actions, n);
    SentInOrder(cfg, states, actions, n);
    KeptConcat(Released(cfg, states, actions, n), queued, states[n].requests);
  }

  /** In that mode there is one key, with the weight of one: every turn serves. */
  lemma SharedQueueWeighsOne(cfg: Config, s: State, k: Key)
    requires !cfg.fair && Reachable(cfg, s) && k in s.queue.queues
    ensures k == "" && s.queue.queues[k].weight == 1.0
  {
    hide Reachable, Inv;
    ReachableInv(cfg, s);
    F.ReachableTiered(cfg, s);
    SharedKey(cfg, s, k);
    hide D.InTiers;
  }

  lemma SharedKey(cfg: Config, s: State, k: Key)
    requires !cfg.fair && Inv(cfg, s) && k in s.queue.queues
    ensures k == ""
  {
    hide BatchHolds, LogHolds, AccountsBalance, PermitsBalance, SchedulerShape, Sum, DistinctRids, Total;
    assert WaitsAt(s.queue, k, Waiting(s.queue, k)[0]);
  }
}
