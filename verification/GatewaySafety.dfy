/** Safety of the gateway over every run: any actions, in any order, of any length. */
module GatewaySafety {
  import opened Prelude
  import opened Tenants
  import opened FairQueueSpec
  import opened Gateway
  import opened GatewayInvariant
  import opened GatewaySteps

  // ----- Runs -----

  /**
   The action can happen, and this is the state that it leads to. (The bounds on
   which steps rely hold in every reachable state.)
   */
  ghost predicate StepTo(cfg: Config, s: State, a: Action, s': State) {
    Bounded(s) && Enabled(cfg, s, a) && s' == Next(cfg, s, a)
  }

  /** A run: any actions, in any order in which they can happen, and the states before and after each. */
  ghost predicate Run(cfg: Config, states: seq<State>, actions: seq<Action>) {
    && |states| == |actions| + 1
    && forall i :: 0 <= i < |actions| ==> StepTo(cfg, states[i], actions[i], states[i + 1])
  }

  /** States that the gateway can reach. */
  ghost predicate Reachable(cfg: Config, s: State) {
    exists states: seq<State>, actions: seq<Action> ::
      Run(cfg, states, actions) && Initial(cfg, states[0]) && s == states[|actions|]
  }

  lemma {:induction false} RunInv(cfg: Config, states: seq<State>, actions: seq<Action>, n: nat)
    requires Run(cfg, states, actions) && Inv(cfg, states[0]) && n <= |actions|
    ensures Inv(cfg, states[n])
  {
    hide Inv, Enabled, Next, Bounded;
    if n > 0 {
      RunInv(cfg, states, actions, n - 1);
      assert StepTo(cfg, states[n - 1], actions[n - 1], states[n]);
      StepKeeps(cfg, states[n - 1], actions[n - 1]);
    }
  }

  lemma ReachableInv(cfg: Config, s: State)
    requires Reachable(cfg, s)
    ensures Inv(cfg, s)
  {
    hide Inv, StepTo;
    var states: seq<State>, actions: seq<Action> :|
      Run(cfg, states, actions) && Initial(cfg, states[0]) && s == states[|actions|];
    InitialInv(cfg, states[0]);
    RunInv(cfg, states, actions, |actions|);
  }

  /** One more step of a run. */
  lemma RunStep(cfg: Config, states: seq<State>, actions: seq<Action>, a: Action)
    requires Run(cfg, states, actions) && Inv(cfg, states[|actions|]) && Enabled(cfg, states[|actions|], a)
    ensures Bounded(states[|actions|])
    ensures Run(cfg, states + [Next(cfg, states[|actions|], a)], actions + [a])
  {
    InvBounded(cfg, states[|actions|]);
    hide Inv, Initial, Enabled, Next, Bounded;
    var states', actions' := states + [Next(cfg, states[|actions|], a)], actions + [a];
    forall i | 0 <= i < |actions'|
      ensures StepTo(cfg, states'[i], actions'[i], states'[i + 1])
    {
      if i < |actions| { assert StepTo(cfg, states[i], actions[i], states[i + 1]); }
    }
  }

  /** One more step from a reachable state. */
  lemma ReachableStep(cfg: Config, s: State, a: Action)
    requires Reachable(cfg, s) && Enabled(cfg, s, a)
    ensures Bounded(s) && Reachable(cfg, Next(cfg, s, a))
  {
    hide Inv, Initial, Enabled, Next, Bounded, StepTo;
    ReachableInv(cfg, s);
    var states: seq<State>, actions: seq<Action> :|
      Run(cfg, states, actions) && Initial(cfg, states[0]) && s == states[|actions|];
    RunStep(cfg, states, actions, a);
    var states' := states + [Next(cfg, s, a)];
    assert states'[0] == states[0] && states'[|actions + [a]|] == Next(cfg, s, a);
  }

  lemma ReachableInitial(cfg: Config, s: State)
    requires Initial(cfg, s)
    ensures Reachable(cfg, s)
  {
    var states, actions: seq<Action> := [s], [];
    assert Run(cfg, states, actions) && states[|actions|] == s;
  }

  lemma {:induction false} RunReachable(cfg: Config, states: seq<State>, actions: seq<Action>, n: nat)
    requires Run(cfg, states, actions) && Reachable(cfg, states[0]) && n <= |actions|
    ensures Reachable(cfg, states[n])
  {
    hide Reachable, Enabled, Next, Bounded;
    if n > 0 {
      RunReachable(cfg, states, actions, n - 1);
      assert StepTo(cfg, states[n - 1], actions[n - 1], states[n]);
      ReachableStep(cfg, states[n - 1], actions[n - 1]);
    }
  }

  // ----- Nothing is lost, duplicated or sent twice -----

  predicate WasAccepted(v: Server) { !v.Unqueued? && !v.Rejected? }

  predicate HoldsOne(a: bool, b: bool, c: bool, d: bool) {
    (if a then 1 else 0) + (if b then 1 else 0) + (if c then 1 else 0) + (if d then 1 else 0) == 1
  }

  /**
   Every accepted request is in exactly one place: its key's queue, the batch,
   the log of what went to the backend, or skipped. It is there once, what is
   there was accepted, and it was skipped only if its client had hung up.
   */
  ghost predicate Accounted(cfg: Config, s: State) {
    && (forall r: Rid :: r < |s.requests| && WasAccepted(s.requests[r].server) ==>
          HoldsOne(WaitsAt(s.queue, QueueKey(cfg, s.requests[r]), r), InBatch(s.batch, r), r in s.sent, s.requests[r].server.Skipped?))
    && (forall k, r: Rid :: WaitsAt(s.queue, k, r) ==>
          r < |s.requests| && WasAccepted(s.requests[r].server) && k == QueueKey(cfg, s.requests[r]))
    && (forall r: Rid :: InBatch(s.batch, r) || r in s.sent ==> r < |s.requests| && WasAccepted(s.requests[r].server))
    && (forall k :: DistinctRids(Waiting(s.queue, k))) && DistinctRids(s.sent)
    && (forall i, j :: 0 <= i < j < |s.batch| ==> s.batch[i].0 != s.batch[j].0)
    && (forall r: Rid :: r < |s.requests| && s.requests[r].server.Skipped? ==> s.requests[r].client.Gone?)
  }

  lemma ExactAccounting(cfg: Config, s: State)
    requires Reachable(cfg, s)
    ensures Accounted(cfg, s)
  {
    hide Reachable, Inv, Accounted;
    ReachableInv(cfg, s);
    InvAccounted(cfg, s);
  }

  lemma InvAccounted(cfg: Config, s: State)
    requires Inv(cfg, s)
    ensures Accounted(cfg, s)
  {
    hide Sum, WellFormed, DistinctRids, Waiting, PermitsBalance, SchedulerShape, WakeupPending, AccountsBalance, InBatch, WaitsAt;
    forall r: Rid | r < |s.requests|
      ensures WaitsAt(s.queue, QueueKey(cfg, s.requests[r]), r) <==> s.requests[r].server.Queued?
      ensures InBatch(s.batch, r) <==> s.requests[r].server.Batched?
      ensures r in s.sent <==> WasSent(s.requests[r].server)
      ensures Coherent(s.requests[r])
    {
      WhereAccepted(cfg, s, r);
    }
    forall r: Rid | InBatch(s.batch, r)
      ensures r < |s.requests|
    {
      BatchBounded(s.requests, s.batch, r);
    }
  }

  lemma BatchBounded(requests: seq<Request>, batch: seq<(Rid, bool)>, r: Rid)
    requires BatchHolds(requests, batch) && InBatch(batch, r)
    ensures r < |requests|
  {
  }

  lemma WhereAccepted(cfg: Config, s: State, r: Rid)
    requires Inv(cfg, s) && r < |s.requests|
    ensures WaitsAt(s.queue, QueueKey(cfg, s.requests[r]), r) <==> s.requests[r].server.Queued?
    ensures InBatch(s.batch, r) <==> s.requests[r].server.Batched?
    ensures r in s.sent <==> WasSent(s.requests[r].server)
  {
    hide Sum, WellFormed, DistinctRids, PermitsBalance, SchedulerShape, WakeupPending, AccountsBalance;
  }

  /** How far along a request and its handler are. */
  function ServerRank(v: Server): nat {
    match v
    case Unqueued => 0
    case Rejected => 6
    case Queued => 1
    case Batched(_) => 2
    case Sending => 3
    case Replying(_) => 4
    case Delivered(_) => 5
    case Taken => 6
    case Skipped => 6
    case Discarded => 6
  }

  function ClientRank(c: Client): nat {
    match c
    case Entered => 0
    case Notifying => 1
    case Awaiting => 2
    case Serving => 3
    case Settling => 4
    case Gone => 5
  }

  /** How one request may change in one step. */
  predicate MovesForward(q: Request, q': Request) {
    && q'.tenant == q.tenant && q'.reserved == q.reserved && q'.used >= q.used
    && ServerRank(q'.server) >= ServerRank(q.server) && ClientRank(q'.client) >= ClientRank(q.client)
    && (ServerRank(q'.server) == ServerRank(q.server) ==> q'.server == q.server)
    // It is skipped only out of the batch, when its handler has gone.
    && (q'.server.Skipped? && !q.server.Skipped? ==> q.server.Batched? && q.client.Gone?)
    // It is turned away only when it is submitted.
    && (q'.server.Rejected? && !q.server.Rejected? ==> q.server.Unqueued?)
    // It is sent only out of the batch.
    && (WasSent(q'.server) && !WasSent(q.server) ==> q.server.Batched? && q'.server.Sending?)
  }

  /** The request that a step moves, if it moves one that exists. */
  ghost function MovedBy(s: State, a: Action): Option<Rid>
    requires Bounded(s)
  {
    match a
    case Submit(r, _) => Some(r)
    case NotifyOne(r) => Some(r)
    case HangUp(r, _) => Some(r)
    case PopNext => FairQueueSpec.Pop(s.queue).1
    case DispatchNext => if s.batch == [] then None else Some(s.batch[0].0)
    case AcquireNext => if s.batch == [] then None else Some(s.batch[0].0)
    case Answer(r, _) => Some(r)
    case Deliver(r) => Some(r)
    case Receive(r, _) => Some(r)
    case Forward(r, _) => Some(r)
    case StreamEnd(r, _) => Some(r)
    case BodyRead(r, _) => Some(r)
    case Settle(r, _) => Some(r)
    case _ => None
  }

  lemma OthersStayRequest(cfg: Config, s: State, a: Action, r: Rid)
    requires Bounded(s) && Enabled(cfg, s, a) && r < |s.requests| && MovedBy(s, a) != Some(r) && OfRequest(a)
    ensures r < |Next(cfg, s, a).requests| && Next(cfg, s, a).requests[r] == s.requests[r]
  {
    hide Structured, FairQueueSpec.Pop, Push, Admission, Settlement, PopStep, DispatchStep, SendHead;
  }

  lemma OthersStayScheduler(cfg: Config, s: State, a: Action, r: Rid)
    requires Bounded(s) && Enabled(cfg, s, a) && r < |s.requests| && MovedBy(s, a) != Some(r) && !OfRequest(a)
    ensures r < |Next(cfg, s, a).requests| && Next(cfg, s, a).requests[r] == s.requests[r]
  {
    hide Structured, FairQueueSpec.Pop, ArriveStep, SubmitStep, HangUpStep, ReceiveStep, RecordUse, Finish;
  }

  lemma OthersStay(cfg: Config, s: State, a: Action, r: Rid)
    requires Bounded(s) && Enabled(cfg, s, a) && r < |s.requests| && MovedBy(s, a) != Some(r)
    ensures r < |Next(cfg, s, a).requests| && Next(cfg, s, a).requests[r] == s.requests[r]
  {
    hide Bounded, Next, Enabled, MovedBy;
    if OfRequest(a) {
      OthersStayRequest(cfg, s, a, r);
    } else {
      OthersStayScheduler(cfg, s, a, r);
    }
  }

  lemma SameLength(cfg: Config, s: State, a: Action)
    requires Bounded(s) && Enabled(cfg, s, a) && !a.Arrive?
    requires MovedBy(s, a).Some? ==> MovedBy(s, a).value < |s.requests|
    ensures |Next(cfg, s, a).requests| == |s.requests|
  {
    hide Structured, FairQueueSpec.Pop, Settlement;
    if a.PopNext? {
      match MovedBy(s, a)
      case Some(r) => assert |s.requests[r := s.requests[r]]| == |s.requests|;
      case None =>
    }
  }

  lemma MovedExists(cfg: Config, s: State, a: Action)
    requires Inv(cfg, s) && Bounded(s) && Enabled(cfg, s, a)
    ensures MovedBy(s, a).Some? ==> MovedBy(s, a).value < |s.requests|
  {
    hide Structured, Serve, Granted, ItemsHold, BatchHolds, LogHolds, AccountsBalance, PermitsBalance, SchedulerShape, Sum;
    if a.PopNext? && s.queue.active != [] {
      var r := PopHolds(cfg, s.requests, s.queue, true);
    }
  }

  /** At most the request `m` differs. */
  ghost predicate OnlyMoves(before: seq<Request>, after: seq<Request>, m: Option<Rid>) {
    && |after| == |before| && (m.Some? ==> m.value < |before|)
    && forall r: Rid :: r < |before| && m != Some(r) ==> after[r] == before[r]
  }

  lemma StepMovesOne(cfg: Config, s: State, a: Action)
    requires Inv(cfg, s) && Bounded(s) && Enabled(cfg, s, a) && !a.Arrive?
    ensures OnlyMoves(s.requests, Next(cfg, s, a).requests, MovedBy(s, a))
  {
    MovedExists(cfg, s, a);
    SameLength(cfg, s, a);
    hide Inv, Bounded, Next, Enabled, MovedBy;
    forall r: Rid | r < |s.requests| && MovedBy(s, a) != Some(r)
      ensures Next(cfg, s, a).requests[r] == s.requests[r]
    {
      OthersStay(cfg, s, a, r);
    }
  }

  /** The only request that a step adds is one that has just been admitted. */
  lemma StepAdds(cfg: Config, s: State, a: Action, r: Rid)
    requires Inv(cfg, s) && Bounded(s) && Enabled(cfg, s, a) && |s.requests| <= r < |Next(cfg, s, a).requests|
    ensures a.Arrive? && Next(cfg, s, a).requests[r].server.Unqueued? && Next(cfg, s, a).requests[r].client.Entered?
  {
    if !a.Arrive? {
      MovedExists(cfg, s, a);
      SameLength(cfg, s, a);
      assert false;
    } else {
      hide Inv, Bounded, Structured;
    }
  }

  lemma KeysKept(cfg: Config, s: State, a: Action)
    requires Bounded(s) && Enabled(cfg, s, a)
    ensures Next(cfg, s, a).accounts.Keys == s.accounts.Keys
  {
    hide Structured, FairQueueSpec.Pop, Push, Settlement, Admission;
  }

  lemma MovedByPop(cfg: Config, s: State, r: Rid)
    requires Inv(cfg, s) && Bounded(s) && s.pc.Pop? && r < |s.requests| && FairQueueSpec.Pop(s.queue).1 == Some(r)
    ensures r < |PopStep(cfg, s).requests| && MovesForward(s.requests[r], PopStep(cfg, s).requests[r])
  {
    hide Structured, Serve, Granted, ItemsHold, BatchHolds, LogHolds, AccountsBalance, PermitsBalance, SchedulerShape, Sum;
    if s.queue.active != [] {
      var r' := PopHolds(cfg, s.requests, s.queue, s.pc.first);
    }
    hide FairQueueSpec.Pop;
  }

  lemma MovedByDispatch(cfg: Config, s: State, r: Rid)
    requires Bounded(s) && s.batch != [] && s.batch[0].0 == r && r < |s.requests|
    requires s.requests[r].server.Batched?
    ensures r < |DispatchStep(cfg, s).requests| && MovesForward(s.requests[r], DispatchStep(cfg, s).requests[r])
    ensures r < |SendHead(s).requests| && MovesForward(s.requests[r], SendHead(s).requests[r])
  {
    hide Structured;
  }

  lemma MovedByScheduler(cfg: Config, s: State, a: Action, r: Rid)
    requires Inv(cfg, s) && Bounded(s) && Enabled(cfg, s, a) && (a.DispatchNext? || a.AcquireNext?)
    requires s.batch != [] && s.batch[0].0 == r && r < |s.requests|
    ensures r < |Next(cfg, s, a).requests| && MovesForward(s.requests[r], Next(cfg, s, a).requests[r])
  {
    BatchedCoherent(cfg, s);
    MovedByDispatch(cfg, s, r);
    assert a.AcquireNext? ==> TakeSlot(cfg, s).requests == s.requests && TakeSlot(cfg, s).batch == s.batch;
    hide Inv, Structured, Bounded, DispatchStep, MovesForward;
  }

  /** Steps that can end the handler. */
  predicate CanEnd(a: Action) {
    a.Submit? || a.HangUp? || a.Receive? || a.StreamEnd? || a.Settle?
  }

  lemma MovedBySubmit(cfg: Config, s: State, r: Rid, now: real)
    requires r < |s.requests| && s.requests[r].tenant in s.accounts && s.requests[r].client.Entered? && Coherent(s.requests[r])
    ensures r < |SubmitStep(cfg, s, r, now).requests| && MovesForward(s.requests[r], SubmitStep(cfg, s, r, now).requests[r])
  {
    hide Push, Settlement;
  }

  lemma MovedByHangUp(cfg: Config, s: State, r: Rid, now: real)
    requires r < |s.requests| && s.requests[r].tenant in s.accounts && Coherent(s.requests[r])
    requires s.requests[r].client.Awaiting? || s.requests[r].client.Serving?
    ensures r < |HangUpStep(cfg, s, r, now).requests| && MovesForward(s.requests[r], HangUpStep(cfg, s, r, now).requests[r])
  {
    hide Settlement;
  }

  lemma MovedByReply(cfg: Config, s: State, r: Rid, now: real)
    requires r < |s.requests| && s.requests[r].tenant in s.accounts && Coherent(s.requests[r])
    ensures s.requests[r].client.Awaiting? && s.requests[r].server.Delivered? ==>
      r < |ReceiveStep(s, r, now).requests| && MovesForward(s.requests[r], ReceiveStep(s, r, now).requests[r])
    ensures s.requests[r].client.Settling? ==>
      r < |Finish(s, r, Taken, now).requests| && MovesForward(s.requests[r], Finish(s, r, Taken, now).requests[r])
  {
    hide Settlement;
  }

  lemma MovedByEnd(cfg: Config, s: State, a: Action, r: Rid)
    requires Bounded(s) && Enabled(cfg, s, a) && r < |s.requests| && MovedBy(s, a) == Some(r) && Coherent(s.requests[r])
    requires CanEnd(a)
    ensures r < |Next(cfg, s, a).requests| && MovesForward(s.requests[r], Next(cfg, s, a).requests[r])
  {
    assert s.requests[r].tenant in s.accounts;
    hide Bounded, Structured, MovesForward, PopStep, DispatchStep, SendHead, Finish, AnswerStep, DeliverStep, SubmitStep, HangUpStep, ReceiveStep;
    match a
    case Submit(_, now) => MovedBySubmit(cfg, s, r, now);
    case HangUp(_, now) => MovedByHangUp(cfg, s, r, now);
    case StreamEnd(_, now) => MovedByHangUp(cfg, s, r, now);
    case Receive(_, now) => MovedByReply(cfg, s, r, now);
    case Settle(_, now) => MovedByReply(cfg, s, r, now);
    case _ =>
  }

  lemma MovedByTask(cfg: Config, s: State, a: Action, r: Rid)
    requires r < |s.requests| && Coherent(s.requests[r])
    ensures s.requests[r].server.Sending? ==> forall ok ::
      r < |AnswerStep(cfg, s, r, ok).requests| && MovesForward(s.requests[r], AnswerStep(cfg, s, r, ok).requests[r])
    ensures s.requests[r].server.Replying? ==>
      r < |DeliverStep(cfg, s, r).requests| && MovesForward(s.requests[r], DeliverStep(cfg, s, r).requests[r])
  {
  }

  lemma MovedByOther(cfg: Config, s: State, a: Action, r: Rid)
    requires Bounded(s) && Enabled(cfg, s, a) && r < |s.requests| && MovedBy(s, a) == Some(r) && Coherent(s.requests[r])
    requires !CanEnd(a) && !a.PopNext? && !a.DispatchNext? && !a.AcquireNext?
    ensures r < |Next(cfg, s, a).requests| && MovesForward(s.requests[r], Next(cfg, s, a).requests[r])
  {
    MovedByTask(cfg, s, a, r);
    hide Bounded, Structured, FairQueueSpec.Pop, PopStep, DispatchStep, SendHead, Finish, SubmitStep, ReceiveStep, HangUpStep, AnswerStep, DeliverStep;
  }

  lemma MovedForward(cfg: Config, s: State, a: Action, r: Rid)
    requires Inv(cfg, s) && Bounded(s) && Enabled(cfg, s, a) && r < |s.requests| && MovedBy(s, a) == Some(r)
    ensures r < |Next(cfg, s, a).requests| && MovesForward(s.requests[r], Next(cfg, s, a).requests[r])
  {
    assert Coherent(s.requests[r]);
    hide Inv, Structured, MovesForward, Coherent;
    if a.PopNext? {
      MovedByPop(cfg, s, r);
    } else if a.DispatchNext? || a.AcquireNext? {
      MovedByScheduler(cfg, s, a, r);
    } else if CanEnd(a) {
      MovedByEnd(cfg, s, a, r);
    } else {
      MovedByOther(cfg, s, a, r);
    }
  }

  /**
   Requests only move forward, one at a time: none disappears, none is sent,
   answered or skipped twice, and one is skipped only when its client has hung
   up and it was never sent.
   */
  lemma RequestsMoveForward(cfg: Config, s: State, a: Action, r: Rid)
    requires Inv(cfg, s) && Bounded(s) && Enabled(cfg, s, a) && r < |s.requests|
    ensures r < |Next(cfg, s, a).requests| && MovesForward(s.requests[r], Next(cfg, s, a).requests[r])
  {
    hide Inv, Bounded, Next, Enabled, MovedBy;
    if MovedBy(s, a) == Some(r) {
      MovedForward(cfg, s, a, r);
    } else {
      OthersStay(cfg, s, a, r);
    }
  }

  /**
   A waiting handler always has somebody who will answer it: its request is
   queued, batched or with the backend, or the reply is in the channel. No
   handler is told that the scheduler is gone.
   */
  lemma NobodyWaitsForNothing(cfg: Config, s: State, r: Rid)
    requires Reachable(cfg, s) && r < |s.requests| && s.requests[r].client.Awaiting?
    ensures var v := s.requests[r].server;
      || WaitsAt(s.queue, QueueKey(cfg, s.requests[r]), r) || InBatch(s.batch, r)
      || (r in s.sent && (v.Sending? || v.Replying? || v.Delivered?))
  {
    ReachableInv(cfg, s);
    WhereAccepted(cfg, s, r);
    assert Coherent(s.requests[r]);
  }

  // ----- Wakeups -----

  /**
   No lost wakeup: if the scheduler is parked and something is queued, it has
   been woken, or some handler is between its push and its notification, which
   will wake it.
   */
  lemma NoLostWakeup(cfg: Config, s: State)
    requires Reachable(cfg, s) && s.pc.Parked? && s.queue.len > 0
    ensures s.waiter.Woken? || exists r: Rid :: r < |s.requests| && s.requests[r].client.Notifying?
    ensures !s.waiter.Woken? ==> s.waiter.Parked? && Notified(s).waiter.Woken?
  {
    hide Reachable, Inv;
    ReachableInv(cfg, s);
    if !s.waiter.Woken? {
      var r := NotifierFound(cfg, s);
    }
  }

  lemma NotifierFound(cfg: Config, s: State) returns (r: Rid)
    requires Inv(cfg, s) && s.pc.Parked? && !s.waiter.Woken? && s.queue.len > 0
    ensures s.waiter.Parked? && !s.stored
    ensures r < |s.requests| && s.requests[r].client.Notifying?
  {
    hide BatchHolds, LogHolds, AccountsBalance, PermitsBalance, AllCoherent, ItemsHold, Credited;
    LenPositive(s.queue);
    r := SumPositiveWitness(s.requests, NotifierOf);
  }

  /** A window that times out passes on the notification it was given. */
  lemma TimeoutLosesNoWakeup(cfg: Config, s: State)
    requires Reachable(cfg, s) && Enabled(cfg, s, Timeout) && s.waiter.Woken?
    ensures Bounded(s) && Next(cfg, s, Timeout).stored
  {
    ReachableInv(cfg, s);
    InvBounded(cfg, s);
  }

  /** The scheduler's wakeups under way: one stored, one that has arrived. */
  function Wakeups(s: State): nat {
    (if s.stored then 1 else 0) + (if s.waiter.Woken? then 1 else 0)
  }

  /**
   Wakeups come from notifications alone, at most one from each and never none
   left; and one is used up whenever the scheduler wakes, or goes on instead of
   parking.
   */
  lemma WakeupsAddUp(cfg: Config, s: State, a: Action)
    requires Inv(cfg, s) && Bounded(s) && Enabled(cfg, s, a)
    ensures var s' := Next(cfg, s, a);
      && Wakeups(s') <= Wakeups(s) + (if a.NotifyOne? then 1 else 0)
      && (a.NotifyOne? ==> Wakeups(s') >= 1)
      && (a.Wake? || (a.ParkNow? && s'.pc.Pop?) ==> Wakeups(s') == Wakeups(s) - 1)
  {
    assert SchedulerShape(cfg, s);
    hide Inv, Structured, FairQueueSpec.Pop, Push, PopStep, DispatchStep, SendHead, Finish, SubmitStep, ReceiveStep, HangUpStep;
    hide AnswerStep, DeliverStep, ArriveStep, RecordUse, FreeSlot;
    if a.PopNext? || a.DispatchNext? || a.AcquireNext? || OfRequest(a) { WakeupsStay(cfg, s, a); }
  }

  lemma WakeupsStay(cfg: Config, s: State, a: Action)
    requires Bounded(s) && Enabled(cfg, s, a)
    requires a.PopNext? || a.DispatchNext? || a.AcquireNext? || OfRequest(a)
    ensures !a.NotifyOne? ==> Wakeups(Next(cfg, s, a)) == Wakeups(s)
  {
    hide Structured, FairQueueSpec.Pop, Push, Settlement, Admission;
  }

  // ----- Slots -----

  /** The scheduler holds no backend slot while it waits for one, so it cannot block itself. */
  lemma NoSlotWhileWaiting(cfg: Config, s: State)
    requires Reachable(cfg, s) && (s.pc.Acquire? || s.pc.AwaitSlot?)
    ensures SchedulerSlot(s.pc) == 0
    ensures forall i :: 0 <= i < |s.batch| ==> !s.batch[i].1 && s.batch[i].0 < |s.requests| && SlotOf(s.requests[s.batch[i].0]) == 0
  {
    hide Reachable, Inv, SlotOf;
    ReachableInv(cfg, s);
    forall i | 0 <= i < |s.batch|
      ensures !s.batch[i].1 && s.batch[i].0 < |s.requests| && SlotOf(s.requests[s.batch[i].0]) == 0
    {
      SlotlessEntry(cfg, s, i);
    }
  }

  lemma SlotlessEntry(cfg: Config, s: State, i: nat)
    requires Inv(cfg, s) && (s.pc.Acquire? || s.pc.AwaitSlot?) && i < |s.batch|
    ensures !s.batch[i].1 && s.batch[i].0 < |s.requests| && SlotOf(s.requests[s.batch[i].0]) == 0
  {
    hide Sum, QueueHolds, LogHolds, AccountsBalance, WakeupPending, PermitsBalance;
    var q := s.requests[s.batch[i].0];
    assert Coherent(q) && q.server == Batched(s.batch[i].1);
  }

  /** A request that has left the queue and with which the backend, its reply or its body is not finished. */
  function OutsideOf(q: Request): int {
    if q.client.Serving? then 1
    else
      match q.server
      case Batched(_) => 1
      case Sending => 1
      case Replying(ok) => if ok then 1 else 0
      case Delivered(ok) => if ok then 1 else 0
      case _ => 0
  }

  /** A batched request for which no slot has been taken yet. */
  function SlotlessOf(q: Request): int {
    if !q.client.Serving? && q.server == Batched(false) then 1 else 0
  }

  lemma {:induction false} OutsideIsSlotted(requests: seq<Request>)
    ensures Sum(requests, OutsideOf) == Sum(requests, SlotOf) + Sum(requests, SlotlessOf)
  {
    if requests != [] { OutsideIsSlotted(requests[..|requests| - 1]); }
  }

  /**
   Conservation of permits and the in-system bound. Free permits, the slot that
   the scheduler holds and the requests outside the queue always add up to the
   limit, plus the batch entries without a slot. Without a batching window
   there are none, so queue and backend together hold at most the queue's depth
   plus the limit.
   */
  lemma InSystemBound(cfg: Config, s: State)
    requires Reachable(cfg, s) && cfg.maxInflight > 0
    ensures s.permits + SchedulerSlot(s.pc) + Sum(s.requests, OutsideOf) == cfg.maxInflight + Sum(s.requests, SlotlessOf)
    ensures Sum(s.requests, QueuedOf) == s.queue.len <= cfg.queueDepth
    ensures Sum(s.requests, QueuedOf) + Sum(s.requests, OutsideOf)
         <= cfg.queueDepth + cfg.maxInflight + Sum(s.requests, SlotlessOf)
    ensures !cfg.windowed ==> Sum(s.requests, SlotlessOf) == 0
  {
    ReachableInv(cfg, s);
    OutsideIsSlotted(s.requests);
    hide LogHolds, AccountsBalance, ItemsHold, Structured, Total;
    if !cfg.windowed {
      forall r | 0 <= r < |s.requests|
        ensures SlotlessOf(s.requests[r]) == 0
      {
        if s.requests[r].server.Batched? {
          assert InBatch(s.batch, r);
        }
      }
      if Sum(s.requests, SlotlessOf) != 0 {
        SumNonNegative(s.requests, SlotlessOf);
        var r := SumPositiveWitness(s.requests, SlotlessOf);
        assert false;
      }
    }
  }

  // ----- Tenants -----

  /**
   A tenant's account counts the handlers it has alive, wherever their requests
   are, and never more than its limit.
   */
  lemma LiveHandlersLimited(cfg: Config, s: State, k: Key)
    requires Reachable(cfg, s) && k in s.accounts
    ensures s.accounts[k].active == Sum(s.requests, LeaseOf(k)) <= s.accounts[k].maxConcurrent
  {
    ReachableInv(cfg, s);
    hide QueueHolds, BatchHolds, LogHolds, PermitsBalance, Sum;
  }
}
