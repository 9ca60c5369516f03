/**
 Progress: the gateway never deadlocks, and once arrivals stop every request
 is settled after a bounded number of steps, in whatever order they happen.
 */
module GatewayProgress {
  import opened Prelude
  import opened Tenants
  import opened FairQueueSpec
  import opened Gateway
  import opened GatewayInvariant
  import opened GatewaySteps
  import opened GatewaySafety

  /** The request has been answered or skipped, and its handler is gone. */
  predicate Settled(q: Request) {
    q.client.Gone? && (q.server.Rejected? || q.server.Taken? || q.server.Skipped? || q.server.Discarded?)
  }

  /** Steps that the gateway, the backend and the timer take; clients need not arrive, hang up or send more. */
  predicate Internal(a: Action) {
    !a.Arrive? && !a.HangUp? && !a.Forward?
  }

  /** An internal step in which the backend does not fail and a reply is read to its end. */
  predicate Kind(a: Action) {
    Internal(a) && !a.StreamEnd? && (a.Answer? ==> a.ok)
  }

  // ----- No deadlock -----

  /** A request that holds a slot is not in the scheduler's hands while the scheduler waits for a slot: it can move. */
  lemma HolderMoves(cfg: Config, s: State, r: Rid) returns (a: Action)
    requires Inv(cfg, s) && (s.pc.Acquire? || s.pc.AwaitSlot?) && r < |s.requests| && SlotOf(s.requests[r]) > 0
    ensures Kind(a) && Enabled(cfg, s, a)
  {
    hide Sum, QueueHolds, LogHolds, AccountsBalance, WakeupPending, PermitsBalance;
    var q := s.requests[r];
    assert Coherent(q);
    if q.client.Serving? {
      a := BodyRead(r, 0);
    } else if q.server.Sending? {
      a := Answer(r, true);
    } else if q.server.Replying? {
      a := Deliver(r);
    } else if q.server.Delivered? {
      a := if q.client.Notifying? then NotifyOne(r) else Receive(r, 0.0);
    } else {
      HolderNotBatched(cfg, s, r);
      assert false;
    }
  }

  lemma HolderNotBatched(cfg: Config, s: State, r: Rid)
    requires Inv(cfg, s) && (s.pc.Acquire? || s.pc.AwaitSlot?) && r < |s.requests| && SlotOf(s.requests[r]) > 0
    ensures !s.requests[r].server.Batched?
  {
    hide Sum, QueueHolds, LogHolds, AccountsBalance, WakeupPending, PermitsBalance;
    if s.requests[r].server.Batched? {
      assert InBatch(s.batch, r);
      var i :| 0 <= i < |s.batch| && s.batch[i].0 == r;
      SlotlessEntry(cfg, s, i);
    }
  }

  /** If the scheduler cannot get a slot, somebody who holds one can move. */
  lemma SlotComesFree(cfg: Config, s: State) returns (a: Action)
    requires Inv(cfg, s) && (s.pc.Acquire? || s.pc.AwaitSlot?) && !SlotAvailable(cfg, s)
    ensures Kind(a) && Enabled(cfg, s, a)
  {
    assert Sum(s.requests, SlotOf) > 0 by {
      hide Sum, QueueHolds, BatchHolds, LogHolds, AccountsBalance, WakeupPending, AllCoherent;
    }
    var r := SumPositiveWitness(s.requests, SlotOf);
    a := HolderMoves(cfg, s, r);
  }

  /** The scheduler, or somebody it waits for, can move, unless it is parked with nothing queued. */
  lemma SchedulerMoves(cfg: Config, s: State) returns (a: Action)
    requires Inv(cfg, s) && !(s.pc == Pc.Parked(true) && s.queue.len == 0)
    ensures Kind(a) && Enabled(cfg, s, a)
  {
    hide QueueHolds, BatchHolds, LogHolds, AccountsBalance, PermitsBalance, AllCoherent, Sum;
    match s.pc
    case Acquire => if SlotAvailable(cfg, s) { a := AcquireFirst; } else { a := SlotComesFree(cfg, s); }
    case Pop(_) => a := PopNext;
    case Park(_) => a := ParkNow;
    case Parked(first) =>
      if s.waiter.Woken? {
        a := Wake;
      } else if first {
        var r := NotifierFound(cfg, s);
        a := NotifyOne(r);
      } else {
        a := Timeout;
      }
    case Collect => a := Deadline(true);
    case Dispatch => a := DispatchNext;
    case AwaitSlot => if SlotAvailable(cfg, s) { a := AcquireNext; } else { a := SlotComesFree(cfg, s); }
  }

  /** A request that is not settled can move, unless it is waiting for the scheduler. */
  lemma RequestMoves(cfg: Config, s: State, r: Rid) returns (a: Action)
    requires Inv(cfg, s) && r < |s.requests| && !Settled(s.requests[r])
    requires !s.requests[r].server.Queued? && !s.requests[r].server.Batched?
    ensures Kind(a) && Enabled(cfg, s, a)
  {
    hide Sum, QueueHolds, BatchHolds, LogHolds, AccountsBalance, WakeupPending, PermitsBalance, SchedulerShape;
    var q := s.requests[r];
    assert Coherent(q);
    match q.client
    case Entered => a := Submit(r, 0.0);
    case Notifying => a := NotifyOne(r);
    case Serving => a := BodyRead(r, 0);
    case Settling => a := Settle(r, 0.0);
    case _ =>
      if q.server.Sending? { a := Answer(r, true); }
      else if q.server.Replying? { a := Deliver(r); }
      else { a := Receive(r, 0.0); }
  }

  /** A queued or batched request keeps the scheduler out of its idle state. */
  lemma SchedulerBusy(cfg: Config, s: State, r: Rid)
    requires Inv(cfg, s) && r < |s.requests| && (s.requests[r].server.Queued? || s.requests[r].server.Batched?)
    ensures !(s.pc == Pc.Parked(true) && s.queue.len == 0)
  {
    hide LogHolds, AccountsBalance, WakeupPending, PermitsBalance, AllCoherent, ItemsHold, WellFormed;
    if s.requests[r].server.Queued? {
      SumNonNegative(s.requests, QueuedOf);
      assert QueuedOf(s.requests[r]) == 1;
    } else {
      assert InBatch(s.batch, r);
    }
  }

  lemma SomebodyMoves(cfg: Config, s: State, r: Rid) returns (a: Action)
    requires Inv(cfg, s) && r < |s.requests| && !Settled(s.requests[r])
    ensures Kind(a) && Enabled(cfg, s, a)
  {
    hide Inv, Enabled, Kind, Settled;
    if s.requests[r].server.Queued? || s.requests[r].server.Batched? {
      SchedulerBusy(cfg, s, r);
      a := SchedulerMoves(cfg, s);
    } else {
      a := RequestMoves(cfg, s, r);
    }
  }

  /** No deadlock: as long as some request is not settled, some step is possible. */
  lemma NoDeadlock(cfg: Config, s: State, r: Rid) returns (a: Action)
    requires Reachable(cfg, s) && r < |s.requests| && !Settled(s.requests[r])
    ensures Kind(a) && Enabled(cfg, s, a)
  {
    hide Reachable, Inv, Enabled, Kind, Settled;
    ReachableInv(cfg, s);
    a := SomebodyMoves(cfg, s, r);
  }

  // ----- Every run of internal steps ends -----

  /** Steps that a request still has ahead of it, with those that the scheduler takes on its behalf. */
  function StepsAhead(q: Request): int {
    (match q.server
     case Unqueued => 40
     case Queued => 30
     case Batched(_) => 20
     case Sending => 12
     case Replying(_) => 8
     case Delivered(_) => 4
     case _ => 0)
    +
    (match q.client
     case Entered => 40
     case Notifying => 20
     case Awaiting => 3
     case Serving => 2
     case Settling => 1
     case Gone => 0)
  }

  function PcAhead(pc: Pc): int {
    match pc
    case Parked(first) => if first then 0 else 6
    case Park(first) => if first then 1 else 7
    case Pop(first) => if first then 2 else 8
    case Acquire => 3
    case AwaitSlot => 4
    case Dispatch => 5
    case Collect => 9
  }

  /** Wakeups that are still on their way. */
  function WakeAhead(s: State): int {
    (if s.stored then 8 else 0) + (if s.waiter.Woken? then 8 else 0)
  }

  /** A bound on the steps that remain. */
  ghost function Measure(s: State): int {
    Sum(s.requests, StepsAhead) + PcAhead(s.pc) + WakeAhead(s)
  }

  lemma {:induction false} AheadBounded(requests: seq<Request>)
    ensures 0 <= Sum(requests, StepsAhead) <= 80 * |requests|
  {
    if requests != [] { AheadBounded(requests[..|requests| - 1]); }
  }

  lemma MeasureNonNegative(s: State)
    ensures Measure(s) >= 0
  {
    AheadBounded(s.requests);
  }

  lemma AheadChange(before: seq<Request>, after: seq<Request>, m: Option<Rid>)
    requires OnlyMoves(before, after, m)
    ensures match m
      case Some(r) => Sum(after, StepsAhead) == Sum(before, StepsAhead) - StepsAhead(before[r]) + StepsAhead(after[r])
      case None => Sum(after, StepsAhead) == Sum(before, StepsAhead)
  {
    match m
    case Some(r) =>
      assert after == before[r := after[r]];
      SumUpdate(before, r, after[r], StepsAhead);
    case None =>
      assert after == before;
  }

  /** Arrivals bring new work; forwarding a chunk repeats for as long as the backend streams. */
  predicate Finite(a: Action) { !a.Arrive? && !a.Forward? }

  /** The moved request, the scheduler and the wakeups together come closer to the end. */
  ghost predicate Shrinks(s: State, s': State, m: Option<Rid>) {
    && (m.Some? ==> m.value < |s.requests| && m.value < |s'.requests|)
    && PcAhead(s'.pc) + WakeAhead(s') + (if m.Some? then StepsAhead(s'.requests[m.value]) - StepsAhead(s.requests[m.value]) else 0)
       < PcAhead(s.pc) + WakeAhead(s)
  }

  lemma PopShrinks(cfg: Config, s: State)
    requires Inv(cfg, s) && Bounded(s) && s.pc.Pop?
    ensures Shrinks(s, PopStep(cfg, s), FairQueueSpec.Pop(s.queue).1)
  {
    hide Structured, Serve, Granted, ItemsHold, BatchHolds, LogHolds, AccountsBalance, PermitsBalance, SchedulerShape, Sum;
    if s.queue.active != [] {
      var r := PopHolds(cfg, s.requests, s.queue, s.pc.first);
      hide FairQueueSpec.Pop;
      assert PopStep(cfg, s).requests[r] == s.requests[r].(server := Batched(s.pc.first));
    }
  }

  lemma WaitShrinks(cfg: Config, s: State, a: Action)
    requires Bounded(s) && Enabled(cfg, s, a) && (s.waiter.Woken? ==> s.pc.Parked?)
    requires a.AcquireFirst? || a.ParkNow? || a.Wake? || a.Deadline? || a.Timeout?
    ensures Shrinks(s, Next(cfg, s, a), None)
  {
    hide Bounded, Structured, FairQueueSpec.Pop, Push, PopStep, DispatchStep, SendHead, Finish, SubmitStep, ReceiveStep, HangUpStep;
  }

  lemma DispatchShrinks(cfg: Config, s: State)
    requires Bounded(s) && (s.pc.Dispatch? || (s.pc.AwaitSlot? && SlotAvailable(cfg, s)))
    requires s.batch != [] ==> s.batch[0].0 < |s.requests| && s.requests[s.batch[0].0].server.Batched?
    ensures s.pc.Dispatch? ==> Shrinks(s, DispatchStep(cfg, s), if s.batch == [] then None else Some(s.batch[0].0))
    ensures s.pc.AwaitSlot? ==> Shrinks(s, SendHead(TakeSlot(cfg, s)), Some(s.batch[0].0))
  {
    hide Structured;
  }

  lemma HandlerShrinks(cfg: Config, s: State, a: Action, r: Rid)
    requires Bounded(s) && Enabled(cfg, s, a) && r < |s.requests| && Coherent(s.requests[r]) && MovedBy(s, a) == Some(r)
    requires a.NotifyOne? || a.Answer? || a.Deliver? || a.BodyRead?
    ensures Shrinks(s, Next(cfg, s, a), Some(r))
  {
    hide Structured, FairQueueSpec.Pop, Push, PopStep, DispatchStep, SendHead, Finish, SubmitStep, ReceiveStep, HangUpStep;
  }

  lemma SubmitShrinks(cfg: Config, s: State, r: Rid, now: real)
    requires r < |s.requests| && s.requests[r].tenant in s.accounts && s.requests[r].client.Entered? && Coherent(s.requests[r])
    ensures Shrinks(s, SubmitStep(cfg, s, r, now), Some(r))
  {
    hide Push, Settlement;
  }

  lemma EndShrinks(cfg: Config, s: State, a: Action, r: Rid)
    requires Bounded(s) && Enabled(cfg, s, a) && r < |s.requests| && Coherent(s.requests[r]) && MovedBy(s, a) == Some(r)
    requires CanEnd(a) && !a.Submit?
    ensures Shrinks(s, Next(cfg, s, a), Some(r))
  {
    assert s.requests[r].tenant in s.accounts;
    hide SubmitStep, Bounded, Structured, FairQueueSpec.Pop, Push, PopStep, DispatchStep, SendHead, Settlement, AnswerStep, DeliverStep;
  }

  lemma HeadBatched(cfg: Config, s: State)
    requires Inv(cfg, s)
    ensures s.batch != [] ==> s.batch[0].0 < |s.requests| && s.requests[s.batch[0].0].server.Batched?
    ensures s.pc.AwaitSlot? ==> s.batch != []
    ensures s.waiter.Woken? ==> s.pc.Parked?
  {
    if s.batch != [] { BatchedCoherent(cfg, s); }
  }

  lemma StepShrinks(cfg: Config, s: State, a: Action)
    requires Inv(cfg, s) && Bounded(s) && Enabled(cfg, s, a) && Finite(a)
    ensures Shrinks(s, Next(cfg, s, a), MovedBy(s, a))
  {
    MovedExists(cfg, s, a);
    assert forall i :: 0 <= i < |s.requests| ==> Coherent(s.requests[i]) && s.requests[i].tenant in s.accounts;
    hide Inv, Bounded, Shrinks, Coherent;
    if a.PopNext? {
      PopShrinks(cfg, s);
    } else if a.Submit? {
      SubmitShrinks(cfg, s, a.r, a.now);
    } else if CanEnd(a) {
      EndShrinks(cfg, s, a, a.r);
    } else if a.NotifyOne? || a.Answer? || a.Deliver? || a.BodyRead? {
      HandlerShrinks(cfg, s, a, a.r);
    } else if a.DispatchNext? || a.AcquireNext? {
      HeadBatched(cfg, s);
      DispatchShrinks(cfg, s);
    } else {
      HeadBatched(cfg, s);
      WaitShrinks(cfg, s, a);
    }
  }

  /** Every step but an arrival or the forwarding of a chunk brings the gateway closer to the end. */
  lemma StepDecreases(cfg: Config, s: State, a: Action)
    requires Inv(cfg, s) && Bounded(s) && Enabled(cfg, s, a) && Finite(a)
    ensures Measure(Next(cfg, s, a)) < Measure(s) && |Next(cfg, s, a).requests| == |s.requests|
  {
    hide Inv, Bounded, Next, Enabled, MovedBy, StepsAhead, PcAhead, WakeAhead, Sum;
    StepShrinks(cfg, s, a);
    StepMovesOne(cfg, s, a);
    AheadChange(s.requests, Next(cfg, s, a).requests, MovedBy(s, a));
  }

  predicate AllFinite(actions: seq<Action>) {
    forall i :: 0 <= i < |actions| ==> Finite(actions[i])
  }

  lemma {:induction false} RunShortens(cfg: Config, states: seq<State>, actions: seq<Action>, n: nat)
    requires Run(cfg, states, actions) && Inv(cfg, states[0]) && AllFinite(actions) && n <= |actions|
    ensures n + Measure(states[n]) <= Measure(states[0])
    ensures |states[n].requests| == |states[0].requests|
  {
    hide Inv, Measure, Bounded, Next, Enabled, Finite;
    if n > 0 {
      RunShortens(cfg, states, actions, n - 1);
      RunInv(cfg, states, actions, n - 1);
      assert StepTo(cfg, states[n - 1], actions[n - 1], states[n]);
      StepDecreases(cfg, states[n - 1], actions[n - 1]);
    }
  }

  ghost predicate AllSettled(s: State) {
    forall r: Rid :: r < |s.requests| ==> Settled(s.requests[r])
  }

  /** Nobody but a client can do anything. */
  ghost predicate Quiet(cfg: Config, s: State) {
    forall a :: Internal(a) ==> !Enabled(cfg, s, a)
  }

  /** How many steps `n` requests can cause, however they are interleaved. */
  function StepBound(n: nat): nat { 80 * n + 25 }

  /**
   Every run ends. Without new arrivals, and chunks aside, any run from any
   reachable state has at most 80 steps a request and 25 more, in whatever order
   handlers, scheduler and dispatch tasks take their turns; a run that can only
   be continued by clients has settled every request.
   */
  lemma EveryRunSettles(cfg: Config, states: seq<State>, actions: seq<Action>)
    requires Run(cfg, states, actions) && Reachable(cfg, states[0]) && AllFinite(actions)
    ensures |actions| <= StepBound(|states[0].requests|)
    ensures Quiet(cfg, states[|actions|]) ==> AllSettled(states[|actions|])
  {
    hide Inv, Settled, Enabled, Internal, Reachable, StepTo;
    var s' := states[|actions|];
    ReachableInv(cfg, states[0]);
    RunInv(cfg, states, actions, |actions|);
    RunShortens(cfg, states, actions, |actions|);
    AheadBounded(states[0].requests);
    AheadBounded(s'.requests);
    if Quiet(cfg, s') {
      forall r: Rid | r < |s'.requests|
        ensures Settled(s'.requests[r])
      {
        if !Settled(s'.requests[r]) {
          var a := SomebodyMoves(cfg, s', r);
        }
      }
    }
  }

  /** The run goes on with steps of the gateway alone, none of which fails. */
  ghost predicate Extends(states: seq<State>, actions: seq<Action>, states': seq<State>, actions': seq<Action>) {
    && states <= states' && actions <= actions'
    && forall i :: |actions| <= i < |actions'| ==> Kind(actions'[i])
  }

  lemma Drain(cfg: Config, states: seq<State>, actions: seq<Action>) returns (states': seq<State>, actions': seq<Action>)
    requires Run(cfg, states, actions) && Inv(cfg, states[|actions|])
    ensures Run(cfg, states', actions') && Extends(states, actions, states', actions')
    ensures AllSettled(states'[|actions'|])
    decreases Measure(states[|actions|])
  {
    hide Inv, Settled, Enabled, Measure, Bounded, Next, StepTo;
    var now := states[|actions|];
    if AllSettled(now) {
      states', actions' := states, actions;
    } else {
      var r: Rid :| r < |now.requests| && !Settled(now.requests[r]);
      var a := SomebodyMoves(cfg, now, r);
      RunStep(cfg, states, actions, a);
      StepKeeps(cfg, now, a);
      StepDecreases(cfg, now, a);
      MeasureNonNegative(Next(cfg, now, a));
      states', actions' := Drain(cfg, states + [Next(cfg, now, a)], actions + [a]);
    }
  }

  /**
   And every such run can be continued, by the gateway alone, until every request
   is settled: with a backend that answers, and without a client hanging up.
   */
  lemma EveryRunCompletes(cfg: Config, states: seq<State>, actions: seq<Action>) returns (states': seq<State>, actions': seq<Action>)
    requires Run(cfg, states, actions) && Reachable(cfg, states[0])
    ensures Run(cfg, states', actions') && Extends(states, actions, states', actions')
    ensures AllFinite(actions) ==> AllFinite(actions')
    ensures AllSettled(states'[|actions'|])
  {
    hide Inv, Reachable, StepTo, Settled;
    ReachableInv(cfg, states[0]);
    RunInv(cfg, states, actions, |actions|);
    states', actions' := Drain(cfg, states, actions);
  }
}
