/**
 Two limits that the gateway promises, and what they really bound: the number
 of requests in the system when there is a batching window, and the number of a
 tenant's requests in the system when clients hang up.
 */
module GatewayLimits {
  import opened Prelude
  import opened Tenants
  import opened FairQueueSpec
  import opened FairQueueInvariant
  import opened Gateway
  import opened GatewayInvariant
  import opened GatewaySteps
  import opened GatewaySafety
  import H = TenantHistory
  import T = GatewayTenants

  // ----- The promises -----

  /** Queue and backend together hold no more than the queue's depth plus the in-flight limit. */
  ghost predicate SystemWithin(cfg: Config, s: State) {
    Sum(s.requests, QueuedOf) + Sum(s.requests, OutsideOf) <= cfg.queueDepth + cfg.maxInflight
  }

  /** The request is in the queue, or outside it and not finished. */
  predicate InSystem(q: Request) { QueuedOf(q) + OutsideOf(q) > 0 }

  function InSystemOf(k: Key): Request -> int {
    (q: Request) => if q.tenant == k && InSystem(q) then 1 else 0
  }

  /** It is in the system although its client has hung up. */
  predicate Abandoned(q: Request) { InSystem(q) && q.client.Gone? }

  function AbandonedOf(k: Key): Request -> int {
    (q: Request) => if q.tenant == k && Abandoned(q) then 1 else 0
  }

  /** No tenant has more requests in the system than its concurrency limit. */
  ghost predicate TenantsWithin(s: State) {
    forall k :: k in s.accounts ==> Sum(s.requests, InSystemOf(k)) <= s.accounts[k].maxConcurrent
  }

  // ----- What the concurrency limit bounds -----

  lemma {:induction false} LiveOrAbandoned(requests: seq<Request>, k: Key)
    ensures Sum(requests, InSystemOf(k)) <= Sum(requests, LeaseOf(k)) + Sum(requests, AbandonedOf(k))
  {
    if requests != [] { LiveOrAbandoned(requests[..|requests| - 1], k); }
  }

  /**
   A tenant's requests in the system are at most its limit plus those whose
   client has hung up: only abandoned requests can exceed the limit.
   */
  lemma ConcurrencyBound(cfg: Config, s: State, k: Key)
    requires Reachable(cfg, s) && k in s.accounts
    ensures Sum(s.requests, InSystemOf(k)) <= s.accounts[k].maxConcurrent + Sum(s.requests, AbandonedOf(k))
  {
    hide Reachable;
    LiveHandlersLimited(cfg, s, k);
    LiveOrAbandoned(s.requests, k);
  }

  ghost predicate NoneAbandoned(s: State) {
    forall r: Rid :: r < |s.requests| ==> !Abandoned(s.requests[r])
  }

  lemma MovedNotAbandoned(cfg: Config, s: State, a: Action, r: Rid)
    requires Bounded(s) && Enabled(cfg, s, a) && r < |s.requests| && MovedBy(s, a) == Some(r)
    requires Coherent(s.requests[r]) && !Abandoned(s.requests[r])
    requires !a.HangUp? && !a.PopNext? && !a.DispatchNext? && !a.AcquireNext?
    ensures r < |Next(cfg, s, a).requests| && !Abandoned(Next(cfg, s, a).requests[r])
  {
    assert s.requests[r].tenant in s.accounts;
    hide Bounded, Structured, FairQueueSpec.Pop, Push, PopStep, DispatchStep, SendHead, Settlement;
  }

  lemma PoppedNotAbandoned(cfg: Config, s: State, r: Rid)
    requires Inv(cfg, s) && Bounded(s) && s.pc.Pop? && FairQueueSpec.Pop(s.queue).1 == Some(r)
    requires NoneAbandoned(s)
    ensures r < |PopStep(cfg, s).requests| && !Abandoned(PopStep(cfg, s).requests[r])
  {
    hide Structured, Serve, Granted, ItemsHold, BatchHolds, LogHolds, AccountsBalance, PermitsBalance, SchedulerShape, Sum;
    if s.queue.active != [] {
      var r' := PopHolds(cfg, s.requests, s.queue, s.pc.first);
      hide FairQueueSpec.Pop;
    }
  }

  lemma SentNotAbandoned(cfg: Config, s: State, a: Action, r: Rid)
    requires Bounded(s) && Enabled(cfg, s, a) && (a.DispatchNext? || a.AcquireNext?) && MovedBy(s, a) == Some(r)
    requires s.batch != [] && s.batch[0].0 == r && s.requests[r].server.Batched? && NoneAbandoned(s)
    ensures r < |Next(cfg, s, a).requests| && !Abandoned(Next(cfg, s, a).requests[r])
  {
    hide Structured;
  }

  lemma StepNotAbandoned(cfg: Config, s: State, a: Action, r: Rid)
    requires Inv(cfg, s) && Bounded(s) && Enabled(cfg, s, a) && !a.HangUp? && NoneAbandoned(s)
    requires r < |s.requests|
    ensures r < |Next(cfg, s, a).requests| && !Abandoned(Next(cfg, s, a).requests[r])
  {
    assert Coherent(s.requests[r]);
    if s.batch != [] { BatchedCoherent(cfg, s); }
    hide Inv, Bounded, Next, Coherent;
    if MovedBy(s, a) != Some(r) {
      OthersStay(cfg, s, a, r);
    } else if a.PopNext? {
      PoppedNotAbandoned(cfg, s, r);
      assert Next(cfg, s, a) == PopStep(cfg, s) by { NextIsPop(cfg, s); }
    } else if a.DispatchNext? || a.AcquireNext? {
      SentNotAbandoned(cfg, s, a, r);
    } else {
      MovedNotAbandoned(cfg, s, a, r);
    }
  }

  lemma NextIsPop(cfg: Config, s: State)
    requires Bounded(s) && Enabled(cfg, s, PopNext)
    ensures Next(cfg, s, PopNext) == PopStep(cfg, s)
  {
  }

  predicate NoHangUp(actions: seq<Action>) {
    forall i :: 0 <= i < |actions| ==> !actions[i].HangUp?
  }

  lemma {:induction false} RunNotAbandoned(cfg: Config, states: seq<State>, actions: seq<Action>, n: nat)
    requires Run(cfg, states, actions) && Reachable(cfg, states[0]) && n <= |actions|
    requires NoneAbandoned(states[0]) && NoHangUp(actions)
    ensures NoneAbandoned(states[n])
  {
    hide Inv, Reachable, Bounded, Next, Enabled, Abandoned;
    if n > 0 {
      var before, a, after := states[n - 1], actions[n - 1], states[n];
      RunNotAbandoned(cfg, states, actions, n - 1);
      RunReachable(cfg, states, actions, n - 1);
      ReachableInv(cfg, before);
      assert StepTo(cfg, before, a, after);
      forall r: Rid | r < |after.requests|
        ensures !Abandoned(after.requests[r])
      {
        if r < |before.requests| {
          StepNotAbandoned(cfg, before, a, r);
        } else {
          StepAdds(cfg, before, a, r);
          NewNotAbandoned(after.requests[r]);
        }
      }
    }
  }

  lemma NewNotAbandoned(q: Request)
    requires q.client.Entered?
    ensures !Abandoned(q)
  {
  }

  /** The promise of the concurrency limit is kept in every run in which no client hangs up. */
  lemma PatientClientsWithin(cfg: Config, states: seq<State>, actions: seq<Action>)
    requires Run(cfg, states, actions) && Initial(cfg, states[0]) && NoHangUp(actions)
    ensures TenantsWithin(states[|actions|])
  {
    hide Abandoned, Reachable, StepTo, Sum;
    var s' := states[|actions|];
    ReachableInitial(cfg, states[0]);
    RunNotAbandoned(cfg, states, actions, |actions|);
    RunReachable(cfg, states, actions, |actions|);
    hide Initial;
    forall k | k in s'.accounts
      ensures Sum(s'.requests, InSystemOf(k)) <= s'.accounts[k].maxConcurrent
    {
      ConcurrencyBound(cfg, s', k);
      SumZero(s'.requests, AbandonedOf(k));
    }
  }

  // ----- A gateway that accepts nothing -----

  /** No request can ever be queued. */
  predicate Shut(cfg: Config) { cfg.queueDepth == 0 || cfg.tiers == map[] }

  ghost predicate Idle(cfg: Config, s: State) {
    s.accounts.Keys == cfg.tiers.Keys && forall r: Rid :: r < |s.requests| ==> !WasAccepted(s.requests[r].server)
  }

  /** With nothing accepted and no room, only a handler that has just entered can move. */
  lemma OnlySubmitMoves(cfg: Config, s: State, a: Action, r: Rid)
    requires Inv(cfg, s) && Bounded(s) && Enabled(cfg, s, a) && Shut(cfg) && Idle(cfg, s)
    requires r < |s.requests| && MovedBy(s, a) == Some(r)
    ensures a.Submit? && a.r == r && s.queue.len >= s.queue.capacity && s.requests[r].tenant in s.accounts
  {
    assert Coherent(s.requests[r]) && s.requests[r].tenant in s.accounts;
    assert s.queue.len == 0 == s.queue.capacity;
    if s.batch != [] { BatchedCoherent(cfg, s); }
    hide Inv, Structured;
  }

  lemma RejectedWhenFull(cfg: Config, s: State, r: Rid, now: real)
    requires r < |s.requests| && s.requests[r].tenant in s.accounts && s.queue.len >= s.queue.capacity
    ensures r < |SubmitStep(cfg, s, r, now).requests| && !WasAccepted(SubmitStep(cfg, s, r, now).requests[r].server)
  {
    hide Settlement, QueueKey, KeyWeight;
  }

  lemma MovedIdle(cfg: Config, s: State, a: Action, r: Rid)
    requires Inv(cfg, s) && Bounded(s) && Enabled(cfg, s, a) && Shut(cfg) && Idle(cfg, s)
    requires r < |s.requests| && MovedBy(s, a) == Some(r)
    ensures r < |Next(cfg, s, a).requests| && !WasAccepted(Next(cfg, s, a).requests[r].server)
  {
    hide Inv, Bounded, Shut, Idle, MovedBy, SubmitStep, WasAccepted;
    OnlySubmitMoves(cfg, s, a, r);
    RejectedWhenFull(cfg, s, r, a.now);
  }

  lemma StepIdle(cfg: Config, s: State, a: Action)
    requires Inv(cfg, s) && Bounded(s) && Enabled(cfg, s, a) && Shut(cfg) && Idle(cfg, s)
    ensures Idle(cfg, Next(cfg, s, a))
  {
    hide Inv, Bounded, Next, Enabled, MovedBy, WasAccepted, Shut;
    KeysKept(cfg, s, a);
    forall r: Rid | r < |Next(cfg, s, a).requests|
      ensures !WasAccepted(Next(cfg, s, a).requests[r].server)
    {
      if r >= |s.requests| {
        StepAdds(cfg, s, a, r);
        NotAccepted(Next(cfg, s, a).requests[r].server);
      } else if MovedBy(s, a) == Some(r) {
        MovedIdle(cfg, s, a, r);
      } else {
        OthersStay(cfg, s, a, r);
      }
    }
  }

  lemma NotAccepted(v: Server)
    requires v.Unqueued?
    ensures !WasAccepted(v)
  {
  }

  lemma {:induction false} RunIdle(cfg: Config, states: seq<State>, actions: seq<Action>, n: nat)
    requires Run(cfg, states, actions) && Inv(cfg, states[0]) && n <= |actions|
    requires Shut(cfg) && Idle(cfg, states[0])
    ensures Idle(cfg, states[n])
  {
    hide Inv, Bounded, Next, Enabled, Idle, Shut;
    if n > 0 {
      RunIdle(cfg, states, actions, n - 1);
      RunInv(cfg, states, actions, n - 1);
      assert StepTo(cfg, states[n - 1], actions[n - 1], states[n]);
      StepIdle(cfg, states[n - 1], actions[n - 1]);
    }
  }

  lemma ShutWithin(cfg: Config, s: State)
    requires Shut(cfg) && Reachable(cfg, s)
    ensures SystemWithin(cfg, s) && forall k :: Sum(s.requests, InSystemOf(k)) == 0
  {
    ReachableInv(cfg, s);
    assert Idle(cfg, s) by { ReachableIdle(cfg, s); }
    hide Reachable, Sum, QueueHolds, BatchHolds, LogHolds, AccountsBalance, PermitsBalance, SchedulerShape, WakeupPending;
    forall r: Rid | r < |s.requests|
      ensures QueuedOf(s.requests[r]) == 0 && OutsideOf(s.requests[r]) == 0 && !InSystem(s.requests[r])
    {
      assert Coherent(s.requests[r]);
    }
    SumZero(s.requests, QueuedOf);
    SumZero(s.requests, OutsideOf);
    forall k
      ensures Sum(s.requests, InSystemOf(k)) == 0
    {
      SumZero(s.requests, InSystemOf(k));
    }
  }

  lemma ReachableIdle(cfg: Config, s: State)
    requires Shut(cfg) && Reachable(cfg, s)
    ensures Idle(cfg, s)
  {
    hide Inv, Shut, StepTo;
    var states: seq<State>, actions: seq<Action> :|
      Run(cfg, states, actions) && Initial(cfg, states[0]) && s == states[|actions|];
    InitialInv(cfg, states[0]);
    RunIdle(cfg, states, actions, |actions|);
  }

  // ----- Runs from a given account -----

  /** States that the gateway can reach when tenant `k` starts with `account`. */
  ghost predicate ReachableWith(cfg: Config, k: Key, account: AccountState, s: State) {
    exists states: seq<State>, actions: seq<Action> ::
      && Run(cfg, states, actions) && Initial(cfg, states[0])
      && k in states[0].accounts && states[0].accounts[k] == account && s == states[|actions|]
  }

  lemma WithReachable(cfg: Config, k: Key, account: AccountState, s: State)
    requires ReachableWith(cfg, k, account, s)
    ensures Reachable(cfg, s)
  {
    hide StepTo, Initial;
  }

  lemma WithStep(cfg: Config, k: Key, account: AccountState, s: State, a: Action)
    requires ReachableWith(cfg, k, account, s) && Enabled(cfg, s, a)
    ensures Bounded(s) && ReachableWith(cfg, k, account, Next(cfg, s, a))
  {
    WithReachable(cfg, k, account, s);
    ReachableInv(cfg, s);
    hide Inv, Initial, Enabled, Next, Bounded, StepTo, Reachable;
    var states: seq<State>, actions: seq<Action> :|
      && Run(cfg, states, actions) && Initial(cfg, states[0])
      && k in states[0].accounts && states[0].accounts[k] == account && s == states[|actions|];
    RunStep(cfg, states, actions, a);
    var states' := states + [Next(cfg, s, a)];
    assert states'[0] == states[0] && states'[|actions + [a]|] == Next(cfg, s, a);
  }

  // ----- Runs that break the promises -----

  /** Nothing limits the tenant for long but its concurrency. */
  predicate Ready(a: AccountState, max: nat, active: nat) {
    && a.maxConcurrent == max && a.active == active
    && a.requests.perSec > 0.0 && a.requests.capacity >= 1.0 && a.requests.level >= 0.0
    && a.tokens.perSec >= 0.0 && a.tokens.capacity >= 0.0 && a.tokens.level >= 0.0
  }

  /** When the next request of such a tenant is due. */
  function DueAt(a: AccountState): real
    requires a.requests.perSec > 0.0
  {
    a.requests.last + 1.0 / a.requests.perSec
  }

  lemma RefillDue(b: BucketState)
    requires b.perSec > 0.0 && b.capacity >= 1.0 && b.level >= 0.0
    ensures b.Refilled(b.last + 1.0 / b.perSec).level >= 1.0
  {
    assert 1.0 / b.perSec * b.perSec == 1.0;
    assert 1.0 / b.perSec > 0.0;
  }

  lemma RefillKeepsCredit(b: BucketState, now: real)
    requires b.perSec >= 0.0 && b.capacity >= 0.0 && b.level >= 0.0
    ensures b.Refilled(now).level >= 0.0
  {
    assert b.Elapsed(now) * b.perSec >= 0.0;
  }

  lemma ReadyAdmits(a: AccountState, max: nat, active: nat)
    requires Ready(a, max, active) && active < max
    ensures Admission(a, DueAt(a), 0).1.None? && Ready(Admission(a, DueAt(a), 0).0, max, active + 1)
  {
    RefillDue(a.requests);
    RefillKeepsCredit(a.tokens, DueAt(a));
  }

  lemma ReadySettles(a: AccountState, max: nat, active: nat, now: real)
    requires Ready(a, max, active) && active >= 1
    ensures Ready(Settlement(a, 0, 0, now), max, active - 1)
  {
    RefillKeepsCredit(a.tokens, now);
  }

  ghost predicate Has(s: State, k: Key, max: nat, active: nat) {
    k in s.accounts && Ready(s.accounts[k], max, active)
  }

  /** The start, with the same account for every tenant. */
  lemma Begin(cfg: Config, k: Key, a0: AccountState, max: nat) returns (s: State)
    requires k in cfg.tiers && Ready(a0, max, 0)
    ensures ReachableWith(cfg, k, a0, s) && Has(s, k, max, 0)
    ensures s.requests == [] && s.batch == [] && s.queue.len == 0 && s.queue.capacity == cfg.queueDepth
    ensures s.pc == Acquire && s.permits == cfg.maxInflight
  {
    var accounts := map x | x in cfg.tiers :: a0;
    s := State(Empty(cfg.queueDepth), false, NoWaiter, Acquire, [], cfg.maxInflight, [], accounts, []);
    hide Ready, StepTo;
    assert Initial(cfg, s) by { ReadyActive(a0, max); }
    var states, actions: seq<Action> := [s], [];
    assert Run(cfg, states, actions) && states[|actions|] == s;
  }

  lemma ReadyActive(a: AccountState, max: nat)
    requires Ready(a, max, 0)
    ensures a.active == 0
  {
  }

  /** A request arrives and enters the queue. */
  lemma ArriveAndQueue(cfg: Config, k: Key, a0: AccountState, s: State, max: nat) returns (s': State)
    requires ReachableWith(cfg, k, a0, s) && Has(s, k, max, 0) && max >= 1 && s.queue.len < s.queue.capacity
    ensures ReachableWith(cfg, k, a0, s') && Has(s', k, max, 1)
    ensures s'.requests == s.requests + [Request(k, 0, 0, Notifying, Queued)]
    ensures s'.queue.len == s.queue.len + 1 && s'.queue.capacity == s.queue.capacity
    ensures s'.pc == s.pc && s'.permits == s.permits && s'.batch == s.batch
  {
    ReadyAdmits(s.accounts[k], max, 0);
    hide ReachableWith, Ready, Admission, Settlement, Bounded, FairQueueSpec.Pop;
    var r, now := |s.requests|, DueAt(s.accounts[k]);
    WithStep(cfg, k, a0, s, Arrive(k, now, 0));
    var s1 := Next(cfg, s, Arrive(k, now, 0));
    assert s1.requests[r] == Request(k, 0, 0, Entered, Unqueued);
    WithStep(cfg, k, a0, s1, Submit(r, now));
    s' := Next(cfg, s1, Submit(r, now));
  }

  /** Its handler notifies the scheduler and waits. */
  lemma ArriveAndWait(cfg: Config, k: Key, a0: AccountState, s: State, max: nat) returns (s': State)
    requires ReachableWith(cfg, k, a0, s) && Has(s, k, max, 0) && max >= 1 && s.queue.len < s.queue.capacity
    ensures ReachableWith(cfg, k, a0, s') && Has(s', k, max, 1)
    ensures s'.requests == s.requests + [Request(k, 0, 0, Awaiting, Queued)]
    ensures s'.queue.len == s.queue.len + 1 && s'.queue.capacity == s.queue.capacity
    ensures s'.pc == s.pc && s'.permits == s.permits && s'.batch == s.batch
  {
    hide ReachableWith, Ready, Bounded;
    var s1 := ArriveAndQueue(cfg, k, a0, s, max);
    WithStep(cfg, k, a0, s1, NotifyOne(|s.requests|));
    s' := Next(cfg, s1, NotifyOne(|s.requests|));
    assert s'.requests == s.requests + [Request(k, 0, 0, Awaiting, Queued)];
  }

  /** The last request's client hangs up while it waits: the lease is dropped, the request stays where it is. */
  lemma LastHangsUp(cfg: Config, k: Key, a0: AccountState, s: State, before: seq<Request>, v: Server, max: nat) returns (s': State)
    requires ReachableWith(cfg, k, a0, s) && Has(s, k, max, 1) && (v.Queued? || v.Sending?)
    requires s.requests == before + [Request(k, 0, 0, Awaiting, v)]
    ensures ReachableWith(cfg, k, a0, s') && Has(s', k, max, 0)
    ensures s'.requests == before + [Request(k, 0, 0, Gone, v)]
    ensures Sum(s'.requests, InSystemOf(k)) == Sum(before, InSystemOf(k)) + 1
    ensures Sum(s'.requests, SlotlessOf) == Sum(before, SlotlessOf)
    ensures s'.queue == s.queue && s'.pc == s.pc && s'.permits == s.permits && s'.batch == s.batch
  {
    var r := |before|;
    ReadySettles(s.accounts[k], max, 1, 0.0);
    hide ReachableWith, Ready, Settlement, Bounded, Sum;
    WithStep(cfg, k, a0, s, HangUp(r, 0.0));
    s' := Next(cfg, s, HangUp(r, 0.0));
    var q := Request(k, 0, 0, Gone, v);
    assert s'.requests == before + [q];
    SumAppend(before, q, InSystemOf(k));
    SumAppend(before, q, SlotlessOf);
  }

  /** One more abandoned request in the queue. */
  lemma ArriveAndHangUp(cfg: Config, k: Key, a0: AccountState, s: State, max: nat) returns (s': State)
    requires ReachableWith(cfg, k, a0, s) && Has(s, k, max, 0) && max >= 1 && s.queue.len < s.queue.capacity
    ensures ReachableWith(cfg, k, a0, s') && Has(s', k, max, 0)
    ensures Sum(s'.requests, InSystemOf(k)) == Sum(s.requests, InSystemOf(k)) + 1
    ensures Sum(s'.requests, SlotlessOf) == Sum(s.requests, SlotlessOf)
    ensures s'.queue.len == s.queue.len + 1 && s'.queue.capacity == s.queue.capacity
    ensures s'.pc == s.pc && s'.permits == s.permits && s'.batch == s.batch
  {
    hide ReachableWith, Has, Sum;
    var s1 := ArriveAndWait(cfg, k, a0, s, max);
    s' := LastHangsUp(cfg, k, a0, s1, s.requests, Queued, max);
  }

  /** The only queued request is the last to arrive: a pop of the queue takes it. */
  lemma LastPopped(cfg: Config, s: State, before: seq<Request>, q: Request)
    requires Inv(cfg, s) && Bounded(s) && s.queue.len == 1
    requires s.requests == before + [q] && Sum(before, QueuedOf) == 0
    ensures FairQueueSpec.Pop(s.queue).1 == Some(|before|)
    ensures FairQueueSpec.Pop(s.queue).0.len == 0 && FairQueueSpec.Pop(s.queue).0.capacity == s.queue.capacity
  {
    hide ItemsHold, BatchHolds, LogHolds, AccountsBalance, PermitsBalance, SchedulerShape, WakeupPending, AllCoherent, Sum, Total, Credited, FairQueueSpec.Pop;
    LenPositive(s.queue);
    PopWellFormed(s.queue);
    var r := PopHolds(cfg, s.requests, s.queue, true);
    QueuedIsLast(before, q, r);
  }

  lemma QueuedIsLast(before: seq<Request>, q: Request, r: Rid)
    requires Sum(before, QueuedOf) == 0 && r < |before + [q]| && (before + [q])[r].server.Queued?
    ensures r == |before|
  {
    SumNonNegative(before, QueuedOf);
    assert r < |before| ==> QueuedOf(before[r]) <= 0;
  }

  /** The state after the scheduler has popped it. */
  ghost predicate PoppedLast(cfg: Config, s: State, s': State, before: seq<Request>, q: Request)
    requires s.pc.Pop?
  {
    && s'.requests == before + [q.(server := Batched(s.pc.first))] && s'.batch == s.batch + [(|before|, s.pc.first)]
    && s'.queue.len == 0 && s'.queue.capacity == s.queue.capacity && s'.accounts == s.accounts && s'.permits == s.permits
    && s'.pc == if cfg.windowed then Collect else Dispatch
  }

  lemma PopLast(cfg: Config, k: Key, a0: AccountState, s: State, before: seq<Request>, q: Request) returns (s': State)
    requires ReachableWith(cfg, k, a0, s) && s.pc.Pop? && s.queue.len == 1
    requires s.requests == before + [q] && Sum(before, QueuedOf) == 0
    ensures ReachableWith(cfg, k, a0, s') && PoppedLast(cfg, s, s', before, q)
  {
    hide ReachableWith, Inv, Structured, FairQueueSpec.Pop, Sum;
    KnownThere(cfg, k, a0, s);
    LastPopped(cfg, s, before, q);
    WithStep(cfg, k, a0, s, PopNext);
    s' := Next(cfg, s, PopNext);
    assert s.requests[|before| := q.(server := Batched(s.pc.first))] == before + [q.(server := Batched(s.pc.first))];
  }

  lemma KnownThere(cfg: Config, k: Key, a0: AccountState, s: State)
    requires ReachableWith(cfg, k, a0, s)
    ensures Inv(cfg, s) && Bounded(s) && Sum(s.requests, QueuedOf) == s.queue.len
  {
    hide ReachableWith, Reachable;
    WithReachable(cfg, k, a0, s);
    ReachableInv(cfg, s);
    InvBounded(cfg, s);
    hide Bounded, AllCoherent, QueueHolds, BatchHolds, LogHolds, AccountsBalance, PermitsBalance, SchedulerShape, WakeupPending, Sum;
  }

  // ----- At the backend -----

  /** A request is sent with a slot, and then its client hangs up. */
  lemma SendAndHangUp(cfg: Config, k: Key, a0: AccountState, s: State, max: nat) returns (s': State)
    requires !cfg.windowed && ReachableWith(cfg, k, a0, s) && Has(s, k, max, 0) && max >= 1
    requires s.pc.Acquire? && s.batch == [] && s.queue.len == 0 < s.queue.capacity && SlotAvailable(cfg, s)
    ensures ReachableWith(cfg, k, a0, s') && Has(s', k, max, 0)
    ensures Sum(s'.requests, InSystemOf(k)) == Sum(s.requests, InSystemOf(k)) + 1
    ensures s'.pc.Acquire? && s'.batch == [] && s'.queue.len == 0 && s'.queue.capacity == s.queue.capacity
    ensures s'.permits == if cfg.maxInflight > 0 then s.permits - 1 else s.permits
  {
    hide ReachableWith, Ready, Inv, Structured, Sum;
    KnownThere(cfg, k, a0, s);
    var r := |s.requests|;
    var s1 := ArriveAndWait(cfg, k, a0, s, max);
    WithStep(cfg, k, a0, s1, AcquireFirst);
    var s2 := Next(cfg, s1, AcquireFirst);
    var s3 := PopLast(cfg, k, a0, s2, s.requests, Request(k, 0, 0, Awaiting, Queued));
    s' := SendLast(cfg, k, a0, s3, s.requests, max);
  }

  lemma SendLast(cfg: Config, k: Key, a0: AccountState, s: State, before: seq<Request>, max: nat) returns (s': State)
    requires ReachableWith(cfg, k, a0, s) && Has(s, k, max, 1) && s.pc.Dispatch?
    requires s.requests == before + [Request(k, 0, 0, Awaiting, Batched(true))] && s.batch == [(|before|, true)]
    ensures ReachableWith(cfg, k, a0, s') && Has(s', k, max, 0)
    ensures Sum(s'.requests, InSystemOf(k)) == Sum(before, InSystemOf(k)) + 1
    ensures s'.pc.Acquire? && s'.batch == [] && s'.queue == s.queue && s'.permits == s.permits
  {
    hide ReachableWith, Ready, Bounded, Sum;
    WithStep(cfg, k, a0, s, DispatchNext);
    var s1 := Next(cfg, s, DispatchNext);
    assert s1.requests == before + [Request(k, 0, 0, Awaiting, Sending)];
    WithStep(cfg, k, a0, s1, DispatchNext);
    var s2 := Next(cfg, s1, DispatchNext);
    s' := LastHangsUp(cfg, k, a0, s2, before, Sending, max);
  }

  /** `n` abandoned requests at the backend. */
  lemma {:induction false} FillBackend(cfg: Config, k: Key, a0: AccountState, max: nat, n: nat) returns (s: State)
    requires k in cfg.tiers && Ready(a0, max, 0) && max >= 1
    requires !cfg.windowed && cfg.queueDepth >= 1 && (cfg.maxInflight == 0 || n <= cfg.maxInflight)
    ensures ReachableWith(cfg, k, a0, s) && Has(s, k, max, 0) && Sum(s.requests, InSystemOf(k)) == n
    ensures s.pc.Acquire? && s.batch == [] && s.queue.len == 0 && s.queue.capacity == cfg.queueDepth
    ensures cfg.maxInflight > 0 ==> s.permits == cfg.maxInflight - n
  {
    hide ReachableWith, Ready, Has;
    if n == 0 {
      s := Begin(cfg, k, a0, max);
    } else {
      hide Sum;
      var before := FillBackend(cfg, k, a0, max, n - 1);
      s := SendAndHangUp(cfg, k, a0, before, max);
    }
  }

  // ----- And in the queue -----

  /** `n` more abandoned requests, in the queue. */
  lemma {:induction false} FillQueue(cfg: Config, k: Key, a0: AccountState, s: State, max: nat, n: nat) returns (s': State)
    requires ReachableWith(cfg, k, a0, s) && Has(s, k, max, 0) && max >= 1 && s.queue.len + n <= s.queue.capacity
    ensures ReachableWith(cfg, k, a0, s') && Has(s', k, max, 0)
    ensures Sum(s'.requests, InSystemOf(k)) == Sum(s.requests, InSystemOf(k)) + n
    decreases n
  {
    hide ReachableWith, Has, Sum;
    if n == 0 {
      s' := s;
    } else {
      var s1 := ArriveAndHangUp(cfg, k, a0, s, max);
      s' := FillQueue(cfg, k, a0, s1, max, n - 1);
    }
  }

  // ----- And in the batch -----

  /** The scheduler, inside its window, has popped `n` abandoned requests, all but the first without a slot. */
  lemma {:induction false} FillWindow(cfg: Config, k: Key, a0: AccountState, max: nat, n: nat) returns (s: State)
    requires k in cfg.tiers && Ready(a0, max, 0) && max >= 1 && cfg.windowed && cfg.queueDepth >= 1
    ensures ReachableWith(cfg, k, a0, s) && Has(s, k, max, 0) && Sum(s.requests, InSystemOf(k)) == n
    ensures Sum(s.requests, SlotlessOf) == if n == 0 then 0 else n - 1
    ensures s.pc == Pop(n == 0) && s.queue.len == 0 && s.queue.capacity == cfg.queueDepth
  {
    hide ReachableWith, Ready, Has;
    if n == 0 {
      var s0 := Begin(cfg, k, a0, max);
      WithStep(cfg, k, a0, s0, AcquireFirst);
      s := Next(cfg, s0, AcquireFirst);
      assert Has(s, k, max, 0) by { SameAccounts(s0, s, k, max, 0); }
    } else {
      hide Sum;
      var before := FillWindow(cfg, k, a0, max, n - 1);
      s := CollectOne(cfg, k, a0, before, max);
    }
  }

  lemma SameAccounts(s: State, s': State, k: Key, max: nat, active: nat)
    requires Has(s, k, max, active) && s'.accounts == s.accounts
    ensures Has(s', k, max, active)
  {
  }

  /** The only queued request, abandoned, is popped, and the window goes on. */
  lemma PopAbandoned(cfg: Config, k: Key, a0: AccountState, s: State, before: seq<Request>, max: nat) returns (s': State)
    requires cfg.windowed && ReachableWith(cfg, k, a0, s) && Has(s, k, max, 0) && s.pc.Pop? && s.queue.len == 1
    requires s.requests == before + [Request(k, 0, 0, Gone, Queued)] && Sum(before, QueuedOf) == 0
    ensures ReachableWith(cfg, k, a0, s') && Has(s', k, max, 0)
    ensures Sum(s'.requests, InSystemOf(k)) == Sum(before, InSystemOf(k)) + 1
    ensures Sum(s'.requests, SlotlessOf) == Sum(before, SlotlessOf) + if s.pc.first then 0 else 1
    ensures s'.pc == Pop(false) && s'.queue.len == 0 && s'.queue.capacity == s.queue.capacity
  {
    hide ReachableWith, Ready, Bounded, Sum;
    var q := Request(k, 0, 0, Gone, Queued);
    var s1 := PopLast(cfg, k, a0, s, before, q);
    SumAppend(before, q.(server := Batched(s.pc.first)), InSystemOf(k));
    SumAppend(before, q.(server := Batched(s.pc.first)), SlotlessOf);
    WithStep(cfg, k, a0, s1, Deadline(false));
    s' := Next(cfg, s1, Deadline(false));
  }

  /** One more abandoned request arrives and is popped. */
  lemma CollectOne(cfg: Config, k: Key, a0: AccountState, s: State, max: nat) returns (s': State)
    requires cfg.windowed && ReachableWith(cfg, k, a0, s) && Has(s, k, max, 0) && max >= 1
    requires s.pc.Pop? && s.queue.len == 0 < s.queue.capacity
    ensures ReachableWith(cfg, k, a0, s') && Has(s', k, max, 0)
    ensures Sum(s'.requests, InSystemOf(k)) == Sum(s.requests, InSystemOf(k)) + 1
    ensures Sum(s'.requests, SlotlessOf) == Sum(s.requests, SlotlessOf) + if s.pc.first then 0 else 1
    ensures s'.pc == Pop(false) && s'.queue.len == 0 && s'.queue.capacity == s.queue.capacity
  {
    hide ReachableWith, Has, Inv, Bounded, Sum;
    KnownThere(cfg, k, a0, s);
    var s1 := ArriveAndWait(cfg, k, a0, s, max);
    var s2 := LastHangsUp(cfg, k, a0, s1, s.requests, Queued, max);
    s' := PopAbandoned(cfg, k, a0, s2, s.requests, max);
  }

  // ----- What the concurrency limit promises -----

  /**
   With any limit but zero, clients that hang up can leave in the system as many
   of a tenant's requests as the gateway has room for, while its account counts
   none of them.
   */
  lemma HangUpsEvadeTheLimit(cfg: Config, k: Key, tenant: TenantConfig, start: real, n: nat) returns (s: State)
    requires k in cfg.tiers && tenant.requestsPerSecond > 0.0 && tenant.maxConcurrent >= 1 && cfg.queueDepth >= 1
    requires cfg.windowed || cfg.maxInflight == 0 || n <= cfg.queueDepth + cfg.maxInflight
    ensures ReachableWith(cfg, k, FreshAccount(tenant, start), s) && k in s.accounts
    ensures s.accounts[k].maxConcurrent == tenant.maxConcurrent && s.accounts[k].active == 0
    ensures Sum(s.requests, InSystemOf(k)) == n
  {
    var a0, max := FreshAccount(tenant, start), tenant.maxConcurrent;
    assert Ready(a0, max, 0);
    hide ReachableWith, FreshAccount, Sum;
    if cfg.windowed {
      s := FillWindow(cfg, k, a0, max, n);
    } else if cfg.maxInflight == 0 || n <= cfg.maxInflight {
      s := FillBackend(cfg, k, a0, max, n);
    } else {
      var s0 := FillBackend(cfg, k, a0, max, cfg.maxInflight);
      s := FillQueue(cfg, k, a0, s0, max, n - cfg.maxInflight);
    }
  }

  /** A tenant's requests in the system are among all requests in the system. */
  lemma {:induction false} InSystemAmongAll(requests: seq<Request>, k: Key)
    ensures Sum(requests, InSystemOf(k)) <= Sum(requests, QueuedOf) + Sum(requests, OutsideOf)
  {
    if requests != [] { InSystemAmongAll(requests[..|requests| - 1], k); }
  }

  /** A history of an account with limit zero hands out no lease. */
  lemma {:induction false} NoLeases(w: H.World, es: seq<H.Event>)
    requires w.account.maxConcurrent == 0 && w.leases == [] && H.Legal(w, es)
    ensures H.After(w, es).account.maxConcurrent == 0 && H.After(w, es).leases == []
  {
    if es != [] { NoLeases(w, es[..|es| - 1]); }
  }

  lemma {:induction false} NoLeaseNoRequest(requests: seq<Request>, k: Key)
    requires T.LeasesOf(requests, k) == []
    ensures Sum(requests, InSystemOf(k)) == 0
  {
    if requests != [] { NoLeaseNoRequest(requests[..|requests| - 1], k); }
  }

  lemma ZeroLimitAdmitsNone(cfg: Config, k: Key, account: AccountState, s: State)
    requires ReachableWith(cfg, k, account, s) && account.maxConcurrent == 0
    ensures Sum(s.requests, InSystemOf(k)) == 0
  {
    hide StepTo, Reachable, H.Legal, H.After, Sum, T.HistoryOf, T.LeasesOf;
    var states: seq<State>, actions: seq<Action> :|
      && Run(cfg, states, actions) && Initial(cfg, states[0])
      && k in states[0].accounts && states[0].accounts[k] == account && s == states[|actions|];
    ReachableInitial(cfg, states[0]);
    NoLeasesYet(states[0], k);
    T.RunIsHistory(cfg, states, actions, k, |actions|);
    NoLeases(T.WorldOf(states[0], k), T.HistoryOf(states, actions, k, |actions|));
    NoLeaseNoRequest(s.requests, k);
  }

  lemma NoLeasesYet(s: State, k: Key)
    requires s.requests == []
    ensures T.LeasesOf(s.requests, k) == []
  {
  }

  /** A tenant that starts afresh never has more requests in the system than its concurrency limit. */
  ghost predicate LimitKept(cfg: Config, k: Key, tenant: TenantConfig, start: real) {
    forall s: State :: ReachableWith(cfg, k, FreshAccount(tenant, start), s) ==> Sum(s.requests, InSystemOf(k)) <= tenant.maxConcurrent
  }

  /** The limit is no less than what the gateway has room for altogether. */
  predicate LimitCoversRoom(cfg: Config, limit: nat) {
    !cfg.windowed && cfg.maxInflight > 0 && limit >= cfg.queueDepth + cfg.maxInflight
  }

  /**
   The documented promise of the concurrency limit, tenant by tenant: it is kept
   in all reachable states if and only if the tenant can have no request queued
   at all, or its limit covers all the room that the gateway has.
   */
  lemma ConcurrencyPromiseIff(cfg: Config, k: Key, tenant: TenantConfig, start: real)
    requires k in cfg.tiers && tenant.requestsPerSecond > 0.0
    ensures LimitKept(cfg, k, tenant, start) <==>
      tenant.maxConcurrent == 0 || cfg.queueDepth == 0 || LimitCoversRoom(cfg, tenant.maxConcurrent)
  {
    var limit, account := tenant.maxConcurrent, FreshAccount(tenant, start);
    assert account.maxConcurrent == limit;
    hide ReachableWith, Reachable, FreshAccount, Sum;
    if limit == 0 || cfg.queueDepth == 0 || LimitCoversRoom(cfg, limit) {
      forall s: State | ReachableWith(cfg, k, account, s)
        ensures Sum(s.requests, InSystemOf(k)) <= limit
      {
        WithReachable(cfg, k, account, s);
        if limit == 0 {
          ZeroLimitAdmitsNone(cfg, k, account, s);
        } else if cfg.queueDepth == 0 {
          ShutWithin(cfg, s);
        } else {
          InSystemBound(cfg, s);
          InSystemAmongAll(s.requests, k);
        }
      }
    } else {
      var s := HangUpsEvadeTheLimit(cfg, k, tenant, start, limit + 1);
    }
  }

  // ----- A batching window -----

  /** Inside a window any number of requests can be out of the queue without a backend slot. */
  lemma WindowOverflows(cfg: Config, n: nat) returns (s: State)
    requires cfg.windowed && !Shut(cfg) && cfg.maxInflight > 0
    ensures Reachable(cfg, s) && Sum(s.requests, OutsideOf) >= n
  {
    var k :| k in cfg.tiers;
    var a0 := AccountState(BucketState(1.0, 1.0, 1.0, 0.0), BucketState(0.0, 0.0, 0.0, 0.0), 0, 1);
    hide ReachableWith, Reachable, Sum;
    s := FillWindow(cfg, k, a0, 1, n + 1);
    WithReachable(cfg, k, a0, s);
    OutsideIsSlotted(s.requests);
    CountsNonNegative(s.requests);
  }

  /**
   The in-system bound holds in every reachable state exactly when there is no
   batching window, or no request is ever accepted. With a window it fails by
   any amount.
   */
  lemma SystemBoundIff(cfg: Config)
    requires cfg.maxInflight > 0
    ensures (forall s: State :: Reachable(cfg, s) ==> SystemWithin(cfg, s)) <==> !cfg.windowed || Shut(cfg)
  {
    hide Reachable, Shut, Sum;
    if !cfg.windowed || Shut(cfg) {
      forall s: State | Reachable(cfg, s)
        ensures SystemWithin(cfg, s)
      {
        if Shut(cfg) { ShutWithin(cfg, s); } else { InSystemBound(cfg, s); }
      }
    } else {
      var s := WindowOverflows(cfg, cfg.queueDepth + cfg.maxInflight + 1);
      SumNonNegative(s.requests, QueuedOf);
    }
  }
}
