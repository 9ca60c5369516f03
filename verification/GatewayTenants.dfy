/**
 What a tenant's account sees of a gateway run is a history of that account, so
 what holds of every history holds of every tenant in every run.
 */
module GatewayTenants {
  import opened Prelude
  import opened Tenants
  import H = TenantHistory
  import B = Buckets
  import R = RateLimit
  import opened FairQueueSpec
  import opened Gateway
  import opened GatewayInvariant
  import opened GatewaySafety

  // ----- The leases of a tenant's requests -----

  function LeaseRecordOf(q: Request): H.LeaseRecord {
    H.LeaseRecord(q.reserved, q.used, !q.client.Gone?)
  }

  /** The leases of tenant `k`, in the order of admission. */
  function LeasesOf(requests: seq<Request>, k: Key): seq<H.LeaseRecord> {
    if requests == [] then []
    else
      var q := requests[|requests| - 1];
      LeasesOf(requests[..|requests| - 1], k) + if q.tenant == k then [LeaseRecordOf(q)] else []
  }

  /** The position of request `r` among the leases of its tenant. */
  function LeaseIndex(requests: seq<Request>, r: Rid): nat
    requires r < |requests|
  {
    |LeasesOf(requests[..r], requests[r].tenant)|
  }

  lemma LeasesAppend(requests: seq<Request>, q: Request, k: Key)
    ensures LeasesOf(requests + [q], k) == LeasesOf(requests, k) + if q.tenant == k then [LeaseRecordOf(q)] else []
  {
    assert (requests + [q])[..|requests + [q]| - 1] == requests;
  }

  lemma {:induction false} LeaseAt(requests: seq<Request>, r: Rid)
    requires r < |requests|
    ensures var k, i := requests[r].tenant, LeaseIndex(requests, r);
      i < |LeasesOf(requests, k)| && LeasesOf(requests, k)[i] == LeaseRecordOf(requests[r])
  {
    var n := |requests| - 1;
    if r == n {
      assert requests[..n] == requests[..r];
    } else {
      LeaseAt(requests[..n], r);
      assert requests[..n][..r] == requests[..r];
    }
  }

  lemma LeasesLast(requests: seq<Request>, q: Request, k: Key)
    requires requests != [] && q == requests[|requests| - 1]
    ensures LeasesOf(requests, k) == LeasesOf(requests[..|requests| - 1], k) + if q.tenant == k then [LeaseRecordOf(q)] else []
  {
  }

  /** A sequence update in the first part, or at the first place of the second. */
  lemma UpdateConcat(a: seq<H.LeaseRecord>, b: seq<H.LeaseRecord>, i: nat, l: H.LeaseRecord)
    ensures i < |a| ==> (a + b)[i := l] == a[i := l] + b
    ensures i == |a| && |b| == 1 ==> (a + b)[i := l] == a + [l]
  {
  }

  lemma {:induction false} LeasesMove(requests: seq<Request>, r: Rid, q: Request, k: Key)
    requires r < |requests| && q.tenant == requests[r].tenant
    ensures LeaseIndex(requests, r) < |LeasesOf(requests, requests[r].tenant)|
    ensures LeasesOf(requests[r := q], k) ==
      if q.tenant == k then LeasesOf(requests, k)[LeaseIndex(requests, r) := LeaseRecordOf(q)] else LeasesOf(requests, k)
  {
    hide LeasesOf, LeaseRecordOf;
    LeaseAt(requests, r);
    var n, i := |requests| - 1, LeaseIndex(requests, r);
    var rest, last := requests[..n], requests[n];
    LeasesLast(requests, last, k);
    LeasesLast(requests[r := q], if r == n then q else last, k);
    var l := if last.tenant == k then [LeaseRecordOf(last)] else [];
    if r == n {
      assert requests[r := q][..n] == rest && requests[..r] == rest;
      UpdateConcat(LeasesOf(rest, k), l, i, LeaseRecordOf(q));
    } else {
      assert requests[r := q][..n] == rest[r := q] && rest[..r] == requests[..r];
      LeasesMove(rest, r, q, k);
      UpdateConcat(LeasesOf(rest, k), l, i, LeaseRecordOf(q));
    }
  }

  /** What tenant `k` sees of the gateway. */
  function WorldOf(s: State, k: Key): H.World
    requires k in s.accounts
  {
    H.World(s.accounts[k], LeasesOf(s.requests, k))
  }

  // ----- What a step is to a tenant -----

  /** The step ends the handler of the request that it moves. */
  predicate Ends(s: State, a: Action) {
    match a
    case Submit(_, _) => s.queue.len >= s.queue.capacity
    case Receive(r, _) => r < |s.requests| && s.requests[r].server == Delivered(false)
    case HangUp(_, _) => true
    case StreamEnd(_, _) => true
    case Settle(_, _) => true
    case _ => false
  }

  predicate Records(a: Action) { a.Forward? || a.BodyRead? }

  /** What the step does to the account of tenant `k`. */
  function EventOf(s: State, a: Action, k: Key): Option<H.Event> {
    if a.Arrive? then
      if a.tenant == k then Some(H.Admit(a.now, a.reserve)) else None
    else if Ends(s, a) && a.r < |s.requests| && s.requests[a.r].tenant == k then
      Some(H.Drop(LeaseIndex(s.requests, a.r), a.now))
    else if Records(a) && a.r < |s.requests| && s.requests[a.r].tenant == k then
      Some(H.Record(LeaseIndex(s.requests, a.r), a.n))
    else None
  }

  /** What a step does to the request that it moves, and to the accounts. */
  ghost predicate MovesLease(s: State, s': State, a: Action, r: Rid) {
    && r < |s.requests| && r < |s'.requests| && s.requests[r].tenant in s.accounts
    && s'.requests[r].tenant == s.requests[r].tenant
    && LeaseRecordOf(s'.requests[r]) == (
         var l := LeaseRecordOf(s.requests[r]);
         if Ends(s, a) then l.(live := false) else if Records(a) then l.(used := l.used + a.n) else l)
    && (Ends(s, a) || Records(a) ==> a.r == r && !s.requests[r].client.Gone?)
    && s'.accounts == (
         if Ends(s, a) then
           s.accounts[s.requests[r].tenant :=
             Settlement(s.accounts[s.requests[r].tenant], s.requests[r].reserved, s.requests[r].used, a.now)]
         else s.accounts)
  }

  lemma SubmitMoves(cfg: Config, s: State, r: Rid, now: real)
    requires r < |s.requests| && s.requests[r].tenant in s.accounts && s.requests[r].client.Entered?
    ensures MovesLease(s, SubmitStep(cfg, s, r, now), Submit(r, now), r)
  {
    hide Settlement, QueueKey, KeyWeight;
  }

  lemma HandlerMoves(cfg: Config, s: State, a: Action, r: Rid)
    requires Bounded(s) && Enabled(cfg, s, a) && MovedBy(s, a) == Some(r) && r < |s.requests| && Coherent(s.requests[r])
    requires CanEnd(a)
    ensures MovesLease(s, Next(cfg, s, a), a, r)
  {
    TenantKnown(s, r);
    hide Bounded, Structured, FairQueueSpec.Pop, PopStep, SubmitStep, DispatchStep, SendHead, Settlement, AnswerStep, DeliverStep;
    if a.Submit? { SubmitMoves(cfg, s, r, a.now); }
  }

  lemma OtherMoves(cfg: Config, s: State, a: Action, r: Rid)
    requires Bounded(s) && Enabled(cfg, s, a) && MovedBy(s, a) == Some(r) && r < |s.requests| && Coherent(s.requests[r])
    requires !CanEnd(a) && !a.PopNext? && !a.DispatchNext? && !a.AcquireNext?
    ensures MovesLease(s, Next(cfg, s, a), a, r)
  {
    assert s.requests[r].tenant in s.accounts;
    hide Bounded, Structured, FairQueueSpec.Pop, Push, PopStep, DispatchStep, SendHead, Finish, SubmitStep, ReceiveStep, HangUpStep;
  }

  lemma PopBatches(cfg: Config, s: State, r: Rid)
    requires Bounded(s) && s.pc.Pop? && FairQueueSpec.Pop(s.queue).1 == Some(r) && r < |s.requests|
    ensures PopStep(cfg, s).accounts == s.accounts
    ensures PopStep(cfg, s).requests == s.requests[r := s.requests[r].(server := Batched(s.pc.first))]
  {
    hide Structured, FairQueueSpec.Pop;
  }

  lemma TenantKnown(s: State, r: Rid)
    requires Bounded(s) && r < |s.requests|
    ensures s.requests[r].tenant in s.accounts
  {
    hide Structured;
  }

  lemma PopMoves(cfg: Config, s: State, r: Rid)
    requires Bounded(s) && s.pc.Pop? && FairQueueSpec.Pop(s.queue).1 == Some(r) && r < |s.requests|
    ensures MovesLease(s, PopStep(cfg, s), PopNext, r)
  {
    hide Bounded, FairQueueSpec.Pop, PopStep;
    TenantKnown(s, r);
    PopBatches(cfg, s, r);
  }

  lemma DispatchMoves(cfg: Config, s: State, a: Action, r: Rid)
    requires Bounded(s) && Enabled(cfg, s, a) && MovedBy(s, a) == Some(r) && r < |s.requests|
    requires a.DispatchNext? || a.AcquireNext?
    ensures MovesLease(s, Next(cfg, s, a), a, r)
  {
    assert s.requests[r].tenant in s.accounts;
    hide Structured, FairQueueSpec.Pop;
  }

  lemma StepMovesLease(cfg: Config, s: State, a: Action, r: Rid)
    requires Inv(cfg, s) && Bounded(s) && Enabled(cfg, s, a) && MovedBy(s, a) == Some(r) && r < |s.requests|
    ensures MovesLease(s, Next(cfg, s, a), a, r)
  {
    assert Coherent(s.requests[r]);
    hide Inv, Bounded, MovesLease, Coherent;
    if a.PopNext? {
      PopMoves(cfg, s, r);
    } else if a.DispatchNext? || a.AcquireNext? {
      DispatchMoves(cfg, s, a, r);
    } else if CanEnd(a) {
      HandlerMoves(cfg, s, a, r);
    } else {
      OtherMoves(cfg, s, a, r);
    }
  }

  /** The step is, for tenant `k`, the event given by `EventOf`. */
  ghost predicate IsEvent(s: State, s': State, a: Action, k: Key) {
    && k in s.accounts && k in s'.accounts
    && match EventOf(s, a, k)
       case Some(e) => H.Possible(WorldOf(s, k), e) && WorldOf(s', k) == H.Step(WorldOf(s, k), e).0
       case None => WorldOf(s', k) == WorldOf(s, k)
  }

  lemma MoveIsEvent(s: State, s': State, a: Action, r: Rid, k: Key)
    requires !a.Arrive? && OnlyMoves(s.requests, s'.requests, Some(r)) && MovesLease(s, s', a, r) && k in s.accounts
    ensures IsEvent(s, s', a, k)
  {
    hide Settlement, LeasesOf, LeaseIndex;
    var q := s'.requests[r];
    assert s'.requests == s.requests[r := q];
    LeasesMove(s.requests, r, q, k);
    LeaseAt(s.requests, r);
  }

  lemma ArriveIsEvent(s: State, k2: Key, now: real, reserve: nat, k: Key)
    requires k in s.accounts && k2 in s.accounts
    ensures IsEvent(s, ArriveStep(s, k2, now, reserve), Arrive(k2, now, reserve), k)
  {
    hide Admission, LeasesOf, LeaseIndex;
    LeasesAppend(s.requests, Request(k2, reserve, 0, Entered, Unqueued), k);
  }

  /** Steps that move no request leave the accounts alone. */
  lemma RestIsEvent(cfg: Config, s: State, a: Action, k: Key)
    requires Bounded(s) && Enabled(cfg, s, a) && !a.Arrive? && MovedBy(s, a).None? && k in s.accounts
    requires Next(cfg, s, a).requests == s.requests
    ensures IsEvent(s, Next(cfg, s, a), a, k)
  {
    hide Bounded, Structured, LeasesOf, LeaseIndex;
  }

  lemma StepIsEvent(cfg: Config, s: State, a: Action, k: Key)
    requires Inv(cfg, s) && Bounded(s) && Enabled(cfg, s, a) && k in s.accounts
    ensures IsEvent(s, Next(cfg, s, a), a, k)
  {
    hide Inv, Bounded, IsEvent, MovesLease;
    if a.Arrive? {
      ArriveIsEvent(s, a.tenant, a.now, a.reserve, k);
    } else {
      StepMovesOne(cfg, s, a);
      match MovedBy(s, a)
      case Some(r) =>
        StepMovesLease(cfg, s, a, r);
        MoveIsEvent(s, Next(cfg, s, a), a, r, k);
      case None =>
        assert Next(cfg, s, a).requests == s.requests;
        RestIsEvent(cfg, s, a, k);
    }
  }

  // ----- What a run is to a tenant -----

  /** The history of tenant `k`'s account in the first `n` steps of a run. */
  ghost function HistoryOf(states: seq<State>, actions: seq<Action>, k: Key, n: nat): seq<H.Event>
    requires n <= |actions| && n < |states|
  {
    if n == 0 then []
    else
      HistoryOf(states, actions, k, n - 1)
      + match EventOf(states[n - 1], actions[n - 1], k) case Some(e) => [e] case None => []
  }

  /**
   The tenants of the gateway refine the tenant model: at every point of every
   run, every tenant's account and the leases of its requests are what the
   tenant model makes of that tenant's own history.
   */
  lemma {:induction false} RunIsHistory(cfg: Config, states: seq<State>, actions: seq<Action>, k: Key, n: nat)
    requires Run(cfg, states, actions) && Reachable(cfg, states[0]) && k in states[0].accounts && n <= |actions|
    ensures k in states[n].accounts
    ensures H.Legal(WorldOf(states[0], k), HistoryOf(states, actions, k, n))
    ensures H.After(WorldOf(states[0], k), HistoryOf(states, actions, k, n)) == WorldOf(states[n], k)
  {
    hide Inv, Reachable, Bounded, Next, Enabled, EventOf, H.Step, H.Possible, WorldOf;
    if n > 0 {
      var now, a := states[n - 1], actions[n - 1];
      RunIsHistory(cfg, states, actions, k, n - 1);
      RunReachable(cfg, states, actions, n - 1);
      ReachableInv(cfg, now);
      assert StepTo(cfg, now, a, states[n]);
      StepIsEvent(cfg, now, a, k);
      var es := HistoryOf(states, actions, k, n - 1);
      match EventOf(now, a, k)
      case Some(e) =>
        assert (es + [e])[..|es + [e]| - 1] == es;
      case None =>
        assert HistoryOf(states, actions, k, n) == es;
    }
  }

  // ----- What a run can cost -----

  predicate Timed(a: Action) {
    a.Arrive? || a.Submit? || a.HangUp? || a.Receive? || a.StreamEnd? || a.Settle?
  }

  /** The latest clock reading in the first `n` steps of a run that starts at `start`. */
  function ClockAfter(start: real, actions: seq<Action>, n: nat): real
    requires n <= |actions|
  {
    if n == 0 then start
    else if Timed(actions[n - 1]) then actions[n - 1].now
    else ClockAfter(start, actions, n - 1)
  }

  /** Readings never go back. */
  predicate ClockOrdered(start: real, actions: seq<Action>) {
    forall n :: 0 <= n < |actions| && Timed(actions[n]) ==> actions[n].now >= ClockAfter(start, actions, n)
  }

  lemma EventTimed(s: State, a: Action, k: Key)
    ensures match EventOf(s, a, k)
      case Some(e) => e.Record? || (Timed(a) && e.now == a.now)
      case None => true
  {
    hide LeaseIndex;
  }

  lemma {:induction false} HistoryOrdered(states: seq<State>, actions: seq<Action>, k: Key, start: real, n: nat)
    requires |states| == |actions| + 1 && ClockOrdered(start, actions) && n <= |actions|
    ensures R.Monotone(start, HistoryOf(states, actions, k, n))
    ensures R.LastNow(start, HistoryOf(states, actions, k, n)) <= ClockAfter(start, actions, n)
  {
    hide EventOf;
    if n > 0 {
      HistoryOrdered(states, actions, k, start, n - 1);
      var es := HistoryOf(states, actions, k, n - 1);
      EventTimed(states[n - 1], actions[n - 1], k);
      match EventOf(states[n - 1], actions[n - 1], k)
      case Some(e) =>
        assert (es + [e])[..|es + [e]| - 1] == es;
      case None =>
        assert HistoryOf(states, actions, k, n) == es;
    }
  }

  /** `f` of the lease of a request of tenant `k`. */
  function OfTenant(k: Key, f: H.LeaseRecord -> int): Request -> int {
    (q: Request) => if q.tenant == k then f(LeaseRecordOf(q)) else 0
  }

  lemma {:induction false} SumOfTenant(requests: seq<Request>, k: Key, f: H.LeaseRecord -> int)
    ensures Sum(requests, OfTenant(k, f)) == Sum(LeasesOf(requests, k), f)
  {
    if requests != [] {
      var q, rest := requests[|requests| - 1], requests[..|requests| - 1];
      SumOfTenant(rest, k, f);
      if q.tenant == k {
        SumAppend(LeasesOf(rest, k), LeaseRecordOf(q), f);
      } else {
        assert LeasesOf(requests, k) == LeasesOf(rest, k);
      }
    }
  }

  function One(l: H.LeaseRecord): int { 1 }

  lemma {:induction false} SumOnes(leases: seq<H.LeaseRecord>)
    ensures Sum(leases, One) == |leases|
  {
    if leases != [] { SumOnes(leases[..|leases| - 1]); }
  }

  lemma StartWorld(cfg: Config, s: State, k: Key, tenant: TenantConfig, start: real)
    requires Initial(cfg, s) && k in s.accounts && s.accounts[k] == FreshAccount(tenant, start)
    ensures WorldOf(s, k) == H.Fresh(tenant, start)
  {
  }

  /** The sums over a tenant's requests are those over its leases. */
  lemma WorldCosts(s: State, k: Key)
    requires k in s.accounts
    ensures Sum(s.requests, OfTenant(k, H.ReservedOf)) == H.Reserved(WorldOf(s, k))
    ensures Sum(s.requests, OfTenant(k, H.UsedOf)) == H.Used(WorldOf(s, k))
    ensures Sum(s.requests, OfTenant(k, H.ExcessOf)) == H.Excess(WorldOf(s, k))
    ensures Sum(s.requests, OfTenant(k, One)) == |WorldOf(s, k).leases|
  {
    hide Sum;
    SumOfTenant(s.requests, k, H.ReservedOf);
    SumOfTenant(s.requests, k, H.UsedOf);
    SumOfTenant(s.requests, k, H.ExcessOf);
    SumOfTenant(s.requests, k, One);
    SumOnes(LeasesOf(s.requests, k));
  }

  /**
   What a tenant can cost, in any run of the gateway in which clock readings are
   ordered, however its requests are interleaved with those of others, queued,
   batched, abandoned or cut off: the tokens it has reserved and used exceed its
   budget for the elapsed time at most by what single requests used beyond their
   reservations, and its admitted requests never exceed its burst and rate.
   */
  lemma TenantWithinAllowance(cfg: Config, states: seq<State>, actions: seq<Action>, k: Key, tenant: TenantConfig, start: real)
    requires Run(cfg, states, actions) && Initial(cfg, states[0]) && ClockOrdered(start, actions)
    requires k in states[0].accounts && states[0].accounts[k] == FreshAccount(tenant, start)
    requires tenant.requestsPerSecond > 0.0
    ensures var requests, time := states[|actions|].requests, ClockAfter(start, actions, |actions|) - start;
      && (Sum(requests, OfTenant(k, H.ReservedOf)) + Sum(requests, OfTenant(k, H.UsedOf))) as real
         <= tenant.tokensPerMinute as real + B.Earned(tenant.tokensPerMinute as real / 60.0, time)
            + Sum(requests, OfTenant(k, H.ExcessOf)) as real
      && Sum(requests, OfTenant(k, One)) as real
         <= Max(tenant.requestsPerSecond, 1.0) + B.Earned(tenant.requestsPerSecond, time)
  {
    hide Initial, StepTo, Reachable, FreshAccount, B.Earned, H.Legal, H.After, Sum, HistoryOf;
    hide WorldOf, H.Fresh, H.Reserved, H.Used, H.Excess, ClockOrdered, ClockAfter, LeasesOf, R.Monotone, R.LastNow;
    var n := |actions|;
    StartWorld(cfg, states[0], k, tenant, start);
    ReachableInitial(cfg, states[0]);
    RunIsHistory(cfg, states, actions, k, n);
    HistoryOrdered(states, actions, k, start, n);
    R.WithinAllowance(tenant, start, HistoryOf(states, actions, k, n), ClockAfter(start, actions, n));
    WorldCosts(states[n], k);
  }
}
