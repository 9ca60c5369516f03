/**
 The order in which requests reach the backend: that in which the queue lets
 them go, without those whose clients had hung up.
 */
module GatewayOrder {
  import opened Prelude
  import opened FairQueueSpec
  import opened Gateway
  import opened GatewayInvariant
  import opened GatewaySteps
  import opened GatewaySafety

  // ----- What one dispatch decides -----

  /** The head of the batch after a dispatch step: skipped, sent, or left until there is a slot. */
  ghost predicate Decided(cfg: Config, s: State, s': State, r: Rid, slot: bool)
    requires r < |s.requests|
  {
    && r < |s'.requests|
    && (s.requests[r].client.Gone? <==> s'.requests[r].server.Skipped?)
    && (s'.sent == s.sent + [r] <==> !s.requests[r].client.Gone? && slot)
    && (s.requests[r].client.Gone? ==> s'.sent == s.sent)
    && (cfg.maxInflight > 0 ==> s'.permits == s.permits + if s.requests[r].client.Gone? && slot then 1 else 0)
    && (s'.pc.AwaitSlot? <==> !s.requests[r].client.Gone? && !slot)
    && (s'.pc.AwaitSlot? ==> s' == s.(pc := AwaitSlot))
  }

  /**
   A request whose client has hung up by the time it is looked at is not sent,
   and a slot that it holds is freed; any other is sent with its slot, or waits
   for one without anything else changing.
   */
  lemma DispatchDecides(cfg: Config, s: State)
    requires Reachable(cfg, s) && s.pc.Dispatch? && s.batch != []
    ensures Bounded(s) && Decided(cfg, s, Next(cfg, s, DispatchNext), s.batch[0].0, s.batch[0].1)
  {
    hide Reachable;
    ReachableInv(cfg, s);
    InvBounded(cfg, s);
    BatchedCoherent(cfg, s);
    hide Inv, Structured;
  }

  /**
   A request that has waited for a slot is sent with it, even if its client has
   hung up meanwhile: that is looked at only once.
   */
  lemma AwaitedIsSent(cfg: Config, s: State)
    requires Reachable(cfg, s) && s.pc.AwaitSlot? && SlotAvailable(cfg, s)
    ensures Bounded(s) && s.batch != [] && s.batch[0].0 < |s.requests| && Enabled(cfg, s, AcquireNext)
    ensures var s', r := Next(cfg, s, AcquireNext), s.batch[0].0;
      && s'.sent == s.sent + [r] && s'.batch == s.batch[1..] && s'.pc == Dispatch
      && s'.requests == s.requests[r := s.requests[r].(server := Sending)]
      && (cfg.maxInflight > 0 ==> s'.permits == s.permits - 1)
  {
    hide Reachable;
    ReachableInv(cfg, s);
    InvBounded(cfg, s);
    AwaitedHead(cfg, s);
    hide Inv, Structured;
  }

  // ----- The order of release -----

  /** The requests that the queue lets go in the first `n` steps, in order. */
  ghost function Released(cfg: Config, states: seq<State>, actions: seq<Action>, n: nat): seq<Rid>
    requires Run(cfg, states, actions) && n <= |actions|
  {
    if n == 0 then []
    else
      assert StepTo(cfg, states[n - 1], actions[n - 1], states[n]);
      Released(cfg, states, actions, n - 1) + ReleasedNow(states[n - 1], actions[n - 1])
  }

  ghost function ReleasedNow(s: State, a: Action): seq<Rid>
    requires Bounded(s)
  {
    if a.PopNext? then
      match FairQueueSpec.Pop(s.queue).1
      case Some(r) => [r]
      case None => []
    else []
  }

  predicate WasSkipped(requests: seq<Request>, r: Rid) {
    r < |requests| && requests[r].server.Skipped?
  }

  /** Those that have not been skipped. */
  function Kept(rids: seq<Rid>, requests: seq<Request>): seq<Rid> {
    if rids == [] then []
    else
      Kept(rids[..|rids| - 1], requests) + if WasSkipped(requests, rids[|rids| - 1]) then [] else [rids[|rids| - 1]]
  }

  function Rids(batch: seq<(Rid, bool)>): (rids: seq<Rid>)
    ensures |rids| == |batch| && forall i :: 0 <= i < |batch| ==> rids[i] == batch[i].0
  {
    if batch == [] then [] else [batch[0].0] + Rids(batch[1..])
  }

  /** What went to the backend, and then what the scheduler holds. */
  function Onward(s: State): seq<Rid> { s.sent + Rids(s.batch) }

  // ----- Skipping -----

  function Without(rids: seq<Rid>, r: Rid): seq<Rid> {
    if rids == [] then [] else Without(rids[..|rids| - 1], r) + if rids[|rids| - 1] == r then [] else [rids[|rids| - 1]]
  }

  lemma {:induction false} WithoutAbsent(rids: seq<Rid>, r: Rid)
    requires r !in rids
    ensures Without(rids, r) == rids
  {
    if rids != [] {
      WithoutAbsent(rids[..|rids| - 1], r);
      assert rids == rids[..|rids| - 1] + [rids[|rids| - 1]];
    }
  }

  lemma WithoutOnly(r: Rid)
    ensures Without([r], r) == []
  {
    assert [r][..0] == [];
  }

  lemma {:induction false} WithoutConcat(a: seq<Rid>, b: seq<Rid>, r: Rid)
    ensures Without(a + b, r) == Without(a, r) + Without(b, r)
  {
    if b == [] {
      assert a + b == a;
    } else {
      assert (a + b)[..|a + b| - 1] == a + b[..|b| - 1];
      WithoutConcat(a, b[..|b| - 1], r);
    }
  }

  lemma {:induction false} KeptSame(rids: seq<Rid>, before: seq<Request>, after: seq<Request>)
    requires forall r: Rid :: WasSkipped(after, r) <==> WasSkipped(before, r)
    ensures Kept(rids, after) == Kept(rids, before)
  {
    if rids != [] { KeptSame(rids[..|rids| - 1], before, after); }
  }

  lemma {:induction false} KeptSkips(rids: seq<Rid>, before: seq<Request>, after: seq<Request>, r: Rid)
    requires WasSkipped(after, r) && forall x: Rid :: x != r ==> (WasSkipped(after, x) <==> WasSkipped(before, x))
    ensures Kept(rids, after) == Without(Kept(rids, before), r)
  {
    if rids != [] {
      var x, rest := rids[|rids| - 1], rids[..|rids| - 1];
      KeptSkips(rest, before, after, r);
      WithoutConcat(Kept(rest, before), if WasSkipped(before, x) then [] else [x], r);
      assert Without([x], r) == if x == r then [] else [x] by {
        if x == r { WithoutOnly(r); } else { WithoutAbsent([x], r); }
      }
    }
  }

  // ----- Steps -----

  /** What a step does to the sequence of requests under way. */
  ghost predicate Advances(s: State, s': State, released: seq<Rid>) {
    || (Onward(s') == Onward(s) + released && forall r: Rid :: WasSkipped(s'.requests, r) <==> WasSkipped(s.requests, r))
    || (released == [] && s.batch != [] && Onward(s') == Without(Onward(s), s.batch[0].0)
        && WasSkipped(s'.requests, s.batch[0].0)
        && forall r: Rid :: r != s.batch[0].0 ==> (WasSkipped(s'.requests, r) <==> WasSkipped(s.requests, r)))
  }

  lemma PopAdvances(cfg: Config, s: State)
    requires Inv(cfg, s) && Bounded(s) && s.pc.Pop?
    ensures Advances(s, PopStep(cfg, s), ReleasedNow(s, PopNext))
  {
    hide Structured, Serve, Granted, ItemsHold, BatchHolds, LogHolds, AccountsBalance, PermitsBalance, SchedulerShape, Sum;
    if s.queue.active != [] {
      var r := PopHolds(cfg, s.requests, s.queue, s.pc.first);
      hide FairQueueSpec.Pop;
      assert Rids(s.batch + [(r, s.pc.first)]) == Rids(s.batch) + [r];
      assert s.sent + (Rids(s.batch) + [r]) == Onward(s) + [r];
    }
  }

  lemma HeadOnward(s: State)
    requires s.batch != []
    ensures Onward(s) == s.sent + ([s.batch[0].0] + Rids(s.batch[1..]))
    ensures Onward(s) == (s.sent + [s.batch[0].0]) + Rids(s.batch[1..])
  {
  }

  /** The head of the batch is nowhere else. */
  lemma HeadOnce(cfg: Config, s: State)
    requires Inv(cfg, s) && s.batch != []
    ensures s.batch[0].0 < |s.requests| && s.requests[s.batch[0].0].server.Batched?
    ensures s.batch[0].0 !in s.sent && s.batch[0].0 !in Rids(s.batch[1..])
  {
    hide QueueHolds, AccountsBalance, PermitsBalance, SchedulerShape, WakeupPending, Sum;
    BatchedCoherent(cfg, s);
    var rest := s.batch[1..];
    assert forall i :: 0 <= i < |rest| ==> rest[i] == s.batch[i + 1];
  }

  lemma WithoutHead(sent: seq<Rid>, r: Rid, rest: seq<Rid>)
    requires r !in sent && r !in rest
    ensures Without(sent + ([r] + rest), r) == sent + rest
  {
    WithoutConcat(sent, [r] + rest, r);
    WithoutConcat([r], rest, r);
    WithoutAbsent(sent, r);
    WithoutAbsent(rest, r);
    WithoutOnly(r);
    hide Without;
    assert [] + rest == rest;
  }

  lemma HeadSkipped(s: State, s': State)
    requires s.batch != [] && s.batch[0].0 !in s.sent && s.batch[0].0 !in Rids(s.batch[1..])
    requires s.batch[0].0 < |s.requests| && s'.batch == s.batch[1..] && s'.sent == s.sent
    requires s'.requests == s.requests[s.batch[0].0 := s.requests[s.batch[0].0].(client := Gone, server := Skipped)]
    ensures Advances(s, s', [])
  {
    hide Without, Rids, Onward;
    HeadOnward(s);
    WithoutHead(s.sent, s.batch[0].0, Rids(s.batch[1..]));
    assert Onward(s') == s.sent + Rids(s.batch[1..]) by { OnwardIs(s'); }
  }

  lemma OnwardIs(s: State)
    ensures Onward(s) == s.sent + Rids(s.batch)
  {
  }

  lemma HeadSent(s: State, s': State)
    requires s.batch != [] && s.batch[0].0 < |s.requests| && s.requests[s.batch[0].0].server.Batched?
    requires s'.batch == s.batch[1..] && s'.sent == s.sent + [s.batch[0].0]
    requires s'.requests == s.requests[s.batch[0].0 := s.requests[s.batch[0].0].(server := Sending)]
    ensures Advances(s, s', [])
  {
    HeadOnward(s);
    hide Rids;
    assert Onward(s) + [] == Onward(s) == Onward(s');
  }

  lemma NothingMoved(s: State, s': State)
    requires s'.batch == s.batch && s'.sent == s.sent && s'.requests == s.requests
    ensures Advances(s, s', [])
  {
    assert Onward(s) + [] == Onward(s);
  }

  /** The head of the batch is in range and nowhere else. */
  ghost predicate HeadAlone(s: State) {
    s.batch != [] ==>
      var r := s.batch[0].0;
      r < |s.requests| && s.requests[r].server.Batched? && r !in s.sent && r !in Rids(s.batch[1..])
  }

  lemma DispatchAdvances(cfg: Config, s: State)
    requires HeadAlone(s)
    ensures Advances(s, DispatchStep(cfg, s), [])
  {
    hide Advances, Rids;
    var s' := DispatchStep(cfg, s);
    if s.batch == [] || s'.batch == s.batch {
      NothingMoved(s, s');
    } else if s'.sent == s.sent {
      HeadSkipped(s, s');
    } else {
      HeadSent(s, s');
    }
  }

  lemma AcquireAdvances(cfg: Config, s: State)
    requires HeadAlone(s) && s.batch != [] && SlotAvailable(cfg, s)
    ensures Advances(s, SendHead(TakeSlot(cfg, s)), [])
  {
    hide Advances, Rids;
    HeadSent(s, SendHead(TakeSlot(cfg, s)));
  }

  lemma NextOfScheduler(cfg: Config, s: State, a: Action)
    requires Bounded(s) && Enabled(cfg, s, a) && (a.DispatchNext? || a.AcquireNext?)
    ensures a.DispatchNext? ==> s.pc.Dispatch? && Next(cfg, s, a) == DispatchStep(cfg, s)
    ensures a.AcquireNext? ==>
      && s.pc.AwaitSlot? && SlotAvailable(cfg, s) && s.batch != [] && s.batch[0].0 < |s.requests|
      && Next(cfg, s, a) == SendHead(TakeSlot(cfg, s))
  {
    hide Structured;
  }

  lemma HeadIsAlone(cfg: Config, s: State)
    requires Inv(cfg, s)
    ensures HeadAlone(s)
  {
    if s.batch != [] { HeadOnce(cfg, s); }
  }

  lemma SchedulerAdvances(cfg: Config, s: State, a: Action)
    requires Inv(cfg, s) && Bounded(s) && Enabled(cfg, s, a) && (a.DispatchNext? || a.AcquireNext?)
    ensures Advances(s, Next(cfg, s, a), [])
  {
    hide Inv, Bounded, Enabled, Next, Advances, DispatchStep, SendHead, TakeSlot, HeadAlone;
    HeadIsAlone(cfg, s);
    NextOfScheduler(cfg, s, a);
    if a.DispatchNext? {
      DispatchAdvances(cfg, s);
    } else {
      AcquireAdvances(cfg, s);
    }
  }

  lemma MovedNotSkipped(cfg: Config, s: State, a: Action, r: Rid)
    requires Bounded(s) && Enabled(cfg, s, a) && MovedBy(s, a) == Some(r) && r < |s.requests| && Coherent(s.requests[r])
    requires !a.PopNext? && !a.DispatchNext? && !a.AcquireNext?
    ensures !WasSkipped(s.requests, r) && !WasSkipped(Next(cfg, s, a).requests, r)
  {
    assert s.requests[r].tenant in s.accounts;
    hide Bounded, Structured, FairQueueSpec.Pop, Push, PopStep, DispatchStep, SendHead;
  }

  lemma OtherSkips(cfg: Config, s: State, a: Action, r: Rid)
    requires Inv(cfg, s) && Bounded(s) && Enabled(cfg, s, a) && !a.PopNext? && !a.DispatchNext? && !a.AcquireNext?
    ensures WasSkipped(Next(cfg, s, a).requests, r) <==> WasSkipped(s.requests, r)
  {
    if r < |s.requests| {
      assert Coherent(s.requests[r]);
      hide Inv, Bounded, Next, Coherent;
      if MovedBy(s, a) == Some(r) {
        MovedNotSkipped(cfg, s, a, r);
      } else {
        OthersStay(cfg, s, a, r);
      }
    } else if r < |Next(cfg, s, a).requests| {
      hide Inv, Bounded, Next;
      StepAdds(cfg, s, a, r);
    }
  }

  lemma OtherOnward(cfg: Config, s: State, a: Action)
    requires Bounded(s) && Enabled(cfg, s, a) && !a.PopNext? && !a.DispatchNext? && !a.AcquireNext?
    ensures Next(cfg, s, a).sent == s.sent && Next(cfg, s, a).batch == s.batch
  {
    hide Structured, FairQueueSpec.Pop, Push, PopStep, DispatchStep, SendHead;
  }

  lemma StepAdvances(cfg: Config, s: State, a: Action)
    requires Inv(cfg, s) && Bounded(s) && Enabled(cfg, s, a)
    ensures Advances(s, Next(cfg, s, a), ReleasedNow(s, a))
  {
    hide Inv, Bounded;
    if a.PopNext? {
      PopAdvances(cfg, s);
    } else if a.DispatchNext? || a.AcquireNext? {
      SchedulerAdvances(cfg, s, a);
    } else {
      hide Next, WasSkipped;
      OtherOnward(cfg, s, a);
      forall r: Rid
        ensures WasSkipped(Next(cfg, s, a).requests, r) <==> WasSkipped(s.requests, r)
      {
        OtherSkips(cfg, s, a, r);
      }
      assert Onward(s) + [] == Onward(s);
    }
  }

  lemma KeptAdvances(s: State, s': State, before: seq<Rid>, released: seq<Rid>)
    requires Kept(before, s.requests) == Onward(s) && Advances(s, s', released) && |released| <= 1
    requires forall r :: r in released ==> !WasSkipped(s.requests, r)
    ensures Kept(before + released, s'.requests) == Onward(s')
  {
    hide Onward, WasSkipped;
    if released != [] {
      assert (before + released)[..|before + released| - 1] == before;
      assert released == [released[0]];
    } else {
      assert before + released == before;
    }
    if Onward(s') == Onward(s) + released && forall r: Rid :: WasSkipped(s'.requests, r) <==> WasSkipped(s.requests, r) {
      KeptSame(before, s.requests, s'.requests);
    } else {
      KeptSkips(before, s.requests, s'.requests, s.batch[0].0);
    }
  }

  lemma ReleasedQueued(cfg: Config, s: State, a: Action)
    requires Inv(cfg, s) && Bounded(s) && Enabled(cfg, s, a)
    ensures |ReleasedNow(s, a)| <= 1 && forall r :: r in ReleasedNow(s, a) ==> !WasSkipped(s.requests, r)
  {
    hide Structured, Serve, Granted, ItemsHold, BatchHolds, LogHolds, AccountsBalance, PermitsBalance, SchedulerShape, Sum;
    if a.PopNext? && s.queue.active != [] {
      var r := PopHolds(cfg, s.requests, s.queue, s.pc.first);
      hide FairQueueSpec.Pop;
    }
  }

  /**
   At every point of every run from the start, the log of what went to the
   backend followed by the scheduler's batch is exactly the sequence of requests
   that the queue has let go, in that order, without those that were skipped:
   neither batching nor waiting for slots reorders, drops or repeats a request.
   */
  lemma {:induction false} SentInOrder(cfg: Config, states: seq<State>, actions: seq<Action>, n: nat)
    requires Run(cfg, states, actions) && Initial(cfg, states[0]) && n <= |actions|
    ensures Kept(Released(cfg, states, actions, n), states[n].requests) == Onward(states[n])
  {
    hide Inv, Reachable, Bounded, Next, Enabled, Kept, ReleasedNow, Advances;
    if n == 0 {
      StartOnward(cfg, states[0]);
    } else {
      hide Onward;
      SentInOrder(cfg, states, actions, n - 1);
      InitialInv(cfg, states[0]);
      RunInv(cfg, states, actions, n - 1);
      var s, a := states[n - 1], actions[n - 1];
      assert StepTo(cfg, s, a, states[n]);
      StepAdvances(cfg, s, a);
      ReleasedQueued(cfg, s, a);
      KeptAdvances(s, states[n], Released(cfg, states, actions, n - 1), ReleasedNow(s, a));
    }
  }

  lemma StartOnward(cfg: Config, s: State)
    requires Initial(cfg, s)
    ensures Onward(s) == [] && Kept([], s.requests) == []
  {
  }
}
