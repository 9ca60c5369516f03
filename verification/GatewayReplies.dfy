/**
 What clients are told: over every run a handler gets the answer that the
 backend gave to its request, and every request can be served.
 */
module GatewayReplies {
  import opened Prelude
  import opened Tenants
  import opened FairQueueSpec
  import opened Gateway
  import opened GatewayInvariant
  import opened GatewaySteps
  import opened GatewaySafety
  import opened GatewayProgress

  // ----- What happened to a request, from the run's actions and states -----

  /** The backend's last answer to request `r` in the first `n` steps. */
  function AnswerTo(actions: seq<Action>, r: Rid, n: nat): Option<bool>
    requires n <= |actions|
  {
    if n == 0 then None
    else if actions[n - 1].Answer? && actions[n - 1].r == r then Some(actions[n - 1].ok)
    else AnswerTo(actions, r, n - 1)
  }

  /** The client of request `r` has hung up in the first `n` steps. */
  predicate HungUp(actions: seq<Action>, r: Rid, n: nat)
    requires n <= |actions|
  {
    n > 0 && (HungUp(actions, r, n - 1) || (actions[n - 1].HangUp? && actions[n - 1].r == r))
  }

  /** The handler of request `r` has been passing on a reply, with its backend slot, by the `n`-th step. */
  predicate Served(states: seq<State>, r: Rid, n: nat)
    requires n < |states|
  {
    || (r < |states[n].requests| && states[n].requests[r].client.Serving?)
    || (n > 0 && Served(states, r, n - 1))
  }

  predicate WasAnswered(v: Server) {
    v.Replying? || v.Delivered? || v.Taken? || v.Discarded?
  }

  /** Where request and handler are agrees with what has happened to them. */
  predicate Agrees(q: Request, answer: Option<bool>, hungUp: bool, served: bool) {
    // The backend has answered exactly the requests that are past it, and a reply under way is its answer.
    && (answer.Some? <==> WasAnswered(q.server))
    && (q.server.Replying? || q.server.Delivered? ==> answer == Some(q.server.ok))
    // A handler that has received its reply has served it if and only if the answer was a success.
    && (q.server.Taken? ==> (served <==> answer == Some(true)))
    && (q.server.Taken? && !served ==> q.client.Gone?)
    && (served ==> q.server.Taken?)
    // It is gone before that only if its client has hung up, or it was turned away.
    && (hungUp ==> q.client.Gone?)
    && (q.client.Gone? && !q.server.Taken? && !q.server.Rejected? ==> hungUp)
  }

  // ----- One step -----

  /** What one action adds to the history of request `r`. */
  function AnswerNow(a: Action, r: Rid, before: Option<bool>): Option<bool> {
    if a.Answer? && a.r == r then Some(a.ok) else before
  }

  predicate HangsUp(a: Action, r: Rid) { a.HangUp? && a.r == r }

  /** The request after the step agrees with what has now happened to it. */
  ghost predicate AgreesAfter(s': State, a: Action, r: Rid, answer: Option<bool>, hungUp: bool, served: bool) {
    && r < |s'.requests|
    && Agrees(s'.requests[r], AnswerNow(a, r, answer), hungUp || HangsUp(a, r), served || s'.requests[r].client.Serving?)
  }

  lemma PopAgrees(cfg: Config, s: State, r: Rid, answer: Option<bool>, hungUp: bool, served: bool)
    requires Inv(cfg, s) && Bounded(s) && s.pc.Pop? && r < |s.requests| && FairQueueSpec.Pop(s.queue).1 == Some(r)
    requires Agrees(s.requests[r], answer, hungUp, served)
    ensures AgreesAfter(PopStep(cfg, s), PopNext, r, answer, hungUp, served)
  {
    hide Structured, Serve, Granted, ItemsHold, BatchHolds, LogHolds, AccountsBalance, PermitsBalance, SchedulerShape, Sum;
    if s.queue.active != [] {
      var r' := PopHolds(cfg, s.requests, s.queue, s.pc.first);
    }
    assert Coherent(s.requests[r]);
    hide FairQueueSpec.Pop;
  }

  lemma DispatchAgrees(cfg: Config, s: State, a: Action, r: Rid, answer: Option<bool>, hungUp: bool, served: bool)
    requires Bounded(s) && Enabled(cfg, s, a) && (a.DispatchNext? || a.AcquireNext?)
    requires s.batch != [] && s.batch[0].0 == r && r < |s.requests| && s.requests[r].server.Batched? && Coherent(s.requests[r])
    requires Agrees(s.requests[r], answer, hungUp, served)
    ensures AgreesAfter(Next(cfg, s, a), a, r, answer, hungUp, served)
  {
    hide Structured;
  }

  lemma SubmitAgrees(cfg: Config, s: State, r: Rid, now: real, answer: Option<bool>, hungUp: bool, served: bool)
    requires r < |s.requests| && s.requests[r].tenant in s.accounts && s.requests[r].client.Entered? && Coherent(s.requests[r])
    requires Agrees(s.requests[r], answer, hungUp, served)
    ensures AgreesAfter(SubmitStep(cfg, s, r, now), Submit(r, now), r, answer, hungUp, served)
  {
    hide Push, Settlement;
  }

  /** The steps that a handler takes when its request is done with, one way or another. */
  lemma EndAgrees(cfg: Config, s: State, a: Action, r: Rid, answer: Option<bool>, hungUp: bool, served: bool)
    requires Bounded(s) && Enabled(cfg, s, a) && r < |s.requests| && MovedBy(s, a) == Some(r) && Coherent(s.requests[r])
    requires CanEnd(a) && !a.Submit?
    requires Agrees(s.requests[r], answer, hungUp, served)
    ensures AgreesAfter(Next(cfg, s, a), a, r, answer, hungUp, served)
  {
    assert s.requests[r].tenant in s.accounts;
    hide SubmitStep, Bounded, Structured, FairQueueSpec.Pop, Push, PopStep, DispatchStep, SendHead, Settlement, AnswerStep, DeliverStep;
  }

  lemma OtherAgrees(cfg: Config, s: State, a: Action, r: Rid, answer: Option<bool>, hungUp: bool, served: bool)
    requires Bounded(s) && Enabled(cfg, s, a) && r < |s.requests| && MovedBy(s, a) == Some(r) && Coherent(s.requests[r])
    requires !CanEnd(a) && !a.PopNext? && !a.DispatchNext? && !a.AcquireNext?
    requires Agrees(s.requests[r], answer, hungUp, served)
    ensures AgreesAfter(Next(cfg, s, a), a, r, answer, hungUp, served)
  {
    hide Structured, FairQueueSpec.Pop, Push, PopStep, DispatchStep, SendHead, Finish, SubmitStep, ReceiveStep, HangUpStep;
  }

  lemma MovedAgrees(cfg: Config, s: State, a: Action, r: Rid, answer: Option<bool>, hungUp: bool, served: bool)
    requires Inv(cfg, s) && Bounded(s) && Enabled(cfg, s, a) && r < |s.requests| && MovedBy(s, a) == Some(r)
    requires Agrees(s.requests[r], answer, hungUp, served)
    ensures AgreesAfter(Next(cfg, s, a), a, r, answer, hungUp, served)
  {
    assert Coherent(s.requests[r]) && s.requests[r].tenant in s.accounts;
    hide Inv, Structured, Agrees, Coherent, AgreesAfter;
    if a.PopNext? {
      PopAgrees(cfg, s, r, answer, hungUp, served);
    } else if a.DispatchNext? || a.AcquireNext? {
      BatchedCoherent(cfg, s);
      DispatchAgrees(cfg, s, a, r, answer, hungUp, served);
    } else if a.Submit? {
      SubmitAgrees(cfg, s, r, a.now, answer, hungUp, served);
    } else if CanEnd(a) {
      EndAgrees(cfg, s, a, r, answer, hungUp, served);
    } else {
      OtherAgrees(cfg, s, a, r, answer, hungUp, served);
    }
  }

  lemma UnmovedAgrees(s: State, s': State, a: Action, r: Rid, answer: Option<bool>, hungUp: bool, served: bool)
    requires Bounded(s) && MovedBy(s, a) != Some(r) && r < |s.requests| && Coherent(s.requests[r])
    requires r < |s'.requests| && s'.requests[r] == s.requests[r]
    requires Agrees(s.requests[r], answer, hungUp, served)
    ensures AgreesAfter(s', a, r, answer, hungUp, served)
  {
  }

  lemma StepAgrees(cfg: Config, s: State, a: Action, r: Rid, answer: Option<bool>, hungUp: bool, served: bool)
    requires Inv(cfg, s) && Bounded(s) && Enabled(cfg, s, a) && r < |s.requests|
    requires Agrees(s.requests[r], answer, hungUp, served)
    ensures AgreesAfter(Next(cfg, s, a), a, r, answer, hungUp, served)
  {
    assert Coherent(s.requests[r]);
    hide Inv, Bounded, Next, Enabled, MovedBy, Agrees, AgreesAfter, Coherent;
    if MovedBy(s, a) == Some(r) {
      MovedAgrees(cfg, s, a, r, answer, hungUp, served);
    } else {
      OthersStay(cfg, s, a, r);
      UnmovedAgrees(s, Next(cfg, s, a), a, r, answer, hungUp, served);
    }
  }

  // ----- Runs -----

  lemma NothingHappened(cfg: Config, s: State, a: Action, r: Rid)
    requires Bounded(s) && Enabled(cfg, s, a) && r >= |s.requests|
    ensures AnswerNow(a, r, None) == None && !HangsUp(a, r)
  {
  }

  lemma NewAgrees(q: Request)
    requires q.server.Unqueued? && q.client.Entered?
    ensures Agrees(q, None, false, q.client.Serving?)
  {
  }

  /** One more step of a run. */
  lemma OneMoreStep(states: seq<State>, actions: seq<Action>, r: Rid, n: nat)
    requires |states| == |actions| + 1 && 0 < n <= |actions|
    ensures AnswerTo(actions, r, n) == AnswerNow(actions[n - 1], r, AnswerTo(actions, r, n - 1))
    ensures HungUp(actions, r, n) <==> HungUp(actions, r, n - 1) || HangsUp(actions[n - 1], r)
    ensures Served(states, r, n) <==>
      Served(states, r, n - 1) || (r < |states[n].requests| && states[n].requests[r].client.Serving?)
  {
  }

  lemma NoStepYet(cfg: Config, states: seq<State>, actions: seq<Action>, r: Rid)
    requires |states| == |actions| + 1 && Initial(cfg, states[0])
    ensures states[0].requests == []
    ensures AnswerTo(actions, r, 0) == None && !HungUp(actions, r, 0) && !Served(states, r, 0)
  {
  }

  /**
   In every run and at every point, a reply under way is the backend's answer;
   a handler serves it if and only if it is a success; and only a client that
   hangs up, or is turned away at the full queue, goes without one.
   */
  lemma {:induction false} RepliesAreAnswers(cfg: Config, states: seq<State>, actions: seq<Action>, r: Rid, n: nat)
    requires Run(cfg, states, actions) && Initial(cfg, states[0]) && n <= |actions|
    ensures if r < |states[n].requests|
      then Agrees(states[n].requests[r], AnswerTo(actions, r, n), HungUp(actions, r, n), Served(states, r, n))
      else AnswerTo(actions, r, n) == None && !HungUp(actions, r, n) && !Served(states, r, n)
  {
    hide Inv, Bounded, Next, Enabled, Agrees, AnswerTo, HungUp, Served, Initial, AnswerNow, HangsUp;
    if n == 0 {
      NoStepYet(cfg, states, actions, r);
    } else {
      var s, a := states[n - 1], actions[n - 1];
      RepliesAreAnswers(cfg, states, actions, r, n - 1);
      InitialInv(cfg, states[0]);
      RunInv(cfg, states, actions, n - 1);
      assert StepTo(cfg, s, a, states[n]);
      OneMoreStep(states, actions, r, n);
      if r < |s.requests| {
        StepAgrees(cfg, s, a, r, AnswerTo(actions, r, n - 1), HungUp(actions, r, n - 1), Served(states, r, n - 1));
      } else {
        NothingHappened(cfg, s, a, r);
        if r < |states[n].requests| {
          StepAdds(cfg, s, a, r);
          NewAgrees(states[n].requests[r]);
        } else {
          assert !Served(states, r, n);
        }
      }
    }
  }

  /** The backend answers a request at most once, and only when it was sent. */
  lemma AnsweredOnce(cfg: Config, states: seq<State>, actions: seq<Action>, n: nat)
    requires Run(cfg, states, actions) && Initial(cfg, states[0]) && n < |actions| && actions[n].Answer?
    ensures AnswerTo(actions, actions[n].r, n) == None && actions[n].r in states[n].sent
  {
    hide Inv, Bounded, Next, Enabled, Initial, AnswerTo, HungUp, Served;
    var s, r := states[n], actions[n].r;
    assert StepTo(cfg, s, actions[n], states[n + 1]);
    AnswersSending(cfg, s, actions[n]);
    RepliesAreAnswers(cfg, states, actions, r, n);
    InitialInv(cfg, states[0]);
    RunInv(cfg, states, actions, n);
    WhereAccepted(cfg, s, r);
  }

  lemma AnswersSending(cfg: Config, s: State, a: Action)
    requires Bounded(s) && Enabled(cfg, s, a) && a.Answer?
    ensures a.r < |s.requests| && s.requests[a.r].server.Sending?
  {
  }

  /** On receipt of the reply the handler goes on to serve it if the backend's answer was a success, and ends if it was an error. */
  lemma ReceiptDecides(cfg: Config, states: seq<State>, actions: seq<Action>, n: nat)
    requires Run(cfg, states, actions) && Initial(cfg, states[0]) && n < |actions| && actions[n].Receive?
    ensures var r := actions[n].r;
      && AnswerTo(actions, r, n).Some? && r < |states[n + 1].requests|
      && states[n + 1].requests[r].client == if AnswerTo(actions, r, n) == Some(true) then Serving else Gone
  {
    var s, r := states[n], actions[n].r;
    RepliesAreAnswers(cfg, states, actions, r, n);
    assert StepTo(cfg, s, actions[n], states[n + 1]);
    hide Structured, Settlement, Run, Initial, AnswerTo, HungUp, Served;
  }

  /** A client that does not hang up is turned away, or gets the backend's answer: a reply that it is served, or an error. */
  lemma PatientClientIsAnswered(cfg: Config, states: seq<State>, actions: seq<Action>, r: Rid)
    requires Run(cfg, states, actions) && Initial(cfg, states[0]) && r < |states[|actions|].requests|
    requires Settled(states[|actions|].requests[r]) && !HungUp(actions, r, |actions|)
    ensures !states[|actions|].requests[r].server.Rejected? ==>
      && AnswerTo(actions, r, |actions|).Some?
      && (Served(states, r, |actions|) <==> AnswerTo(actions, r, |actions|) == Some(true))
  {
    RepliesAreAnswers(cfg, states, actions, r, |actions|);
    hide Run, Initial, AnswerTo, HungUp, Served;
  }

  // ----- Nothing that clients and backend may do is ruled out -----

  /** While the backend works on a request it may succeed or fail. */
  lemma AnyAnswerCanCome(cfg: Config, s: State, r: Rid, ok: bool) returns (s': State)
    requires Reachable(cfg, s) && r < |s.requests| && s.requests[r].server.Sending?
    ensures Reachable(cfg, s') && s'.requests == s.requests[r := s.requests[r].(server := Replying(ok))]
  {
    hide Reachable;
    ReachableStep(cfg, s, Answer(r, ok));
    s' := Next(cfg, s, Answer(r, ok));
    hide Structured;
  }

  /** A reply may bring any number of tokens at any time. */
  lemma AnyUseCanCome(cfg: Config, s: State, r: Rid, n: nat) returns (s': State)
    requires Reachable(cfg, s) && r < |s.requests| && s.requests[r].client.Serving?
    ensures Reachable(cfg, s') && s'.requests == s.requests[r := s.requests[r].(used := s.requests[r].used + n)]
  {
    hide Reachable;
    ReachableStep(cfg, s, Forward(r, n));
    s' := Next(cfg, s, Forward(r, n));
    hide Structured;
  }

  lemma LeavingStep(cfg: Config, s: State, r: Rid, now: real)
    requires r < |s.requests| && s.requests[r].tenant in s.accounts
    ensures var s' := HangUpStep(cfg, s, r, now);
      && r < |s'.requests| && s'.requests[r].client.Gone? && s'.requests[r].used == s.requests[r].used
      && s'.accounts == s.accounts[s.requests[r].tenant :=
           Settlement(s.accounts[s.requests[r].tenant], s.requests[r].reserved, s.requests[r].used, now)]
  {
    hide Settlement;
  }

  lemma LeavingIsPossible(cfg: Config, s: State, r: Rid, now: real) returns (a: Action)
    requires Bounded(s) && r < |s.requests| && (s.requests[r].client.Awaiting? || s.requests[r].client.Serving?)
    ensures s.requests[r].tenant in s.accounts
    ensures Enabled(cfg, s, a) && Next(cfg, s, a) == HangUpStep(cfg, s, r, now)
  {
    a := if s.requests[r].client.Serving? then StreamEnd(r, now) else HangUp(r, now);
    assert s.requests[r].tenant in s.accounts;
    hide Structured, HangUpStep;
  }

  /** A client may hang up whenever it is waiting or being served, and a reply may end; what it used stays charged. */
  lemma AnyClientCanLeave(cfg: Config, s: State, r: Rid, now: real) returns (s': State)
    requires Reachable(cfg, s) && r < |s.requests| && (s.requests[r].client.Awaiting? || s.requests[r].client.Serving?)
    ensures Reachable(cfg, s') && r < |s'.requests| && s'.requests[r].client.Gone? && s'.requests[r].used == s.requests[r].used
    ensures s.requests[r].tenant in s.accounts
    ensures s'.accounts == s.accounts[s.requests[r].tenant :=
      Settlement(s.accounts[s.requests[r].tenant], s.requests[r].reserved, s.requests[r].used, now)]
  {
    hide Reachable, Inv, Bounded, Enabled, Next, HangUpStep, Settlement;
    ReachableInv(cfg, s);
    InvBounded(cfg, s);
    var a := LeavingIsPossible(cfg, s, r, now);
    ReachableStep(cfg, s, a);
    LeavingStep(cfg, s, r, now);
    s' := Next(cfg, s, a);
  }

  /** Any tenant may send any request at any time, with any reading of the clock; its account alone decides. */
  lemma AnyRequestCanArrive(cfg: Config, s: State, k: Key, now: real, reserve: nat) returns (s': State)
    requires Reachable(cfg, s) && k in s.accounts
    ensures Reachable(cfg, s')
    ensures var (account, error) := Admission(s.accounts[k], now, reserve);
      && s'.accounts == s.accounts[k := account]
      && s'.requests == s.requests + if error.None? then [Request(k, reserve, 0, Entered, Unqueued)] else []
  {
    hide Reachable;
    ReachableStep(cfg, s, Arrive(k, now, reserve));
    s' := Next(cfg, s, Arrive(k, now, reserve));
    hide Structured, Admission;
  }

  // ----- Every request can be served -----

  lemma AcceptedStays(cfg: Config, s: State, a: Action, r: Rid)
    requires Inv(cfg, s) && Bounded(s) && Enabled(cfg, s, a) && r < |s.requests| && WasAccepted(s.requests[r].server)
    ensures r < |Next(cfg, s, a).requests| && WasAccepted(Next(cfg, s, a).requests[r].server)
  {
    RequestsMoveForward(cfg, s, a, r);
    hide Inv, Bounded, Next, Enabled;
  }

  lemma NoneAfter(states: seq<State>, actions: seq<Action>, states': seq<State>, actions': seq<Action>, r: Rid, n: nat)
    requires Extends(states, actions, states', actions') && |actions| < n <= |actions'|
    ensures Kind(actions'[n - 1]) && !HangsUp(actions'[n - 1], r)
    ensures AnswerNow(actions'[n - 1], r, AnswerTo(actions', r, n - 1)) in {AnswerTo(actions', r, n - 1), Some(true)}
  {
  }

  /** While a run is extended, an accepted request stays accepted, its client does not hang up, and no error comes. */
  lemma {:induction false} StaysServable(cfg: Config, states: seq<State>, actions: seq<Action>, states': seq<State>, actions': seq<Action>, r: Rid, n: nat)
    requires Run(cfg, states', actions') && Initial(cfg, states'[0]) && Extends(states, actions, states', actions')
    requires |actions| <= n <= |actions'| && |states| == |actions| + 1
    requires r < |states[|actions|].requests| && WasAccepted(states[|actions|].requests[r].server)
    requires !HungUp(actions', r, |actions|) && AnswerTo(actions', r, |actions|) != Some(false)
    ensures r < |states'[n].requests| && WasAccepted(states'[n].requests[r].server)
    ensures !HungUp(actions', r, n) && AnswerTo(actions', r, n) != Some(false)
    decreases n
  {
    hide Inv, Bounded, Next, Enabled, AnswerTo, HungUp, Initial, Extends, AnswerNow, HangsUp, WasAccepted;
    if n == |actions| {
      ExtendsPrefix(states, actions, states', actions');
    } else {
      StaysServable(cfg, states, actions, states', actions', r, n - 1);
      InitialInv(cfg, states'[0]);
      RunInv(cfg, states', actions', n - 1);
      assert StepTo(cfg, states'[n - 1], actions'[n - 1], states'[n]);
      OneMoreStep(states', actions', r, n);
      NoneAfter(states, actions, states', actions', r, n);
      AcceptedStays(cfg, states'[n - 1], actions'[n - 1], r);
    }
  }

  lemma {:induction false} SameHistory(actions: seq<Action>, actions': seq<Action>, r: Rid, n: nat)
    requires actions <= actions' && n <= |actions|
    ensures AnswerTo(actions', r, n) == AnswerTo(actions, r, n) && HungUp(actions', r, n) == HungUp(actions, r, n)
  {
    if n > 0 { SameHistory(actions, actions', r, n - 1); }
  }

  lemma ExtendsPrefix(states: seq<State>, actions: seq<Action>, states': seq<State>, actions': seq<Action>)
    requires Extends(states, actions, states', actions') && |states| > 0
    ensures actions <= actions' && |states'| >= |states| && |actions'| >= |actions|
    ensures forall i :: 0 <= i < |states| ==> states'[i] == states[i]
  {
  }

  lemma AcceptedCanBeServed(cfg: Config, states: seq<State>, actions: seq<Action>, r: Rid)
    returns (states': seq<State>, actions': seq<Action>)
    requires Run(cfg, states, actions) && Initial(cfg, states[0]) && r < |states[|actions|].requests|
    requires WasAccepted(states[|actions|].requests[r].server)
    requires !HungUp(actions, r, |actions|) && AnswerTo(actions, r, |actions|) != Some(false)
    ensures Run(cfg, states', actions') && Extends(states, actions, states', actions')
    ensures Served(states', r, |actions'|) && AllSettled(states'[|actions'|])
  {
    hide Inv, Reachable, StepTo, Initial, Extends, Served, AnswerTo, HungUp;
    ReachableInitial(cfg, states[0]);
    states', actions' := EveryRunCompletes(cfg, states, actions);
    var n := |actions'|;
    ExtendsPrefix(states, actions, states', actions');
    SameHistory(actions, actions', r, |actions|);
    StaysServable(cfg, states, actions, states', actions', r, n);
    RepliesAreAnswers(cfg, states', actions', r, n);
    var answer := AnswerTo(actions', r, n);
    assert Settled(states'[n].requests[r]) && states'[n].requests[r].server.Taken?;
    assert answer.Some? && answer == Some(answer.value);
    assert answer.value;
  }

  /** With room in the queue a submitted request is accepted. */
  lemma SubmitAccepted(cfg: Config, s: State, r: Rid, now: real)
    requires r < |s.requests| && s.requests[r].tenant in s.accounts && s.queue.len < s.queue.capacity
    ensures r < |SubmitStep(cfg, s, r, now).requests| && WasAccepted(SubmitStep(cfg, s, r, now).requests[r].server)
  {
    hide Settlement;
  }

  lemma SubmitStarts(cfg: Config, s: State, r: Rid)
    requires Inv(cfg, s) && r < |s.requests| && s.requests[r].client.Entered? && s.queue.len < cfg.queueDepth
    ensures Enabled(cfg, s, Submit(r, 0.0)) && Bounded(s)
    ensures r < |Next(cfg, s, Submit(r, 0.0)).requests| && WasAccepted(Next(cfg, s, Submit(r, 0.0)).requests[r].server)
  {
    InvBounded(cfg, s);
    assert s.queue.capacity == cfg.queueDepth;
    SubmitAccepted(cfg, s, r, 0.0);
    hide Inv, Structured, SubmitStep, WasAccepted;
  }

  lemma PresentIsAccepted(cfg: Config, s: State, r: Rid)
    requires Inv(cfg, s) && r < |s.requests| && !s.requests[r].client.Gone? && !s.requests[r].client.Entered?
    ensures WasAccepted(s.requests[r].server)
  {
    assert Coherent(s.requests[r]);
  }

  lemma ExtendsFurther(states: seq<State>, actions: seq<Action>, s: State, a: Action, states': seq<State>, actions': seq<Action>)
    requires Extends(states + [s], actions + [a], states', actions') && Kind(a)
    ensures Extends(states, actions, states', actions')
  {
    forall i | |actions| <= i < |actions'|
      ensures Kind(actions'[i])
    {
      if i == |actions| { assert (actions + [a])[i] == a; }
    }
  }

  /**
   However a run has gone, a request whose handler is there, and for which the
   backend has not failed, can still be served, if only it is in the queue or
   the queue has room for it: by steps of the gateway and the backend alone, with
   no client hanging up, and with every other request settled as well.
   */
  lemma EveryRequestCanBeServed(cfg: Config, states: seq<State>, actions: seq<Action>, r: Rid)
    returns (states': seq<State>, actions': seq<Action>)
    requires Run(cfg, states, actions) && Initial(cfg, states[0]) && r < |states[|actions|].requests|
    requires !states[|actions|].requests[r].client.Gone? && AnswerTo(actions, r, |actions|) != Some(false)
    requires states[|actions|].requests[r].client.Entered? ==> states[|actions|].queue.len < cfg.queueDepth
    ensures Run(cfg, states', actions') && Extends(states, actions, states', actions')
    ensures Served(states', r, |actions'|) && AllSettled(states'[|actions'|])
  {
    var s := states[|actions|];
    InitialInv(cfg, states[0]);
    RunInv(cfg, states, actions, |actions|);
    RepliesAreAnswers(cfg, states, actions, r, |actions|);
    hide Inv, StepTo, Initial, Extends, Served, AnswerTo, HungUp, Enabled, Next, Bounded, WasAccepted, Run;
    if s.requests[r].client.Entered? {
      var a := Submit(r, 0.0);
      SubmitStarts(cfg, s, r);
      RunStep(cfg, states, actions, a);
      var s' := Next(cfg, s, a);
      assert (states + [s'])[0] == states[0] && (states + [s'])[|actions + [a]|] == s';
      SameHistory(actions, actions + [a], r, |actions|);
      OneMoreStep(states + [s'], actions + [a], r, |actions| + 1);
      states', actions' := AcceptedCanBeServed(cfg, states + [s'], actions + [a], r);
      ExtendsFurther(states, actions, s', a, states', actions');
    } else {
      PresentIsAccepted(cfg, s, r);
      states', actions' := AcceptedCanBeServed(cfg, states, actions, r);
    }
  }
}
