/** Every step of the gateway keeps its invariant. */
module GatewaySteps {
  import opened Prelude
  import opened Tenants
  import opened FairQueueSpec
  import opened FairQueueInvariant
  import opened FairQueueHistory
  import opened Gateway
  import opened GatewayInvariant

  // ----- Handlers -----

  /** A new request changes nothing about the old ones. */
  lemma AppendKeeps(cfg: Config, s: State, q: Request)
    requires q.server.Unqueued?
    requires QueueHolds(cfg, s.requests, s.queue) && BatchHolds(s.requests, s.batch) && LogHolds(s.requests, s.sent)
    ensures QueueHolds(cfg, s.requests + [q], s.queue)
    ensures BatchHolds(s.requests + [q], s.batch)
    ensures LogHolds(s.requests + [q], s.sent)
  {
    var requests' := s.requests + [q];
    forall i | 0 <= i < |s.requests|
      ensures requests'[i] == s.requests[i] && QueueKey(cfg, requests'[i]) == QueueKey(cfg, s.requests[i])
    {
    }
  }

  lemma AppendSums(requests: seq<Request>, q: Request)
    requires q.client.Entered? && q.server.Unqueued?
    ensures Sum(requests + [q], SlotOf) == Sum(requests, SlotOf)
    ensures Sum(requests + [q], NotifierOf) == Sum(requests, NotifierOf)
    ensures Sum(requests + [q], QueuedOf) == Sum(requests, QueuedOf)
  {
    SumAppend(requests, q, QueuedOf);
    SumAppend(requests, q, SlotOf);
    SumAppend(requests, q, NotifierOf);
  }

  lemma AppendLive(requests: seq<Request>, accounts: map<Key, AccountState>, q: Request, account: AccountState)
    requires q.client.Entered? && q.tenant in accounts && AccountsBalance(requests, accounts)
    requires account.active == accounts[q.tenant].active + 1 <= account.maxConcurrent
    ensures AccountsBalance(requests + [q], accounts[q.tenant := account])
  {
    hide Sum;
    forall k | k in accounts
      ensures Sum(requests + [q], LeaseOf(k)) == Sum(requests, LeaseOf(k)) + if k == q.tenant then 1 else 0
    {
      SumAppend(requests, q, LeaseOf(k));
    }
  }

  /** An admission takes one concurrency slot, and only below the limit; a refusal takes none. */
  lemma AdmissionCounts(a: AccountState, now: real, reserve: nat)
    ensures var (a', error) := Admission(a, now, reserve);
      && a'.maxConcurrent == a.maxConcurrent
      && (error.None? ==> a.active < a.maxConcurrent && a'.active == a.active + 1)
      && (error.Some? ==> a'.active == a.active)
  {
  }

  lemma ArriveKeeps(cfg: Config, s: State, k: Key, now: real, reserve: nat)
    requires Inv(cfg, s) && k in s.accounts
    ensures Inv(cfg, ArriveStep(s, k, now, reserve))
  {
    hide Sum, QueueHolds, BatchHolds, LogHolds, Admission;
    AdmissionCounts(s.accounts[k], now, reserve);
    var q := Request(k, reserve, 0, Entered, Unqueued);
    AppendKeeps(cfg, s, q);
    AppendSums(s.requests, q);
    var (account, error) := Admission(s.accounts[k], now, reserve);
    if error.None? {
      AppendLive(s.requests, s.accounts, q, account);
    }
    assert AccountsBalance(ArriveStep(s, k, now, reserve).requests, ArriveStep(s, k, now, reserve).accounts);
  }

  /** An accepted push puts the request into its key's queue. */
  lemma PushHoldsItems(cfg: Config, requests: seq<Request>, queue: Queue<Rid>, queue': Queue<Rid>, r: Rid, q: Request)
    requires r < |requests| && q.tenant == requests[r].tenant
    requires !requests[r].server.Queued? && q.server.Queued?
    requires ItemsHold(cfg, requests, queue)
    requires forall k :: Waiting(queue', k) == if k == QueueKey(cfg, q) then Waiting(queue, k) + [r] else Waiting(queue, k)
    ensures ItemsHold(cfg, requests[r := q], queue')
  {
    var requests' := requests[r := q];
    forall i | 0 <= i < |requests'|
      ensures QueueKey(cfg, requests'[i]) == QueueKey(cfg, requests[i])
      ensures i != r ==> requests'[i] == requests[i]
    {
    }
    assert forall k :: !WaitsAt(queue, k, r);
    forall k, i: Rid
      ensures WaitsAt(queue', k, i) <==> WaitsAt(queue, k, i) || (k == QueueKey(cfg, q) && i == r)
    {
    }
    forall k
      ensures DistinctRids(Waiting(queue', k))
    {
      assert !WaitsAt(queue, k, r);
      assert forall x :: 0 <= x < |Waiting(queue, k)| ==> Waiting(queue, k)[x] in Waiting(queue, k);
    }
  }

  lemma PushHolds(cfg: Config, requests: seq<Request>, queue: Queue<Rid>, r: Rid, q: Request)
    requires QueueHolds(cfg, requests, queue) && queue.len < queue.capacity
    requires r < |requests| && q.tenant == requests[r].tenant
    requires !requests[r].server.Queued? && q.server.Queued?
    ensures QueueHolds(cfg, requests[r := q], Push(queue, QueueKey(cfg, q), KeyWeight(cfg, QueueKey(cfg, q)), r).0)
  {
    hide ItemsHold, Total;
    var key, weight := QueueKey(cfg, q), KeyWeight(cfg, QueueKey(cfg, q));
    PushWellFormed(queue, key, weight, r);
    var queue' := Push(queue, key, weight, r).0;
    forall k
      ensures Waiting(queue', k) == if k == key then Waiting(queue, k) + [r] else Waiting(queue, k)
    {
      PushEffect(queue, key, weight, r, k);
    }
    PushHoldsItems(cfg, requests, queue, queue', r, q);
  }

  lemma SubmitKeeps(cfg: Config, s: State, r: Rid, now: real)
    requires Inv(cfg, s) && r < |s.requests| && s.requests[r].client.Entered?
    ensures Inv(cfg, SubmitStep(cfg, s, r, now))
  {
    hide Sum, QueueHolds, BatchHolds, LogHolds, Push, AccountsBalance;
    var q := s.requests[r];
    PushEffect(s.queue, QueueKey(cfg, q), KeyWeight(cfg, QueueKey(cfg, q)), r, "");
    if s.queue.len < s.queue.capacity {
      var q' := q.(client := Notifying, server := Queued);
      PushHolds(cfg, s.requests, s.queue, r, q');
      MoveBatch(s.requests, s.batch, r, q');
      MoveLog(s.requests, s.sent, r, q');
      MoveLive(s.requests, s.accounts, r, q');
      MoveSlots(s.requests, r, q');
      CountsNonNegative(s.requests);
    } else {
      var q' := q.(client := Gone, server := Server.Rejected);
      MoveOutside(cfg, s, r, q');
      MoveGone(s.requests, s.accounts, r, q', now);
      MoveSlots(s.requests, r, q');
    }
  }

  lemma NotifyKeeps(cfg: Config, s: State, r: Rid)
    requires Inv(cfg, s) && r < |s.requests| && s.requests[r].client.Notifying?
    ensures Inv(cfg, Notified(SetRequest(s, r, Awaiting, s.requests[r].server)))
  {
    hide Sum, QueueHolds, BatchHolds, LogHolds, AccountsBalance;
    var q' := s.requests[r].(client := Awaiting);
    MoveOutside(cfg, s, r, q');
    MoveLive(s.requests, s.accounts, r, q');
    MoveSlots(s.requests, r, q');
  }

  lemma HangUpKeeps(cfg: Config, s: State, r: Rid, now: real)
    requires Inv(cfg, s) && r < |s.requests| && (s.requests[r].client.Awaiting? || s.requests[r].client.Serving?)
    ensures Inv(cfg, HangUpStep(cfg, s, r, now))
  {
    hide Sum, QueueHolds, BatchHolds, LogHolds, AccountsBalance;
    var q := s.requests[r];
    var q' := q.(client := Gone, server := if q.server.Delivered? then Discarded else q.server);
    MoveOutside(cfg, s, r, q');
    MoveGone(s.requests, s.accounts, r, q', now);
    MoveSlots(s.requests, r, q');
  }

  lemma ReceiveKeeps(cfg: Config, s: State, r: Rid, now: real)
    requires Inv(cfg, s) && r < |s.requests| && s.requests[r].client.Awaiting? && s.requests[r].server.Delivered?
    ensures Inv(cfg, ReceiveStep(s, r, now))
  {
    hide Sum, QueueHolds, BatchHolds, LogHolds, AccountsBalance;
    var q := s.requests[r];
    var q' := q.(client := if q.server.ok then Serving else Gone, server := Taken);
    MoveOutside(cfg, s, r, q');
    if q.server.ok {
      MoveLive(s.requests, s.accounts, r, q');
    } else {
      MoveGone(s.requests, s.accounts, r, q', now);
    }
    MoveSlots(s.requests, r, q');
  }

  /** A reply that is being passed on: counting its tokens, and reading its last byte. */
  lemma ForwardKeeps(cfg: Config, s: State, r: Rid, n: nat)
    requires Inv(cfg, s) && r < |s.requests| && s.requests[r].client.Serving?
    ensures Inv(cfg, RecordUse(s, r, n))
  {
    hide Sum, QueueHolds, BatchHolds, LogHolds, AccountsBalance;
    var q' := s.requests[r].(used := s.requests[r].used + n);
    MoveOutside(cfg, s, r, q');
    MoveLive(s.requests, s.accounts, r, q');
    MoveSlots(s.requests, r, q');
  }

  lemma BodyReadKeeps(cfg: Config, s: State, r: Rid, n: nat)
    requires Inv(cfg, s) && r < |s.requests| && s.requests[r].client.Serving?
    ensures Inv(cfg, FreeSlot(cfg, SetRequest(RecordUse(s, r, n), r, Settling, Taken), true))
  {
    hide Sum, QueueHolds, BatchHolds, LogHolds, AccountsBalance;
    var q' := s.requests[r].(used := s.requests[r].used + n, client := Settling, server := Taken);
    assert RecordUse(s, r, n).requests[r := q'] == s.requests[r := q'];
    MoveOutside(cfg, s, r, q');
    MoveLive(s.requests, s.accounts, r, q');
    MoveSlots(s.requests, r, q');
  }

  lemma SettleKeeps(cfg: Config, s: State, r: Rid, now: real)
    requires Inv(cfg, s) && r < |s.requests| && s.requests[r].client.Settling?
    ensures Inv(cfg, Finish(s, r, Taken, now))
  {
    hide Sum, QueueHolds, BatchHolds, LogHolds, AccountsBalance;
    var q' := s.requests[r].(client := Gone, server := Taken);
    MoveOutside(cfg, s, r, q');
    MoveGone(s.requests, s.accounts, r, q', now);
    MoveSlots(s.requests, r, q');
  }

  // ----- Dispatch tasks -----

  lemma AnswerKeeps(cfg: Config, s: State, r: Rid, ok: bool)
    requires Inv(cfg, s) && r < |s.requests| && s.requests[r].server.Sending?
    ensures Inv(cfg, AnswerStep(cfg, s, r, ok))
  {
    hide Sum, QueueHolds, BatchHolds, LogHolds, AccountsBalance;
    var q' := s.requests[r].(server := Replying(ok));
    MoveOutside(cfg, s, r, q');
    MoveLive(s.requests, s.accounts, r, q');
    MoveSlots(s.requests, r, q');
  }

  lemma DeliverKeeps(cfg: Config, s: State, r: Rid)
    requires Inv(cfg, s) && r < |s.requests| && s.requests[r].server.Replying?
    ensures Inv(cfg, DeliverStep(cfg, s, r))
  {
    hide Sum, QueueHolds, BatchHolds, LogHolds, AccountsBalance;
    var q := s.requests[r];
    var q' := q.(server := if q.client.Gone? then Discarded else Delivered(q.server.ok));
    MoveOutside(cfg, s, r, q');
    MoveLive(s.requests, s.accounts, r, q');
    MoveSlots(s.requests, r, q');
  }

  // ----- The scheduler -----

  lemma AcquireFirstKeeps(cfg: Config, s: State)
    requires Inv(cfg, s) && s.pc.Acquire? && SlotAvailable(cfg, s)
    ensures Inv(cfg, TakeSlot(cfg, s).(pc := Pop(true)))
  {
    hide Sum, QueueHolds, BatchHolds, LogHolds, AccountsBalance;
  }

  /** A pop takes the request out of its key's queue. */
  lemma PopHoldsItems(cfg: Config, requests: seq<Request>, queue: Queue<Rid>, queue': Queue<Rid>, key: Key, r: Rid, q: Request)
    requires ItemsHold(cfg, requests, queue)
    requires Waiting(queue, key) != [] && r == Waiting(queue, key)[0]
    requires forall k :: Waiting(queue', k) == if k == key then Waiting(queue, k)[1..] else Waiting(queue, k)
    requires r < |requests| && q.tenant == requests[r].tenant && !q.server.Queued?
    ensures ItemsHold(cfg, requests[r := q], queue')
  {
    var requests' := requests[r := q];
    forall i | 0 <= i < |requests'|
      ensures QueueKey(cfg, requests'[i]) == QueueKey(cfg, requests[i])
      ensures i != r ==> requests'[i] == requests[i]
    {
    }
    assert WaitsAt(queue, key, r);
    assert Waiting(queue, key) == [r] + Waiting(queue, key)[1..];
    forall k, i: Rid
      ensures WaitsAt(queue', k, i) <==> WaitsAt(queue, k, i) && i != r
    {
      if WaitsAt(queue, k, r) { assert k == key; }
    }
  }

  lemma PopHolds(cfg: Config, requests: seq<Request>, queue: Queue<Rid>, first: bool) returns (r: Rid)
    requires QueueHolds(cfg, requests, queue) && queue.active != []
    ensures queue.len > 0 && FairQueueSpec.Pop(queue).1 == Some(r) && FairQueueSpec.Pop(queue).0.len == queue.len - 1
    ensures r < |requests| && requests[r].server.Queued?
    ensures QueueHolds(cfg, requests[r := requests[r].(server := Batched(first))], FairQueueSpec.Pop(queue).0)
  {
    hide Need, Winner, Serve, Granted, Total, ServedIndex, FairQueueSpec.Pop, Credited;
    var key := queue.active[ServedIndex(queue)];
    PopWellFormed(queue);
    PopEffect(queue, key);
    r := Waiting(queue, key)[0];
    assert WaitsAt(queue, key, r);
    var queue' := FairQueueSpec.Pop(queue).0;
    forall k
      ensures Waiting(queue', k) == if k == key then Waiting(queue, k)[1..] else Waiting(queue, k)
    {
      PopEffect(queue, k);
    }
    PopHoldsItems(cfg, requests, queue, queue', key, r, requests[r].(server := Batched(first)));
  }

  lemma AppendBatch(requests: seq<Request>, batch: seq<(Rid, bool)>, r: Rid, q: Request, slot: bool)
    requires BatchHolds(requests, batch) && r < |requests| && !requests[r].server.Batched? && q.server == Batched(slot)
    ensures BatchHolds(requests[r := q], batch + [(r, slot)])
  {
    var requests', batch' := requests[r := q], batch + [(r, slot)];
    assert batch'[|batch|] == (r, slot);
    assert forall i :: 0 <= i < |batch| ==> batch'[i] == batch[i];
    forall i | 0 <= i < |requests'| && requests'[i].server.Batched?
      ensures InBatch(batch', i)
    {
      if i != r {
        assert InBatch(batch, i);
        var j :| 0 <= j < |batch| && batch[j].0 == i;
        assert batch'[j].0 == i;
      }
    }
  }

  lemma PopTakesKeeps(cfg: Config, s: State)
    requires Inv(cfg, s) && Bounded(s) && s.pc.Pop? && s.queue.active != []
    ensures Inv(cfg, PopStep(cfg, s))
  {
    hide Structured, Sum, QueueHolds, BatchHolds, LogHolds, AccountsBalance, FairQueueSpec.Pop;
    var r := PopHolds(cfg, s.requests, s.queue, s.pc.first);
    var q' := s.requests[r].(server := Batched(s.pc.first));
    AppendBatch(s.requests, s.batch, r, q', s.pc.first);
    MoveLog(s.requests, s.sent, r, q');
    MoveLive(s.requests, s.accounts, r, q');
    MoveSlots(s.requests, r, q');
  }

  lemma PopEmptyKeeps(cfg: Config, s: State)
    requires Inv(cfg, s) && s.pc.Pop? && s.queue.active == []
    ensures Inv(cfg, s.(pc := Park(s.pc.first)))
  {
    hide Sum, QueueHolds, BatchHolds, LogHolds, AccountsBalance;
  }

  lemma PopKeeps(cfg: Config, s: State)
    requires Inv(cfg, s) && Bounded(s) && s.pc.Pop?
    ensures Inv(cfg, PopStep(cfg, s))
  {
    hide Inv, Structured, Serve, Granted;
    if s.queue.active != [] {
      PopTakesKeeps(cfg, s);
    } else {
      PopEmptyKeeps(cfg, s);
    }
  }

  lemma ParkKeeps(cfg: Config, s: State)
    requires Inv(cfg, s) && s.pc.Park?
    ensures Inv(cfg, ParkStep(s))
  {
    hide Sum, QueueHolds, BatchHolds, LogHolds, AccountsBalance;
  }

  lemma WakeKeeps(cfg: Config, s: State)
    requires Inv(cfg, s) && s.pc.Parked? && s.waiter.Woken?
    ensures Inv(cfg, s.(waiter := NoWaiter, pc := Pop(s.pc.first)))
  {
    hide Sum, QueueHolds, BatchHolds, LogHolds, AccountsBalance;
  }

  lemma DeadlineKeeps(cfg: Config, s: State, expired: bool)
    requires Inv(cfg, s) && s.pc.Collect?
    ensures Inv(cfg, s.(pc := if expired then Dispatch else Pop(false)))
  {
    hide Sum, QueueHolds, BatchHolds, LogHolds, AccountsBalance;
  }

  lemma TimeoutKeeps(cfg: Config, s: State)
    requires Inv(cfg, s) && s.pc == Pc.Parked(false)
    ensures Inv(cfg, TimeoutStep(s))
  {
    hide Sum, QueueHolds, BatchHolds, LogHolds, AccountsBalance;
  }

  /** The head of the batch leaves it. */
  lemma DropHead(requests: seq<Request>, batch: seq<(Rid, bool)>, q: Request)
    requires BatchHolds(requests, batch) && batch != [] && !q.server.Batched?
    ensures batch[0].0 < |requests| && BatchHolds(requests[batch[0].0 := q], batch[1..])
  {
    var r, rest := batch[0].0, batch[1..];
    var requests' := requests[r := q];
    assert forall i :: 0 <= i < |rest| ==> rest[i] == batch[i + 1];
    forall i | 0 <= i < |requests'| && requests'[i].server.Batched?
      ensures InBatch(rest, i)
    {
      assert InBatch(batch, i);
      var j :| 0 <= j < |batch| && batch[j].0 == i;
      assert rest[j - 1].0 == i;
    }
  }

  /** A request that goes to the backend had not gone before. */
  lemma AppendLog(requests: seq<Request>, sent: seq<Rid>, r: Rid, q: Request)
    requires LogHolds(requests, sent) && r < |requests| && !WasSent(requests[r].server) && WasSent(q.server)
    ensures LogHolds(requests[r := q], sent + [r])
  {
    assert r !in sent;
    assert forall i :: 0 <= i < |sent| ==> (sent + [r])[i] == sent[i] && sent[i] in sent;
    assert forall i :: i in sent + [r] <==> i in sent || i == r;
  }

  lemma HeadMoves(cfg: Config, s: State, q: Request)
    requires Inv(cfg, s) && s.batch != [] && s.batch[0].0 < |s.requests|
    requires q.tenant == s.requests[s.batch[0].0].tenant && q.client == s.requests[s.batch[0].0].client
    requires !q.server.Batched? && !q.server.Queued? && Coherent(q)
    ensures var r := s.batch[0].0;
      && s.requests[r].server == Batched(s.batch[0].1)
      && AllCoherent(s.requests[r := q], s.accounts)
      && QueueHolds(cfg, s.requests[r := q], s.queue)
      && BatchHolds(s.requests[r := q], s.batch[1..])
      && AccountsBalance(s.requests[r := q], s.accounts)
      && Sum(s.requests[r := q], SlotOf) == Sum(s.requests, SlotOf) - (if s.batch[0].1 then 1 else 0) + SlotOf(q)
      && Sum(s.requests[r := q], NotifierOf) == Sum(s.requests, NotifierOf)
      && Sum(s.requests[r := q], QueuedOf) == Sum(s.requests, QueuedOf)
  {
    hide Sum, ItemsHold, AccountsBalance, Total;
    var r := s.batch[0].0;
    MoveItems(cfg, s.requests, s.queue, r, q);
    DropHead(s.requests, s.batch, q);
    MoveLive(s.requests, s.accounts, r, q);
    MoveSlots(s.requests, r, q);
  }

  /** Sending the head of the batch, with the slot that came with it or one just taken. */
  lemma SendHeadKeeps(cfg: Config, s: State, taken: State)
    requires Inv(cfg, s) && s.batch != [] && s.batch[0].0 < |s.requests|
    requires s.pc.Dispatch? || s.pc.AwaitSlot?
    requires if s.batch[0].1 then taken == s else SlotAvailable(cfg, s) && taken == TakeSlot(cfg, s)
    ensures Inv(cfg, SendHead(taken))
  {
    hide Sum, QueueHolds, BatchHolds, LogHolds, AccountsBalance, AllCoherent;
    var r := s.batch[0].0;
    var q := s.requests[r].(server := Sending);
    assert Coherent(q) && s.requests[r].server == Batched(s.batch[0].1) by { BatchedCoherent(cfg, s); }
    HeadMoves(cfg, s, q);
    AppendLog(s.requests, s.sent, r, q);
    assert forall i :: 0 <= i < |s.batch| - 1 ==> s.batch[1..][i] == s.batch[i + 1];
  }

  lemma BatchedCoherent(cfg: Config, s: State)
    requires Inv(cfg, s) && s.batch != [] && s.batch[0].0 < |s.requests|
    ensures s.requests[s.batch[0].0].server == Batched(s.batch[0].1)
    ensures Coherent(s.requests[s.batch[0].0])
    ensures Coherent(s.requests[s.batch[0].0].(server := Sending))
  {
    hide Sum;
  }

  lemma DispatchKeeps(cfg: Config, s: State)
    requires Inv(cfg, s) && Bounded(s) && s.pc.Dispatch?
    ensures Inv(cfg, DispatchStep(cfg, s))
  {
    hide Structured, Sum, QueueHolds, BatchHolds, LogHolds, AccountsBalance, AllCoherent, SendHead;
    if s.batch != [] {
      var r := s.batch[0].0;
      BatchedCoherent(cfg, s);
      if s.requests[r].client.Gone? {
        var q := s.requests[r].(server := Skipped);
        HeadMoves(cfg, s, q);
        MoveLog(s.requests, s.sent, r, q);
        assert forall i :: 0 <= i < |s.batch| - 1 ==> s.batch[1..][i] == s.batch[i + 1];
      } else if s.batch[0].1 {
        SendHeadKeeps(cfg, s, s);
      }
    }
  }

  // ----- All steps -----

  /** Steps of handlers and of dispatch tasks. */
  predicate OfRequest(a: Action) {
    a.Arrive? || a.Submit? || a.NotifyOne? || a.HangUp? || a.Answer? || a.Deliver? || a.Receive? || a.Forward? || a.StreamEnd?
    || a.BodyRead? || a.Settle?
  }

  lemma RequestStepKeeps(cfg: Config, s: State, a: Action)
    requires Inv(cfg, s) && Bounded(s) && Enabled(cfg, s, a) && OfRequest(a)
    ensures Inv(cfg, Next(cfg, s, a))
  {
    hide Inv, Bounded;
    match a
    case Arrive(k, now, reserve) => ArriveKeeps(cfg, s, k, now, reserve);
    case Submit(r, now) => SubmitKeeps(cfg, s, r, now);
    case NotifyOne(r) => NotifyKeeps(cfg, s, r);
    case HangUp(r, now) => HangUpKeeps(cfg, s, r, now);
    case Answer(r, ok) => AnswerKeeps(cfg, s, r, ok);
    case Deliver(r) => DeliverKeeps(cfg, s, r);
    case Receive(r, now) => ReceiveKeeps(cfg, s, r, now);
    case Forward(r, n) => ForwardKeeps(cfg, s, r, n);
    case StreamEnd(r, now) => HangUpKeeps(cfg, s, r, now);
    case BodyRead(r, n) => BodyReadKeeps(cfg, s, r, n);
    case Settle(r, now) => SettleKeeps(cfg, s, r, now);
  }

  lemma SchedulerStepKeeps(cfg: Config, s: State, a: Action)
    requires Inv(cfg, s) && Bounded(s) && Enabled(cfg, s, a) && !OfRequest(a)
    ensures Inv(cfg, Next(cfg, s, a))
  {
    hide Inv, Bounded;
    match a
    case AcquireFirst => AcquireFirstKeeps(cfg, s);
    case PopNext => PopKeeps(cfg, s);
    case ParkNow => ParkKeeps(cfg, s);
    case Wake => WakeKeeps(cfg, s);
    case Deadline(expired) => DeadlineKeeps(cfg, s, expired);
    case Timeout => TimeoutKeeps(cfg, s);
    case DispatchNext => DispatchKeeps(cfg, s);
    case AcquireNext => AwaitedHead(cfg, s); SendHeadKeeps(cfg, s, TakeSlot(cfg, s));
  }

  /** The invariant is kept by every step that can happen. */
  lemma StepKeeps(cfg: Config, s: State, a: Action)
    requires Inv(cfg, s) && Enabled(cfg, s, a)
    ensures Bounded(s) && Inv(cfg, Next(cfg, s, a))
  {
    InvBounded(cfg, s);
    hide Inv, Bounded, Next, Enabled;
    if OfRequest(a) {
      RequestStepKeeps(cfg, s, a);
    } else {
      SchedulerStepKeeps(cfg, s, a);
    }
  }

  lemma AwaitedHead(cfg: Config, s: State)
    requires Inv(cfg, s) && s.pc.AwaitSlot?
    ensures s.batch != [] && s.batch[0].0 < |s.requests| && !s.batch[0].1
  {
  }
}
