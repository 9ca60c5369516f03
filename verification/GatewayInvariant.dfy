/**
 What holds in every reachable state of the gateway, under every interleaving:
 where each request is, who holds the permits, who is about to wake the
 scheduler, and how many requests each tenant has in the system.
 */
module GatewayInvariant {
  import opened Prelude
  import opened Tenants
  import opened FairQueueSpec
  import opened Gateway

  // ----- Requests -----

  /** Which places of the handler and of the request go together. */
  predicate Coherent(q: Request) {
    match q.server
    case Unqueued => q.client.Entered?
    case Rejected => q.client.Gone?
    case Queued => q.client.Notifying? || q.client.Awaiting? || q.client.Gone?
    case Batched(_) => q.client.Notifying? || q.client.Awaiting? || q.client.Gone?
    case Sending => q.client.Notifying? || q.client.Awaiting? || q.client.Gone?
    case Replying(_) => q.client.Notifying? || q.client.Awaiting? || q.client.Gone?
    case Delivered(_) => q.client.Notifying? || q.client.Awaiting?
    case Taken => q.client.Serving? || q.client.Settling? || q.client.Gone?
    case Skipped => q.client.Gone?
    case Discarded => q.client.Gone?
  }

  ghost predicate AllCoherent(requests: seq<Request>, accounts: map<Key, AccountState>) {
    forall i :: 0 <= i < |requests| ==> Coherent(requests[i]) && requests[i].tenant in accounts
  }

  // ----- Queue, batch and log say the same as the requests -----

  ghost predicate DistinctRids(s: seq<Rid>) {
    forall i, j :: 0 <= i < j < |s| ==> s[i] != s[j]
  }

  /** Request `r` waits in the queue of key `k`. */
  predicate WaitsAt(queue: Queue<Rid>, k: Key, r: Rid) {
    r in Waiting(queue, k)
  }

  /** Every queued request is in its key's queue, once, and nothing else is in any queue. */
  ghost predicate ItemsHold(cfg: Config, requests: seq<Request>, queue: Queue<Rid>) {
    && (forall k :: DistinctRids(Waiting(queue, k)))
    && (forall k, r: Rid :: WaitsAt(queue, k, r) ==>
          r < |requests| && requests[r].server.Queued? && QueueKey(cfg, requests[r]) == k)
    && (forall r: Rid :: r < |requests| && requests[r].server.Queued? ==> WaitsAt(queue, QueueKey(cfg, requests[r]), r))
  }

  ghost predicate QueueHolds(cfg: Config, requests: seq<Request>, queue: Queue<Rid>) {
    WellFormed(queue) && queue.capacity == cfg.queueDepth && ItemsHold(cfg, requests, queue)
  }

  ghost predicate InBatch(batch: seq<(Rid, bool)>, r: Rid) {
    exists i :: 0 <= i < |batch| && batch[i].0 == r
  }

  /** Every batched request is in the batch, once, and nothing else is. */
  ghost predicate BatchHolds(requests: seq<Request>, batch: seq<(Rid, bool)>) {
    && (forall i, j :: 0 <= i < j < |batch| ==> batch[i].0 != batch[j].0)
    && (forall i :: 0 <= i < |batch| ==> batch[i].0 < |requests| && requests[batch[i].0].server == Batched(batch[i].1))
    && (forall r :: 0 <= r < |requests| && requests[r].server.Batched? ==> InBatch(batch, r))
  }

  predicate WasSent(v: Server) {
    v.Sending? || v.Replying? || v.Delivered? || v.Taken? || v.Discarded?
  }

  /** A request is in the log of what went to the backend exactly when it went, and once. */
  ghost predicate LogHolds(requests: seq<Request>, sent: seq<Rid>) {
    && DistinctRids(sent)
    && (forall r :: r in sent ==> r < |requests| && WasSent(requests[r].server))
    && (forall r :: 0 <= r < |requests| && WasSent(requests[r].server) ==> r in sent)
  }

  // ----- Permits -----

  /** The backend slots that a request holds: in the batch, in its task, in its reply or in its body. */
  function SlotOf(q: Request): int {
    if q.client.Serving? then 1
    else
      match q.server
      case Batched(slot) => if slot then 1 else 0
      case Sending => 1
      case Replying(ok) => if ok then 1 else 0
      case Delivered(ok) => if ok then 1 else 0
      case _ => 0
  }

  /** The slot that the scheduler holds for a request that it has not popped yet. */
  function SchedulerSlot(pc: Pc): int {
    if pc == Pop(true) || pc == Park(true) || pc == Pc.Parked(true) then 1 else 0
  }

  ghost predicate PermitsBalance(cfg: Config, s: State) {
    if cfg.maxInflight == 0 then s.permits == 0
    else s.permits + Sum(s.requests, SlotOf) + SchedulerSlot(s.pc) == cfg.maxInflight
  }

  function QueuedOf(q: Request): int { if q.server.Queued? then 1 else 0 }

  // ----- The scheduler task -----

  ghost predicate SchedulerShape(cfg: Config, s: State) {
    && (s.waiter.NoWaiter? <==> !s.pc.Parked?)
    && (s.waiter.Parked? ==> !s.stored)
    && (s.pc.Acquire? || SchedulerSlot(s.pc) == 1 ==> s.batch == [])
    && (s.pc.AwaitSlot? ==> s.batch != [] && forall i :: 0 <= i < |s.batch| ==> !s.batch[i].1)
    && (forall i :: 1 <= i < |s.batch| ==> !s.batch[i].1)
    && (!cfg.windowed ==>
          && |s.batch| <= 1 && (forall i :: 0 <= i < |s.batch| ==> s.batch[i].1)
          && (s.pc.Pop? ==> s.pc.first) && (s.pc.Park? ==> s.pc.first) && (s.pc.Parked? ==> s.pc.first)
          && !s.pc.Collect? && !s.pc.AwaitSlot?)
  }

  /** A handler that has pushed and is about to notify. */
  function NotifierOf(q: Request): int { if q.client.Notifying? then 1 else 0 }

  /**
   No lost wakeup. A scheduler that found the queue empty and is about to park,
   or has parked, will be woken if something is queued: a notification is
   stored, has arrived, or somebody is between the push and the notification.
   */
  ghost predicate WakeupPending(s: State) {
    (s.pc.Park? || s.pc.Parked?) && s.queue.active != [] ==>
      s.stored || s.waiter.Woken? || Sum(s.requests, NotifierOf) > 0
  }

  // ----- Tenants -----

  /** 1 for a request of tenant `k` whose handler is alive. */
  function LeaseOf(k: Key): Request -> int {
    (q: Request) => if q.tenant == k && !q.client.Gone? then 1 else 0
  }

  ghost predicate AccountsBalance(requests: seq<Request>, accounts: map<Key, AccountState>) {
    forall k :: k in accounts ==>
      accounts[k].active == Sum(requests, LeaseOf(k)) && accounts[k].active <= accounts[k].maxConcurrent
  }

  // ----- The invariant -----

  ghost predicate Inv(cfg: Config, s: State) {
    && AllCoherent(s.requests, s.accounts)
    && QueueHolds(cfg, s.requests, s.queue)
    && s.queue.len == Sum(s.requests, QueuedOf)
    && BatchHolds(s.requests, s.batch)
    && LogHolds(s.requests, s.sent)
    && PermitsBalance(cfg, s)
    && SchedulerShape(cfg, s)
    && WakeupPending(s)
    && AccountsBalance(s.requests, s.accounts)
  }

  lemma InvBounded(cfg: Config, s: State)
    requires Inv(cfg, s)
    ensures Bounded(s)
  {
    LenPositive(s.queue);
  }

  lemma InitialInv(cfg: Config, s: State)
    requires Initial(cfg, s)
    ensures Inv(cfg, s)
  {
  }

  // ----- One request moves -----

  lemma MoveItems(cfg: Config, requests: seq<Request>, queue: Queue<Rid>, r: Rid, q: Request)
    requires r < |requests| && q.tenant == requests[r].tenant && ItemsHold(cfg, requests, queue)
    requires q.server.Queued? == requests[r].server.Queued?
    ensures ItemsHold(cfg, requests[r := q], queue)
  {
    var requests' := requests[r := q];
    forall i | 0 <= i < |requests'|
      ensures QueueKey(cfg, requests'[i]) == QueueKey(cfg, requests[i])
      ensures requests'[i].server.Queued? == requests[i].server.Queued?
    {
    }
  }

  lemma MoveBatch(requests: seq<Request>, batch: seq<(Rid, bool)>, r: Rid, q: Request)
    requires r < |requests| && BatchHolds(requests, batch)
    requires q.server == requests[r].server || (!q.server.Batched? && !requests[r].server.Batched?)
    ensures BatchHolds(requests[r := q], batch)
  {
  }

  lemma MoveLog(requests: seq<Request>, sent: seq<Rid>, r: Rid, q: Request)
    requires r < |requests| && LogHolds(requests, sent) && WasSent(q.server) == WasSent(requests[r].server)
    ensures LogHolds(requests[r := q], sent)
  {
  }

  /** The move of a request that is, before and after, neither queued nor in the batch. */
  lemma MoveOutside(cfg: Config, s: State, r: Rid, q: Request)
    requires r < |s.requests| && q.tenant == s.requests[r].tenant
    requires QueueHolds(cfg, s.requests, s.queue) && BatchHolds(s.requests, s.batch) && LogHolds(s.requests, s.sent)
    requires q.server == s.requests[r].server
      || (!q.server.Queued? && !s.requests[r].server.Queued? && !q.server.Batched? && !s.requests[r].server.Batched?
          && WasSent(q.server) == WasSent(s.requests[r].server))
    ensures QueueHolds(cfg, s.requests[r := q], s.queue)
    ensures BatchHolds(s.requests[r := q], s.batch)
    ensures LogHolds(s.requests[r := q], s.sent)
  {
    hide ItemsHold, BatchHolds, LogHolds, Total;
    MoveItems(cfg, s.requests, s.queue, r, q);
    MoveBatch(s.requests, s.batch, r, q);
    MoveLog(s.requests, s.sent, r, q);
  }

  /** A move after which the handler is still alive. */
  lemma MoveLive(requests: seq<Request>, accounts: map<Key, AccountState>, r: Rid, q: Request)
    requires r < |requests| && q.tenant == requests[r].tenant && q.client.Gone? == requests[r].client.Gone?
    requires AccountsBalance(requests, accounts)
    ensures AccountsBalance(requests[r := q], accounts)
  {
    forall k | k in accounts
      ensures Sum(requests[r := q], LeaseOf(k)) == Sum(requests, LeaseOf(k))
    {
      SumUpdate(requests, r, q, LeaseOf(k));
    }
  }

  /** A live handler is counted by its tenant's account. */
  lemma LiveCounted(requests: seq<Request>, r: Rid)
    requires r < |requests| && !requests[r].client.Gone?
    ensures Sum(requests, LeaseOf(requests[r].tenant)) >= 1
  {
    SumNonNegative(requests, LeaseOf(requests[r].tenant));
    assert LeaseOf(requests[r].tenant)(requests[r]) == 1;
  }

  /** The handler ends and its lease is dropped: the saturating subtraction does not saturate. */
  lemma MoveGone(requests: seq<Request>, accounts: map<Key, AccountState>, r: Rid, q: Request, now: real)
    requires r < |requests| && q.tenant == requests[r].tenant && q.client.Gone? && !requests[r].client.Gone?
    requires requests[r].tenant in accounts && AccountsBalance(requests, accounts)
    ensures var t := requests[r].tenant;
      AccountsBalance(requests[r := q], accounts[t := Settlement(accounts[t], requests[r].reserved, requests[r].used, now)])
  {
    hide Sum;
    var t := requests[r].tenant;
    LiveCounted(requests, r);
    forall k | k in accounts
      ensures Sum(requests[r := q], LeaseOf(k)) == Sum(requests, LeaseOf(k)) - if k == t then 1 else 0
    {
      SumUpdate(requests, r, q, LeaseOf(k));
    }
  }

  lemma MoveSlots(requests: seq<Request>, r: Rid, q: Request)
    requires r < |requests|
    ensures Sum(requests[r := q], SlotOf) == Sum(requests, SlotOf) - SlotOf(requests[r]) + SlotOf(q)
    ensures Sum(requests[r := q], NotifierOf) == Sum(requests, NotifierOf) - NotifierOf(requests[r]) + NotifierOf(q)
    ensures Sum(requests[r := q], QueuedOf) == Sum(requests, QueuedOf) - QueuedOf(requests[r]) + QueuedOf(q)
  {
    SumUpdate(requests, r, q, QueuedOf);
    SumUpdate(requests, r, q, SlotOf);
    SumUpdate(requests, r, q, NotifierOf);
  }

  lemma CountsNonNegative(requests: seq<Request>)
    ensures Sum(requests, SlotOf) >= 0 && Sum(requests, NotifierOf) >= 0
  {
    SumNonNegative(requests, SlotOf);
    SumNonNegative(requests, NotifierOf);
  }
}
