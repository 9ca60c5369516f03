/**
 The gateway as a transition system. Handlers, the scheduler task and the
 dispatch tasks take turns in any order, one atomic step at a time: a step is
 what happens under a lock, or between two points at which a task can wait.

 Requests are numbered in the order of their admission. `Notify` is a stored
 permit and one waiter; the semaphore is a count of permits. The backend's
 answer, the clock and the moment a client hangs up are arbitrary.
 */
module Gateway {
  import opened Tiers
  import opened Tenants
  import opened FairQueueSpec

  type Rid = nat

  /** Where the handler of a request is. It holds a lease until it is gone. */
  datatype Client =
    | Entered      // admitted, not yet in the queue
    | Notifying    // in the queue, about to call notify_one
    | Awaiting     // waiting for the reply
    | Serving      // passing a reply on, holding its backend slot
    | Settling     // the reply is read and the slot is free, the lease is about to be dropped
    | Gone         // finished, or dropped because the client hung up

  /** Where the request itself is. */
  datatype Server =
    | Unqueued
    | Rejected               // the queue was full
    | Queued
    | Batched(slot: bool)    // popped by the scheduler, with or without a backend slot
    | Sending                // a dispatch task is waiting for the backend
    | Replying(ok: bool)     // the backend has answered
    | Delivered(ok: bool)    // the reply is in the channel
    | Taken                  // the handler has received the reply
    | Skipped                // the client had hung up: never sent
    | Discarded              // the client had hung up: the reply was dropped

  datatype Request = Request(tenant: Key, reserved: nat, used: nat, client: Client, server: Server)

  datatype Waiter = NoWaiter | Parked | Woken

  /** Where the scheduler task is. `first` tells the first pop of a round from those in the window. */
  datatype Pc =
    | Acquire                // taking the slot for the first request
    | Pop(first: bool)
    | Park(first: bool)      // found nothing, about to wait for a notification
    | Parked(first: bool)
    | Collect                // looking at the window's deadline
    | Dispatch               // sending the batch
    | AwaitSlot              // waiting for a slot for the batch's next request

  datatype Config = Config(queueDepth: nat, windowed: bool, maxInflight: nat, fair: bool, tiers: map<Key, Tier>)

  datatype State = State(
    queue: Queue<Rid>,
    stored: bool,
    waiter: Waiter,
    pc: Pc,
    batch: seq<(Rid, bool)>,
    permits: nat,
    requests: seq<Request>,
    accounts: map<Key, AccountState>,
    sent: seq<Rid>)          // history: what went to the backend

  datatype Action =
    | Arrive(tenant: Key, now: real, reserve: nat)
    | Submit(r: Rid, now: real)
    | NotifyOne(r: Rid)
    | HangUp(r: Rid, now: real)
    | AcquireFirst
    | PopNext
    | ParkNow
    | Wake
    | Deadline(expired: bool)
    | Timeout
    | DispatchNext
    | AcquireNext
    | Answer(r: Rid, ok: bool)
    | Deliver(r: Rid)
    | Receive(r: Rid, now: real)
    | Forward(r: Rid, n: nat)
    | StreamEnd(r: Rid, now: real)
    | BodyRead(r: Rid, n: nat)
    | Settle(r: Rid, now: real)

  // ----- Configuration -----

  /** The queue that a request goes to: its tenant's, or the only one when queueing is not fair. */
  function QueueKey(cfg: Config, q: Request): Key {
    if cfg.fair then q.tenant else ""
  }

  /** The weight with which a key is pushed: its tier's in fair mode. */
  function KeyWeight(cfg: Config, k: Key): real {
    if cfg.fair && k in cfg.tiers then cfg.tiers[k].Weight() else 1.0
  }

  predicate Initial(cfg: Config, s: State) {
    && s.queue == Empty(cfg.queueDepth) && !s.stored && s.waiter == NoWaiter && s.pc == Acquire
    && s.batch == [] && s.permits == cfg.maxInflight && s.requests == [] && s.sent == []
    && s.accounts.Keys == cfg.tiers.Keys
    && forall k :: k in s.accounts ==> s.accounts[k].active == 0
  }

  // ----- Pieces of steps -----

  function SetRequest(s: State, r: Rid, client: Client, server: Server): State
    requires r < |s.requests|
  {
    s.(requests := s.requests[r := s.requests[r].(client := client, server := server)])
  }

  /** The handler ends: its lease is dropped, wherever it was. */
  function Finish(s: State, r: Rid, server: Server, now: real): State
    requires r < |s.requests| && s.requests[r].tenant in s.accounts
  {
    var q := s.requests[r];
    SetRequest(s, r, Gone, server).(
      accounts := s.accounts[q.tenant := Settlement(s.accounts[q.tenant], q.reserved, q.used, now)])
  }

  /** A backend slot is dropped. With no limit there is no permit inside. */
  function FreeSlot(cfg: Config, s: State, held: bool): State {
    if held && cfg.maxInflight > 0 then s.(permits := s.permits + 1) else s
  }

  predicate SlotAvailable(cfg: Config, s: State) {
    cfg.maxInflight == 0 || s.permits > 0
  }

  function TakeSlot(cfg: Config, s: State): State
    requires SlotAvailable(cfg, s)
  {
    if cfg.maxInflight > 0 then s.(permits := s.permits - 1) else s
  }

  function Notified(s: State): State {
    if s.waiter.Parked? then s.(waiter := Woken) else s.(stored := true)
  }

  // ----- Steps of handlers -----

  function ArriveStep(s: State, k: Key, now: real, reserve: nat): State
    requires k in s.accounts
  {
    var (account, error) := Admission(s.accounts[k], now, reserve);
    s.(accounts := s.accounts[k := account],
       requests := if error.None? then s.requests + [Request(k, reserve, 0, Entered, Unqueued)] else s.requests)
  }

  function SubmitStep(cfg: Config, s: State, r: Rid, now: real): State
    requires r < |s.requests| && s.requests[r].tenant in s.accounts
  {
    var q := s.requests[r];
    var (queue, result) := Push(s.queue, QueueKey(cfg, q), KeyWeight(cfg, QueueKey(cfg, q)), r);
    match result
    case Accepted => SetRequest(s, r, Notifying, Queued).(queue := queue)
    case Rejected(_) => Finish(s, r, Server.Rejected, now)
  }

  /** The handler, or the body that it returned, is dropped; so is a reply that is already in the channel. */
  function HangUpStep(cfg: Config, s: State, r: Rid, now: real): State
    requires r < |s.requests| && s.requests[r].tenant in s.accounts
  {
    var q := s.requests[r];
    var holding := q.client.Serving? || q.server == Delivered(true);
    FreeSlot(cfg, Finish(s, r, if q.server.Delivered? then Discarded else q.server, now), holding)
  }

  function ReceiveStep(s: State, r: Rid, now: real): State
    requires r < |s.requests| && s.requests[r].tenant in s.accounts
    requires s.requests[r].server.Delivered?
  {
    if s.requests[r].server.ok then SetRequest(s, r, Serving, Taken) else Finish(s, r, Taken, now)
  }

  function RecordUse(s: State, r: Rid, n: nat): State
    requires r < |s.requests|
  {
    s.(requests := s.requests[r := s.requests[r].(used := s.requests[r].used + n)])
  }

  // ----- Steps of the scheduler -----

  function PopStep(cfg: Config, s: State): State
    requires s.pc.Pop? && Structured(s.queue) && (s.queue.active != [] ==> s.queue.len > 0)
  {
    var (queue, item) := FairQueueSpec.Pop(s.queue);
    match item
    case None => s.(pc := Park(s.pc.first))
    case Some(r) =>
      var s' := s.(queue := queue, batch := s.batch + [(r, s.pc.first)], pc := if cfg.windowed then Collect else Dispatch);
      if r < |s.requests| then SetRequest(s', r, s.requests[r].client, Batched(s.pc.first)) else s'
  }

  function ParkStep(s: State): State
    requires s.pc.Park?
  {
    if s.stored then s.(stored := false, pc := Pop(s.pc.first))
    else s.(waiter := Waiter.Parked, pc := Pc.Parked(s.pc.first))
  }

  /** The wait is cancelled. A notification that had already arrived is passed back. */
  function TimeoutStep(s: State): State {
    s.(stored := s.stored || s.waiter.Woken?, waiter := NoWaiter, pc := Dispatch)
  }

  /** The batch's next request goes to the backend, in a task of its own that owns the slot. */
  function SendHead(s: State): State
    requires s.batch != [] && s.batch[0].0 < |s.requests|
  {
    var r := s.batch[0].0;
    SetRequest(s, r, s.requests[r].client, Sending).(batch := s.batch[1..], sent := s.sent + [r], pc := Dispatch)
  }

  function DispatchStep(cfg: Config, s: State): State
    requires s.batch != [] ==> s.batch[0].0 < |s.requests|
  {
    if s.batch == [] then s.(pc := Acquire)
    else
      var (r, slot) := s.batch[0];
      if s.requests[r].client.Gone? then
        FreeSlot(cfg, SetRequest(s, r, Gone, Skipped).(batch := s.batch[1..]), slot)
      else if slot then SendHead(s)
      else s.(pc := AwaitSlot)
  }

  // ----- Steps of dispatch tasks -----

  /** On an error the slot is dropped with the mapping closure, before the reply is sent. */
  function AnswerStep(cfg: Config, s: State, r: Rid, ok: bool): State
    requires r < |s.requests|
  {
    FreeSlot(cfg, SetRequest(s, r, s.requests[r].client, Replying(ok)), !ok)
  }

  function DeliverStep(cfg: Config, s: State, r: Rid): State
    requires r < |s.requests| && s.requests[r].server.Replying?
  {
    var q := s.requests[r];
    if q.client.Gone? then FreeSlot(cfg, SetRequest(s, r, Gone, Discarded), q.server.ok)
    else SetRequest(s, r, q.client, Delivered(q.server.ok))
  }

  // ----- All steps -----

  predicate Enabled(cfg: Config, s: State, a: Action) {
    match a
    case Arrive(k, _, _) => k in s.accounts
    case Submit(r, _) => r < |s.requests| && s.requests[r].client.Entered?
    case NotifyOne(r) => r < |s.requests| && s.requests[r].client.Notifying?
    case HangUp(r, _) => r < |s.requests| && (s.requests[r].client.Awaiting? || s.requests[r].client.Serving?)
    case AcquireFirst => s.pc.Acquire? && SlotAvailable(cfg, s)
    case PopNext => s.pc.Pop?
    case ParkNow => s.pc.Park?
    case Wake => s.pc.Parked? && s.waiter.Woken?
    case Deadline(_) => s.pc.Collect?
    case Timeout => s.pc == Pc.Parked(false)
    case DispatchNext => s.pc.Dispatch?
    case AcquireNext => s.pc.AwaitSlot? && SlotAvailable(cfg, s)
    case Answer(r, _) => r < |s.requests| && s.requests[r].server.Sending?
    case Deliver(r) => r < |s.requests| && s.requests[r].server.Replying?
    case Receive(r, _) => r < |s.requests| && s.requests[r].client.Awaiting? && s.requests[r].server.Delivered?
    case Forward(r, _) => r < |s.requests| && s.requests[r].client.Serving?
    case StreamEnd(r, _) => r < |s.requests| && s.requests[r].client.Serving?
    case BodyRead(r, _) => r < |s.requests| && s.requests[r].client.Serving?
    case Settle(r, _) => r < |s.requests| && s.requests[r].client.Settling?
  }

  /** Indices and keys that the steps rely on; part of the invariant. */
  predicate Bounded(s: State) {
    && Structured(s.queue) && (s.queue.active != [] ==> s.queue.len > 0)
    && (forall i :: 0 <= i < |s.requests| ==> s.requests[i].tenant in s.accounts)
    && (forall i :: 0 <= i < |s.batch| ==> s.batch[i].0 < |s.requests|)
    && (s.pc.AwaitSlot? ==> s.batch != [])
  }

  function Next(cfg: Config, s: State, a: Action): State
    requires Bounded(s) && Enabled(cfg, s, a)
  {
    match a
    case Arrive(k, now, reserve) => ArriveStep(s, k, now, reserve)
    case Submit(r, now) => SubmitStep(cfg, s, r, now)
    case NotifyOne(r) => Notified(SetRequest(s, r, Awaiting, s.requests[r].server))
    case HangUp(r, now) => HangUpStep(cfg, s, r, now)
    case AcquireFirst => TakeSlot(cfg, s).(pc := Pop(true))
    case PopNext => PopStep(cfg, s)
    case ParkNow => ParkStep(s)
    case Wake => s.(waiter := NoWaiter, pc := Pop(s.pc.first))
    case Deadline(expired) => s.(pc := if expired then Dispatch else Pop(false))
    case Timeout => TimeoutStep(s)
    case DispatchNext => DispatchStep(cfg, s)
    case AcquireNext => SendHead(TakeSlot(cfg, s))
    case Answer(r, ok) => AnswerStep(cfg, s, r, ok)
    case Deliver(r) => DeliverStep(cfg, s, r)
    case Receive(r, now) => ReceiveStep(s, r, now)
    case Forward(r, n) => RecordUse(s, r, n)
    case StreamEnd(r, now) => HangUpStep(cfg, s, r, now)
    case BodyRead(r, n) => FreeSlot(cfg, SetRequest(RecordUse(s, r, n), r, Settling, Taken), true)
    case Settle(r, now) => Finish(s, r, Taken, now)
  }
}
