/**
 Whole histories of one tenant's account. Clock readings are taken before the
 lock is, so a later step can carry an earlier reading; only the theorems that
 need it assume that readings never go back.
 */
module TenantHistory {
  import opened Prelude
  import opened Tenants

  /** A lease and whether it is still held. */
  datatype LeaseRecord = LeaseRecord(reserved: nat, used: nat, live: bool)

  datatype World = World(account: AccountState, leases: seq<LeaseRecord>)

  datatype Event =
    | Admit(now: real, reserve: nat)
    | Record(lease: nat, n: nat)
    | Drop(lease: nat, now: real)
    | Peek(now: real)

  datatype Reply = Answered(error: Option<AdmitError>) | Available(level: real) | Done

  function Fresh(cfg: TenantConfig, now: real): World {
    World(FreshAccount(cfg, now), [])
  }

  /** Ownership: only a live lease can record tokens or be dropped. */
  predicate Possible(w: World, e: Event) {
    match e
    case Record(i, _) => i < |w.leases| && w.leases[i].live
    case Drop(i, _) => i < |w.leases| && w.leases[i].live
    case _ => true
  }

  function Step(w: World, e: Event): (World, Reply)
    requires Possible(w, e)
  {
    match e
    case Admit(now, reserve) =>
      var (a, error) := Admission(w.account, now, reserve);
      (World(a, if error.None? then w.leases + [LeaseRecord(reserve, 0, true)] else w.leases), Answered(error))
    case Record(i, n) =>
      (w.(leases := w.leases[i := w.leases[i].(used := w.leases[i].used + n)]), Done)
    case Drop(i, now) =>
      var l := w.leases[i];
      (World(Settlement(w.account, l.reserved, l.used, now), w.leases[i := l.(live := false)]), Done)
    case Peek(now) =>
      var tokens := w.account.tokens.Refilled(now);
      (w.(account := w.account.(tokens := tokens)), Available(tokens.level))
  }

  /** Whether the events can happen in this order, and the world and replies they lead to. */
  predicate Legal(w: World, es: seq<Event>)
    decreases |es|, 0
  {
    es == [] || (Legal(w, es[..|es| - 1]) && Possible(After(w, es[..|es| - 1]), es[|es| - 1]))
  }

  function After(w: World, es: seq<Event>): World
    requires Legal(w, es)
    decreases |es|, 1
  {
    if es == [] then w else Step(After(w, es[..|es| - 1]), es[|es| - 1]).0
  }

  function Replies(w: World, es: seq<Event>): seq<Reply>
    requires Legal(w, es)
  {
    if es == [] then []
    else Replies(w, es[..|es| - 1]) + [Step(After(w, es[..|es| - 1]), es[|es| - 1]).1]
  }

  /** One more event. */
  lemma OneMore(w: World, es: seq<Event>, e: Event)
    requires Legal(w, es) && Possible(After(w, es), e)
    ensures Legal(w, es + [e]) && After(w, es + [e]) == Step(After(w, es), e).0
    ensures Replies(w, es + [e]) == Replies(w, es) + [Step(After(w, es), e).1]
    ensures (es + [e])[..|es + [e]| - 1] == es
  {
    assert (es + [e])[..|es + [e]| - 1] == es;
  }

  // ----- What every event keeps -----

  function LiveCount(l: LeaseRecord): int { if l.live then 1 else 0 }
  function ReservedOf(l: LeaseRecord): int { if l.live then l.reserved else 0 }
  function UsedOf(l: LeaseRecord): int { if l.live then 0 else l.used }
  function ExcessOf(l: LeaseRecord): int { if !l.live && l.used > l.reserved then l.used - l.reserved else 0 }

  /** Tokens reserved by live leases. */
  function Reserved(w: World): int { Sum(w.leases, ReservedOf) }
  /** Tokens used by settled leases. */
  function Used(w: World): int { Sum(w.leases, UsedOf) }
  /** Tokens that settled leases used beyond their reservations. */
  function Excess(w: World): int { Sum(w.leases, ExcessOf) }

  ghost predicate Inv(w: World) {
    var a := w.account;
    && a.active == Sum(w.leases, LiveCount) && a.active <= a.maxConcurrent
    && a.requests.perSec > 0.0 && a.requests.capacity >= 1.0 && 0.0 <= a.requests.level <= a.requests.capacity
    && a.tokens.perSec >= 0.0 && a.tokens.capacity >= 0.0
    && -(Excess(w) as real) <= a.tokens.level <= a.tokens.capacity
  }

  lemma RefillBounds(b: BucketState, now: real)
    requires b.perSec >= 0.0 && b.level <= b.capacity
    ensures b.level <= b.Refilled(now).level <= b.capacity
  {
    assert b.Elapsed(now) * b.perSec >= 0.0;
  }

  lemma StepSums(w: World, e: Event)
    requires Possible(w, e)
    ensures var w', l := Step(w, e).0, if e.Record? || e.Drop? then w.leases[e.lease] else LeaseRecord(0, 0, false);
      var admitted := e.Admit? && Step(w, e).1 == Answered(None);
      && Sum(w'.leases, LiveCount) == Sum(w.leases, LiveCount) + (if admitted then 1 else if e.Drop? then -1 else 0)
      && Reserved(w') == Reserved(w) + (if admitted then e.reserve else 0) - (if e.Drop? then l.reserved else 0)
      && Used(w') == Used(w) + (if e.Drop? then l.used else 0)
      && Excess(w') == Excess(w) + (if e.Drop? && l.used > l.reserved then l.used - l.reserved else 0)
  {
    match e
    case Admit(now, reserve) =>
      var l := LeaseRecord(reserve, 0, true);
      SumAppend(w.leases, l, LiveCount);
      SumAppend(w.leases, l, ReservedOf);
      SumAppend(w.leases, l, UsedOf);
      SumAppend(w.leases, l, ExcessOf);
    case Peek(_) =>
    case _ =>
      var l := Step(w, e).0.leases[e.lease];
      SumUpdate(w.leases, e.lease, l, LiveCount);
      SumUpdate(w.leases, e.lease, l, ReservedOf);
      SumUpdate(w.leases, e.lease, l, UsedOf);
      SumUpdate(w.leases, e.lease, l, ExcessOf);
  }

  /** A live lease is counted, so the saturating subtraction in Drop never saturates. */
  lemma DropNeverSaturates(w: World, e: Event)
    requires Inv(w) && Possible(w, e) && e.Drop?
    ensures w.account.active >= 1 && Step(w, e).0.account.active == w.account.active - 1
  {
    SumNonNegative(w.leases, LiveCount);
    assert LiveCount(w.leases[e.lease]) == 1;
  }

  lemma StepInv(w: World, e: Event)
    requires Inv(w) && Possible(w, e)
    ensures Inv(Step(w, e).0)
  {
    StepSums(w, e);
    if e.Drop? { DropNeverSaturates(w, e); }
    if !e.Record? {
      RefillBounds(w.account.requests, e.now);
      RefillBounds(w.account.tokens, e.now);
    }
    SumNonNegative(w.leases, ExcessOf);
  }

  lemma {:induction false} AfterInv(w: World, es: seq<Event>)
    requires Inv(w) && Legal(w, es)
    ensures Inv(After(w, es))
  {
    if es != [] {
      AfterInv(w, es[..|es| - 1]);
      StepInv(After(w, es[..|es| - 1]), es[|es| - 1]);
    }
  }

  lemma FreshInv(cfg: TenantConfig, now: real)
    requires cfg.requestsPerSecond > 0.0
    ensures Inv(Fresh(cfg, now))
  {
  }
}
