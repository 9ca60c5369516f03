/** The request rate over every interval of every history. */
module RateLimit {
  import opened Prelude
  import opened Buckets
  import opened Tenants
  import opened TenantHistory
  import opened TokenBudget

  // ----- Clocks -----

  /** The latest clock reading in a history that starts at `start`. */
  function LastNow(start: real, es: seq<Event>): real {
    if es == [] then start
    else if es[|es| - 1].Record? then LastNow(start, es[..|es| - 1])
    else es[|es| - 1].now
  }

  /** Readings never go back. */
  predicate Monotone(start: real, es: seq<Event>) {
    es != [] ==>
      && Monotone(start, es[..|es| - 1])
      && (es[|es| - 1].Record? || es[|es| - 1].now >= LastNow(start, es[..|es| - 1]))
  }

  /** Both buckets were last touched no later than `t`. */
  predicate TouchedBy(w: World, t: real) {
    w.account.requests.last <= t && w.account.tokens.last <= t
  }

  lemma {:induction false} TouchedByLastNow(w: World, start: real, es: seq<Event>)
    requires Legal(w, es) && Monotone(start, es) && TouchedBy(w, start)
    ensures TouchedBy(After(w, es), LastNow(start, es))
  {
    if es != [] { TouchedByLastNow(w, start, es[..|es| - 1]); }
  }

  // ----- Conformance -----

  /** The event is a request admitted at a time in [s, t]. */
  predicate AdmittedIn(w: World, e: Event, s: real, t: real)
    requires Possible(w, e)
  {
    e.Admit? && s <= e.now <= t && Step(w, e).1 == Answered(None)
  }

  /** How many requests a history admits at times in [s, t]. */
  function AdmittedBetween(w: World, es: seq<Event>, s: real, t: real): nat
    requires Legal(w, es)
  {
    if es == [] then 0
    else
      AdmittedBetween(w, es[..|es| - 1], s, t)
      + if AdmittedIn(After(w, es[..|es| - 1]), es[|es| - 1], s, t) then 1 else 0
  }

  /** What the rate allows in `time`: the burst, then the rate. */
  function RateAllowance(capacity: real, perSec: real, time: real): real { capacity + time * perSec }

  /** Requests admitted in [s, t] so far, and the credit left, fit into the allowance since `s`. */
  ghost predicate Conforms(b: BucketState, c: nat, s: real, t: real) {
    c > 0 ==>
      && s <= b.last
      && c as real <= RateAllowance(b.capacity, b.perSec, t - s)
      && (b.last <= t ==> c as real + b.level <= RateAllowance(b.capacity, b.perSec, b.last - s))
  }

  lemma RateMonotone(b: BucketState, x: real, y: real)
    requires b.perSec >= 0.0 && x <= y
    ensures RateAllowance(b.capacity, b.perSec, x) <= RateAllowance(b.capacity, b.perSec, y)
  {
    assert x * b.perSec <= y * b.perSec;
  }

  lemma RefillConforms(b: BucketState, now: real, c: nat, s: real, t: real)
    requires b.perSec > 0.0 && b.level <= b.capacity && b.last <= now && Conforms(b, c, s, t)
    ensures Conforms(b.Refilled(now), c, s, t)
    ensures b.Refilled(now).level <= b.capacity
  {
    RefillBounds(b, now);
    if c > 0 && b.last <= t {
      assert (now - s) * b.perSec == (b.last - s) * b.perSec + (now - b.last) * b.perSec;
    }
  }

  lemma TakeConforms(b: BucketState, c: nat, s: real, t: real)
    requires b.perSec > 0.0 && 1.0 <= b.level <= b.capacity && s <= b.last <= t && Conforms(b, c, s, t)
    ensures Conforms(b.Take(1.0), c + 1, s, t)
  {
    RateMonotone(b, 0.0, b.last - s);
    RateMonotone(b, b.last - s, t - s);
  }

  lemma StepConforms(w: World, e: Event, c: nat, s: real, t: real)
    requires Inv(w) && Possible(w, e) && Conforms(w.account.requests, c, s, t)
    requires e.Record? || w.account.requests.last <= e.now
    ensures Conforms(Step(w, e).0.account.requests, c + if AdmittedIn(w, e, s, t) then 1 else 0, s, t)
  {
    hide RateAllowance, Sum;
    if e.Admit? && w.account.active < w.account.maxConcurrent {
      var b := w.account.requests.Refilled(e.now);
      RefillConforms(w.account.requests, e.now, c, s, t);
      if AdmittedIn(w, e, s, t) {
        TakeConforms(b, c, s, t);
        assert Step(w, e).0.account.requests == b.Take(1.0);
      }
    }
  }

  lemma {:induction false} RunConforms(w: World, start: real, es: seq<Event>, s: real, t: real)
    requires Inv(w) && Legal(w, es) && Monotone(start, es) && TouchedBy(w, start)
    ensures Conforms(After(w, es).account.requests, AdmittedBetween(w, es, s, t), s, t)
    ensures After(w, es).account.requests.perSec == w.account.requests.perSec
    ensures After(w, es).account.requests.capacity == w.account.requests.capacity
  {
    hide Conforms, AdmittedIn, Inv;
    if es == [] {
      assert Conforms(w.account.requests, 0, s, t) by { NothingConforms(w.account.requests, s, t); }
    } else {
      var before, e := es[..|es| - 1], es[|es| - 1];
      RunConforms(w, start, before, s, t);
      AfterInv(w, before);
      TouchedByLastNow(w, start, before);
      StepConforms(After(w, before), e, AdmittedBetween(w, before, s, t), s, t);
    }
  }

  lemma NothingConforms(b: BucketState, s: real, t: real)
    ensures Conforms(b, 0, s, t)
  {
  }

  lemma ConformsAtMost(b: BucketState, c: nat, s: real, t: real)
    requires Conforms(b, c, s, t) && b.capacity >= 0.0 && b.perSec >= 0.0 && s <= t
    ensures c as real <= RateAllowance(b.capacity, b.perSec, t - s)
  {
    hide RateAllowance;
    RateMonotone(b, 0.0, t - s);
    AllowanceAtOnce(b.capacity, b.perSec);
  }

  lemma AllowanceAtOnce(capacity: real, perSec: real)
    ensures RateAllowance(capacity, perSec, 0.0) == capacity
  {
  }

  /**
   In any interval of any history, at most one burst plus the rate is admitted,
   however many leases are dropped meanwhile.
   */
  lemma RateConformance(cfg: TenantConfig, start: real, es: seq<Event>, s: real, t: real)
    requires cfg.requestsPerSecond > 0.0 && s <= t
    requires Legal(Fresh(cfg, start), es) && Monotone(start, es)
    ensures AdmittedBetween(Fresh(cfg, start), es, s, t) as real
         <= RateAllowance(Max(cfg.requestsPerSecond, 1.0), cfg.requestsPerSecond, t - s)
  {
    hide RateAllowance, AdmittedBetween, After, Conforms, Legal, Monotone;
    var w := Fresh(cfg, start);
    FreshInv(cfg, start);
    RunConforms(w, start, es, s, t);
    ConformsAtMost(After(w, es).account.requests, AdmittedBetween(w, es, s, t), s, t);
  }

  // ----- The same without any assumption on the clock -----

  /** The clock reading with which an event touches the request bucket, if it does. */
  function RequestTouch(w: World, e: Event): Option<real> {
    if e.Admit? && w.account.active < w.account.maxConcurrent then Some(e.now) else None
  }

  /** Requests admitted so far. */
  function Admitted(w: World, es: seq<Event>): nat
    requires Legal(w, es)
  {
    if es == [] then 0
    else Admitted(w, es[..|es| - 1]) + if Step(After(w, es[..|es| - 1]), es[|es| - 1]).1 == Answered(None) then 1 else 0
  }

  /** Total backward clock movement seen by the request bucket. */
  function BackwardRequests(w: World, es: seq<Event>): real
    requires Legal(w, es)
  {
    if es == [] then 0.0
    else
      var now := After(w, es[..|es| - 1]);
      BackwardRequests(w, es[..|es| - 1]) + Backward(now.account.requests, RequestTouch(now, es[|es| - 1]))
  }

  function RequestTime(w: World, es: seq<Event>): real
    requires Legal(w, es)
  {
    After(w, es).account.requests.last - w.account.requests.last + BackwardRequests(w, es)
  }

  /** Request credit lost because the bucket was full. */
  function RateSpillTotal(w: World, es: seq<Event>): real
    requires Legal(w, es)
  {
    if es == [] then 0.0
    else
      var now := After(w, es[..|es| - 1]);
      RateSpillTotal(w, es[..|es| - 1]) + RefillSpill(now.account.requests, RequestTouch(now, es[|es| - 1]))
  }

  /** An admission takes one credit; nothing else takes or returns any. */
  lemma StepRate(w: World, e: Event)
    requires Possible(w, e)
    ensures var b, b', touch := w.account.requests, Step(w, e).0.account.requests, RequestTouch(w, e);
      && b'.perSec == b.perSec && b'.capacity == b.capacity
      && (if Step(w, e).1 == Answered(None) then 1.0 else 0.0) + b'.level + RefillSpill(b, touch)
         == b.level + Earned(b.perSec, b'.last - b.last + Backward(b, touch))
      && RefillSpill(b, touch) >= 0.0
  {
    var b, touch := w.account.requests, RequestTouch(w, e);
    if touch.Some? {
      RefillBook(b, touch.value);
      hide BucketState.Refilled, RefillSpill, Earned, Uncapped;
    } else {
      EarnedNothing(b.perSec);
    }
  }

  /**
   Conservation of request credit, over every history and whatever the clock
   does: requests admitted, credit left and credit spilled add up to the start
   plus the rate, for the time elapsed and the time that the clock went back over.
   */
  lemma {:induction false} RateBooksBalance(w: World, es: seq<Event>)
    requires Legal(w, es)
    ensures var b, b' := w.account.requests, After(w, es).account.requests;
      && b'.perSec == b.perSec && b'.capacity == b.capacity
      && Admitted(w, es) as real + b'.level + RateSpillTotal(w, es) == b.level + Earned(b.perSec, RequestTime(w, es))
      && RateSpillTotal(w, es) >= 0.0
  {
    hide Step, Backward, RequestTouch, Earned, RefillSpill;
    if es == [] {
      EarnedNothing(w.account.requests.perSec);
    } else {
      var before, e := es[..|es| - 1], es[|es| - 1];
      var now, now' := After(w, before), After(w, es);
      RateBooksBalance(w, before);
      StepRate(now, e);
      EarnedSum(w.account.requests.perSec, RequestTime(w, before),
                now'.account.requests.last - now.account.requests.last + Backward(now.account.requests, RequestTouch(now, e)));
    }
  }

  /**
   Over every history, whatever the clock does, the requests admitted and the
   credit left are covered by the credit at the start and the rate.
   */
  lemma AdmissionsCovered(w: World, es: seq<Event>)
    requires Inv(w) && Legal(w, es)
    ensures var b, b' := w.account.requests, After(w, es).account.requests;
      && b'.perSec == b.perSec && b'.capacity == b.capacity && 0.0 <= b'.level <= b'.capacity
      && Admitted(w, es) as real + b'.level <= b.level + Earned(b.perSec, RequestTime(w, es))
  {
    AfterInv(w, es);
    hide Earned, Sum, RequestTime;
    RateBooksBalance(w, es);
  }

  // ----- Refused only when spent -----

  /** What burst and rate have given by the end of a history, less what a full bucket spilled. */
  function RateGiven(w: World, es: seq<Event>): real
    requires Legal(w, es)
  {
    w.account.requests.level + Earned(w.account.requests.perSec, RequestTime(w, es)) - RateSpillTotal(w, es)
  }

  /** What capacity and refill have given by the end of a history, less what a full bucket spilled. */
  function BudgetGiven(w: World, es: seq<Event>): real
    requires Legal(w, es)
  {
    Book(w) + Earned(w.account.tokens.perSec, EarningTime(w, es)) - SpillTotal(w, es)
  }

  /**
   The answer to a request for `reserve` tokens at `now` after a history, from
   what the history gave and took: the live leases, then the requests admitted,
   then the tokens reserved and used are held against the limits.
   */
  function Due(w: World, es: seq<Event>, now: real, reserve: nat): Option<AdmitError>
    requires Legal(w, es) && Legal(w, es + [Admit(now, reserve)])
  {
    var w', with := After(w, es), es + [Admit(now, reserve)];
    if Sum(w'.leases, LiveCount) >= w.account.maxConcurrent then Some(ConcurrencyLimited)
    else if (Admitted(w, es) + 1) as real > RateGiven(w, with) then Some(RateLimited)
    else if (Reserved(w') + Used(w') + reserve) as real > BudgetGiven(w, with) then Some(TokenBudget)
    else None
  }

  /** What one request finds and leaves in the buckets, by its answer. */
  lemma AnswerAndLevels(w: World, now: real, reserve: nat)
    ensures var (w', reply) := Step(w, Admit(now, reserve));
      if w.account.active >= w.account.maxConcurrent then reply == Answered(Some(ConcurrencyLimited))
      else
        match reply
        case Answered(Some(RateLimited)) => w'.account.requests.level < 1.0
        case Answered(Some(TokenBudget)) => w'.account.requests.level >= 1.0 && w'.account.tokens.level < reserve as real
        case Answered(None) => w'.account.requests.level >= 0.0 && w'.account.tokens.level >= 0.0
        case _ => false
  {
  }

  lemma LimitStays(w: World, es: seq<Event>)
    requires Legal(w, es)
    ensures After(w, es).account.maxConcurrent == w.account.maxConcurrent
  {
  }

  lemma OneMoreAdmitted(w: World, es: seq<Event>, e: Event)
    requires Legal(w, es) && Possible(After(w, es), e)
    ensures Legal(w, es + [e])
    ensures Admitted(w, es + [e]) == Admitted(w, es) + if Step(After(w, es), e).1 == Answered(None) then 1 else 0
  {
    OneMore(w, es, e);
    hide Step;
  }

  /**
   A request is refused only when a limit is spent, and always then: over every
   history and every clock, its answer is what the history's balance says.
   */
  lemma RefusedWhenSpent(w: World, es: seq<Event>, now: real, reserve: nat)
    requires Inv(w) && Legal(w, es)
    ensures Legal(w, es + [Admit(now, reserve)])
    ensures Step(After(w, es), Admit(now, reserve)).1 == Answered(Due(w, es, now, reserve))
  {
    var e := Admit(now, reserve);
    var w', with := After(w, es), es + [e];
    OneMore(w, es, e);
    OneMoreAdmitted(w, es, e);
    AfterInv(w, es);
    LimitStays(w, es);
    RateBooksBalance(w, with);
    BooksBalance(w, with);
    AnswerAndLevels(w', now, reserve);
    StepSums(w', e);
    hide Step, Legal, After, Admitted, Earned, EarningTime, RequestTime, SpillTotal, RateSpillTotal, Sum, Reserved, Used, Excess;
  }

  /** Requests admitted are the leases handed out. */
  lemma {:induction false} AdmittedAreLeases(w: World, es: seq<Event>)
    requires Legal(w, es)
    ensures |After(w, es).leases| == |w.leases| + Admitted(w, es)
  {
    if es != [] { AdmittedAreLeases(w, es[..|es| - 1]); }
  }

  lemma StepForward(w: World, t: real, e: Event)
    requires Possible(w, e) && TouchedBy(w, t) && (e.Record? || t <= e.now)
    ensures Backward(w.account.tokens, TokenTouch(w, e)) == 0.0
    ensures Backward(w.account.requests, RequestTouch(w, e)) == 0.0
  {
  }

  /** With ordered readings the clock never goes back, and the time earned is the time elapsed. */
  lemma {:induction false} NothingBackward(w: World, start: real, es: seq<Event>)
    requires Legal(w, es) && Monotone(start, es) && TouchedBy(w, start)
    ensures BackwardTotal(w, es) == 0.0 && BackwardRequests(w, es) == 0.0
  {
    hide Step, Backward, TokenTouch, RequestTouch;
    if es != [] {
      NothingBackward(w, start, es[..|es| - 1]);
      TouchedByLastNow(w, start, es[..|es| - 1]);
      StepForward(After(w, es[..|es| - 1]), LastNow(start, es[..|es| - 1]), es[|es| - 1]);
    }
  }

  /**
   With ordered readings, by time `end` a tenant has at most its allowance in use
   and reserved, and at most its rate's worth of requests admitted.
   */
  lemma WithinAllowance(cfg: TenantConfig, start: real, es: seq<Event>, end: real)
    requires cfg.requestsPerSecond > 0.0 && Legal(Fresh(cfg, start), es) && Monotone(start, es) && LastNow(start, es) <= end
    ensures var w' := After(Fresh(cfg, start), es);
      && (Reserved(w') + Used(w')) as real
         <= cfg.tokensPerMinute as real + Earned(cfg.tokensPerMinute as real / 60.0, end - start) + Excess(w') as real
      && |w'.leases| as real <= Max(cfg.requestsPerSecond, 1.0) + Earned(cfg.requestsPerSecond, end - start)
  {
    var w := Fresh(cfg, start);
    FreshInv(cfg, start);
    BudgetNeverOvershoots(cfg, start, es);
    AdmissionsCovered(w, es);
    AdmittedAreLeases(w, es);
    NothingBackward(w, start, es);
    TouchedByLastNow(w, start, es);
    hide Legal, After, Monotone, LastNow, BackwardTotal, BackwardRequests, Admitted, Earned;
    EarnedMore(cfg.tokensPerMinute as real / 60.0, EarningTime(w, es), end - start);
    EarnedMore(cfg.requestsPerSecond, RequestTime(w, es), end - start);
  }
}
