/** The token budget over whole histories: reserve, then refund, with debt for what was not reserved. */
module TokenBudget {
  import opened Prelude
  import opened Buckets
  import opened Tenants
  import opened TenantHistory

  // ----- The books -----

  /** The clock reading with which an event touches the token bucket, if it does. */
  function TokenTouch(w: World, e: Event): Option<real> {
    match e
    case Admit(now, _) =>
      if w.account.active < w.account.maxConcurrent && w.account.requests.Refilled(now).level >= 1.0 then Some(now) else None
    case Record(_, _) => None
    case Drop(_, now) => Some(now)
    case Peek(now) => Some(now)
  }

  /** By how much a touch finds the clock behind the last one. */
  function Backward(b: BucketState, touch: Option<real>): real {
    match touch
    case None => 0.0
    case Some(now) => Max(b.last - now, 0.0)
  }

  /** Refill beyond the capacity, which is lost. Only a touch after the last one refills. */
  function RefillSpill(b: BucketState, touch: Option<real>): real {
    match touch
    case None => 0.0
    case Some(now) => if now > b.last then Max(Uncapped(b, now) - b.capacity, 0.0) else 0.0
  }

  /** Refund beyond the capacity, which is lost. */
  function RefundSpill(w: World, e: Event): real
    requires Possible(w, e)
  {
    match e
    case Drop(i, now) =>
      var b, l := w.account.tokens, w.leases[i];
      Max(Uncapped(b, now) - RefillSpill(b, Some(now)) + l.reserved as real - l.used as real - b.capacity, 0.0)
    case _ => 0.0
  }

  /** Total backward clock movement seen by the token bucket. */
  function BackwardTotal(w: World, es: seq<Event>): real
    requires Legal(w, es)
  {
    if es == [] then 0.0
    else
      var now := After(w, es[..|es| - 1]);
      BackwardTotal(w, es[..|es| - 1]) + Backward(now.account.tokens, TokenTouch(now, es[|es| - 1]))
  }

  /** Credit lost because the token bucket was full. */
  function SpillTotal(w: World, es: seq<Event>): real
    requires Legal(w, es)
  {
    if es == [] then 0.0
    else
      var now, e := After(w, es[..|es| - 1]), es[|es| - 1];
      SpillTotal(w, es[..|es| - 1]) + RefillSpill(now.account.tokens, TokenTouch(now, e)) + RefundSpill(now, e)
  }

  /** The level plus everything reserved or charged. */
  function Book(w: World): real {
    w.account.tokens.level + Reserved(w) as real + Used(w) as real
  }

  /** The time for which the bucket earns: elapsed, plus what the clock went back over. */
  function EarningTime(w: World, es: seq<Event>): real
    requires Legal(w, es)
  {
    After(w, es).account.tokens.last - w.account.tokens.last + BackwardTotal(w, es)
  }

  lemma StepBook(w: World, e: Event)
    requires Possible(w, e)
    ensures var w', b, touch := Step(w, e).0, w.account.tokens, TokenTouch(w, e);
      && w'.account.tokens.perSec == b.perSec && w'.account.tokens.capacity == b.capacity
      && Book(w') + RefillSpill(b, touch) + RefundSpill(w, e)
         == Book(w) + Earned(b.perSec, w'.account.tokens.last - b.last + Backward(b, touch))
  {
    hide Sum;
    StepSums(w, e);
    var b, touch := w.account.tokens, TokenTouch(w, e);
    if touch.Some? {
      RefillBook(b, touch.value);
    } else {
      assert Step(w, e).0.account.tokens == b;
      assert Earned(b.perSec, 0.0) == 0.0;
    }
  }

  lemma RefillBook(b: BucketState, now: real)
    ensures b.Refilled(now).level + RefillSpill(b, Some(now)) == b.level + Earned(b.perSec, now - b.last + Backward(b, Some(now)))
  {
    assert b.Elapsed(now) == now - b.last + Backward(b, Some(now));
  }

  lemma SpillsNonNegative(w: World, e: Event)
    requires Possible(w, e)
    ensures RefillSpill(w.account.tokens, TokenTouch(w, e)) >= 0.0 && RefundSpill(w, e) >= 0.0
  {
    hide Step, TokenTouch, Uncapped;
  }

  /**
   Conservation. Level, reservations, charges and spilled credit always add up
   to the start plus the refill for the time elapsed, where time that the clock
   went back and forth over counts again.
   */
  lemma {:induction false} BooksBalance(w: World, es: seq<Event>)
    requires Inv(w) && Legal(w, es)
    ensures var w', b := After(w, es), w.account.tokens;
      && w'.account.tokens.perSec == b.perSec && w'.account.tokens.capacity == b.capacity
      && Book(w') + SpillTotal(w, es) == Book(w) + Earned(b.perSec, EarningTime(w, es))
      && SpillTotal(w, es) >= 0.0
  {
    hide Step, Book, Backward, RefillSpill, RefundSpill, TokenTouch, Earned, Inv;
    if es != [] {
      var before, e := es[..|es| - 1], es[|es| - 1];
      var now, now' := After(w, before), After(w, es);
      BooksBalance(w, before);
      AfterInv(w, before);
      StepBook(now, e);
      SpillsNonNegative(now, e);
      EarnedSum(w.account.tokens.perSec, EarningTime(w, before), now'.account.tokens.last - now.account.tokens.last + Backward(now.account.tokens, TokenTouch(now, e)));
    } else {
      EarnedNothing(w.account.tokens.perSec);
    }
  }

  /** Neither a refill nor a refund of the history was cut off at the capacity. */
  predicate NeverCutOff(w: World, es: seq<Event>)
    requires Legal(w, es)
  {
    es != [] ==>
      var now, e := After(w, es[..|es| - 1]), es[|es| - 1];
      && NeverCutOff(w, es[..|es| - 1])
      && (TokenTouch(now, e).Some? && TokenTouch(now, e).value > now.account.tokens.last ==>
            Uncapped(now.account.tokens, TokenTouch(now, e).value) <= now.account.tokens.capacity)
      && (e.Drop? ==>
            Uncapped(now.account.tokens, e.now) + now.leases[e.lease].reserved as real - now.leases[e.lease].used as real
            <= now.account.tokens.capacity)
  }

  lemma StepCutOff(w: World, e: Event)
    requires Possible(w, e)
    ensures RefillSpill(w.account.tokens, TokenTouch(w, e)) == 0.0 && RefundSpill(w, e) == 0.0 <==>
      && (TokenTouch(w, e).Some? && TokenTouch(w, e).value > w.account.tokens.last ==>
            Uncapped(w.account.tokens, TokenTouch(w, e).value) <= w.account.tokens.capacity)
      && (e.Drop? ==>
            Uncapped(w.account.tokens, e.now) + w.leases[e.lease].reserved as real - w.leases[e.lease].used as real
            <= w.account.tokens.capacity)
  {
    hide Step, Uncapped;
  }

  lemma {:induction false} SpillIsCutOff(w: World, es: seq<Event>)
    requires Legal(w, es)
    ensures SpillTotal(w, es) >= 0.0 && (SpillTotal(w, es) == 0.0 <==> NeverCutOff(w, es))
  {
    hide Step, TokenTouch, Uncapped, RefillSpill, RefundSpill;
    if es != [] {
      var before, e := es[..|es| - 1], es[|es| - 1];
      SpillIsCutOff(w, before);
      SpillsNonNegative(After(w, before), e);
      StepCutOff(After(w, before), e);
    }
  }

  /**
   No credit is lost but by the capacity: level, reservations and charges add up
   to exactly the start plus the refill if and only if nothing was cut off.
   */
  lemma ExactUnlessCutOff(w: World, es: seq<Event>)
    requires Inv(w) && Legal(w, es)
    ensures Book(After(w, es)) == Book(w) + Earned(w.account.tokens.perSec, EarningTime(w, es)) <==> NeverCutOff(w, es)
  {
    hide Book, Earned, EarningTime, Inv;
    BooksBalance(w, es);
    SpillIsCutOff(w, es);
  }

  // ----- Reserve, then refund -----

  /** One request with nothing in between: admitted with a reservation, charged for its use, and settled. */
  function OneRequest(w: World, t1: real, reserve: nat, used: nat, t2: real): World
    requires Step(w, Admit(t1, reserve)).1 == Answered(None)
  {
    var w1 := Step(w, Admit(t1, reserve)).0;
    var w2 := Step(w1, Record(|w.leases|, used)).0;
    Step(w2, Drop(|w.leases|, t2)).0
  }

  lemma OneSettlement(w: World, t1: real, reserve: nat, used: nat, t2: real)
    requires Step(w, Admit(t1, reserve)).1 == Answered(None)
    ensures OneRequest(w, t1, reserve, used, t2).account == Settlement(Admission(w.account, t1, reserve).0, reserve, used, t2)
  {
    hide Admission, Settlement;
  }

  /** A take and a refund with a refill between them, as one take of the difference. */
  lemma SettledLevel(b: BucketState, reserve: nat, used: nat, now: real)
    requires b.level <= b.capacity && b.perSec >= 0.0
    ensures var refill := Earned(b.perSec, Max(now - b.last, 0.0));
      b.Take(reserve as real).Refilled(now).Refund(reserve as real - used as real).level ==
        if used <= reserve then Min(b.level - used as real + refill, b.capacity)
        else Min(b.level - reserve as real + refill, b.capacity) + reserve as real - used as real
  {
    hide Earned, BucketState.Refilled;
    EarnedPositive(b.perSec, Max(now - b.last, 0.0));
    RefillFinds(b.Take(reserve as real), now);
  }

  lemma AdmittedAccount(a: AccountState, now: real, reserve: nat, used: nat)
    requires Admission(a, now, reserve).1.None? && used <= reserve
    ensures Admission(a, now, used).1.None?
    ensures Admission(a, now, reserve).0 == Admission(a, now, used).0.(tokens := a.tokens.Refilled(now).Take(reserve as real))
    ensures Admission(a, now, used).0.tokens == a.tokens.Refilled(now).Take(used as real)
    ensures Admission(a, now, reserve).0.active == a.active + 1
  {
    hide BucketState.Refilled;
  }

  lemma SettledAccount(a: AccountState, reserved: nat, used: nat, now: real)
    requires a.active > 0
    ensures Settlement(a, reserved, used, now) ==
      a.(active := a.active - 1, tokens := a.tokens.Refilled(now).Refund(reserved as real - used as real))
  {
    hide BucketState.Refilled, BucketState.Refund;
  }

  /** A bucket but for its level. */
  lemma TakeRefillRefund(b: BucketState, n: real, now: real, m: real)
    ensures var b' := b.Take(n).Refilled(now).Refund(m);
      b'.capacity == b.capacity && b'.perSec == b.perSec && b'.last == now
  {
  }

  /**
   What a request costs its tenant: what it used, however much it had reserved
   and however long it took. The account is the one that a reservation of
   just that much would have left. Use beyond the reservation is a debt, charged
   after the refill.
   */
  lemma ReservationCostsUse(w: World, t1: real, reserve: nat, used: nat, t2: real)
    requires Inv(w) && Step(w, Admit(t1, reserve)).1 == Answered(None)
    ensures var found := Found(w.account.tokens, t1);
      var b, a' := w.account.tokens, OneRequest(w, t1, reserve, used, t2).account;
      var refill := Earned(b.perSec, Max(t2 - t1, 0.0));
      && a'.tokens.level ==
           (if used <= reserve then Min(found - used as real + refill, b.capacity)
            else Min(found - reserve as real + refill, b.capacity) + reserve as real - used as real)
      && a'.active == w.account.active
    ensures used <= reserve ==>
      && Step(w, Admit(t1, used)).1 == Answered(None)
      && OneRequest(w, t1, reserve, used, t2).account == OneRequest(w, t1, used, used, t2).account
  {
    hide Sum, Uncapped, Earned, OneRequest, Admission, Settlement, BucketState.Refilled, BucketState.Take, BucketState.Refund;
    var a := w.account;
    var b := a.tokens.Refilled(t1);
    RefillFinds(a.tokens, t1);
    AdmittedAccount(a, t1, reserve, reserve);
    OneSettlement(w, t1, reserve, used, t2);
    SettledAccount(Admission(a, t1, reserve).0, reserve, used, t2);
    SettledLevel(b, reserve, used, t2);
    if used <= reserve {
      AdmittedAccount(a, t1, reserve, used);
      OneSettlement(w, t1, used, used, t2);
      SettledAccount(Admission(a, t1, used).0, used, used, t2);
      SettledLevel(b, used, used, t2);
      TakeRefillRefund(b, reserve as real, t2, reserve as real - used as real);
      TakeRefillRefund(b, used as real, t2, used as real - used as real);
    }
  }

  // ----- Never overshoots -----

  /** What a tenant may have used and reserved by now: the capacity plus the refill. */
  function Allowance(w: World, es: seq<Event>): real
    requires Legal(w, es)
  {
    w.account.tokens.capacity + Earned(w.account.tokens.perSec, EarningTime(w, es))
  }

  /** By how much use and reservations exceed the allowance. */
  function Overshoot(w: World, es: seq<Event>): real
    requires Legal(w, es)
  {
    (Reserved(After(w, es)) + Used(After(w, es))) as real - Allowance(w, es)
  }

  lemma FreshBook(cfg: TenantConfig, start: real)
    ensures Book(Fresh(cfg, start)) == Fresh(cfg, start).account.tokens.capacity
  {
  }

  /**
   However many requests overlap, use plus outstanding reservations exceed the
   allowance by at most what settled leases used beyond their reservations;
   when there is no such excess, they never exceed it, and the level is never
   negative. They exceed it exactly when the debt is larger than the credit
   that was spilled.
   */
  lemma BudgetNeverOvershoots(cfg: TenantConfig, start: real, es: seq<Event>)
    requires cfg.requestsPerSecond > 0.0 && Legal(Fresh(cfg, start), es)
    ensures var w, w' := Fresh(cfg, start), After(Fresh(cfg, start), es);
      && (Reserved(w') + Used(w')) as real <= Allowance(w, es) + Excess(w') as real
      && Reserved(w') >= 0 && Used(w') >= 0 && Excess(w') >= 0
      && (Excess(w') == 0 ==> w'.account.tokens.level >= 0.0)
      && ((Reserved(w') + Used(w')) as real <= Allowance(w, es) <==> w'.account.tokens.level + SpillTotal(w, es) >= 0.0)
  {
    hide Step, Sum, Legal, BackwardTotal, SpillTotal, Earned, EarningTime, After;
    var w := Fresh(cfg, start);
    FreshInv(cfg, start);
    AfterInv(w, es);
    BooksBalance(w, es);
    assert Book(w) == w.account.tokens.capacity by { FreshBook(cfg, start); }
    var w' := After(w, es);
    SumNonNegative(w'.leases, ReservedOf);
    SumNonNegative(w'.leases, UsedOf);
    SumNonNegative(w'.leases, ExcessOf);
  }

  /** There is no excess exactly when no settled lease used more than it had reserved. */
  lemma ExcessFree(w: World)
    ensures Excess(w) == 0 <==>
      forall i :: 0 <= i < |w.leases| && !w.leases[i].live ==> w.leases[i].used <= w.leases[i].reserved
  {
    SumNonNegative(w.leases, ExcessOf);
    if Excess(w) > 0 {
      var i := SumPositiveWitness(w.leases, ExcessOf);
      assert !w.leases[i].live && w.leases[i].used > w.leases[i].reserved;
    } else {
      assert forall i :: 0 <= i < |w.leases| ==> ExcessOf(w.leases[i]) <= 0;
    }
  }

  /**
   The excess bound is attained: for every configuration and every excess there
   is a history that takes no time and overshoots the allowance by exactly it.
   */
  lemma ExcessIsAttained(cfg: TenantConfig, start: real, excess: nat) returns (es: seq<Event>)
    requires cfg.requestsPerSecond > 0.0 && cfg.maxConcurrent >= 1
    ensures Legal(Fresh(cfg, start), es)
    ensures var w, w' := Fresh(cfg, start), After(Fresh(cfg, start), es);
      && Excess(w') == excess
      && Allowance(w, es) == cfg.tokensPerMinute as real
      && (Reserved(w') + Used(w')) as real == Allowance(w, es) + excess as real
  {
    hide Step, Legal, After, BackwardTotal, Fresh, Backward, TokenTouch, Reserved, Used, Excess, Earned;
    var w, tpm := Fresh(cfg, start), cfg.tokensPerMinute;
    var e0, e1, e2 := Admit(start, tpm), Record(0, tpm + excess), Drop(0, start);
    NothingBackwardYet(w);
    AdmitAll(cfg, start);
    OneMoreBackward(w, [], e0);
    assert [] + [e0] == [e0];
    RecordAll(cfg, start, excess);
    OneMoreBackward(w, [e0], e1);
    DropAll(After(w, [e0] + [e1]), tpm, excess, start);
    OneMoreBackward(w, [e0] + [e1], e2);
    es := [e0] + [e1] + [e2];
    EarnedNothing(w.account.tokens.perSec);
    FreshTokens(cfg, start);
  }

  lemma FreshTokens(cfg: TenantConfig, start: real)
    ensures var b := Fresh(cfg, start).account.tokens;
      b.last == start && b.capacity == cfg.tokensPerMinute as real
  {
  }

  lemma NothingBackwardYet(w: World)
    ensures Legal(w, []) && After(w, []) == w && BackwardTotal(w, []) == 0.0
  {
  }

  lemma OneMoreBackward(w: World, es: seq<Event>, e: Event)
    requires Legal(w, es) && Possible(After(w, es), e)
    ensures Legal(w, es + [e]) && After(w, es + [e]) == Step(After(w, es), e).0
    ensures BackwardTotal(w, es + [e])
         == BackwardTotal(w, es) + Backward(After(w, es).account.tokens, TokenTouch(After(w, es), e))
  {
    OneMore(w, es, e);
    hide Step, Possible, Backward, TokenTouch;
  }

  /**
   No promise with less slack can be made: histories whose settled leases used
   at most `excess` beyond their reservations never overshoot the allowance by
   more than `slack` if and only if `slack` is no less.
   */
  lemma OvershootIff(cfg: TenantConfig, start: real, excess: nat, slack: real)
    requires cfg.requestsPerSecond > 0.0 && cfg.maxConcurrent >= 1
    ensures (forall es :: Legal(Fresh(cfg, start), es) && Excess(After(Fresh(cfg, start), es)) <= excess
              ==> Overshoot(Fresh(cfg, start), es) <= slack) <==> excess as real <= slack
  {
    hide Legal, After, Fresh, Reserved, Used, Excess, Allowance;
    if excess as real <= slack {
      forall es | Legal(Fresh(cfg, start), es) && Excess(After(Fresh(cfg, start), es)) <= excess
        ensures Overshoot(Fresh(cfg, start), es) <= slack
      {
        BudgetNeverOvershoots(cfg, start, es);
      }
    } else {
      var es := ExcessIsAttained(cfg, start, excess);
      assert Overshoot(Fresh(cfg, start), es) == excess as real;
    }
  }

  lemma AdmitAll(cfg: TenantConfig, start: real)
    requires cfg.requestsPerSecond > 0.0 && cfg.maxConcurrent >= 1
    ensures var w, e := Fresh(cfg, start), Admit(start, cfg.tokensPerMinute);
      && Possible(w, e) && Step(w, e).0.leases == [LeaseRecord(cfg.tokensPerMinute, 0, true)]
      && Step(w, e).0.account.tokens.last == start && Backward(w.account.tokens, TokenTouch(w, e)) == 0.0
  {
  }

  lemma RecordAll(cfg: TenantConfig, start: real, excess: nat)
    requires cfg.requestsPerSecond > 0.0 && cfg.maxConcurrent >= 1
    ensures var tpm := cfg.tokensPerMinute;
      var w := Step(Fresh(cfg, start), Admit(start, tpm)).0;
      var e := Record(0, tpm + excess);
      && Possible(w, e) && Step(w, e).0.leases == [LeaseRecord(tpm, tpm + excess, true)]
      && Step(w, e).0.account == w.account && Backward(w.account.tokens, TokenTouch(w, e)) == 0.0
  {
    AdmitAll(cfg, start);
  }

  lemma DropAll(w: World, reserved: nat, excess: nat, now: real)
    requires w.leases == [LeaseRecord(reserved, reserved + excess, true)] && w.account.tokens.last == now
    ensures var w', e := Step(w, Drop(0, now)).0, Drop(0, now);
      && Reserved(w') == 0 && Used(w') == reserved + excess && Excess(w') == excess
      && w'.account.tokens.last == now && Backward(w.account.tokens, TokenTouch(w, e)) == 0.0
  {
    var l := LeaseRecord(reserved, reserved + excess, false);
    assert Step(w, Drop(0, now)).0.leases == [] + [l];
    SumAppend([], l, ReservedOf);
    SumAppend([], l, UsedOf);
    SumAppend([], l, ExcessOf);
  }
}
