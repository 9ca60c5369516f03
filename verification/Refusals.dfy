/** Whether a refused request can be noticed afterwards. */
module Refusals {
  import opened Prelude
  import opened Buckets
  import opened Tiers
  import opened Tenants
  import opened TenantHistory
  import opened RateLimit

  // ----- Refills compose -----

  /** `t1` lies between the last touch and `t2`, in either direction. */
  predicate Between(last: real, t1: real, t2: real) {
    last <= t1 <= t2 || t2 <= t1 <= last
  }

  /** What a touch at `t` finds after one at `now`: time that the clock goes back over is earned twice. */
  function FoundVia(b: BucketState, now: real, t: real): real {
    Min(b.level + Earned(b.perSec, b.Elapsed(now) + Max(t - now, 0.0)), b.capacity)
  }

  /** The refill from the last touch straight to `t2` already fills the bucket. */
  predicate FullAt(b: BucketState, t2: real) {
    Uncapped(b, t2) >= b.capacity
  }

  lemma TwoRefills(b: BucketState, t1: real, t2: real)
    requires b.perSec >= 0.0 && b.level <= b.capacity
    ensures b.Refilled(t1).Refilled(t2) == BucketState(b.capacity, b.perSec, FoundVia(b, t1, t2), t2)
  {
    hide BucketState.Refilled, Earned;
    var d1, d2 := b.Elapsed(t1), Max(t2 - t1, 0.0);
    RefillFinds(b, t1);
    RefillFinds(b.Refilled(t1), t2);
    EarnedSum(b.perSec, d1, d2);
    EarnedMore(b.perSec, 0.0, d2);
    EarnedNothing(b.perSec);
  }

  /**
   Touching a bucket at `t1` on the way to `t2` leaves no trace exactly when `t1`
   lies between the last touch and `t2`, or the bucket would be full anyway, or
   it never refills.
   */
  lemma RefillsCompose(b: BucketState, t1: real, t2: real)
    requires b.perSec >= 0.0 && b.level <= b.capacity
    ensures b.Refilled(t1).Refilled(t2) == b.Refilled(t2) <==>
      Between(b.last, t1, t2) || FullAt(b, t2) || b.perSec == 0.0
  {
    hide BucketState.Refilled, Earned;
    var d, dd := b.Elapsed(t2), b.Elapsed(t1) + Max(t2 - t1, 0.0);
    assert dd >= d && (dd == d <==> Between(b.last, t1, t2));
    RefillFinds(b, t2);
    TwoRefills(b, t1, t2);
    EarnedMore(b.perSec, d, dd);
    EarnsNothing(d);
    EarnsNothing(dd);
  }

  /** Touching `b` at `now` leaves no trace for a touch at `t`. */
  predicate Swallowed(b: BucketState, now: real, t: real) {
    Between(b.last, now, t) || FullAt(b, t) || b.perSec == 0.0
  }

  // ----- What the next request finds after a refusal -----

  /** What every account of a history satisfies. */
  predicate Sound(a: AccountState) {
    && a.requests.perSec > 0.0 && a.requests.level <= a.requests.capacity
    && a.tokens.perSec >= 0.0 && a.tokens.level <= a.tokens.capacity
  }

  /** So what follows holds after every history. */
  lemma InvSound(w: World)
    requires Inv(w)
    ensures Sound(w.account)
  {
    hide Sum;
  }

  /** A request at `t` gets as far as the token bucket. */
  predicate ReachesTokens(a: AccountState, t: real) {
    a.active < a.maxConcurrent && a.requests.Refilled(t).level >= 1.0
  }

  /**
   When a refusal at `now` leaves no trace for a request at `t`: every bucket
   that the refusal touched swallows the touch; and the token bucket, if the
   later request does not reach it, had last been touched at `now` anyway.
   */
  predicate NoTrace(a: AccountState, now: real, error: AdmitError, t: real) {
    match error
    case ConcurrencyLimited => true
    case RateLimited => Swallowed(a.requests, now, t)
    case TokenBudget =>
      && Swallowed(a.requests, now, t)
      && if ReachesTokens(a, t) then Swallowed(a.tokens, now, t) else now == a.tokens.last
  }

  /**
   Whether a refused request has side effects, for the whole account: a later
   request leaves the account as it would have without the refusal if and only
   if no bucket that the refusal touched keeps a trace.
   */
  lemma RefusalLeavesNoTrace(a: AccountState, now: real, reserve: nat, t: real, n: nat)
    requires Sound(a) && Admission(a, now, reserve).1.Some?
    ensures Admission(Admission(a, now, reserve).0, t, n).0 == Admission(a, t, n).0 <==>
      NoTrace(a, now, Admission(a, now, reserve).1.value, t)
  {
    hide FullAt, Between, Found, FoundVia, BucketState.Refilled;
    RefillsCompose(a.requests, now, t);
    RefillsCompose(a.tokens, now, t);
    FoundMore(a.requests, now, t);
    FoundMore(a.tokens, now, t);
    RefillFinds(a.requests, t);
    RefillFinds(a.tokens, t);
    TwoRefills(a.requests, now, t);
    TwoRefills(a.tokens, now, t);
    RefillIsNow(a.tokens, now);
  }

  /** A touch on the way never lowers what is found. */
  lemma FoundMore(b: BucketState, now: real, t: real)
    requires b.perSec >= 0.0
    ensures FoundVia(b, now, t) >= Found(b, t)
  {
    hide Earned;
    EarnedMore(b.perSec, b.Elapsed(t), b.Elapsed(now) + Max(t - now, 0.0));
  }

  lemma RefillIsNow(b: BucketState, now: real)
    ensures b.Refilled(now) == b <==> now == b.last
  {
  }

  /**
   When a refusal at `now` makes a difference to the request for `n` tokens at
   `t`: the time earned twice lifts the first bucket that would have refused it
   over what it asks for.
   */
  predicate LetsIn(a: AccountState, now: real, error: AdmitError, t: real, n: nat) {
    && error != ConcurrencyLimited
    && if Found(a.requests, t) < 1.0 then FoundVia(a.requests, now, t) >= 1.0
       else error == TokenBudget && Found(a.tokens, t) < n as real <= FoundVia(a.tokens, now, t)
  }

  /**
   Whether a refused request can be noticed: the next request is answered
   otherwise than without the refusal if and only if the refusal lets it past a
   bucket; a refusal never makes a bucket refuse.
   */
  lemma RefusalNoticed(a: AccountState, now: real, reserve: nat, t: real, n: nat)
    requires Sound(a) && Admission(a, now, reserve).1.Some?
    ensures Admission(Admission(a, now, reserve).0, t, n).1 != Admission(a, t, n).1 <==>
      LetsIn(a, now, Admission(a, now, reserve).1.value, t, n)
  {
    hide Found, FoundVia, BucketState.Refilled;
    FoundMore(a.requests, now, t);
    FoundMore(a.tokens, now, t);
    RefillFinds(a.requests, t);
    RefillFinds(a.tokens, t);
    TwoRefills(a.requests, now, t);
    TwoRefills(a.tokens, now, t);
  }

  // ----- With a monotone clock refusals are unobservable -----

  /** From `t` on, the two buckets cannot be told apart. */
  predicate SameFrom(b1: BucketState, b2: BucketState, t: real) {
    && b1.last <= t && b2.last <= t
    && b1.Refilled(t) == b2.Refilled(t)
  }

  predicate Similar(w1: World, w2: World, t: real) {
    && w1.leases == w2.leases
    && w1.account.active == w2.account.active && w1.account.maxConcurrent == w2.account.maxConcurrent
    && w1.account.requests.perSec >= 0.0 && SameFrom(w1.account.requests, w2.account.requests, t)
    && w1.account.tokens.perSec >= 0.0 && SameFrom(w1.account.tokens, w2.account.tokens, t)
  }

  /** A touch on the way leaves no trace when it is in order. */
  lemma RefillInOrder(b: BucketState, t1: real, t2: real)
    requires b.perSec >= 0.0 && b.last <= t1 <= t2
    ensures b.Refilled(t1).Refilled(t2) == b.Refilled(t2)
  {
    ProductSum(t1 - b.last, t2 - t1, b.perSec);
  }

  lemma ProductSum(x: real, y: real, w: real)
    requires x >= 0.0 && y >= 0.0 && w >= 0.0
    ensures (x + y) * w == x * w + y * w && x * w >= 0.0 && y * w >= 0.0
  {
  }

  lemma SameLater(b1: BucketState, b2: BucketState, t: real, t': real)
    requires b1.perSec >= 0.0 && SameFrom(b1, b2, t) && t <= t'
    ensures SameFrom(b1, b2, t')
  {
    RefillInOrder(b1, t, t');
    RefillInOrder(b2, t, t');
  }

  /** Touching only the first of two such buckets keeps them alike. */
  lemma SameAfterTouch(b1: BucketState, b2: BucketState, t: real, t': real)
    requires b1.perSec >= 0.0 && SameFrom(b1, b2, t) && t <= t'
    ensures SameFrom(b1.Refilled(t'), b2, t')
  {
    SameLater(b1, b2, t, t');
  }

  lemma SimilarLater(w1: World, w2: World, t: real, t': real)
    requires Similar(w1, w2, t) && t <= t'
    ensures Similar(w1, w2, t')
  {
    SameLater(w1.account.requests, w2.account.requests, t, t');
    SameLater(w1.account.tokens, w2.account.tokens, t, t');
  }

  /** An event that happens in both worlds is answered alike. */
  lemma StepSimilar(w1: World, w2: World, t: real, e: Event)
    requires Similar(w1, w2, t) && Possible(w1, e) && (e.Record? || t <= e.now)
    ensures Possible(w2, e) && Step(w1, e).1 == Step(w2, e).1
    ensures Similar(Step(w1, e).0, Step(w2, e).0, if e.Record? then t else e.now)
  {
    if !e.Record? { SimilarLater(w1, w2, t, e.now); }
  }

  predicate Refused(w: World, e: Event)
    requires Possible(w, e)
  {
    e.Admit? && Step(w, e).1 != Answered(None)
  }

  /** A refusal that happens in one world only makes no difference. */
  lemma RefusalSimilar(w1: World, w2: World, t: real, e: Event)
    requires Similar(w1, w2, t) && Possible(w1, e) && Refused(w1, e) && t <= e.now
    ensures Similar(Step(w1, e).0, w2, e.now)
  {
    SimilarLater(w1, w2, t, e.now);
    SameAfterTouch(w1.account.requests, w2.account.requests, t, e.now);
    SameAfterTouch(w1.account.tokens, w2.account.tokens, t, e.now);
  }

  /** The history without its refused requests. */
  function WithoutRefusals(w: World, es: seq<Event>): seq<Event>
    requires Legal(w, es)
  {
    if es == [] then []
    else
      var before, e := es[..|es| - 1], es[|es| - 1];
      WithoutRefusals(w, before) + if Refused(After(w, before), e) then [] else [e]
  }

  /** What the other callers were told. */
  function RepliesToOthers(w: World, es: seq<Event>): seq<Reply>
    requires Legal(w, es)
  {
    if es == [] then []
    else
      var before, e := es[..|es| - 1], es[|es| - 1];
      RepliesToOthers(w, before) + if Refused(After(w, before), e) then [] else [Step(After(w, before), e).1]
  }

  /**
   With a clock that never steps back, deleting every refused request from a
   history leaves it possible, changes no other reply, and leads to a world
   that cannot be told apart afterwards.
   */
  lemma {:induction false} RefusalsUnobservable(w: World, start: real, es: seq<Event>)
    requires Inv(w) && TouchedBy(w, start) && Legal(w, es) && Monotone(start, es)
    ensures Legal(w, WithoutRefusals(w, es))
    ensures Replies(w, WithoutRefusals(w, es)) == RepliesToOthers(w, es)
    ensures Similar(After(w, es), After(w, WithoutRefusals(w, es)), LastNow(start, es))
  {
    hide Step, Similar, Possible, Inv;
    if es == [] {
      SimilarToItself(w, start);
    } else {
      var before, e := es[..|es| - 1], es[|es| - 1];
      RefusalsUnobservable(w, start, before);
      var kept, now := WithoutRefusals(w, before), LastNow(start, before);
      var w1, w2 := After(w, before), After(w, kept);
      if Refused(w1, e) {
        RefusalSimilar(w1, w2, now, e);
        assert WithoutRefusals(w, es) == kept;
      } else {
        StepSimilar(w1, w2, now, e);
        assert (kept + [e])[..|kept + [e]| - 1] == kept;
      }
    }
  }

  lemma Nothing(w: World)
    ensures Legal(w, []) && After(w, []) == w && Replies(w, []) == []
    ensures WithoutRefusals(w, []) == [] && RepliesToOthers(w, []) == []
  {
  }

  /** One more event, refused or not. */
  lemma OneMoreKept(w: World, es: seq<Event>, e: Event)
    requires Legal(w, es) && Possible(After(w, es), e)
    ensures Legal(w, es + [e]) && After(w, es + [e]) == Step(After(w, es), e).0
    ensures Replies(w, es + [e]) == Replies(w, es) + [Step(After(w, es), e).1]
    ensures WithoutRefusals(w, es + [e]) == WithoutRefusals(w, es) + if Refused(After(w, es), e) then [] else [e]
    ensures RepliesToOthers(w, es + [e]) == RepliesToOthers(w, es) + if Refused(After(w, es), e) then [] else [Step(After(w, es), e).1]
  {
    OneMore(w, es, e);
    hide Step, Possible, Legal, After, Replies;
  }

  /** `es` is a possible history of requests, and one of the answers changes when its refused requests are deleted. */
  predicate Noticed(w: World, es: seq<Event>) {
    && Legal(w, es) && Legal(w, WithoutRefusals(w, es))
    && Replies(w, WithoutRefusals(w, es)) != RepliesToOthers(w, es)
    && forall e :: e in es ==> e.Admit?
  }

  /**
   With a clock that steps back the conclusion fails for the token budget: after
   a refusal at 10, a request at 5 finds the ten tokens that were not there yet.
   */
  lemma RefusalEarnsTokens() returns (cfg: TenantConfig, es: seq<Event>)
    ensures cfg.requestsPerSecond > 0.0 && !Monotone(0.0, es) && Noticed(Fresh(cfg, 0.0), es)
  {
    hide Step, Fresh, Legal, After, Replies, WithoutRefusals, RepliesToOthers;
    cfg := TenantConfig("t", Free, 60, 1.0, 2);
    var e0, e1, e2 := Admit(0.0, 60), Admit(10.0, 50), Admit(5.0, 8);
    var w := Fresh(cfg, 0.0);
    TokenWitness(cfg);
    Nothing(w);
    OneMoreKept(w, [], e0);
    assert [] + [e0] == [e0];
    OneMoreKept(w, [e0], e1);
    OneMoreKept(w, [e0] + [e1], e2);
    OneMoreKept(w, [e0], e2);
    es := [e0] + [e1] + [e2];
    BackwardClock(es);
    assert WithoutRefusals(w, es) == [e0] + [e2];
    assert RepliesToOthers(w, es)[1] == Answered(None) && Replies(w, [e0] + [e2])[1] == Answered(Some(TokenBudget));
  }

  lemma TokenWitness(cfg: TenantConfig)
    requires cfg == TenantConfig("t", Free, 60, 1.0, 2)
    ensures Step(Fresh(cfg, 0.0), Admit(0.0, 60)).1 == Answered(None)
    ensures var w1 := Step(Fresh(cfg, 0.0), Admit(0.0, 60)).0;
      && Step(w1, Admit(5.0, 8)).1 == Answered(Some(TokenBudget))
      && Step(w1, Admit(10.0, 50)).1 == Answered(Some(TokenBudget))
      && Step(Step(w1, Admit(10.0, 50)).0, Admit(5.0, 8)).1 == Answered(None)
  {
    var account := AfterFirst(cfg);
    assert Admission(account, 10.0, 50) ==
      (account.(requests := BucketState(1.0, 1.0, 1.0, 10.0), tokens := BucketState(60.0, 1.0, 10.0, 10.0)), Some(TokenBudget));
  }

  lemma AfterFirst(cfg: TenantConfig) returns (a: AccountState)
    requires cfg == TenantConfig("t", Free, 60, 1.0, 2)
    ensures a == AccountState(BucketState(1.0, 1.0, 0.0, 0.0), BucketState(60.0, 1.0, 0.0, 0.0), 1, 2)
    ensures Admission(FreshAccount(cfg, 0.0), 0.0, 60) == (a, None)
  {
    a := AccountState(BucketState(1.0, 1.0, 0.0, 0.0), BucketState(60.0, 1.0, 0.0, 0.0), 1, 2);
  }

  /**
   And it fails for the request rate: at one request in ten seconds, refusals at
   5 and 1 let the request at 6 in, which would have come too early.
   */
  lemma RefusalsEarnRate() returns (cfg: TenantConfig, es: seq<Event>)
    ensures cfg.requestsPerSecond > 0.0 && !Monotone(0.0, es) && Noticed(Fresh(cfg, 0.0), es)
  {
    hide Step, Fresh, Legal, After, Replies, WithoutRefusals, RepliesToOthers;
    cfg := TenantConfig("t", Free, 60, 0.1, 2);
    var e0, e1, e2, e3 := Admit(0.0, 0), Admit(5.0, 0), Admit(1.0, 0), Admit(6.0, 0);
    var w := Fresh(cfg, 0.0);
    RateWitness(cfg);
    Nothing(w);
    OneMoreKept(w, [], e0);
    assert [] + [e0] == [e0];
    OneMoreKept(w, [e0], e1);
    OneMoreKept(w, [e0] + [e1], e2);
    OneMoreKept(w, [e0] + [e1] + [e2], e3);
    OneMoreKept(w, [e0], e3);
    es := [e0] + [e1] + [e2] + [e3];
    BackwardInside(es);
    assert WithoutRefusals(w, es) == [e0] + [e3];
    assert RepliesToOthers(w, es)[1] == Answered(None) && Replies(w, [e0] + [e3])[1] == Answered(Some(RateLimited));
  }

  lemma RateWitness(cfg: TenantConfig)
    requires cfg == TenantConfig("t", Free, 60, 0.1, 2)
    ensures var w1 := Step(Fresh(cfg, 0.0), Admit(0.0, 0)).0;
      var w2 := Step(w1, Admit(5.0, 0)).0;
      var w3 := Step(w2, Admit(1.0, 0)).0;
      && Step(Fresh(cfg, 0.0), Admit(0.0, 0)).1 == Answered(None)
      && Step(w1, Admit(5.0, 0)).1 == Answered(Some(RateLimited))
      && Step(w2, Admit(1.0, 0)).1 == Answered(Some(RateLimited))
      && Step(w3, Admit(6.0, 0)).1 == Answered(None)
      && Step(w1, Admit(6.0, 0)).1 == Answered(Some(RateLimited))
  {
    var tokens := BucketState(60.0, 1.0, 60.0, 0.0);
    var a1 := AccountState(BucketState(1.0, 0.1, 0.0, 0.0), tokens, 1, 2);
    var a2 := AccountState(BucketState(1.0, 0.1, 0.5, 5.0), tokens, 1, 2);
    var a3 := AccountState(BucketState(1.0, 0.1, 0.5, 1.0), tokens, 1, 2);
    assert Admission(FreshAccount(cfg, 0.0), 0.0, 0) == (a1, None);
    assert Admission(a1, 5.0, 0) == (a2, Some(RateLimited));
    assert Admission(a2, 1.0, 0) == (a3, Some(RateLimited));
  }

  lemma BackwardClock(es: seq<Event>)
    requires |es| == 3 && es[1].Admit? && es[2].Admit? && es[2].now < es[1].now
    ensures !Monotone(0.0, es)
  {
    assert es[..2][1] == es[1];
  }

  lemma BackwardInside(es: seq<Event>)
    requires |es| == 4 && es[1].Admit? && es[2].Admit? && es[2].now < es[1].now
    ensures !Monotone(0.0, es)
  {
    BackwardClock(es[..3]);
  }

  lemma SimilarToItself(w: World, t: real)
    requires Inv(w) && TouchedBy(w, t)
    ensures Similar(w, w, t)
  {
  }
}
