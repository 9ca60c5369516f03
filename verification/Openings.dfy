/** That the limits can be used in full: what a new tenant's requests are answered, in numbers of its configuration. */
module Openings {
  import opened Prelude
  import opened Buckets
  import opened Tenants
  import opened TenantHistory

  /** Requests at one instant, one for each reservation. */
  function Requests(now: real, reserves: seq<nat>): (es: seq<Event>)
    ensures |es| == |reserves|
  {
    if reserves == [] then []
    else Requests(now, reserves[..|reserves| - 1]) + [Admit(now, reserves[|reserves| - 1])]
  }

  function Tokens(reserves: seq<nat>): nat {
    if reserves == [] then 0 else Tokens(reserves[..|reserves| - 1]) + reserves[|reserves| - 1]
  }

  /** The requests that may come at once: one second's worth, and at least one. */
  function Burst(cfg: TenantConfig): real {
    if cfg.requestsPerSecond < 1.0 then 1.0 else cfg.requestsPerSecond
  }

  /** The requests together stay within every limit. */
  predicate FitAtOnce(cfg: TenantConfig, reserves: seq<nat>) {
    && |reserves| <= cfg.maxConcurrent
    && |reserves| as real <= Burst(cfg)
    && Tokens(reserves) <= cfg.tokensPerMinute
  }

  predicate AllAdmitted(replies: seq<Reply>) {
    forall i :: 0 <= i < |replies| ==> replies[i] == Answered(None)
  }

  /** The answer to a request for `n` tokens, `time` after `reserves` were admitted to a new account. */
  function AnswerAfter(cfg: TenantConfig, reserves: seq<nat>, time: real, n: nat): Option<AdmitError> {
    var tpm := cfg.tokensPerMinute as real;
    if |reserves| >= cfg.maxConcurrent then Some(ConcurrencyLimited)
    else if Min(Burst(cfg) - |reserves| as real + Earned(cfg.requestsPerSecond, time), Burst(cfg)) < 1.0 then Some(RateLimited)
    else if Min(tpm - Tokens(reserves) as real + Earned(tpm / 60.0, time), tpm) < n as real then Some(TokenBudget)
    else None
  }

  /** The account once `reserves` have been admitted. */
  function Opened(cfg: TenantConfig, start: real, reserves: seq<nat>): AccountState {
    var tpm := cfg.tokensPerMinute as real;
    AccountState(
      BucketState(Burst(cfg), cfg.requestsPerSecond, Burst(cfg) - |reserves| as real, start),
      BucketState(tpm, tpm / 60.0, tpm - Tokens(reserves) as real, start),
      |reserves|, cfg.maxConcurrent)
  }

  lemma OpenedAnswers(cfg: TenantConfig, start: real, reserves: seq<nat>, t: real, n: nat)
    ensures Admission(Opened(cfg, start, reserves), t, n).1 == AnswerAfter(cfg, reserves, Max(t - start, 0.0), n)
  {
    hide BucketState.Refilled, Tokens, Burst, Earned;
    RefillFinds(Opened(cfg, start, reserves).requests, t);
    RefillFinds(Opened(cfg, start, reserves).tokens, t);
  }

  /** At the start one request more is admitted exactly when it still fits. */
  lemma OneMoreAtOnce(cfg: TenantConfig, start: real, reserves: seq<nat>, n: nat)
    requires FitAtOnce(cfg, reserves)
    ensures Tokens(reserves + [n]) == Tokens(reserves) + n
    ensures AnswerAfter(cfg, reserves, 0.0, n).None? <==> FitAtOnce(cfg, reserves + [n])
    ensures FitAtOnce(cfg, reserves + [n]) ==>
      Admission(Opened(cfg, start, reserves), start, n) == (Opened(cfg, start, reserves + [n]), None)
  {
    assert (reserves + [n])[..|reserves + [n]| - 1] == reserves;
    OpenedAnswers(cfg, start, reserves, start, n);
  }

  lemma {:induction false} FitsBefore(cfg: TenantConfig, reserves: seq<nat>)
    requires FitAtOnce(cfg, reserves) && reserves != []
    ensures FitAtOnce(cfg, reserves[..|reserves| - 1])
  {
  }

  /** Requests that fit are admitted, and leave the account that much emptier. */
  lemma {:induction false} OpeningAccount(cfg: TenantConfig, start: real, reserves: seq<nat>)
    requires FitAtOnce(cfg, reserves)
    ensures var w, es := Fresh(cfg, start), Requests(start, reserves);
      && Legal(w, es) && After(w, es).account == Opened(cfg, start, reserves)
      && |Replies(w, es)| == |reserves| && AllAdmitted(Replies(w, es))
  {
    hide Admission, Opened;
    if reserves == [] {
      assert Fresh(cfg, start).account == Opened(cfg, start, []) by { FreshOpened(cfg, start); }
    } else {
      var before, n := reserves[..|reserves| - 1], reserves[|reserves| - 1];
      assert reserves == before + [n];
      FitsBefore(cfg, reserves);
      OpeningAccount(cfg, start, before);
      OneMoreAtOnce(cfg, start, before, n);
      OneMore(Fresh(cfg, start), Requests(start, before), Admit(start, n));
    }
  }

  lemma FreshOpened(cfg: TenantConfig, start: real)
    ensures Fresh(cfg, start).account == Opened(cfg, start, [])
  {
  }

  /**
   Every limit can be used in full at once, and none can be exceeded: requests at
   the start are all admitted if and only if their number is within the burst and
   the concurrency limit and their reservations are within a minute's tokens.
   */
  lemma {:induction false} AllAdmittedIff(cfg: TenantConfig, start: real, reserves: seq<nat>)
    ensures var w, es := Fresh(cfg, start), Requests(start, reserves);
      && Legal(w, es) && |Replies(w, es)| == |reserves|
      && (AllAdmitted(Replies(w, es)) <==> FitAtOnce(cfg, reserves))
  {
    hide FitAtOnce, Step, AnswerAfter, Admission, Fresh, Legal, After, Replies;
    if reserves == [] {
      NothingFits(cfg, start);
    } else {
      var before, n := reserves[..|reserves| - 1], reserves[|reserves| - 1];
      var w, es := Fresh(cfg, start), Requests(start, before);
      assert reserves == before + [n];
      AllAdmittedIff(cfg, start, before);
      if FitAtOnce(cfg, reserves) { FitsBefore(cfg, reserves); }
      OneMore(w, es, Admit(start, n));
      if FitAtOnce(cfg, before) {
        OneMoreAtOnce(cfg, start, before, n);
        ReplyAfterOpening(cfg, start, before, start, n);
      }
      AllAndOneMore(Replies(w, es), Step(After(w, es), Admit(start, n)).1);
    }
  }

  lemma NothingFits(cfg: TenantConfig, start: real)
    ensures FitAtOnce(cfg, []) && Legal(Fresh(cfg, start), []) && Replies(Fresh(cfg, start), []) == []
  {
  }

  lemma AllAndOneMore(replies: seq<Reply>, r: Reply)
    ensures AllAdmitted(replies + [r]) <==> AllAdmitted(replies) && r == Answered(None)
  {
    assert (replies + [r])[|replies|] == r;
    assert forall i :: 0 <= i < |replies| ==> (replies + [r])[i] == replies[i];
  }

  /**
   And they come back at the configured rates: after an opening that fitted, the
   next request, at any later time, is answered by what is left and what has been
   earned since, up to burst and budget.
   */
  lemma ReplyAfterOpening(cfg: TenantConfig, start: real, reserves: seq<nat>, t: real, n: nat)
    requires FitAtOnce(cfg, reserves)
    ensures var w, es := Fresh(cfg, start), Requests(start, reserves);
      Legal(w, es) && Step(After(w, es), Admit(t, n)).1 == Answered(AnswerAfter(cfg, reserves, Max(t - start, 0.0), n))
  {
    hide Admission, Opened, AnswerAfter, FitAtOnce;
    OpeningAccount(cfg, start, reserves);
    OpenedAnswers(cfg, start, reserves, t, n);
  }
}
