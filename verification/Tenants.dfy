/**
 The accounts of tenants. Each has two lazily refilled token buckets and a
 count of live leases. The states are values; the classes are the objects that
 hold them, updated in place under the tenant's lock. Instants are real numbers
 of seconds.
 */
module Tenants {
  import opened Prelude
  import opened Tiers

  datatype AdmitError = RateLimited | ConcurrencyLimited | TokenBudget

  function Max(x: real, y: real): real { if x < y then y else x }
  function Min(x: real, y: real): real { if x < y then x else y }

  /** A token bucket at the time of its last touch. */
  datatype BucketState = BucketState(capacity: real, perSec: real, level: real, last: real) {

    /** Time since the bucket was last touched, 0 if the clock has stepped back. */
    function Elapsed(now: real): real { Max(now - last, 0.0) }

    function Refilled(now: real): BucketState {
      BucketState(
        capacity, perSec,
        if Elapsed(now) > 0.0 then Min(level + Elapsed(now) * perSec, capacity) else level,
        now)
    }

    function Take(n: real): BucketState { this.(level := level - n) }

    /** Give back `n`, which is negative when more was used than reserved. */
    function Refund(n: real): BucketState { this.(level := Min(level + n, capacity)) }
  }

  datatype AccountState = AccountState(requests: BucketState, tokens: BucketState, active: nat, maxConcurrent: nat)

  /** Every limit is checked before anything is taken, but each bucket looked at has been refilled. */
  function Admission(a: AccountState, now: real, reserve: nat): (AccountState, Option<AdmitError>) {
    if a.active >= a.maxConcurrent then (a, Some(ConcurrencyLimited))
    else
      var a1 := a.(requests := a.requests.Refilled(now));
      if a1.requests.level < 1.0 then (a1, Some(RateLimited))
      else
        var a2 := a1.(tokens := a.tokens.Refilled(now));
        if a2.tokens.level < reserve as real then (a2, Some(TokenBudget))
        else
          (a2.(requests := a2.requests.Take(1.0), tokens := a2.tokens.Take(reserve as real), active := a.active + 1), None)
  }

  /** A lease is dropped: one less is active, and what was reserved and not used goes back. */
  function Settlement(a: AccountState, reserved: nat, used: nat, now: real): AccountState {
    a.(active := if a.active == 0 then 0 else a.active - 1,
       tokens := a.tokens.Refilled(now).Refund(reserved as real - used as real))
  }

  datatype TenantConfig = TenantConfig(
    id: string, tier: Tier, tokensPerMinute: nat, requestsPerSecond: real, maxConcurrent: nat)

  /** The account of a newly configured tenant: both buckets full. */
  function FreshAccount(cfg: TenantConfig, now: real): AccountState {
    var tpm := cfg.tokensPerMinute as real;
    AccountState(
      BucketState(Max(cfg.requestsPerSecond, 1.0), cfg.requestsPerSecond, Max(cfg.requestsPerSecond, 1.0), now),
      BucketState(tpm, tpm / 60.0, tpm, now),
      0, cfg.maxConcurrent)
  }

  class Bucket {
    const capacity: real
    const perSec: real
    var level: real
    var last: real

    ghost function View(): BucketState
      reads this
    {
      BucketState(capacity, perSec, level, last)
    }

    constructor Full(capacity: real, perSec: real, now: real)
      ensures View() == BucketState(capacity, perSec, capacity, now)
    {
      this.capacity, this.perSec, level, last := capacity, perSec, capacity, now;
    }

    method Refill(now: real)
      modifies this
      ensures View() == old(View()).Refilled(now)
    {
      var dt := if now - last > 0.0 then now - last else 0.0;
      if dt > 0.0 {
        level := level + dt * perSec;
        if level > capacity { level := capacity; }
      }
      last := now;
    }
  }

  class Tenant {
    const id: string
    const tier: Tier
    const maxConcurrent: nat
    const requests: Bucket
    const tokens: Bucket
    var active: nat

    ghost predicate Valid() {
      requests != tokens
    }

    ghost function View(): AccountState
      reads this, requests, tokens
    {
      AccountState(requests.View(), tokens.View(), active, maxConcurrent)
    }

    constructor FromConfig(cfg: TenantConfig, now: real)
      ensures Valid() && fresh(requests) && fresh(tokens)
      ensures id == cfg.id && tier == cfg.tier && View() == FreshAccount(cfg, now)
    {
      id, tier, maxConcurrent, active := cfg.id, cfg.tier, cfg.maxConcurrent, 0;
      var tpm := cfg.tokensPerMinute as real;
      var burst := if cfg.requestsPerSecond < 1.0 then 1.0 else cfg.requestsPerSecond;
      var requests := new Bucket.Full(burst, cfg.requestsPerSecond, now);
      var tokens := new Bucket.Full(tpm, tpm / 60.0, now);
      this.requests, this.tokens := requests, tokens;
    }

    /** The limits are looked at in this order, each bucket after a refill, and nothing is taken before the last. */
    method Admit(now: real, reserve: nat) returns (r: AdmitResult)
      requires Valid()
      modifies this, requests, tokens
      ensures View() == Admission(old(View()), now, reserve).0
      ensures Admission(old(View()), now, reserve).1 == if r.Refused? then Some(r.error) else None
      ensures r.Admitted? ==>
        fresh(r.lease) && r.lease.tenant == this && r.lease.reserved == reserve && r.lease.used == 0
    {
      if active >= maxConcurrent {
        return Refused(ConcurrencyLimited);
      }
      requests.Refill(now);
      if requests.level < 1.0 {
        return Refused(RateLimited);
      }
      tokens.Refill(now);
      if tokens.level < reserve as real {
        return Refused(TokenBudget);
      }
      requests.level := requests.level - 1.0;
      tokens.level := tokens.level - reserve as real;
      active := active + 1;
      var lease := new Lease(this, reserve);
      return Admitted(lease);
    }

    /** The level after a refill: looking is a touch. */
    method TokensAvailable(now: real) returns (level: real)
      requires Valid()
      modifies tokens
      ensures View() == old(View()).(tokens := old(View()).tokens.Refilled(now))
      ensures level == View().tokens.level
    {
      tokens.Refill(now);
      level := tokens.level;
    }
  }

  datatype AdmitResult = Admitted(lease: Lease) | Refused(error: AdmitError)

  /** What an admitted request holds until it ends. */
  class Lease {
    const tenant: Tenant
    const reserved: nat
    var used: nat

    constructor (tenant: Tenant, reserved: nat)
      ensures this.tenant == tenant && this.reserved == reserved && used == 0
    {
      this.tenant, this.reserved, used := tenant, reserved, 0;
    }

    /** Only the lease changes; the account learns of the tokens when it is dropped. */
    method RecordTokens(n: nat)
      modifies this
      ensures used == old(used) + n
    {
      used := used + n;
    }

    /** Settle the account. Ownership lets a lease be dropped once only. */
    method Drop(now: real)
      requires tenant.Valid()
      modifies tenant, tenant.tokens
      ensures tenant.View() == Settlement(old(tenant.View()), reserved, used, now)
    {
      tenant.active := if tenant.active == 0 then 0 else tenant.active - 1;
      tenant.tokens.Refill(now);
      var delta := reserved as real - used as real;
      tenant.tokens.level := tenant.tokens.level + delta;
      if tenant.tokens.level > tenant.tokens.capacity { tenant.tokens.level := tenant.tokens.capacity; }
    }
  }
}
