/** What every push and pop keeps, and what each does to every tenant's queue. */
module FairQueueInvariant {
  import opened FairQueueSpec

  // ----- Total -----

  lemma {:induction false} TotalConcat<T>(a: seq<Key>, b: seq<Key>, queues: map<Key, TenantQueue<T>>)
    requires forall k :: k in a || k in b ==> k in queues
    ensures Total(a + b, queues) == Total(a, queues) + Total(b, queues)
  {
    if a == [] {
      assert a + b == b;
    } else {
      assert (a + b)[1..] == a[1..] + b;
      TotalConcat(a[1..], b, queues);
    }
  }

  lemma {:induction false} TotalCongruent<T>(keys: seq<Key>, queues: map<Key, TenantQueue<T>>, queues': map<Key, TenantQueue<T>>)
    requires forall k :: k in keys ==> k in queues && k in queues' && |queues[k].items| == |queues'[k].items|
    ensures Total(keys, queues) == Total(keys, queues')
  {
    if keys != [] {
      TotalCongruent(keys[1..], queues, queues');
    }
  }

  /** Replacing one tenant's queue changes the total by the difference in length. */
  lemma {:induction false} TotalUpdate<T>(keys: seq<Key>, queues: map<Key, TenantQueue<T>>, key: Key, t: TenantQueue<T>)
    requires NoDuplicates(keys) && key in keys && forall k :: k in keys ==> k in queues
    ensures Total(keys, queues[key := t]) == Total(keys, queues) - |queues[key].items| + |t.items|
  {
    if keys[0] == key {
      TotalCongruent(keys[1..], queues, queues[key := t]);
    } else {
      TotalUpdate(keys[1..], queues, key, t);
    }
  }

  lemma TotalJoin<T>(keys: seq<Key>, queues: map<Key, TenantQueue<T>>, key: Key, t: TenantQueue<T>)
    requires key !in keys && forall k :: k in keys ==> k in queues
    ensures Total(keys + [key], queues[key := t]) == Total(keys, queues) + |t.items|
  {
    TotalConcat(keys, [key], queues[key := t]);
    TotalCongruent(keys, queues, queues[key := t]);
  }

  // ----- push -----

  lemma PushStructured<T>(q: Queue<T>, key: Key, weight: real, item: T)
    requires Structured(q) && weight > 0.0
    ensures Structured(Push(q, key, weight, item).0)
  {
    var q' := Push(q, key, weight, item).0;
    assert forall k :: k in q'.active <==> k in q.active || (k == key && q.len < q.capacity);
  }

  lemma PushTotal<T>(q: Queue<T>, key: Key, weight: real, item: T)
    requires Structured(q) && q.len < q.capacity && Structured(Push(q, key, weight, item).0)
    ensures var q' := Push(q, key, weight, item).0;
      Total(q'.active, q'.queues) == Total(q.active, q.queues) + 1
  {
    if key in q.queues {
      var t := q.queues[key];
      TotalUpdate(q.active, q.queues, key, t.(items := t.items + [item]));
    } else {
      TotalJoin(q.active, q.queues, key, TenantQueue([item], weight, 0.0));
    }
  }

  lemma PushCredited<T>(q: Queue<T>, key: Key, weight: real, item: T)
    requires Structured(q) && Credited(q) && Structured(Push(q, key, weight, item).0)
    ensures Credited(Push(q, key, weight, item).0)
  {
    assert q.turnStarted ==> Push(q, key, weight, item).0.active[0] == q.active[0];
  }

  /** A push keeps the invariant. */
  lemma PushWellFormed<T>(q: Queue<T>, key: Key, weight: real, item: T)
    requires WellFormed(q) && weight > 0.0
    ensures WellFormed(Push(q, key, weight, item).0)
  {
    PushStructured(q, key, weight, item);
    PushCredited(q, key, weight, item);
    if q.len < q.capacity {
      PushTotal(q, key, weight, item);
    }
  }

  /** A push keeps the invariant if and only if it brings in no tenant without a positive weight. */
  lemma PushKeeps<T>(q: Queue<T>, key: Key, weight: real, item: T)
    requires WellFormed(q)
    ensures WellFormed(Push(q, key, weight, item).0) <==> q.len >= q.capacity || key in q.queues || weight > 0.0
  {
    if q.len < q.capacity && key !in q.queues && weight <= 0.0 {
      assert Push(q, key, weight, item).0.queues[key].weight <= 0.0;
    } else {
      PushWellFormed(q, key, if weight > 0.0 then weight else 1.0, item);
    }
  }

  // ----- serving -----

  /** The front tenant can pay, everybody else is short of a full credit. */
  ghost predicate ReadyToServe<T>(q: Queue<T>) {
    && Structured(q) && q.active != []
    && (forall k :: k in q.queues ==> q.queues[k].deficit >= 0.0)
    && (forall k :: k in q.queues && k != q.active[0] ==> q.queues[k].deficit < 1.0)
    && q.queues[q.active[0]].deficit >= 1.0
    && 0 < q.len == Total(q.active, q.queues)
  }

  lemma ServeTotal<T>(q: Queue<T>)
    requires ReadyToServe(q) && Structured(Serve(q).0)
    ensures Total(Serve(q).0.active, Serve(q).0.queues) == q.len - 1
  {
    var key, rest, q' := q.active[0], q.active[1..], Serve(q).0;
    if q.queues[key].items[1..] == [] {
      TotalCongruent(rest, q.queues, q'.queues);
    } else if q'.turnStarted {
      TotalUpdate(q.active, q.queues, key, q'.queues[key]);
    } else {
      TotalJoin(rest, q.queues, key, q'.queues[key]);
    }
  }

  lemma ServeStructured<T>(q: Queue<T>)
    requires ReadyToServe(q)
    ensures Structured(Serve(q).0)
  {
    var key, rest := q.active[0], q.active[1..];
    assert q.active == [key] + rest;
    assert forall k :: k in q.active <==> k == key || k in rest;
    assert key !in rest;
  }

  lemma ServeCredited<T>(q: Queue<T>)
    requires ReadyToServe(q) && Structured(Serve(q).0)
    ensures Credited(Serve(q).0)
  {
    assert forall k :: k in q.active[1..] ==> k in q.active;
  }

  lemma ServeWellFormed<T>(q: Queue<T>)
    requires ReadyToServe(q) && q.len <= q.capacity
    ensures WellFormed(Serve(q).0)
    ensures Serve(q).0.len == q.len - 1 && Serve(q).0.capacity == q.capacity && Serve(q).1.Some?
  {
    ServeStructured(q);
    ServeCredited(q);
    ServeTotal(q);
    var q' := Serve(q).0;
    assert q'.len == q.len - 1 == Total(q'.active, q'.queues);
  }

  // ----- granting credit -----

  /** In round `m` position `p` is the first to reach a full credit. */
  ghost predicate FirstToPay<T>(q: Queue<T>, p: nat, m: nat)
    requires Structured(q)
  {
    && p < |q.active| && m >= 1
    && Credit(q.queues[q.active[p]], m) >= 1.0
    && (forall i :: 0 <= i < p ==> Credit(q.queues[q.active[i]], m) < 1.0)
    && (forall i :: p <= i < |q.active| ==> Credit(q.queues[q.active[i]], m - 1) < 1.0)
  }

  lemma WinnerPaysFirst<T>(q: Queue<T>)
    requires WellFormed(q) && q.active != [] && !q.turnStarted
    ensures FirstToPay(q, ServedIndex(q), Rounds(q))
  {
    var p, m := ServedIndex(q), Rounds(q);
    forall i | 0 <= i < |q.active|
      ensures i < p ==> Credit(q.queues[q.active[i]], m) < 1.0
      ensures i >= p ==> Credit(q.queues[q.active[i]], m - 1) < 1.0
    {
      var t := q.queues[q.active[i]];
      NeedIsLeast(t, m);
      if m > 1 {
        NeedIsLeast(t, m - 1);
      } else {
        assert Credit(t, 0) == t.deficit;
      }
    }
  }

  /** Position and round of the first to pay are determined. */
  lemma FirstToPayUnique<T>(q: Queue<T>, p: nat, m: nat, p': nat, m': nat)
    requires Structured(q) && FirstToPay(q, p, m) && FirstToPay(q, p', m')
    ensures p == p' && m == m'
  {
    if m < m' {
      CreditMonotone(q.queues[q.active[p]], m, m' - 1);
      CreditMonotone(q.queues[q.active[p]], m' - 1, m');
      assert false;
    } else if m' < m {
      CreditMonotone(q.queues[q.active[p']], m', m - 1);
      CreditMonotone(q.queues[q.active[p']], m - 1, m);
      assert false;
    }
  }

  lemma RotationKeepsKeys(keys: seq<Key>, p: nat)
    requires NoDuplicates(keys) && p <= |keys|
    ensures NoDuplicates(Rotated(keys, p))
    ensures forall k :: k in keys <==> k in Rotated(keys, p)
  {
    assert keys == keys[..p] + keys[p..];
  }

  lemma GrantedStructured<T>(q: Queue<T>, p: nat, m: nat)
    requires Structured(q) && p < |q.active| && m >= 1
    ensures Structured(Granted(q, p, m))
    ensures Total(Granted(q, p, m).active, Granted(q, p, m).queues) == Total(q.active, q.queues)
  {
    RotationKeepsKeys(q.active, p);
    assert q.active == q.active[..p] + q.active[p..];
    TotalConcat(q.active[..p], q.active[p..], q.queues);
    TotalConcat(q.active[p..], q.active[..p], q.queues);
    TotalCongruent(Rotated(q.active, p), q.queues, Granted(q, p, m).queues);
  }

  /** The credit that the serving turn finds. */
  lemma GrantedCredit<T>(q: Queue<T>, p: nat, m: nat, i: nat)
    requires Structured(q) && p < |q.active| && m >= 1 && i < |q.active|
    ensures var k := q.active[i];
      Granted(q, p, m).queues[k] == q.queues[k].(deficit := Credit(q.queues[k], if i <= p then m else m - 1))
  {
    assert q.active[i] in q.active[..p + 1] <==> i <= p;
  }

  lemma GrantedReady<T>(q: Queue<T>, p: nat, m: nat)
    requires WellFormed(q) && q.active != [] && !q.turnStarted && FirstToPay(q, p, m)
    ensures ReadyToServe(Granted(q, p, m))
  {
    var g := Granted(q, p, m);
    GrantedStructured(q, p, m);
    LenPositive(q);
    forall k | k in g.queues
      ensures g.queues[k].deficit >= 0.0
      ensures k == g.active[0] ==> g.queues[k].deficit >= 1.0
      ensures k != g.active[0] ==> g.queues[k].deficit < 1.0
    {
      var i :| 0 <= i < |q.active| && q.active[i] == k;
      GrantedCredit(q, p, m, i);
      CreditMonotone(q.queues[k], 0, if i <= p then m else m - 1);
    }
  }

  // ----- pop -----

  /** The queue in which pop serves the front tenant. */
  function Served<T>(q: Queue<T>): Queue<T>
    requires Structured(q) && q.active != []
  {
    if q.turnStarted then q else Granted(q, ServedIndex(q), Rounds(q))
  }

  lemma PopServes<T>(q: Queue<T>)
    requires WellFormed(q) && q.active != []
    ensures ReadyToServe(Served(q)) && Pop(q) == Serve(Served(q))
    ensures Served(q).active[0] == q.active[ServedIndex(q)]
    ensures Served(q).capacity == q.capacity && Served(q).len == q.len
  {
    LenPositive(q);
    if !q.turnStarted {
      WinnerPaysFirst(q);
      GrantedReady(q, ServedIndex(q), Rounds(q));
    }
  }

  /** A pop keeps the invariant and returns an item exactly when one waits. */
  lemma PopWellFormed<T>(q: Queue<T>)
    requires WellFormed(q)
    ensures q.active != [] ==> q.len > 0
    ensures WellFormed(Pop(q).0) && Pop(q).0.capacity == q.capacity
    ensures Pop(q).1.Some? <==> q.len > 0
    ensures Pop(q).0.len == if q.len > 0 then q.len - 1 else 0
  {
    LenPositive(q);
    if q.active != [] {
      PopServes(q);
      ServeWellFormed(Served(q));
    }
  }
}
