/** The queue the scheduler keeps behind its lock: per-tenant FIFOs served by deficit round robin. */
module FairQueues {
  import opened Prelude
  import opened FairQueueSpec
  import opened FairQueueInvariant

  // ----- The loop in pop: turns in which nobody can pay -----

  /** The queue after `round` full rotations and `j` further turns, all of them passed on. */
  ghost function Advanced<T>(q: Queue<T>, round: nat, j: nat): Queue<T>
    requires j <= |q.active|
  {
    q.(queues := WithTurns(q, round, j), active := Rotated(q.active, j))
  }

  ghost predicate NobodyPaid<T>(q: Queue<T>, round: nat, j: nat)
    requires Structured(q)
  {
    && j <= |q.active|
    && (forall i :: 0 <= i < j ==> Credit(q.queues[q.active[i]], round + 1) < 1.0)
    && (forall i :: j <= i < |q.active| ==> Credit(q.queues[q.active[i]], round) < 1.0)
  }

  lemma NoTurnsYet<T>(q: Queue<T>)
    requires WellFormed(q) && !q.turnStarted
    ensures Advanced(q, 0, 0) == q && NobodyPaid(q, 0, 0)
  {
    assert WithTurns(q, 0, 0) == q.queues;
  }

  /** While nobody has paid, the serving round is still ahead. */
  lemma RoundAhead<T>(q: Queue<T>, p: nat, m: nat, round: nat, j: nat)
    requires Structured(q) && FirstToPay(q, p, m) && j < |q.active| && NobodyPaid(q, round, j)
    ensures round < m
    ensures Credit(q.queues[q.active[j]], round + 1) >= 1.0 <==> (round + 1 == m && j == p)
  {
    if m <= round {
      CreditMonotone(q.queues[q.active[p]], m, if p < j then round + 1 else round);
      assert false;
    }
    if Credit(q.queues[q.active[j]], round + 1) >= 1.0 {
      assert FirstToPay(q, j, round + 1);
      FirstToPayUnique(q, j, round + 1, p, m);
    }
  }

  /** A turn begins: the front tenant receives its credit. */
  function GrantFront<T>(v: Queue<T>): Queue<T>
    requires v.active != [] && v.active[0] in v.queues
  {
    var t := v.queues[v.active[0]];
    v.(queues := v.queues[v.active[0] := t.(deficit := t.deficit + t.weight)], turnStarted := true)
  }

  /** A turn ends without a dispatch: the next tenant comes to the front. */
  function PassFront<T>(v: Queue<T>): Queue<T>
    requires v.active != []
  {
    v.(active := v.active[1..] + [v.active[0]], turnStarted := false)
  }

  /** The queue after the credit check at the top of the loop: credit is given once per turn. */
  function Started<T>(v: Queue<T>): Queue<T>
    requires v.active != [] && v.active[0] in v.queues
  {
    if v.turnStarted then v else GrantFront(v)
  }

  /** The loop in pop, started in `v`, passes on `fuel` turns and then ends with `result`. */
  ghost predicate LoopEnds<T>(v: Queue<T>, fuel: nat, result: (Queue<T>, Option<T>))
    decreases fuel
  {
    && v.active != [] && v.len > 0 && v.active[0] in v.queues && v.queues[v.active[0]].items != []
    && if fuel == 0 then
         Started(v).queues[v.active[0]].deficit >= 1.0 && Serve(Started(v)) == result
       else
         Started(v).queues[v.active[0]].deficit < 1.0 && LoopEnds(PassFront(Started(v)), fuel - 1, result)
  }

  lemma RotatedFront(keys: seq<Key>, j: nat)
    requires j < |keys|
    ensures Rotated(keys, j) != [] && Rotated(keys, j)[0] == keys[j]
  {
  }

  /** One more turn of credit, for the tenant at position `j`. */
  lemma NextTurn<T>(q: Queue<T>, round: nat, j: nat)
    requires Structured(q) && j < |q.active|
    ensures var key, queues := q.active[j], WithTurns(q, round, j);
      && key in queues && queues[key].deficit == Credit(q.queues[key], round)
      && queues[key := queues[key].(deficit := Credit(q.queues[key], round + 1))] == WithTurns(q, round, j + 1)
    ensures WithTurns(q, round, j + 1)[q.active[j]].deficit == Credit(q.queues[q.active[j]], round + 1)
  {
    hide Credit;
    assert q.active[j] !in q.active[..j];
    assert q.active[..j + 1] == q.active[..j] + [q.active[j]];
  }

  /** Granting the tenant at position `j` its credit for the turn. */
  lemma GrantAdvanced<T>(q: Queue<T>, round: nat, j: nat)
    requires Structured(q) && !q.turnStarted && j < |q.active|
    ensures GrantFront(Advanced(q, round, j)) == Granted(q, j, round + 1).(turnStarted := true)
    ensures Granted(q, j, round + 1).queues[q.active[j]].deficit == Credit(q.queues[q.active[j]], round + 1)
  {
    NextTurn(q, round, j);
    RotatedFront(q.active, j);
    assert Credit(q.queues[q.active[j]], round + 1) == Credit(q.queues[q.active[j]], round) + q.queues[q.active[j]].weight;
    hide Credit, Rotated, WithTurns, Structured;
  }

  /** Passing the turn on. At the end of the rotation a new round begins. */
  lemma PassAdvanced<T>(q: Queue<T>, round: nat, j: nat)
    requires Structured(q) && !q.turnStarted && j < |q.active|
    ensures PassFront(Granted(q, j, round + 1))
         == if j + 1 == |q.active| then Advanced(q, round + 1, 0) else Advanced(q, round, j + 1)
  {
    assert Rotated(q.active, j)[1..] + [q.active[j]] == Rotated(q.active, j + 1);
    if j + 1 == |q.active| {
      assert Rotated(q.active, j + 1) == Rotated(q.active, 0);
      assert q.active[..j + 1] == q.active;
      assert WithTurns(q, round, j + 1) == WithTurns(q, round + 1, 0);
    }
  }

  lemma LoopPassesOn<T>(v: Queue<T>, fuel: nat, result: (Queue<T>, Option<T>))
    requires LoopEnds(v, fuel, result) && Started(v).queues[v.active[0]].deficit < 1.0
    ensures fuel > 0 && LoopEnds(PassFront(Started(v)), fuel - 1, result)
  {
  }

  lemma ServeFlag<T>(q: Queue<T>)
    requires ReadyToServe(q)
    ensures Serve(q.(turnStarted := true)) == Serve(q)
  {
  }

  /** Counting the turns from turn `j` of round `round` to turn `p` of round `last`. */
  ghost function TurnsLeft(n: nat, last: nat, p: nat, round: nat, j: nat): nat
    decreases last - round, n - j
  {
    if round > last || j >= n || (round == last && j == p) then 0
    else if j + 1 == n then 1 + TurnsLeft(n, last, p, round + 1, 0)
    else 1 + TurnsLeft(n, last, p, round, j + 1)
  }

  lemma {:induction false} TurnsLeftClosed(n: nat, last: nat, p: nat, round: nat, j: nat)
    requires round <= last && j < n && p < n && (round == last ==> j <= p)
    ensures TurnsLeft(n, last, p, round, j) == (last - round) * n + p - j
    decreases last - round, n - j
  {
    if !(round == last && j == p) {
      if j + 1 == n {
        TurnsLeftClosed(n, last, p, round + 1, 0);
        assert (last - round) * n == (last - (round + 1)) * n + n;
      } else {
        TurnsLeftClosed(n, last, p, round, j + 1);
      }
    }
  }

  /** The turn in which the loop serves. */
  lemma ServingTurn<T>(q: Queue<T>, round: nat, j: nat)
    requires Structured(q) && !q.turnStarted && q.len > 0 && j < |q.active|
    requires Credit(q.queues[q.active[j]], round + 1) >= 1.0
    requires ReadyToServe(Granted(q, j, round + 1))
    ensures LoopEnds(Advanced(q, round, j), 0, Serve(Granted(q, j, round + 1)))
  {
    GrantAdvanced(q, round, j);
    ServeFlag(Granted(q, j, round + 1));
    var v := Advanced(q, round, j);
    assert v.active[0] == q.active[j];
    assert Started(v) == Granted(q, j, round + 1).(turnStarted := true);
  }

  /** A turn in which the loop does not serve. */
  lemma PassingTurn<T>(q: Queue<T>, round: nat, j: nat, fuel: nat, result: (Queue<T>, Option<T>))
    requires Structured(q) && !q.turnStarted && q.len > 0 && j < |q.active|
    requires Credit(q.queues[q.active[j]], round + 1) < 1.0
    requires LoopEnds(if j + 1 == |q.active| then Advanced(q, round + 1, 0) else Advanced(q, round, j + 1), fuel, result)
    ensures LoopEnds(Advanced(q, round, j), fuel + 1, result)
  {
    GrantAdvanced(q, round, j);
    PassAdvanced(q, round, j);
    var v := Advanced(q, round, j);
    assert v.active[0] == q.active[j];
    assert PassFront(Started(v)) == PassFront(Granted(q, j, round + 1));
  }

  /** The loop reaches turn `p` of round `last`, where `p` and `last` say who pays first. */
  lemma {:induction false} LoopReaches<T>(q: Queue<T>, p: nat, last: nat, round: nat, j: nat, result: (Queue<T>, Option<T>))
    returns (fuel: nat)
    requires Structured(q) && !q.turnStarted && q.len > 0 && FirstToPay(q, p, last + 1)
    requires j < |q.active| && NobodyPaid(q, round, j)
    requires LoopEnds(Advanced(q, last, p), 0, result)
    ensures fuel == TurnsLeft(|q.active|, last, p, round, j)
    ensures LoopEnds(Advanced(q, round, j), fuel, result)
    decreases last - round, |q.active| - j
  {
    hide Advanced, WithTurns, Rotated, LoopEnds;
    RoundAhead(q, p, last + 1, round, j);
    if round == last && j == p {
      fuel := 0;
    } else {
      if j + 1 == |q.active| {
        fuel := LoopReaches(q, p, last, round + 1, 0, result);
      } else {
        fuel := LoopReaches(q, p, last, round, j + 1, result);
      }
      PassingTurn(q, round, j, fuel, result);
      fuel := fuel + 1;
    }
  }

  lemma LoopServesFirstToPay<T>(q: Queue<T>, p: nat, last: nat)
    requires WellFormed(q) && !q.turnStarted && q.len > 0 && FirstToPay(q, p, last + 1)
    requires ReadyToServe(Granted(q, p, last + 1))
    ensures LoopEnds(q, TurnsLeft(|q.active|, last, p, 0, 0), Serve(Granted(q, p, last + 1)))
  {
    NoTurnsYet(q);
    ServingTurn(q, last, p);
    var fuel := LoopReaches(q, p, last, 0, 0, Serve(Granted(q, p, last + 1)));
  }

  /** The turns that a pop passes on before the one in which it serves. */
  ghost function PassedTurns<T>(q: Queue<T>): nat
    requires Structured(q)
  {
    if q.active == [] || q.turnStarted then 0
    else TurnsLeft(|q.active|, Rounds(q) - 1, ServedIndex(q), 0, 0)
  }

  /** The loop computes the closed form. */
  lemma LoopIsPop<T>(q: Queue<T>)
    requires WellFormed(q) && q.active != []
    ensures q.len > 0 && LoopEnds(q, PassedTurns(q), Pop(q))
  {
    hide WithTurns, Rotated, Serve, Need, Winner, Credit, FirstToPay, Granted, TurnsLeft, Total;
    LenPositive(q);
    PopServes(q);
    if !q.turnStarted {
      WinnerPaysFirst(q);
      LoopServesFirstToPay(q, ServedIndex(q), Rounds(q) - 1);
    }
  }

  /**
   The work a pop does: fewer turns are passed on than there are tenants,
   times the turns that the heaviest tenant needs to earn one full credit.
   */
  lemma PassedTurnsBounded<T>(q: Queue<T>, k: Key)
    requires WellFormed(q) && !q.turnStarted && k in q.queues
    ensures q.active != []
    ensures PassedTurns(q) == (Rounds(q) - 1) * |q.active| + ServedIndex(q)
    ensures PassedTurns(q) < |q.active| * Ceil(1.0 / q.queues[k].weight)
  {
    hide WithTurns, Rotated, Winner, Need, Total, ServedIndex, Rounds;
    TurnsLeftClosed(|q.active|, Rounds(q) - 1, ServedIndex(q), 0, 0);
    RoundsBounded(q, k);
    TurnsArithmetic(|q.active|, Rounds(q), ServedIndex(q), Ceil(1.0 / q.queues[k].weight));
  }

  lemma TurnsArithmetic(n: int, m: int, p: int, c: int)
    requires 0 <= p < n && 1 <= m <= c
    ensures (m - 1) * n + p < n * c
  {
    assert n * c == (m - 1) * n + n + (c - m) * n;
    assert (c - m) * n >= 0;
  }

  lemma RoundsBounded<T>(q: Queue<T>, k: Key)
    requires WellFormed(q) && !q.turnStarted && q.active != [] && k in q.queues
    ensures Rounds(q) <= Ceil(1.0 / q.queues[k].weight)
  {
    hide WithTurns, Rotated, Winner, Need, Total, ServedIndex, Rounds, Ceil;
    var m, t := Rounds(q), q.queues[k];
    EarnsOneCredit(t);
    var c := Ceil(1.0 / t.weight);
    WinnerPaysFirst(q);
    var i :| 0 <= i < |q.active| && q.active[i] == k;
    if m > c {
      CreditMonotone(t, c, m - 1);
      CreditMonotone(t, m - 1, m);
      assert false;
    }
  }

  lemma EarnsOneCredit<T>(t: TenantQueue<T>)
    requires t.weight > 0.0 && t.deficit >= 0.0
    ensures Ceil(1.0 / t.weight) >= 1 && Credit(t, Ceil(1.0 / t.weight)) >= 1.0
  {
    var x := 1.0 / t.weight;
    assert x * t.weight == 1.0;
    assert x > 0.0 by { if x <= 0.0 { MulMonotone(x, 0.0, t.weight); } }
    var c := Ceil(x);
    assert 1 <= c && x <= c as real;
    MulMonotone(x, c as real, t.weight);
    CreditIs(t, c);
  }

  class FairQueue<T> {
    var queues: map<Key, TenantQueue<T>>
    /** The keys of `queues` in the order of their turns. */
    var active: seq<Key>
    /** The first key's turn has begun: its credit for this turn is already in its deficit. */
    var turnStarted: bool
    var len: nat
    const capacity: nat

    ghost function View(): Queue<T>
      reads this
    {
      Queue(queues, active, turnStarted, len, capacity)
    }

    ghost predicate Valid()
      reads this
    {
      WellFormed(View())
    }

    constructor (capacity: nat)
      ensures Valid() && View() == Empty(capacity)
    {
      queues, active, turnStarted, len := map[], [], false, 0;
      this.capacity := capacity;
    }

    method Len() returns (n: nat)
      requires Valid()
      ensures n == Total(active, queues)
    {
      n := len;
    }

    method IsEmpty() returns (b: bool)
      requires Valid()
      ensures b <==> active == []
    {
      LenPositive(View());
      b := len == 0;
    }

    method Push(key: Key, weight: real, item: T) returns (r: PushResult<T>)
      requires Valid()
      modifies this
      ensures Valid() <==> r.Rejected? || key in old(queues) || weight > 0.0
      ensures (View(), r) == FairQueueSpec.Push(old(View()), key, weight, item)
    {
      PushKeeps(View(), key, weight, item);
      if len >= capacity {
        return Rejected(item);
      }
      len := len + 1;
      if key in queues {
        var q := queues[key];
        queues := queues[key := q.(items := q.items + [item])];
      } else {
        queues := queues[key := TenantQueue([item], weight, 0.0)];
        active := active + [key];
      }
      return Accepted;
    }

    /** Take the front tenant's first item, which it can pay for. */
    method ServeFront() returns (r: Option<T>)
      requires active != [] && active[0] in queues && len > 0 && queues[active[0]].items != []
      modifies this
      ensures (View(), r) == Serve(old(View()))
    {
      var key := active[0];
      var q := queues[key];
      r := Some(q.items[0]);
      q := q.(deficit := q.deficit - 1.0, items := q.items[1..]);
      len := len - 1;
      if q.items == [] {
        active := active[1..];
        queues := queues - {key};
        turnStarted := false;
      } else {
        queues := queues[key := q];
        turnStarted := true;
        if q.deficit < 1.0 {
          active := active[1..] + [key];
          turnStarted := false;
        }
      }
    }

    /** The front tenant receives its credit, unless its turn had already begun. */
    method StartTurn()
      requires active != [] && active[0] in queues
      modifies this`queues, this`turnStarted
      ensures View() == Started(old(View()))
    {
      var key := active[0];
      if !turnStarted {
        queues := queues[key := queues[key].(deficit := queues[key].deficit + queues[key].weight)];
        turnStarted := true;
      }
    }

    /** The first key goes to the back without being served. */
    method PassTurn()
      requires active != []
      modifies this`active, this`turnStarted
      ensures View() == PassFront(old(View()))
    {
      active := active[1..] + [active[0]];
      turnStarted := false;
    }

    /** The loop in pop; `fuel` is the number of turns that it passes on. */
    method TakeTurns(ghost fuel: nat, ghost result: (Queue<T>, Option<T>)) returns (r: Option<T>)
      requires LoopEnds(View(), fuel, result)
      modifies this
      ensures (View(), r) == result
    {
      ghost var left := fuel;
      while true
        invariant LoopEnds(View(), left, result)
        decreases left
      {
        ghost var v := View();
        StartTurn();
        assert View() == Started(v);
        if queues[active[0]].deficit >= 1.0 {
          r := ServeFront();
          return;
        }
        LoopPassesOn(v, left, result);
        PassTurn();
        assert View() == PassFront(Started(v));
        left := left - 1;
      }
    }

    /** The item that the closed form says, if anything is queued. */
    method Pop() returns (r: Option<T>)
      requires Valid()
      modifies this
      ensures Valid()
      ensures old(active) != [] ==> old(len) > 0
      ensures (View(), r) == FairQueueSpec.Pop(old(View()))
    {
      if active == [] {
        return None;
      }
      PopWellFormed(View());
      LoopIsPop(View());
      r := TakeTurns(PassedTurns(View()), FairQueueSpec.Pop(View()));
    }
  }
}
