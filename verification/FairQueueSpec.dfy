/**
 Deficit round robin on values: the state of the queue, what `push` does to
 it, and a closed form for what `pop` does to it. The closed form does not
 rotate: it says which tenant is served and how much credit each tenant has
 gained. `FairQueues.FairQueue.Pop` is the loop, proved to compute it.
 */
module FairQueueSpec {
  import opened Prelude

  type Key = string

  datatype TenantQueue<T> = TenantQueue(items: seq<T>, weight: real, deficit: real)

  datatype Queue<T> = Queue(
    queues: map<Key, TenantQueue<T>>,
    active: seq<Key>,
    turnStarted: bool,
    len: nat,
    capacity: nat)

  datatype PushResult<T> = Accepted | Rejected(item: T)

  // ----- Invariant -----

  predicate NoDuplicates(keys: seq<Key>) {
    forall i, j :: 0 <= i < j < |keys| ==> keys[i] != keys[j]
  }

  /** The number of items waiting for the tenants in `keys`. */
  function Total<T>(keys: seq<Key>, queues: map<Key, TenantQueue<T>>): nat
    requires forall k :: k in keys ==> k in queues
  {
    if keys == [] then 0 else |queues[keys[0]].items| + Total(keys[1..], queues)
  }

  predicate Structured<T>(q: Queue<T>) {
    && NoDuplicates(q.active)
    && (forall k :: k in q.active ==> k in q.queues)
    && (forall k :: k in q.queues ==> k in q.active)
    && (forall k :: k in q.queues ==> q.queues[k].items != [] && q.queues[k].weight > 0.0)
  }

  /** Every tenant's credit is in [0, 1), except the front tenant's during its turn. */
  ghost predicate Credited<T>(q: Queue<T>)
    requires Structured(q)
  {
    && (forall k :: k in q.queues ==> q.queues[k].deficit >= 0.0)
    && (q.turnStarted ==> q.active != [] && q.queues[q.active[0]].deficit >= 1.0)
    && (forall k :: k in q.queues && !(q.turnStarted && k == q.active[0]) ==> q.queues[k].deficit < 1.0)
  }

  ghost predicate WellFormed<T>(q: Queue<T>) {
    && Structured(q)
    && Credited(q)
    && q.len == Total(q.active, q.queues)
    && q.len <= q.capacity
  }

  /** No tenant's weight exceeds 1, and no turn is open between calls. */
  ghost predicate Light<T>(q: Queue<T>) {
    && WellFormed(q)
    && !q.turnStarted
    && (forall k :: k in q.queues ==> q.queues[k].weight <= 1.0)
  }

  function Empty<T>(capacity: nat): Queue<T> {
    Queue(map[], [], false, 0, capacity)
  }

  /** What tenant `k` has waiting. */
  function Waiting<T>(q: Queue<T>, k: Key): seq<T> {
    if k in q.queues then q.queues[k].items else []
  }

  // ----- push -----

  function Push<T>(q: Queue<T>, key: Key, weight: real, item: T): (Queue<T>, PushResult<T>) {
    if q.len >= q.capacity then (q, Rejected(item))
    else if key in q.queues then
      var t := q.queues[key];
      (q.(queues := q.queues[key := t.(items := t.items + [item])], len := q.len + 1), Accepted)
    else
      (q.(queues := q.queues[key := TenantQueue([item], weight, 0.0)],
          active := q.active + [key],
          len := q.len + 1),
       Accepted)
  }

  // ----- pop -----

  function Ceil(x: real): int {
    -((-x).Floor)
  }

  /** The tenant's credit after `r` more turns without being served: each turn adds its weight. */
  function Credit<T>(t: TenantQueue<T>, r: nat): real {
    if r == 0 then t.deficit else Credit(t, r - 1) + t.weight
  }

  lemma {:induction false} CreditIs<T>(t: TenantQueue<T>, r: nat)
    ensures Credit(t, r) == t.deficit + r as real * t.weight
  {
    if r > 0 { CreditIs(t, r - 1); }
  }

  /** No fewer turns than needed, by the real quotient. */
  function Turns<T>(t: TenantQueue<T>): int
    requires t.weight > 0.0
  {
    Ceil((1.0 - t.deficit) / t.weight)
  }

  lemma Quotient(x: real, w: real)
    requires w > 0.0
    ensures x / w * w == x
  {
  }

  lemma TurnsPay<T>(t: TenantQueue<T>, r: nat)
    requires t.weight > 0.0 && r >= Turns(t)
    ensures Credit(t, r) >= 1.0
  {
    hide Credit;
    var x := (1.0 - t.deficit) / t.weight;
    assert x <= Ceil(x) as real <= r as real;
    Quotient(1.0 - t.deficit, t.weight);
    MulMonotone(x, r as real, t.weight);
    CreditIs(t, r);
  }

  lemma ShortOfOne<T>(t: TenantQueue<T>, r: nat)
    requires t.weight > 0.0 && Credit(t, r) < 1.0
    ensures r < Turns(t)
  {
    hide Turns;
    if r >= Turns(t) { TurnsPay(t, r); }
  }

  /** The first turn, from the `r`-th on, that the tenant can pay in. */
  function FirstPaying<T>(t: TenantQueue<T>, r: nat): (n: nat)
    requires t.weight > 0.0
    ensures n >= r && Credit(t, n) >= 1.0
    ensures n > r ==> Credit(t, n - 1) < 1.0
    decreases Turns(t) - r
  {
    if Credit(t, r) >= 1.0 then r
    else
      ShortOfOne(t, r);
      var n := FirstPaying(t, r + 1);
      assert n == r + 1 ==> Credit(t, n - 1) == Credit(t, r);
      n
  }

  /** The number of turns after which the tenant can pay for one dispatch. */
  function Need<T>(t: TenantQueue<T>): (r: nat)
    requires t.weight > 0.0
    ensures r >= 1 && Credit(t, r) >= 1.0
    ensures r > 1 ==> Credit(t, r - 1) < 1.0
  {
    FirstPaying(t, 1)
  }

  lemma MulMonotone(x: real, y: real, w: real)
    requires x <= y && w >= 0.0
    ensures x * w <= y * w
  {
  }

  /** Credit never falls while the tenant waits. */
  lemma {:induction false} CreditMonotone<T>(t: TenantQueue<T>, r: nat, r': nat)
    requires t.weight > 0.0 && r <= r'
    ensures Credit(t, r) <= Credit(t, r')
  {
    if r < r' { CreditMonotone(t, r, r' - 1); }
  }

  /** `Need` is the least number of turns after which the tenant can pay. */
  lemma NeedIsLeast<T>(t: TenantQueue<T>, r: nat)
    requires t.weight > 0.0 && r >= 1
    ensures Credit(t, r) >= 1.0 <==> r >= Need(t)
  {
    if r >= Need(t) {
      CreditMonotone(t, Need(t), r);
    } else {
      CreditMonotone(t, r, Need(t) - 1);
    }
  }

  /** First position, in rotation order, of a tenant that needs the fewest turns. */
  function Winner<T>(keys: seq<Key>, queues: map<Key, TenantQueue<T>>): (p: nat)
    requires keys != []
    requires forall k :: k in keys ==> k in queues && queues[k].weight > 0.0
    ensures p < |keys|
    ensures forall i :: 0 <= i < |keys| ==> Need(queues[keys[i]]) >= Need(queues[keys[p]])
    ensures forall i :: 0 <= i < p ==> Need(queues[keys[i]]) > Need(queues[keys[p]])
  {
    if |keys| == 1 then 0
    else
      var p := 1 + Winner(keys[1..], queues);
      if Need(queues[keys[0]]) <= Need(queues[keys[p]]) then 0 else p
  }

  /** The tenants' queues after `round` full rotations and `j` further turns in which nobody was served. */
  function WithTurns<T>(q: Queue<T>, round: nat, j: nat): map<Key, TenantQueue<T>>
    requires j <= |q.active|
  {
    map k | k in q.queues ::
      q.queues[k].(deficit := Credit(q.queues[k], if k in q.active[..j] then round + 1 else round))
  }

  function Rotated(keys: seq<Key>, p: nat): seq<Key>
    requires p <= |keys|
  {
    keys[p..] + keys[..p]
  }

  /** Serve the front tenant, which must have the credit for it. */
  function Serve<T>(q: Queue<T>): (Queue<T>, Option<T>)
    requires q.active != [] && q.active[0] in q.queues && q.len > 0
    requires q.queues[q.active[0]].items != []
  {
    var key := q.active[0];
    var t := q.queues[key];
    var t' := t.(deficit := t.deficit - 1.0, items := t.items[1..]);
    var q' :=
      if t'.items == [] then
        q.(queues := q.queues - {key}, active := q.active[1..], turnStarted := false, len := q.len - 1)
      else if t'.deficit < 1.0 then
        q.(queues := q.queues[key := t'], active := q.active[1..] + [key], turnStarted := false, len := q.len - 1)
      else
        q.(queues := q.queues[key := t'], turnStarted := true, len := q.len - 1);
    (q', Some(t.items[0]))
  }

  /** The queue when the turn comes to position `p` for the `m`-th time, credit for that turn included. */
  function Granted<T>(q: Queue<T>, p: nat, m: nat): Queue<T>
    requires p < |q.active| && m >= 1
  {
    q.(queues := WithTurns(q, m - 1, p + 1), active := Rotated(q.active, p))
  }

  /** The position of the tenant that the next pop serves. */
  function ServedIndex<T>(q: Queue<T>): (p: nat)
    requires Structured(q) && q.active != []
    ensures p < |q.active|
  {
    if q.turnStarted then 0 else Winner(q.active, q.queues)
  }

  /** How many turns the next pop starts for the tenant that it serves. */
  function Rounds<T>(q: Queue<T>): (m: nat)
    requires Structured(q) && q.active != []
    ensures !q.turnStarted ==> m >= 1
  {
    if q.turnStarted then 0 else Need(q.queues[q.active[ServedIndex(q)]])
  }

  /**
   pop, without a loop. With a turn in progress the front tenant is served and
   nobody gains credit. Otherwise the first tenant attaining the least need `m`
   is served in round `m`: it and the tenants ahead of it gain `m` turns of
   credit, those behind it `m - 1`, and the rotation is cut and rejoined there.
   */
  function Pop<T>(q: Queue<T>): (Queue<T>, Option<T>)
    requires Structured(q) && (q.active != [] ==> q.len > 0)
  {
    if q.active == [] then (q, None)
    else if q.turnStarted then Serve(q)
    else Serve(Granted(q, ServedIndex(q), Rounds(q)))
  }

  lemma LenPositive<T>(q: Queue<T>)
    requires Structured(q) && q.len == Total(q.active, q.queues)
    ensures q.active != [] <==> q.len > 0
  {
  }
}
