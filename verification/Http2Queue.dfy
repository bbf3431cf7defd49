/** src/http2_queue.c: byte queues made of fixed blocks (stream queues) or of one growing
    buffer (header blocks), with a cache of free blocks.
 */
module Http2Queue {
  import Arithmetic
  import opened Bytes
  import opened BufferBudget

  const BLOCK := 16384
  /** sizeof(core_http2_block_t): a next pointer, two sizes and the data, on a 64-bit machine. */
  const BLOCK_SIZE := BLOCK + 24
  const CACHE_LIMIT := 256 * 1024
  const STREAM_LIMIT := 256 * 1024

  // ----- reservations -----

  /** core_http2_queue_reservation. */
  function Reservation(length: nat): (r: nat)
    ensures length <= TOTAL_LIMIT ==> r >= length + BLOCK_SIZE
  {
    if length > TOTAL_LIMIT then SIZE_MAX else ((length + BLOCK - 1) / BLOCK + 1) * BLOCK_SIZE
  }

  lemma ReservationMonotone(a: nat, b: nat)
    requires a <= b
    ensures Reservation(a) <= Reservation(b)
  {
  }

  // ----- the store: budgets and cached blocks -----

  /** The budgets, of which the first three are the cache's own, and the number of cached blocks per direction. */
  datatype Store = Store(budgets: seq<Budget>, cached: seq<nat>)

  /** The third cache budget is never given a direction of its own, so it keeps direction 0. */
  function CacheDirection(d: nat): nat { if d == DOWNLOAD then DOWNLOAD else UPLOAD }

  predicate StoreValid(s: Store) {
    && |s.cached| == DIRECTIONS <= |s.budgets|
    && Within(s.budgets)
    && (forall d :: 0 <= d < DIRECTIONS ==> s.budgets[d] == Budget(0, s.cached[d] * BLOCK_SIZE, CacheDirection(d)))
    && (forall d :: 0 <= d < DIRECTIONS ==> s.cached[d] * BLOCK_SIZE <= CACHE_LIMIT)
  }

  predicate Account(s: Store, a: nat) {
    DIRECTIONS <= a < |s.budgets| && s.budgets[a].direction < DIRECTIONS
  }

  /** block_new: a cached block if the charge can move with it, else a fresh one. */
  function Take(s: Store, a: nat, memory: bool): (r: (bool, Store))
    requires StoreValid(s) && Account(s, a)
  {
    var d := s.budgets[a].direction;
    if s.cached[d] > 0 && Succeeds(s.budgets, Transfer(d, a, BLOCK_SIZE)) then
      (true, Store(Asked(s.budgets, Transfer(d, a, BLOCK_SIZE)), s.cached[d := s.cached[d] - 1]))
    else if Succeeds(s.budgets, Hold(a, BLOCK_SIZE)) && memory then
      (true, Store(Asked(s.budgets, Hold(a, BLOCK_SIZE)), s.cached))
    else
      (false, s)
  }

  /** block_free: into the cache while it has room and the charge can move, else back to the system. */
  function Give(s: Store, a: nat): (r: Store)
    requires StoreValid(s) && Account(s, a) && s.budgets[a].used >= BLOCK_SIZE
  {
    var d := s.budgets[a].direction;
    if BLOCK_SIZE <= CACHE_LIMIT - s.cached[d] * BLOCK_SIZE && Succeeds(s.budgets, Transfer(a, d, BLOCK_SIZE)) then
      Store(Asked(s.budgets, Transfer(a, d, BLOCK_SIZE)), s.cached[d := s.cached[d] + 1])
    else
      Store(Asked(s.budgets, Drop(a, BLOCK_SIZE)), s.cached)
  }

  /** `after` differs from `before` in what account `a` uses and in the cache, and in nothing else. */
  predicate Adjusted(before: Store, after: Store, a: nat, used: nat) {
    && StoreValid(before) && StoreValid(after) && Account(before, a)
    && |after.budgets| == |before.budgets|
    && after.budgets[a] == before.budgets[a].(used := used)
    && (forall i :: DIRECTIONS <= i < |before.budgets| && i != a ==> after.budgets[i] == before.budgets[i])
  }

  lemma TakeAdjusts(s: Store, a: nat, memory: bool)
    requires StoreValid(s) && Account(s, a)
    ensures var (ok, t) := Take(s, a, memory);
            && Adjusted(s, t, a, s.budgets[a].used + if ok then BLOCK_SIZE else 0)
            && (s.budgets[a].used + BLOCK_SIZE <= s.budgets[a].minimum && memory ==> ok)
            && (!ok ==> t == s)
  {
    hide Charged, Used;
    var d := s.budgets[a].direction;
    if s.budgets[a].used + BLOCK_SIZE <= s.budgets[a].minimum {
      HoldWithinMinimum(s.budgets, a, BLOCK_SIZE);
    }
    ApplyWithin(s.budgets, Hold(a, BLOCK_SIZE));
    ApplyWithin(s.budgets, Transfer(d, a, BLOCK_SIZE));
  }

  lemma GiveAdjusts(s: Store, a: nat)
    requires StoreValid(s) && Account(s, a) && s.budgets[a].used >= BLOCK_SIZE
    ensures Adjusted(s, Give(s, a), a, s.budgets[a].used - BLOCK_SIZE)
  {
    hide Charged, Used;
    var d := s.budgets[a].direction;
    DropSucceeds(s.budgets, a, BLOCK_SIZE);
    ApplyWithin(s.budgets, Drop(a, BLOCK_SIZE));
    ApplyWithin(s.budgets, Transfer(a, d, BLOCK_SIZE));
  }

  /** Blocks for one append, taken one by one; the number obtained before the first refusal. */
  function TakeMany(s: Store, a: nat, n: nat, memory: nat -> bool): (r: (nat, Store))
    requires StoreValid(s) && Account(s, a)
    ensures r.0 <= n && Adjusted(s, r.1, a, s.budgets[a].used + r.0 * BLOCK_SIZE)
    ensures s.budgets[a].used + n * BLOCK_SIZE <= s.budgets[a].minimum && (forall i :: 0 <= i < n ==> memory(i)) ==>
        r.0 == n
  {
    if n == 0 then (0, s) else
      var (k, t) := TakeMany(s, a, n - 1, memory);
      if k < n - 1 then (k, t) else
        TakeAdjusts(t, a, memory(n - 1));
        var (ok, u) := Take(t, a, memory(n - 1));
        (if ok then n else n - 1, u)
  }

  function GiveMany(s: Store, a: nat, n: nat): (r: Store)
    requires StoreValid(s) && Account(s, a) && s.budgets[a].used >= n * BLOCK_SIZE
    ensures Adjusted(s, r, a, s.budgets[a].used - n * BLOCK_SIZE)
    decreases n
  {
    if n == 0 then s else
      GiveAdjusts(s, a);
      GiveMany(Give(s, a), a, n - 1)
  }

  /** All `n` blocks or none: what was obtained before a refusal is given back. */
  function Acquire(s: Store, a: nat, n: nat, memory: nat -> bool): (r: (bool, Store))
    requires StoreValid(s) && Account(s, a)
    ensures Adjusted(s, r.1, a, s.budgets[a].used + if r.0 then n * BLOCK_SIZE else 0)
    ensures s.budgets[a].used + n * BLOCK_SIZE <= s.budgets[a].minimum && (forall i :: 0 <= i < n ==> memory(i)) ==> r.0
  {
    var (k, t) := TakeMany(s, a, n, memory);
    if k == n then (true, t) else (false, GiveMany(t, a, k))
  }

  // ----- the queue as a value -----

  /** The bytes of a queue and how far into its first block they start.  The layout of the
      blocks follows from these two. */
  datatype Fifo = Fifo(start: nat, contents: seq<Byte>)

  const EMPTY := Fifo(0, [])

  predicate FifoValid(f: Fifo) {
    f.start < BLOCK && (f.contents == [] ==> f.start == 0)
  }

  function Blocks(f: Fifo): nat {
    if f.contents == [] then 0 else (f.start + |f.contents| + BLOCK - 1) / BLOCK
  }

  function Appended(f: Fifo, data: seq<Byte>): (r: Fifo) {
    f.(contents := f.contents + data)
  }

  lemma AppendedBlocks(f: Fifo, data: seq<Byte>)
    ensures Blocks(f) <= Blocks(Appended(f, data))
  {
  }

  function Consumed(f: Fifo, n: nat): (r: Fifo)
    requires FifoValid(f)
    ensures FifoValid(r)
    ensures r.contents == if n >= |f.contents| then [] else f.contents[n..]
    ensures Blocks(r) <= Blocks(f)
  {
    if n >= |f.contents| then EMPTY else Fifo((f.start + n) % BLOCK, f.contents[n..])
  }

  lemma ConsumedTwice(f: Fifo, m: nat, n: nat)
    requires FifoValid(f)
    ensures Consumed(Consumed(f, m), n) == Consumed(f, m + n)
  {
    if m + n < |f.contents| {
      assert f.contents[m..][n..] == f.contents[m + n..];
      Arithmetic.ModTwice(f.start + m, n, BLOCK);
    }
  }

  /** A queue of L bytes holds at most one block more than L bytes need. */
  lemma BlocksReserved(f: Fifo)
    requires FifoValid(f) && |f.contents| <= TOTAL_LIMIT
    ensures Blocks(f) <= (|f.contents| + BLOCK - 1) / BLOCK + 1
    ensures Blocks(f) * BLOCK_SIZE <= Reservation(|f.contents|)
  {
  }

  /** core_http2_queue_append on a stream queue. */
  function Append(s: Store, a: nat, f: Fifo, data: seq<Byte>, memory: nat -> bool): (r: (bool, Store, Fifo))
    requires StoreValid(s) && Account(s, a)
  {
    if |f.contents| > STREAM_LIMIT || |data| > STREAM_LIMIT - |f.contents| then (false, s, f) else
      AppendedBlocks(f, data);
      var (ok, t) := Acquire(s, a, Blocks(Appended(f, data)) - Blocks(f), memory);
      (ok, t, if ok then Appended(f, data) else f)
  }

  /** Whether it succeeds or not, the account is charged exactly for the blocks of the queue. */
  lemma AppendAdjusts(s: Store, a: nat, f: Fifo, data: seq<Byte>, memory: nat -> bool)
    requires StoreValid(s) && Account(s, a) && FifoValid(f)
    requires s.budgets[a].used == Blocks(f) * BLOCK_SIZE
    ensures var r := Append(s, a, f, data, memory);
            FifoValid(r.2) && Adjusted(s, r.1, a, Blocks(r.2) * BLOCK_SIZE)
                && r.2 == if r.0 then Appended(f, data) else f
  {
    hide Acquire, StoreValid, Within, Blocks;
    AppendedBlocks(f, data);
  }

  /** core_http2_queue_consume on a stream queue. */
  function Consume(s: Store, a: nat, f: Fifo, n: nat): (r: (Store, Fifo))
    requires StoreValid(s) && Account(s, a) && FifoValid(f)
    requires s.budgets[a].used == Blocks(f) * BLOCK_SIZE
    ensures FifoValid(r.1) && Adjusted(s, r.0, a, Blocks(r.1) * BLOCK_SIZE)
  {
    (GiveMany(s, a, Blocks(f) - Blocks(Consumed(f, n))), Consumed(f, n))
  }

  lemma {:induction false} GiveManyTwice(s: Store, a: nat, m: nat, n: nat)
    requires StoreValid(s) && Account(s, a) && s.budgets[a].used >= (m + n) * BLOCK_SIZE
    ensures GiveMany(GiveMany(s, a, m), a, n) == GiveMany(s, a, m + n)
    decreases m
  {
    hide StoreValid, Give;
    if m > 0 {
      GiveAdjusts(s, a);
      GiveManyTwice(Give(s, a), a, m - 1, n);
    }
  }

  /** Consuming in two steps is consuming at once, for the bytes and for the memory. */
  lemma ConsumeTwice(s: Store, a: nat, f: Fifo, m: nat, n: nat)
    requires StoreValid(s) && Account(s, a) && FifoValid(f)
    requires s.budgets[a].used == Blocks(f) * BLOCK_SIZE
    ensures var (t, g) := Consume(s, a, f, m);
            Consume(t, a, g, n) == Consume(s, a, f, m + n)
  {
    hide StoreValid, Give, GiveMany, Consumed, Blocks;
    ConsumedTwice(f, m, n);
    var g := Consumed(f, m);
    GiveManyTwice(s, a, Blocks(f) - Blocks(g), Blocks(g) - Blocks(Consumed(g, n)));
  }

  /** When the account has reserved room for the new length, an append within the stream limit
      is refused by nothing but malloc, however full the direction is. */
  lemma AppendFits(s: Store, a: nat, f: Fifo, data: seq<Byte>, memory: nat -> bool)
    requires StoreValid(s) && Account(s, a) && FifoValid(f)
    requires s.budgets[a].used == Blocks(f) * BLOCK_SIZE
    requires |f.contents| + |data| <= STREAM_LIMIT
    requires s.budgets[a].minimum >= Reservation(|f.contents| + |data|)
    requires forall i :: memory(i)
    ensures Append(s, a, f, data, memory).0
  {
    hide Acquire, Charged, Used, Within, StoreValid, Reservation;
    BlocksReserved(Appended(f, data));
  }

  // ----- what a pool does with the memory of a queue -----

  /** Only account `a`, its direction apart, and the cache differ. */
  predicate Touched(before: Store, after: Store, a: nat) {
    && StoreValid(before) && StoreValid(after) && Account(before, a)
    && |after.budgets| == |before.budgets|
    && after.budgets[a].direction == before.budgets[a].direction
    && (forall i :: DIRECTIONS <= i < |before.budgets| && i != a ==> after.budgets[i] == before.budgets[i])
  }

  lemma AdjustedTouches(before: Store, after: Store, a: nat, used: nat)
    requires Adjusted(before, after, a, used)
    ensures Touched(before, after, a)
  {
    hide StoreValid;
  }

  lemma TouchedTwice(s: Store, t: Store, u: Store, a: nat)
    requires Touched(s, t, a) && Touched(t, u, a)
    ensures Touched(s, u, a)
  {
    hide StoreValid;
  }

  /** A new minimum for an account, unless it does not fit. */
  function Reserved(s: Store, a: nat, minimum: nat): (r: Store)
    requires StoreValid(s) && Account(s, a)
    ensures Touched(s, r, a) && r.budgets[a].used == s.budgets[a].used && r.cached == s.cached
    ensures r.budgets[a].minimum == minimum || r == s
  {
    ApplyWithin(s.budgets, Init(a, s.budgets[a].direction, minimum));
    hide Charged, Within, Succeeds;
    Store(Apply(s.budgets, Init(a, s.budgets[a].direction, minimum)), s.cached)
  }

  lemma LowerMinimum(s: Store, a: nat, minimum: nat)
    requires StoreValid(s) && Account(s, a) && minimum <= TOTAL_LIMIT
    requires minimum <= s.budgets[a].Charge()
    ensures Reserved(s, a, minimum).budgets[a] == s.budgets[a].(minimum := minimum)
  {
    hide Charged, Used;
    var b := s.budgets[a].(minimum := minimum);
    var op := Init(a, s.budgets[a].direction, minimum);
    var asked := Asked(s.budgets, op);
    assert asked == s.budgets[a := b];
    Moved(s.budgets, a, b);
    forall d | 0 <= d < DIRECTIONS ensures Charged(asked, d) <= TOTAL_LIMIT {
      assert Charged(s.budgets, d) <= TOTAL_LIMIT;
    }
    assert Succeeds(s.budgets, op);
  }

  /** core_http2_queue_clear: every block goes and the account reserves nothing. */
  function Emptied(s: Store, a: nat, f: Fifo): (r: Store)
    requires StoreValid(s) && Account(s, a) && FifoValid(f)
    requires s.budgets[a].used == Blocks(f) * BLOCK_SIZE
  {
    Reserved(Consume(s, a, f, |f.contents|).0, a, 0)
  }

  lemma EmptiedAccount(s: Store, a: nat, f: Fifo)
    requires StoreValid(s) && Account(s, a) && FifoValid(f)
    requires s.budgets[a].used == Blocks(f) * BLOCK_SIZE
    ensures Touched(s, Emptied(s, a, f), a)
    ensures Emptied(s, a, f).budgets[a].minimum == 0 && Emptied(s, a, f).budgets[a].used == 0
  {
    hide StoreValid, Within, GiveMany, Reserved;
    var (t, g) := Consume(s, a, f, |f.contents|);
    AdjustedTouches(s, t, a, Blocks(g) * BLOCK_SIZE);
    LowerMinimum(t, a, 0);
    TouchedTwice(s, t, Reserved(t, a, 0), a);
  }

  /** core_http2_queue_cache_clear. */
  function CacheCleared(s: Store): (r: Store)
    requires StoreValid(s)
  {
    Store([Budget(0, 0, CacheDirection(0)), Budget(0, 0, CacheDirection(1)),
        Budget(0, 0, CacheDirection(2))] + s.budgets[DIRECTIONS..], [0, 0, 0])
  }

  lemma CacheClearedValid(s: Store)
    requires StoreValid(s)
    ensures StoreValid(CacheCleared(s)) && |CacheCleared(s).budgets| == |s.budgets|
    ensures forall i :: DIRECTIONS <= i < |s.budgets| ==> CacheCleared(s).budgets[i] == s.budgets[i]
  {
    var b0 := s.budgets[0 := Budget(0, 0, CacheDirection(0))];
    var b1 := b0[1 := Budget(0, 0, CacheDirection(1))];
    var b2 := b1[2 := Budget(0, 0, CacheDirection(2))];
    assert b2 == CacheCleared(s).budgets;
    forall d | 0 <= d < DIRECTIONS ensures Charged(b2, d) <= TOTAL_LIMIT {
      ChargeUpdate(s.budgets, 0, Budget(0, 0, CacheDirection(0)), d);
      ChargeUpdate(b0, 1, Budget(0, 0, CacheDirection(1)), d);
      ChargeUpdate(b1, 2, Budget(0, 0, CacheDirection(2)), d);
      hide Charged;
    }
    hide Charged;
  }
}
