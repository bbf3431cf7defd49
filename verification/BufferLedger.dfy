/** Runs of src/buffer_budget.c: any sequence of calls on the running totals of the code. */
module BufferLedger {
  import opened BufferBudget

  /** A call; for those that allocate, `memory` is whether malloc succeeds. */
  datatype Call =
    | Plain(op: Op)
    | Alloc(budget: nat, size: nat, memory: bool)
    | Realloc(budget: nat, previous: nat, size: nat, memory: bool)
    | Free(budget: nat, size: nat)

  /** What the code demands of its callers: sizes are machine integers, and no more is given back
      than is held. */
  predicate Legal(budgets: seq<Budget>, call: Call) {
    match call
    case Plain(op) =>
      && (op.Drop? ==> MayDrop(budgets, op.budget, op.size))
      && (op.Hold? || op.Transfer? ==> op.size <= SIZE_MAX)
    case Alloc(_, size, _) => size <= SIZE_MAX
    case Realloc(i, previous, size, _) => size <= SIZE_MAX && (previous > 0 ==> MayDrop(budgets, i, previous))
    case Free(i, size) => MayDrop(budgets, i, size)
  }

  predicate MayDrop(budgets: seq<Budget>, i: nat, size: nat) {
    i < |budgets| && size <= budgets[i].used && budgets[i].direction < DIRECTIONS
  }

  /** Whether a call is granted: there is room for what it asks, and for an allocation memory. */
  predicate Granted(budgets: seq<Budget>, call: Call) {
    match call
    case Plain(op) => Succeeds(budgets, op)
    case Alloc(i, size, memory) => size > 0 && memory && Succeeds(budgets, Hold(i, size))
    case Realloc(i, previous, size, memory) => size == 0 || (memory && Succeeds(budgets, Hold(i, size)))
    case Free(_, _) => true
  }

  /** What the budgets hold after a call that is granted. */
  function After(budgets: seq<Budget>, call: Call): seq<Budget>
    requires Legal(budgets, call) && Granted(budgets, call)
  {
    match call
    case Plain(op) => Asked(budgets, op)
    case Alloc(i, size, _) => Asked(budgets, Hold(i, size))
    case Realloc(i, previous, size, _) =>
      if i < |budgets| then budgets[i := budgets[i].(used := budgets[i].used + size - previous)] else budgets
    case Free(i, size) => Asked(budgets, Drop(i, size))
  }

  function Outcome(budgets: seq<Budget>, call: Call): seq<Budget>
    requires Legal(budgets, call)
  {
    if Granted(budgets, call) then After(budgets, call) else budgets
  }

  predicate LegalRun(budgets: seq<Budget>, calls: seq<Call>)
    decreases |calls|
  {
    calls == [] || (Legal(budgets, calls[0]) && LegalRun(Outcome(budgets, calls[0]), calls[1..]))
  }

  /** The budgets, the charge of each, and the totals the code keeps per direction. */
  datatype Totals = Totals(budgets: seq<Budget>, charges: seq<nat>, charged: seq<nat>, used: seq<nat>)

  /** Each budget is charged the larger of its minimum and what it has allocated; the totals are
      the sums over all budgets, and no direction is charged more than 16 MiB. */
  predicate Balanced(t: Totals) {
    && |t.charged| == DIRECTIONS && |t.used| == DIRECTIONS && |t.charges| == |t.budgets|
    && (forall i :: 0 <= i < |t.budgets| ==> t.charges[i] == t.budgets[i].Charge())
    && (forall d :: 0 <= d < DIRECTIONS ==>
          t.used[d] == Used(t.budgets, d) <= t.charged[d] == Charged(t.budgets, d) <= TOTAL_LIMIT)
  }

  /** One call on the totals: what was granted, and that a refusal leaves every one as it was. */
  predicate Executed(t: Totals, call: Call, u: Totals, ok: bool) {
    && Balanced(t) && Balanced(u) && Legal(t.budgets, call)
    && ok == Granted(t.budgets, call)
    && u.budgets == Outcome(t.budgets, call)
    && (!ok ==> u == t)
  }

  lemma {:induction false} UsedBound(budgets: seq<Budget>, d: nat)
    ensures Used(budgets, d) <= Charged(budgets, d)
  {
    if budgets != [] {
      UsedBound(budgets[1..], d);
    }
  }

  function Snapshot(accounts: Accounts): Totals
    reads accounts, accounts.charged, accounts.used
  {
    Totals(accounts.budgets, accounts.charges, accounts.charged[..], accounts.used[..])
  }

  lemma SnapshotBalanced(accounts: Accounts)
    requires accounts.Valid()
    ensures Balanced(Snapshot(accounts))
  {
    hide Charged, Used;
    forall d | 0 <= d < DIRECTIONS ensures Used(accounts.budgets, d) <= Charged(accounts.budgets, d) {
      UsedBound(accounts.budgets, d);
    }
  }

  /** The totals are determined by the budgets, so a call that leaves the budgets alone leaves
      everything alone. */
  lemma BalancedUnique(t: Totals, u: Totals)
    requires Balanced(t) && Balanced(u) && t.budgets == u.budgets
    ensures t == u
  {
    hide Charged, Used;
    assert t.charges == u.charges && t.charged == u.charged && t.used == u.used;
  }

  method Execute(accounts: Accounts, call: Call) returns (ok: bool)
    requires accounts.Valid() && Legal(accounts.budgets, call)
    modifies accounts, accounts.charged, accounts.used
    ensures accounts.Valid()
    ensures Executed(old(Snapshot(accounts)), call, Snapshot(accounts), ok)
  {
    hide Charged, Used, Succeeds, Within, Balanced;
    SnapshotBalanced(accounts);
    match call {
      case Plain(op) => ok := ExecutePlain(accounts, op);
      case Alloc(i, size, memory) => ok := accounts.Alloc(i, size, memory);
      case Realloc(i, previous, size, memory) =>
        ok := accounts.Realloc(i, previous, size, memory);
        ok := ok || size == 0;
      case Free(i, size) =>
        accounts.Release(i, size);
        ok := true;
    }
    SnapshotBalanced(accounts);
    if !ok { BalancedUnique(old(Snapshot(accounts)), Snapshot(accounts)); }
  }

  method ExecutePlain(accounts: Accounts, op: Op) returns (ok: bool)
    requires accounts.Valid() && Legal(accounts.budgets, Plain(op))
    modifies accounts, accounts.charged, accounts.used
    ensures accounts.Valid()
    ensures ok == Succeeds(old(accounts.budgets), op) && accounts.budgets == Apply(old(accounts.budgets), op)
  {
    hide Charged, Used, Succeeds, Within;
    match op {
      case Hold(i, size) => ok := accounts.Claim(i, size);
      case Drop(i, size) =>
        DropSucceeds(accounts.budgets, i, size);
        accounts.Release(i, size);
        ok := true;
      case Init(i, direction, minimum) => ok := accounts.Initialize(i, direction, minimum);
      case Clear(i) => ok := accounts.Reset(i);
      case Transfer(i, j, size) => ok := accounts.Move(i, j, size);
    }
  }

  /** Conservation over every run: at every point the totals are the sums, each charge is the larger
      of minimum and allocation, and no direction is beyond 16 MiB; exactly the calls for which
      there is room are granted, and one that is not leaves all totals as they were.  The totals
      are natural numbers, so nothing is ever subtracted below zero. */
  method ExecuteAll(accounts: Accounts, calls: seq<Call>) returns (results: seq<bool>, ghost trace: seq<Totals>)
    requires accounts.Valid() && LegalRun(accounts.budgets, calls)
    modifies accounts, accounts.charged, accounts.used
    ensures accounts.Valid() && |results| == |calls| && |trace| == |calls| + 1
    ensures trace[0] == old(Snapshot(accounts)) && trace[|calls|] == Snapshot(accounts)
    ensures forall k :: 0 <= k < |calls| ==> Executed(trace[k], calls[k], trace[k + 1], results[k])
  {
    hide Granted, Legal, After, Balanced;
    results, trace := [], [Snapshot(accounts)];
    var k := 0;
    while k < |calls|
      invariant k <= |calls| && accounts.Valid() && |results| == k && |trace| == k + 1
      invariant trace[0] == old(Snapshot(accounts)) && trace[k] == Snapshot(accounts)
      invariant LegalRun(accounts.budgets, calls[k..])
      invariant forall j :: 0 <= j < k ==> Executed(trace[j], calls[j], trace[j + 1], results[j])
    {
      assert calls[k..][0] == calls[k] && calls[k..][1..] == calls[k + 1..];
      var ok := Execute(accounts, calls[k]);
      results, trace := results + [ok], trace + [Snapshot(accounts)];
      k := k + 1;
    }
  }
}
