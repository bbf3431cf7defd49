/** src/buffer_budget.c: memory budgets charged against a fixed total per direction.

    A budget is charged for the larger of its minimum and what it has allocated.  The code
    keeps running totals; the specification keeps only the budgets and derives the totals
    as sums.  A budget is named by its position in `budgets`; a position outside stands
    for a null pointer.
 */
module BufferBudget {

  const TOTAL_LIMIT := 16 * 1024 * 1024
  const SIZE_MAX := 0xFFFF_FFFF_FFFF_FFFF
  const DIRECTIONS := 3
  const UPLOAD := 0
  const DOWNLOAD := 1

  datatype Budget = Budget(minimum: nat, used: nat, direction: nat)
  {
    function Charge(): (n: nat) { if minimum > used then minimum else used }
  }

  // ----- specification: totals are sums over the budgets -----

  function Charged(budgets: seq<Budget>, direction: nat): (n: nat) {
    if budgets == [] then 0 else
      Charged(budgets[1..], direction) + if budgets[0].direction == direction then budgets[0].Charge() else 0
  }

  function Used(budgets: seq<Budget>, direction: nat): (n: nat) {
    if budgets == [] then 0 else
      Used(budgets[1..], direction) + if budgets[0].direction == direction then budgets[0].used else 0
  }

  /** Every reachable set of budgets: no direction is charged beyond the limit. */
  predicate Within(budgets: seq<Budget>) {
    && (forall d :: 0 <= d < DIRECTIONS ==> Charged(budgets, d) <= TOTAL_LIMIT)
    && (forall i :: 0 <= i < |budgets| && budgets[i].direction >= DIRECTIONS ==> budgets[i].Charge() == 0)
  }

  datatype Op =
    | Hold(budget: nat, size: nat)
    | Drop(budget: nat, size: nat)
    | Init(budget: nat, direction: nat, minimum: nat)
    | Clear(budget: nat)
    | Transfer(source: nat, target: nat, size: nat)

  /** The budgets an operation asks for, before asking whether they fit. */
  function Asked(budgets: seq<Budget>, op: Op): seq<Budget>
    requires WellFormed(budgets, op)
  {
    match op
    case Hold(i, size) => budgets[i := budgets[i].(used := budgets[i].used + size)]
    case Drop(i, size) => budgets[i := budgets[i].(used := budgets[i].used - size)]
    case Init(i, direction, minimum) => budgets[i := budgets[i].(minimum := minimum, direction := direction)]
    case Clear(i) => budgets[i := budgets[i].(minimum := 0)]
    case Transfer(i, j, size) =>
      if i == j then budgets else
        budgets[i := budgets[i].(used := budgets[i].used - size)]
        [j := budgets[j].(used := budgets[j].used + size)]
  }

  /** Arguments the code accepts (for Drop, which has no error result: what it demands of its caller). */
  predicate WellFormed(budgets: seq<Budget>, op: Op) {
    match op
    case Hold(i, size) => i < |budgets| && budgets[i].direction < DIRECTIONS && budgets[i].used + size <= SIZE_MAX
    case Drop(i, size) => i < |budgets| && size <= budgets[i].used && (size > 0 ==> budgets[i].direction < DIRECTIONS)
    case Init(i, direction, minimum) =>
      i < |budgets| && direction < DIRECTIONS && minimum <= TOTAL_LIMIT &&
      (budgets[i].Charge() == 0 || budgets[i].direction == direction)
    case Clear(i) => i < |budgets| && budgets[i].used == 0 && budgets[i].direction < DIRECTIONS
    case Transfer(i, j, size) =>
      i < |budgets| && j < |budgets| && budgets[i].direction < DIRECTIONS
          && budgets[i].direction == budgets[j].direction &&
      (i != j ==> size <= budgets[i].used && budgets[j].used + size <= SIZE_MAX)
  }

  /** An operation succeeds exactly when its arguments are accepted and what it asks for fits. */
  predicate Succeeds(budgets: seq<Budget>, op: Op) {
    WellFormed(budgets, op) && forall d :: 0 <= d < DIRECTIONS ==> Charged(Asked(budgets, op), d) <= TOTAL_LIMIT
  }

  function Apply(budgets: seq<Budget>, op: Op): seq<Budget> {
    if Succeeds(budgets, op) then Asked(budgets, op) else budgets
  }

  // ----- sums -----

  lemma {:induction false} ChargeUpdate(budgets: seq<Budget>, i: nat, b: Budget, d: nat)
    requires i < |budgets|
    ensures Charged(budgets[i := b], d) ==
            Charged(budgets, d) - (if budgets[i].direction == d then budgets[i].Charge() else 0) + (if b.direction == d
                then b.Charge() else 0)
    ensures Used(budgets[i := b], d) ==
            Used(budgets, d) - (if budgets[i].direction == d then budgets[i].used else 0) + (if b.direction == d
                then b.used else 0)
  {
    if i == 0 {
      assert budgets[0 := b][1..] == budgets[1..];
    } else {
      ChargeUpdate(budgets[1..], i - 1, b, d);
      assert budgets[i := b][1..] == budgets[1..][i - 1 := b];
    }
  }

  lemma {:induction false} ChargeAppend(budgets: seq<Budget>, b: Budget, d: nat)
    ensures Charged(budgets + [b], d) == Charged(budgets, d) + if b.direction == d then b.Charge() else 0
    ensures Used(budgets + [b], d) == Used(budgets, d) + if b.direction == d then b.used else 0
  {
    if budgets == [] {
      assert budgets + [b] == [b];
    } else {
      ChargeAppend(budgets[1..], b, d);
      assert (budgets + [b])[1..] == budgets[1..] + [b];
    }
  }

  /** A single budget is charged no more than its direction; two are charged no more together. */
  lemma {:induction false} MemberBound(budgets: seq<Budget>, i: nat, d: nat)
    requires i < |budgets| && budgets[i].direction == d
    ensures budgets[i].Charge() <= Charged(budgets, d) && budgets[i].used <= Used(budgets, d)
  {
    if i > 0 {
      MemberBound(budgets[1..], i - 1, d);
    }
  }

  /** An operation that is refused changes nothing, and one that is not keeps the limit. */
  lemma ApplyWithin(budgets: seq<Budget>, op: Op)
    requires Within(budgets)
    ensures Within(Apply(budgets, op))
  {
    hide Charged, Used;
  }

  /** Dropping what was held restores the budgets, so a failed allocation leaves no trace. */
  lemma HoldThenDrop(budgets: seq<Budget>, i: nat, size: nat)
    requires Within(budgets) && Succeeds(budgets, Hold(i, size))
    ensures Succeeds(Apply(budgets, Hold(i, size)), Drop(i, size))
    ensures Apply(Apply(budgets, Hold(i, size)), Drop(i, size)) == budgets
  {
    hide Charged, Used;
    var held := Apply(budgets, Hold(i, size));
    assert Asked(held, Drop(i, size)) == budgets;
  }

  /** Dropping and lowering a minimum always succeed. */
  lemma DropSucceeds(budgets: seq<Budget>, i: nat, size: nat)
    requires Within(budgets) && WellFormed(budgets, Drop(i, size))
    ensures Succeeds(budgets, Drop(i, size))
  {
    forall d | 0 <= d < DIRECTIONS ensures Charged(Asked(budgets, Drop(i, size)), d) <= TOTAL_LIMIT {
      ChargeUpdate(budgets, i, budgets[i].(used := budgets[i].used - size), d);
      hide Charged;
    }
  }

  /** A reserved minimum is a promise: holding within it never fails, whatever the others hold. */
  lemma HoldWithinMinimum(budgets: seq<Budget>, i: nat, size: nat)
    requires Within(budgets) && i < |budgets| && budgets[i].direction < DIRECTIONS
    requires budgets[i].used + size <= budgets[i].minimum
    ensures Succeeds(budgets, Hold(i, size))
  {
    MemberBound(budgets, i, budgets[i].direction);
    forall d | 0 <= d < DIRECTIONS ensures Charged(Asked(budgets, Hold(i, size)), d) <= TOTAL_LIMIT {
      ChargeUpdate(budgets, i, budgets[i].(used := budgets[i].used + size), d);
      hide Charged;
    }
  }

  lemma {:induction false} PairBound(budgets: seq<Budget>, i: nat, j: nat, d: nat)
    requires i < |budgets| && j < |budgets| && i != j && budgets[i].direction == d && budgets[j].direction == d
    ensures budgets[i].Charge() + budgets[j].Charge() <= Charged(budgets, d)
  {
    var without := budgets[i := Budget(0, 0, d)];
    ChargeUpdate(budgets, i, Budget(0, 0, d), d);
    MemberBound(without, j, d);
    hide Charged;
  }

  lemma TransferTotal(budgets: seq<Budget>, i: nat, j: nat, size: nat, e: nat)
    requires i != j && WellFormed(budgets, Transfer(i, j, size))
    ensures var asked := Asked(budgets, Transfer(i, j, size));
            && Used(asked, e) == Used(budgets, e)
            && (e != budgets[i].direction ==> Charged(asked, e) == Charged(budgets, e))
            && (e == budgets[i].direction ==>
                  Charged(asked, e) ==
                      Charged(budgets,
                          e) - (budgets[i].Charge() + budgets[j].Charge()) + (asked[i].Charge() + asked[j].Charge()))
  {
    hide Charged, Used;
    var from' := budgets[i].(used := budgets[i].used - size);
    ChargeUpdate(budgets, i, from', e);
    ChargeUpdate(budgets[i := from'], j, budgets[j].(used := budgets[j].used + size), e);
  }

  /** A transfer changes only the total charged to its direction. */
  lemma TransferTotals(budgets: seq<Budget>, i: nat, j: nat, size: nat)
    requires i != j && WellFormed(budgets, Transfer(i, j, size))
    ensures var d := budgets[i].direction;
            var asked := Asked(budgets, Transfer(i, j, size));
            var current := budgets[i].Charge() + budgets[j].Charge();
            && current <= Charged(budgets, d)
            && Charged(asked, d) == Charged(budgets, d) - current + (asked[i].Charge() + asked[j].Charge())
            && (forall e :: 0 <= e < DIRECTIONS && e != d ==> Charged(asked, e) == Charged(budgets, e))
            && (forall e :: 0 <= e < DIRECTIONS ==> Used(asked, e) == Used(budgets, e))
  {
    hide Charged, Used;
    var asked := Asked(budgets, Transfer(i, j, size));
    PairBound(budgets, i, j, budgets[i].direction);
    TransferTotal(budgets, i, j, size, budgets[i].direction);
    forall e | 0 <= e < DIRECTIONS
      ensures Used(asked, e) == Used(budgets, e)
      ensures e != budgets[i].direction ==> Charged(asked, e) == Charged(budgets, e)
    {
      TransferTotal(budgets, i, j, size, e);
    }
  }

  lemma ChargedWithin(budgets: seq<Budget>, d: nat)
    requires Within(budgets) && d < DIRECTIONS
    ensures Charged(budgets, d) <= TOTAL_LIMIT
  {
  }

  /** A transfer succeeds exactly when its arguments are accepted and its direction stays within the limit. */
  lemma TransferDecides(budgets: seq<Budget>, i: nat, j: nat, size: nat)
    requires Within(budgets)
    ensures var op := Transfer(i, j, size);
            && (Succeeds(budgets, op) <==>
                WellFormed(budgets, op) && (i == j || Charged(Asked(budgets, op), budgets[i].direction) <= TOTAL_LIMIT))
            && Apply(budgets, op) == (if Succeeds(budgets, op) then Asked(budgets, op) else budgets)
            && Within(Apply(budgets, op))
  {
    hide Charged, Used;
    if i != j && WellFormed(budgets, Transfer(i, j, size)) { TransferTotals(budgets, i, j, size); }
    ApplyWithin(budgets, Transfer(i, j, size));
  }

  lemma ClearIsInit(budgets: seq<Budget>, i: nat)
    requires i < |budgets| && budgets[i].used == 0
    ensures Succeeds(budgets, Clear(i)) == Succeeds(budgets, Init(i, budgets[i].direction, 0))
    ensures Apply(budgets, Clear(i)) == Apply(budgets, Init(i, budgets[i].direction, 0))
  {
    hide Charged, Used;
    if WellFormed(budgets, Clear(i)) {
      assert Asked(budgets, Clear(i)) == Asked(budgets, Init(i, budgets[i].direction, 0));
    }
  }

  // ----- the code -----

  /** The file's static state and the budget structures it is given.  `charges` holds the
      `charged` field of each budget. */
  class Accounts {
    var budgets: seq<Budget>
    var charges: seq<nat>
    const charged: array<nat>
    const used: array<nat>

    ghost predicate Valid()
      reads this, charged, used
    {
      && charged != used
      && charged.Length == DIRECTIONS && used.Length == DIRECTIONS
      && |charges| == |budgets|
      && (forall i :: 0 <= i < |budgets| ==> charges[i] == budgets[i].Charge())
      && (forall d :: 0 <= d < DIRECTIONS ==> charged[d] == Charged(budgets, d) && used[d] == Used(budgets, d))
      && Within(budgets)
    }

    constructor ()
      ensures Valid() && budgets == []
      ensures fresh(charged) && fresh(used)
    {
      budgets := [];
      charges := [];
      charged := new nat[DIRECTIONS](_ => 0);
      used := new nat[DIRECTIONS](_ => 0);
    }

    /** An uncharged budget structure comes into being. */
    method Declare(direction: nat) returns (i: nat)
      requires Valid()
      modifies this`budgets, this`charges
      ensures Valid()
      ensures i == old(|budgets|) && budgets == old(budgets) + [Budget(0, 0, direction)]
    {
      i := |budgets|;
      forall d | 0 <= d < DIRECTIONS ensures Charged(budgets + [Budget(0, 0, direction)], d) == Charged(budgets, d)
          && Used(budgets + [Budget(0, 0, direction)], d) == Used(budgets, d) {
        ChargeAppend(budgets, Budget(0, 0, direction), d);
      }
      hide Charged, Used;
      budgets := budgets + [Budget(0, 0, direction)];
      charges := charges + [0];
    }

    method Claim(i: nat, size: nat) returns (ok: bool)
      requires Valid() && size <= SIZE_MAX
      modifies this`budgets, this`charges, charged, used
      ensures Valid()
      ensures ok == Succeeds(old(budgets), Hold(i, size))
      ensures budgets == Apply(old(budgets), Hold(i, size))
    {
      hide Charged, Used;
      if i >= |budgets| || budgets[i].direction >= DIRECTIONS {
        return false;
      }
      var b := budgets[i];
      var d := b.direction;
      if size > SIZE_MAX - b.used {
        MemberBound(budgets, i, d);
        return false;
      }
      var total := b.used + size;
      var increase := if total > charges[i] then total - charges[i] else 0;
      Moved(budgets, i, b.(used := total));
      if increase > TOTAL_LIMIT - charged[d] {
        assert Charged(Asked(budgets, Hold(i, size)), d) > TOTAL_LIMIT;
        return false;
      }
      charged[d] := charged[d] + increase;
      charges := charges[i := charges[i] + increase];
      used[d] := used[d] + size;
      budgets := budgets[i := b.(used := total)];
      assert budgets == Asked(old(budgets), Hold(i, size));
      assert forall e :: 0 <= e < DIRECTIONS ==> charged[e] == Charged(budgets, e);
      assert forall e :: 0 <= e < DIRECTIONS ==> used[e] == Used(budgets, e);
      ApplyWithin(old(budgets), Hold(i, size));
      return true;
    }

    /** core_buffer_drop and the tail of core_buffer_free. */
    method Release(i: nat, size: nat)
      requires Valid() && WellFormed(budgets, Drop(i, size))
      requires budgets[i].direction < DIRECTIONS
      modifies this`budgets, this`charges, charged, used
      ensures Valid()
      ensures budgets == Apply(old(budgets), Drop(i, size)) == Asked(old(budgets), Drop(i, size))
    {
      hide Charged, Used;
      DropSucceeds(budgets, i, size);
      ApplyWithin(budgets, Drop(i, size));
      var b := budgets[i];
      var d := b.direction;
      MemberBound(budgets, i, d);
      Moved(budgets, i, b.(used := b.used - size));
      budgets := budgets[i := b.(used := b.used - size)];
      used[d] := used[d] - size;
      var remaining := if budgets[i].used > b.minimum then budgets[i].used else b.minimum;
      charged[d] := charged[d] - (charges[i] - remaining);
      charges := charges[i := remaining];
    }

    /** core_buffer_budget_init. */
    method Initialize(i: nat, direction: nat, minimum: nat) returns (ok: bool)
      requires Valid()
      modifies this`budgets, this`charges, charged
      ensures Valid()
      ensures ok == Succeeds(old(budgets), Init(i, direction, minimum))
      ensures budgets == Apply(old(budgets), Init(i, direction, minimum))
    {
      hide Charged, Used;
      if i >= |budgets| || direction >= DIRECTIONS || minimum > TOTAL_LIMIT ||
         ((charges[i] != 0 || budgets[i].used != 0) && budgets[i].direction != direction) {
        return false;
      }
      var b := budgets[i];
      var required := if minimum > b.used then minimum else b.used;
      var increase := if required > charges[i] then required - charges[i] else 0;
      Moved(budgets, i, b.(minimum := minimum, direction := direction));
      if b.direction == direction { MemberBound(budgets, i, direction); }
      if increase > TOTAL_LIMIT - charged[direction] {
        assert Charged(Asked(budgets, Init(i, direction, minimum)), direction) > TOTAL_LIMIT;
        return false;
      }
      charged[direction] := charged[direction] + increase;
      if required < charges[i] {
        charged[direction] := charged[direction] - (charges[i] - required);
      }
      budgets := budgets[i := b.(minimum := minimum, direction := direction)];
      charges := charges[i := required];
      assert budgets == Asked(old(budgets), Init(i, direction, minimum));
      assert forall d :: 0 <= d < DIRECTIONS ==> charged[d] == Charged(budgets, d);
      assert forall d :: 0 <= d < DIRECTIONS ==> used[d] == Used(budgets, d);
      ApplyWithin(old(budgets), Init(i, direction, minimum));
      return true;
    }

    /** core_buffer_budget_clear. */
    method Reset(i: nat) returns (ok: bool)
      requires Valid()
      modifies this`budgets, this`charges, charged
      ensures Valid()
      ensures ok == Succeeds(old(budgets), Clear(i))
      ensures budgets == Apply(old(budgets), Clear(i))
    {
      hide Charged, Used;
      if i >= |budgets| || budgets[i].used != 0 {
        return false;
      }
      ClearIsInit(budgets, i);
      ok := Initialize(i, budgets[i].direction, 0);
    }

    /** core_buffer_alloc; `memory` is whether malloc succeeds. */
    method Alloc(i: nat, size: nat, memory: bool) returns (ok: bool)
      requires Valid() && size <= SIZE_MAX
      modifies this`budgets, this`charges, charged, used
      ensures Valid()
      ensures ok == (size > 0 && memory && Succeeds(old(budgets), Hold(i, size)))
      ensures budgets == if ok then Asked(old(budgets), Hold(i, size)) else old(budgets)
    {
      hide Charged, Used;
      if size == 0 {
        return false;
      }
      var claimed := Claim(i, size);
      if !claimed {
        return false;
      }
      if !memory {
        HoldThenDrop(old(budgets), i, size);
        Release(i, size);
        return false;
      }
      return true;
    }

    /** core_buffer_realloc of a block of `previous` bytes; none is given when `previous` is zero.
        The new size is claimed in full before the old one is released. */
    method Realloc(i: nat, previous: nat, size: nat, memory: bool) returns (ok: bool)
      requires Valid() && size <= SIZE_MAX
      requires previous > 0 ==> WellFormed(budgets, Drop(i, previous))
      modifies this`budgets, this`charges, charged, used
      ensures Valid()
      ensures ok == (size > 0 && memory && Succeeds(old(budgets), Hold(i, size)))
      ensures size > 0 && !ok ==> budgets == old(budgets)
      ensures |budgets| == |old(budgets)| && (i >= |budgets| ==> budgets == old(budgets))
      ensures (size == 0 || ok) && i < |budgets| ==>
                budgets == old(budgets)[i := old(budgets)[i].(used := old(budgets)[i].used + size - previous)]
    {
      hide Charged, Used;
      if size == 0 {
        if previous > 0 { Release(i, previous); }
        return false;
      }
      var claimed := Claim(i, size);
      if !claimed {
        return false;
      }
      if !memory {
        HoldThenDrop(old(budgets), i, size);
        Release(i, size);
        return false;
      }
      if previous > 0 { Release(i, previous); }
      return true;
    }

    method Recharge(d: nat, less: nat, more: nat)
      requires charged.Length == DIRECTIONS && d < DIRECTIONS && less <= charged[d]
      modifies charged
      ensures charged[d] == old(charged[d]) - less + more
      ensures forall e :: 0 <= e < DIRECTIONS && e != d ==> charged[e] == old(charged[e])
    {
      charged[d] := charged[d] - less;
      charged[d] := charged[d] + more;
    }

    /** core_buffer_transfer. */
    method Move(i: nat, j: nat, size: nat) returns (ok: bool)
      requires Valid() && size <= SIZE_MAX
      modifies this`budgets, this`charges, charged
      ensures Valid()
      ensures ok == Succeeds(old(budgets), Transfer(i, j, size))
      ensures budgets == Apply(old(budgets), Transfer(i, j, size))
    {
      hide Charged, Used, Within, Succeeds, Apply;
      TransferDecides(budgets, i, j, size);
      if i >= |budgets| || j >= |budgets| || budgets[i].direction >= DIRECTIONS
          || budgets[i].direction != budgets[j].direction {
        return false;
      }
      if i == j {
        return true;
      }
      var from := budgets[i];
      var to := budgets[j];
      var d := from.direction;
      if size > from.used || size > SIZE_MAX - to.used {
        return false;
      }
      var source := from.used - size;
      if source < from.minimum { source := from.minimum; }
      var destination := to.used + size;
      if destination < to.minimum { destination := to.minimum; }
      var current := charges[i] + charges[j];
      var future := source + destination;
      TransferTotals(budgets, i, j, size);
      ChargedWithin(budgets, d);
      if future > current && future - current > TOTAL_LIMIT - charged[d] {
        return false;
      }
      ghost var asked := Asked(budgets, Transfer(i, j, size));
      Recharge(d, current, future);
      budgets := budgets[i := from.(used := from.used - size)][j := to.(used := to.used + size)];
      charges := charges[i := source][j := destination];
      assert budgets == asked;
      return true;
    }
  }

  /** Changing one budget within its direction moves that direction's totals and no others. */
  lemma Moved(budgets: seq<Budget>, i: nat, b: Budget)
    requires i < |budgets|
    ensures forall d :: 0 <= d < DIRECTIONS ==>
      && Charged(budgets[i := b], d) == Charged(budgets, d) - (if budgets[i].direction == d then budgets[i].Charge()
          else 0) + (if b.direction == d then b.Charge() else 0)
      && Used(budgets[i := b], d) == Used(budgets, d) - (if budgets[i].direction == d then budgets[i].used
          else 0) + (if b.direction == d then b.used else 0)
  {
    hide Charged, Used;
    forall d | 0 <= d < DIRECTIONS
      ensures Charged(budgets[i := b], d) == Charged(budgets, d) - (if budgets[i].direction == d
          then budgets[i].Charge() else 0) + (if b.direction == d then b.Charge() else 0)
      ensures Used(budgets[i := b], d) == Used(budgets, d) - (if budgets[i].direction == d then budgets[i].used
          else 0) + (if b.direction == d then b.used else 0)
    {
      ChargeUpdate(budgets, i, b, d);
    }
  }
}
