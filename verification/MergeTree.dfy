/** Binary trees over a row of items whose left part is always the largest power of two
    that leaves something for the right part (section 2.1 of the BLAKE3 paper), and the
    stack of finished subtrees with which such a tree is built from left to right.

    `O` is an unfinished node and `T` its chaining value.
 */
module MergeTree {
  import opened Arithmetic

  datatype Ops<!O, !T> = Ops(leaf: nat -> O, cv: O -> T, parent: (T, T) -> O)

  /** Largest power of two that is at most `n`. */
  function HighPower(n: nat): (k: nat)
    requires n >= 1
    ensures 1 <= k <= n < 2 * k
  {
    if n == 1 then 1 else 2 * HighPower(n / 2)
  }

  /** Root of the `j`-th perfect subtree of height `level`. */
  ghost function Node<O, T>(ops: Ops<O, T>, level: nat, j: nat): O
    decreases level
  {
    if level == 0 then ops.leaf(j) else
      ops.parent(ops.cv(Node(ops, level - 1, 2 * j)), ops.cv(Node(ops, level - 1, 2 * j + 1)))
  }

  /** Root of the tree over `n` consecutive nodes of one level; on level 0, the tree of the paper. */
  ghost function Tree<O, T>(ops: Ops<O, T>, level: nat, lo: nat, n: nat): O
    requires n >= 1
    decreases n
  {
    if n == 1 then Node(ops, level, lo) else
      var k := HighPower(n - 1);
      ops.parent(ops.cv(Tree(ops, level, lo, k)), ops.cv(Tree(ops, level, lo + k, n - k)))
  }

  /** The stack after `n` nodes of a level: one entry for each one bit of `n`, the lowest bit on top. */
  ghost function Stack<O, T>(ops: Ops<O, T>, level: nat, n: nat): seq<T>
    decreases n
  {
    if n == 0 then [] else
      var below := Stack(ops, level + 1, n / 2);
      if n % 2 == 0 then below else below + [ops.cv(Node(ops, level, n - 1))]
  }

  /** The same entries read from the highest bit. */
  ghost function Spine<O, T>(ops: Ops<O, T>, level: nat, lo: nat, n: nat): seq<T>
    decreases n
  {
    if n == 0 then [] else
      var k := HighPower(n);
      [ops.cv(Tree(ops, level, lo, k))] + Spine(ops, level, lo + k, n - k)
  }

  /** Pops the stack from the top onto the right-most node. */
  ghost function Close<O, T>(ops: Ops<O, T>, stack: seq<T>, right: O): O
    decreases |stack|
  {
    if stack == [] then right else
      Close(ops, stack[..|stack| - 1], ops.parent(stack[|stack| - 1], ops.cv(right)))
  }

  function Ones(n: nat): nat {
    if n == 0 then 0 else n % 2 + Ones(n / 2)
  }

  lemma {:induction false} OnesBound(n: nat, k: nat)
    requires n < Two(k)
    ensures Ones(n) <= k
    decreases k
  {
    if n > 0 {
      OnesBound(n / 2, k - 1);
    }
  }

  /** The stack holds one entry per one bit of the number of items pushed. */
  lemma {:induction false} StackLength<O, T>(ops: Ops<O, T>, level: nat, n: nat)
    ensures |Stack(ops, level, n)| == Ones(n)
    decreases n
  {
    if n > 0 {
      StackLength(ops, level + 1, n / 2);
    }
  }

  lemma HighPowerDouble(n: nat)
    requires n >= 1
    ensures HighPower(2 * n) == 2 * HighPower(n) == HighPower(2 * n + 1)
  {
    assert (2 * n) / 2 == n && (2 * n + 1) / 2 == n;
  }

  // One unfolding each; the inductive proofs below hide the definitions and use these.

  lemma TreeStep<O, T>(ops: Ops<O, T>, level: nat, lo: nat, n: nat, k: nat)
    requires n > 1 && k == HighPower(n - 1)
    ensures Tree(ops, level, lo, n) ==
        ops.parent(ops.cv(Tree(ops, level, lo, k)), ops.cv(Tree(ops, level, lo + k, n - k)))
  {
    hide HighPower;
  }

  lemma TreeOne<O, T>(ops: Ops<O, T>, level: nat, lo: nat)
    ensures Tree(ops, level, lo, 1) == Node(ops, level, lo)
  {
  }

  lemma TreeTwo<O, T>(ops: Ops<O, T>, level: nat, lo: nat)
    ensures Tree(ops, level, 2 * lo, 2) == Node(ops, level + 1, lo)
  {
    assert HighPower(1) == 1;
    TreeStep(ops, level, 2 * lo, 2, 1);
    TreeOne(ops, level, 2 * lo);
    TreeOne(ops, level, 2 * lo + 1);
    assert Node(ops, level + 1, lo) ==
        ops.parent(ops.cv(Node(ops, level, 2 * lo)), ops.cv(Node(ops, level, 2 * lo + 1)));
    hide *;
  }

  lemma SpineStep<O, T>(ops: Ops<O, T>, level: nat, lo: nat, n: nat, k: nat)
    requires n > 0 && k == HighPower(n)
    ensures Spine(ops, level, lo, n) == [ops.cv(Tree(ops, level, lo, k))] + Spine(ops, level, lo + k, n - k)
  {
    hide HighPower, Tree;
  }

  lemma SpineNone<O, T>(ops: Ops<O, T>, level: nat, lo: nat)
    ensures Spine(ops, level, lo, 0) == []
  {
  }

  lemma NodeZero<O, T>(ops: Ops<O, T>, j: nat)
    ensures Node(ops, 0, j) == ops.leaf(j)
  {
  }

  lemma NodeStep<O, T>(ops: Ops<O, T>, level: nat, j: nat)
    ensures Node(ops, level + 1, j) == ops.parent(ops.cv(Node(ops, level, 2 * j)), ops.cv(Node(ops, level, 2 * j + 1)))
  {
  }

  lemma CloseNone<O, T>(ops: Ops<O, T>, right: O)
    ensures Close(ops, [], right) == right
  {
  }

  lemma StackNone<O, T>(ops: Ops<O, T>, level: nat)
    ensures Stack(ops, level, 0) == []
  {
  }

  lemma StackStep<O, T>(ops: Ops<O, T>, level: nat, n: nat)
    requires n > 0
    ensures Stack(ops, level, n) ==
            Stack(ops, level + 1, n / 2) + if n % 2 == 0 then [] else [ops.cv(Node(ops, level, n - 1))]
  {
    hide Node;
  }

  lemma {:induction false} TreeDouble<O, T>(ops: Ops<O, T>, level: nat, lo: nat, n: nat)
    requires n >= 1
    ensures Tree(ops, level + 1, lo, n) == Tree(ops, level, 2 * lo, 2 * n)
    decreases n
  {
    hide *;
    if n == 1 {
      TreeOne(ops, level + 1, lo);
      TreeTwo(ops, level, lo);
    } else {
      var k := HighPower(n - 1);
      HighPowerDouble(n - 1);
      TreeDouble(ops, level, lo, k);
      TreeDouble(ops, level, lo + k, n - k);
      TreeStep(ops, level + 1, lo, n, k);
      TreeStep(ops, level, 2 * lo, 2 * n, 2 * k);
      assert 2 * (lo + k) == 2 * lo + 2 * k && 2 * (n - k) == 2 * n - 2 * k;
    }
  }

  lemma {:induction false} SpineDouble<O, T>(ops: Ops<O, T>, level: nat, lo: nat, n: nat)
    ensures Spine(ops, level + 1, lo, n) == Spine(ops, level, 2 * lo, 2 * n)
    decreases n
  {
    hide *;
    if n == 0 {
      SpineNone(ops, level + 1, lo);
      SpineNone(ops, level, 2 * lo);
    } else {
      var k := HighPower(n);
      HighPowerDouble(n);
      SpineStep(ops, level + 1, lo, n, k);
      SpineStep(ops, level, 2 * lo, 2 * n, 2 * k);
      TreeDouble(ops, level, lo, k);
      SpineDouble(ops, level, lo + k, n - k);
      assert 2 * (lo + k) == 2 * lo + 2 * k && 2 * (n - k) == 2 * n - 2 * k;
    }
  }

  lemma HighPowerOne()
    ensures HighPower(1) == 1
  {
  }

  lemma {:induction false} SpineOdd<O, T>(ops: Ops<O, T>, level: nat, lo: nat, half: nat)
    ensures Spine(ops, level, lo, 2 * half + 1) ==
        Spine(ops, level, lo, 2 * half) + [ops.cv(Node(ops, level, lo + 2 * half))]
    decreases half
  {
    hide *;
    var n := 2 * half;
    if half == 0 {
      HighPowerOne();
      SpineStep(ops, level, lo, 1, 1);
      SpineNone(ops, level, lo + 1);
      SpineNone(ops, level, lo);
      TreeOne(ops, level, lo);
    } else {
      var k := 2 * HighPower(half);
      HighPowerDouble(half);
      SpineStep(ops, level, lo, n, k);
      SpineStep(ops, level, lo, n + 1, k);
      var rest := half - HighPower(half);
      assert n - k == 2 * rest && n + 1 - k == 2 * rest + 1 && lo + k + 2 * rest == lo + n;
      SpineOdd(ops, level, lo + k, rest);
    }
  }

  lemma {:induction false} StackIsSpine<O, T>(ops: Ops<O, T>, level: nat, n: nat)
    ensures Stack(ops, level, n) == Spine(ops, level, 0, n)
    decreases n
  {
    hide *;
    if n == 0 {
      StackNone(ops, level);
      SpineNone(ops, level, 0);
    } else {
      var half := n / 2;
      StackStep(ops, level, n);
      StackIsSpine(ops, level + 1, half);
      SpineDouble(ops, level, 0, half);
      SpineOdd(ops, level, 0, half);
      assert n == 2 * half || n == 2 * half + 1;
    }
  }

  lemma {:induction false} CloseFromBottom<O, T>(ops: Ops<O, T>, stack: seq<T>, right: O)
    requires stack != []
    ensures Close(ops, stack, right) == ops.parent(stack[0], ops.cv(Close(ops, stack[1..], right)))
    decreases |stack|
  {
    var top := |stack| - 1;
    if top > 0 {
      CloseFromBottom(ops, stack[..top], ops.parent(stack[top], ops.cv(right)));
      assert stack[1..][..top - 1] == stack[..top][1..];
    }
  }

  lemma {:induction false} CloseSpine<O, T>(ops: Ops<O, T>, lo: nat, n: nat)
    ensures Close(ops, Spine(ops, 0, lo, n), ops.leaf(lo + n)) == Tree(ops, 0, lo, n + 1)
    decreases n
  {
    hide *;
    if n == 0 {
      SpineNone(ops, 0, lo);
      CloseNone(ops, ops.leaf(lo));
      TreeOne(ops, 0, lo);
      NodeZero(ops, lo);
    } else {
      var k := HighPower(n);
      SpineStep(ops, 0, lo, n, k);
      TreeStep(ops, 0, lo, n + 1, k);
      var spine := Spine(ops, 0, lo, n);
      CloseFromBottom(ops, spine, ops.leaf(lo + n));
      assert spine[1..] == Spine(ops, 0, lo + k, n - k);
      CloseSpine(ops, lo + k, n - k);
      assert lo + k + (n - k) == lo + n && n - k + 1 == n + 1 - k;
    }
  }

  /** Closing the stack of the first `n` items onto the last item gives the tree over all of them. */
  lemma CloseIsTree<O, T>(ops: Ops<O, T>, n: nat)
    ensures Close(ops, Stack(ops, 0, n), ops.leaf(n)) == Tree(ops, 0, 0, n + 1)
  {
    hide *;
    StackIsSpine(ops, 0, n);
    CloseSpine(ops, 0, n);
  }

  lemma {:induction false} TwoSum(a: nat, b: nat)
    ensures Two(a + b) == Two(a) * Two(b)
  {
    if a > 0 {
      TwoSum(a - 1, b);
    }
  }

  lemma Power54()
    ensures Two(54) == 0x40_0000_0000_0000
  {
    assert Two(9) == 512;
    TwoSum(9, 9);
    TwoSum(18, 9);
    TwoSum(27, 27);
  }

  /** Pushes item `n`, whose chaining value is `leafCv`: it is first merged with the finished
      subtrees of its own height, one for each trailing zero bit of `n + 1`. */
  method Push<O, T>(ops: Ops<O, T>, n: nat, leafCv: T, stack: array<T>, length: nat) returns (newLength: nat)
    requires leafCv == ops.cv(ops.leaf(n))
    requires length <= stack.Length && stack[..length] == Stack(ops, 0, n)
    requires n + 1 < Two(stack.Length)
    modifies stack
    ensures newLength == Ones(n + 1) <= stack.Length
    ensures stack[..newLength] == Stack(ops, 0, n + 1)
  {
    hide *;
    NodeZero(ops, n);
    var cv := leafCv;
    newLength := length;
    var total := n + 1;
    ghost var level := 0;
    while total % 2 == 0
      invariant total >= 1
      invariant newLength <= stack.Length
      invariant cv == ops.cv(Node(ops, level, total - 1))
      invariant stack[..newLength] == Stack(ops, level, total - 1)
      invariant Stack(ops, level, total) == Stack(ops, 0, n + 1)
      decreases total
    {
      assert (total - 1) / 2 == total / 2 - 1;
      StackStep(ops, level, total - 1);
      StackStep(ops, level, total);
      NodeStep(ops, level, total / 2 - 1);
      newLength := newLength - 1;
      cv := ops.cv(ops.parent(stack[newLength], cv));
      assert stack[..newLength] == Stack(ops, level, total - 1)[..newLength];
      total := total / 2;
      level := level + 1;
    }
    StackLength(ops, 0, n + 1);
    OnesBound(n + 1, stack.Length);
    StackOdd(ops, level, total);
    stack[newLength] := cv;
    newLength := newLength + 1;
    assert stack[..newLength] == Stack(ops, level, total);
  }

  /** Closes the tree: pops every stack entry onto the right-most node. */
  method PopAll<O, T>(ops: Ops<O, T>, right: O, stack: array<T>, length: nat) returns (root: O)
    requires length <= stack.Length
    ensures root == Close(ops, stack[..length], right)
  {
    root := right;
    var left: nat := length;
    while left > 0
      invariant left <= length
      invariant Close(ops, stack[..left], root) == Close(ops, stack[..length], right)
    {
      left := left - 1;
      assert stack[..left + 1][..left] == stack[..left];
      root := ops.parent(stack[left], ops.cv(root));
    }
  }

  lemma StackOdd<O, T>(ops: Ops<O, T>, level: nat, n: nat)
    requires n % 2 == 1
    ensures Stack(ops, level, n) == Stack(ops, level, n - 1) + [ops.cv(Node(ops, level, n - 1))]
  {
    assert (n - 1) / 2 == n / 2;
    StackStep(ops, level, n);
    if n == 1 {
      StackNone(ops, level);
      StackNone(ops, level + 1);
    } else {
      StackStep(ops, level, n - 1);
    }
    hide *;
  }
}
