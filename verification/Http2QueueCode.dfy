/** The code of src/http2_queue.c, over block lists and over one growing buffer, proved
    against the queue as a value. */
module Http2QueueCode {
  import opened Bytes
  import opened BufferBudget
  import opened Http2Queue

  /** The static block cache and the budgets it moves charges between. */
  class BlockCache {
    const accounts: Accounts
    var cached: seq<nat>

    ghost function State(): Store
      reads this, accounts
    {
      Store(accounts.budgets, cached)
    }

    ghost predicate Valid()
      reads this, accounts, accounts.charged, accounts.used
    {
      accounts.Valid() && StoreValid(State())
    }

    /** The cache starts empty, its budgets charged nothing. */
    constructor ()
      ensures Valid() && fresh(accounts) && fresh(accounts.charged) && fresh(accounts.used)
      ensures cached == [0, 0, 0] && |accounts.budgets| == DIRECTIONS
    {
      accounts := new Accounts();
      cached := [0, 0, 0];
      new;
      hide Charged, Used;
      var upload := accounts.Declare(UPLOAD);
      var download := accounts.Declare(DOWNLOAD);
      var relay := accounts.Declare(UPLOAD);
    }

    /** block_new; `memory` is whether malloc succeeds. */
    method New(a: nat, memory: bool) returns (ok: bool)
      requires Valid() && Account(State(), a)
      modifies this, accounts, accounts.charged, accounts.used
      ensures Valid() && (ok, State()) == Take(old(State()), a, memory)
    {
      var d := accounts.budgets[a].direction;
      assert d < |cached| && cached[d] * BLOCK_SIZE <= CACHE_LIMIT;
      hide StoreValid, Within, Succeeds, WellFormed;
      TakeAdjusts(State(), a, memory);
      ok := false;
      if cached[d] > 0 {
        ok := accounts.Move(d, a, BLOCK_SIZE);
        if ok {
          cached := cached[d := cached[d] - 1];
        }
      }
      if !ok {
        ok := accounts.Alloc(a, BLOCK_SIZE, memory);
      }
    }

    /** block_free. */
    method Free(a: nat)
      requires Valid() && Account(State(), a) && accounts.budgets[a].used >= BLOCK_SIZE
      modifies this, accounts, accounts.charged, accounts.used
      ensures Valid() && State() == Give(old(State()), a)
    {
      var d := accounts.budgets[a].direction;
      assert d < |cached| && cached[d] * BLOCK_SIZE <= CACHE_LIMIT;
      hide StoreValid, Within, Succeeds, WellFormed;
      GiveAdjusts(State(), a);
      var retained := false;
      if BLOCK_SIZE <= CACHE_LIMIT - cached[d] * BLOCK_SIZE {
        retained := accounts.Move(a, d, BLOCK_SIZE);
        if retained {
          cached := cached[d := cached[d] + 1];
        }
      }
      if !retained {
        accounts.Release(a, BLOCK_SIZE);
      }
    }
  }

  // ----- block lists -----

  /** A block: the bytes written into it so far, of which those before `start` are consumed. */
  datatype Block = Block(start: nat, bytes: seq<Byte>)

  const FRESH := Block(0, [])

  ghost predicate Sane(blocks: seq<Block>) {
    forall i :: 0 <= i < |blocks| ==> blocks[i].start <= |blocks[i].bytes| <= BLOCK
  }

  ghost function Flat(blocks: seq<Block>): seq<Byte>
    requires Sane(blocks)
  {
    if blocks == [] then [] else blocks[0].bytes[blocks[0].start..] + Flat(blocks[1..])
  }

  /** No block is spent, only the first is partly consumed and only the last partly filled. */
  ghost predicate Layout(blocks: seq<Block>) {
    && Sane(blocks)
    && (forall i :: 0 <= i < |blocks| ==> blocks[i].start < |blocks[i].bytes|)
    && (forall i :: 0 < i < |blocks| ==> blocks[i].start == 0)
    && (forall i :: 0 <= i < |blocks| - 1 ==> |blocks[i].bytes| == BLOCK)
  }

  ghost function ToFifo(blocks: seq<Block>): Fifo
    requires Sane(blocks)
  {
    if blocks == [] then EMPTY else Fifo(blocks[0].start, Flat(blocks))
  }

  lemma {:induction false} LayoutBlocks(blocks: seq<Block>)
    requires Layout(blocks) && blocks != []
    ensures blocks[0].start + |Flat(blocks)| == (|blocks| - 1) * BLOCK + |blocks[|blocks| - 1].bytes|
    ensures Blocks(ToFifo(blocks)) == |blocks| && FifoValid(ToFifo(blocks))
  {
    if |blocks| > 1 {
      LayoutBlocks(blocks[1..]);
    } else {
      assert Flat(blocks[1..]) == [];
    }
  }

  lemma FifoFacts(blocks: seq<Block>)
    requires Layout(blocks)
    ensures FifoValid(ToFifo(blocks)) && ToFifo(blocks).contents == Flat(blocks) && Blocks(ToFifo(blocks)) == |blocks|
  {
    if blocks != [] { LayoutBlocks(blocks); }
  }

  lemma {:induction false} FlatAppend(blocks: seq<Block>, more: seq<Block>)
    requires Sane(blocks) && Sane(more)
    ensures Sane(blocks + more) && Flat(blocks + more) == Flat(blocks) + Flat(more)
  {
    if blocks == [] {
      assert blocks + more == more;
    } else {
      FlatAppend(blocks[1..], more);
      assert (blocks + more)[1..] == blocks[1..] + more;
    }
  }

  lemma {:induction false} FlatFresh(blocks: seq<Block>)
    requires forall i :: 0 <= i < |blocks| ==> blocks[i] == FRESH
    ensures Sane(blocks) && Flat(blocks) == []
  {
    if blocks != [] {
      FlatFresh(blocks[1..]);
    }
  }

  /** Writing to the last used block appends to the contents. */
  lemma {:induction false} FlatWrite(blocks: seq<Block>, w: nat, piece: seq<Byte>)
    requires w < |blocks| && Sane(blocks) && |blocks[w].bytes| + |piece| <= BLOCK
    requires forall i :: w < i < |blocks| ==> blocks[i] == FRESH
    ensures var written := blocks[w := blocks[w].(bytes := blocks[w].bytes + piece)];
            Sane(written) && Flat(written) == Flat(blocks) + piece
    decreases w
  {
    var written := blocks[w := blocks[w].(bytes := blocks[w].bytes + piece)];
    if w == 0 {
      FlatFresh(blocks[1..]);
      assert written[1..] == blocks[1..];
      assert written[0].bytes[written[0].start..] == blocks[0].bytes[blocks[0].start..] + piece;
    } else {
      FlatWrite(blocks[1..], w - 1, piece);
      assert written[1..] == blocks[1..][w - 1 := written[w]];
    }
  }

  lemma {:induction false} TakeManyStuck(s: Store, a: nat, k: nat, n: nat, memory: nat -> bool)
    requires StoreValid(s) && Account(s, a) && k < n
    requires var (j, t) := TakeMany(s, a, k, memory); j == k && !Take(t, a, memory(k)).0
    ensures TakeMany(s, a, n, memory) == TakeMany(s, a, k, memory)
    decreases n
  {
    hide StoreValid, Within;
    var (j, t) := TakeMany(s, a, k, memory);
    TakeAdjusts(t, a, memory(k));
    if n > k + 1 {
      TakeManyStuck(s, a, k, n - 1, memory);
    }
  }

  /** core_http2_queue_t when its limit is the stream limit. */
  class BlockQueue {
    var blocks: seq<Block>
    var length: nat
    var capacity: nat
    const account: nat

    ghost predicate Valid()
      reads this
    {
      Layout(blocks) && length == |Flat(blocks)| && capacity == |blocks| * BLOCK
    }

    ghost function View(): Fifo
      requires Valid()
      reads this
    {
      ToFifo(blocks)
    }

    /** Every byte of the account is one of this queue's blocks. */
    ghost predicate Owns(s: Store)
      requires Valid()
      reads this
    {
      StoreValid(s) && Account(s, account) && s.budgets[account].used == Blocks(View()) * BLOCK_SIZE
    }

    constructor (account: nat)
      ensures Valid() && View() == EMPTY && this.account == account
    {
      blocks, length, capacity := [], 0, 0;
      this.account := account;
    }

    method Span() returns (n: nat)
      requires Valid()
      ensures n <= |View().contents| && (n == 0 <==> View().contents == [])
      ensures n == |View().contents| || View().start + n == BLOCK
    {
      if blocks != [] {
        LayoutBlocks(blocks);
        n := |blocks[0].bytes| - blocks[0].start;
      } else {
        n := length;
      }
    }

    /** The allocation loop of core_http2_queue_append_parts: all the blocks or none. */
    method AcquireBlocks(cache: BlockCache, n: nat, memory: nat -> bool) returns (ok: bool)
      requires cache.Valid() && Account(cache.State(), account)
      modifies cache, cache.accounts, cache.accounts.charged, cache.accounts.used
      ensures cache.Valid() && (ok, cache.State()) == Acquire(old(cache.State()), account, n, memory)
    {
      hide StoreValid, Take, Give, GiveMany;
      ghost var s := cache.State();
      var i := 0;
      while i < n
        invariant 0 <= i <= n
        invariant cache.Valid() && Account(cache.State(), account)
        invariant TakeMany(s, account, i, memory) == (i, cache.State())
      {
        TakeAdjusts(cache.State(), account, memory(i));
        var taken := cache.New(account, memory(i));
        if !taken {
          TakeManyStuck(s, account, i, n, memory);
          GiveAll(cache, i);
          return false;
        }
        i := i + 1;
      }
      return true;
    }

    method GiveAll(cache: BlockCache, n: nat)
      requires cache.Valid() && Account(cache.State(), account) && cache.State().budgets[account].used >= n * BLOCK_SIZE
      modifies cache, cache.accounts, cache.accounts.charged, cache.accounts.used
      ensures cache.Valid() && cache.State() == GiveMany(old(cache.State()), account, n)
    {
      hide StoreValid, Give;
      var left: nat := n;
      while left > 0
        invariant left <= n
        invariant cache.Valid() && Account(cache.State(), account)
            && cache.State().budgets[account].used >= left * BLOCK_SIZE
        invariant GiveMany(cache.State(), account, left) == GiveMany(old(cache.State()), account, n)
      {
        GiveAdjusts(cache.State(), account);
        cache.Free(account);
        left := left - 1;
      }
    }

    /** core_http2_queue_append_parts with the stream limit. */
    method AppendParts(cache: BlockCache, prefix: seq<Byte>, data: seq<Byte>, memory: nat -> bool) returns (ok: bool)
      requires Valid() && cache.Valid() && Owns(cache.State())
      modifies this, cache, cache.accounts, cache.accounts.charged, cache.accounts.used
      ensures Valid() && cache.Valid() && Owns(cache.State())
      ensures (ok, cache.State(), View()) == Append(old(cache.State()), account, old(View()), prefix + data, memory)
    {
      hide Flat, StoreValid, Acquire, Layout, Sane, FifoValid, ToFifo, Blocks, Within;
      ViewFacts();
      AppendedNone(View());
      AppendAdjusts(cache.State(), account, View(), prefix + data, memory);
      if |prefix| > SIZE_MAX - |data| {
        return false;
      }
      var size := |prefix| + |data|;
      if length > STREAM_LIMIT || size > STREAM_LIMIT - length {
        return false;
      }
      if size == 0 {
        assert prefix + data == [];
        AcquireNone(cache.State(), account, memory);
        return true;
      }
      var room := if blocks != [] then BLOCK - |blocks[|blocks| - 1].bytes| else 0;
      var needed: nat := if size > room then (size - room + BLOCK - 1) / BLOCK else 0;
      NeededBlocks(size, prefix + data);
      ok := AcquireBlocks(cache, needed, memory);
      if ok {
        blocks := Fill(blocks, needed, prefix, data);
        FifoFacts(blocks);
        length := length + size;
        capacity := capacity + needed * BLOCK;
      }
    }

    lemma NeededBlocks(size: nat, data: seq<Byte>)
      requires Valid() && size == |data| > 0
      ensures var room := if blocks != [] then BLOCK - |blocks[|blocks| - 1].bytes| else 0;
              var needed := if size > room then (size - room + BLOCK - 1) / BLOCK else 0;
              Blocks(Appended(View(), data)) - Blocks(View()) == needed
    {
      ViewFacts();
      if blocks != [] { LayoutBlocks(blocks); }
      hide Flat, Layout, Sane;
    }

    /** One pass of the consume loop: up to the end of the head block. */
    method ConsumeHead(cache: BlockCache, amount: nat)
      requires Valid() && cache.Valid() && Owns(cache.State())
      requires blocks != [] && 0 < amount && blocks[0].start + amount <= |blocks[0].bytes|
      modifies this, cache, cache.accounts, cache.accounts.charged, cache.accounts.used
      ensures Valid() && cache.Valid() && Owns(cache.State())
      ensures (cache.State(), View()) == Http2Queue.Consume(old(cache.State()), account, old(View()), amount)
      ensures length == old(length) - amount
    {
      hide Flat, StoreValid, Within, Give, GiveMany, Consumed, Blocks;
      HeadConsumedFifo(blocks, amount);
      ghost var next := HeadConsumed(blocks, amount);
      FifoFacts(blocks);
      FifoFacts(next);
      GiveManyNone(cache.State(), account);
      GiveManyOne(cache.State(), account);
      length := length - amount;
      var block := blocks[0].(start := blocks[0].start + amount);
      blocks := blocks[0 := block];
      if block.start == |block.bytes| {
        blocks := blocks[1..];
        capacity := capacity - BLOCK;
        cache.Free(account);
      }
      assert blocks == next;
      assert Adjusted(old(cache.State()), cache.State(), account, Blocks(View()) * BLOCK_SIZE);
    }

    /** core_http2_queue_consume; asking for more than there is empties the queue. */
    method Consume(cache: BlockCache, n: nat)
      requires Valid() && cache.Valid() && Owns(cache.State())
      modifies this, cache, cache.accounts, cache.accounts.charged, cache.accounts.used
      ensures Valid() && cache.Valid() && Owns(cache.State())
      ensures (cache.State(), View()) == Http2Queue.Consume(old(cache.State()), account, old(View()), n)
    {
      hide Flat, StoreValid, Http2Queue.Consume, Layout, Sane, Blocks, FifoValid, ToFifo, Account;
      ViewFacts();
      ConsumeAll(cache.State(), account, View(), n);
      var left: nat := if n > length then length else n;
      while left > 0
        invariant Valid() && FifoValid(View()) && left <= length
        invariant cache.Valid() && Owns(cache.State())
        invariant Http2Queue.Consume(cache.State(), account, View(), left) ==
            Http2Queue.Consume(old(cache.State()), account, old(View()), n)
        decreases left
      {
        ViewFacts();
        var amount := |blocks[0].bytes| - blocks[0].start;
        if amount > left {
          amount := left;
        }
        ConsumeTwice(cache.State(), account, View(), amount, left - amount);
        ConsumeHead(cache, amount);
        ViewFacts();
        left := left - amount;
      }
      ConsumeNone(cache.State(), account, View());
    }

    lemma ViewFacts()
      requires Valid()
      ensures Sane(blocks) && FifoValid(View()) && |View().contents| == length && Blocks(View()) == |blocks|
      ensures length > 0 ==> blocks != [] && blocks[0].start < |blocks[0].bytes|
    {
      if blocks != [] { LayoutBlocks(blocks); }
    }

    /** core_http2_queue_copy. */
    method Copy(n: nat) returns (data: seq<Byte>)
      requires Valid() && n <= |View().contents|
      ensures data == View().contents[..n]
    {
      hide Flat;
      data := [];
      var block := blocks;
      while |data| < n
        invariant Sane(block) && |data| <= n <= |Flat(blocks)|
        invariant data == Flat(blocks)[..|data|]
        invariant |data| < n ==> data + Flat(block) == Flat(blocks)
        decreases n - |data| > 0, |block|
      {
        FlatHead(block);
        var amount := |block[0].bytes| - block[0].start;
        if amount > n - |data| {
          amount := n - |data|;
        }
        CopyPiece(data, block, Flat(blocks), amount);
        data := data + block[0].bytes[block[0].start..block[0].start + amount];
        block := block[1..];
      }
    }
  }

  lemma AppendedNone(f: Fifo)
    ensures Appended(f, []) == f
  {
  }

  lemma AcquireNone(s: Store, a: nat, memory: nat -> bool)
    requires StoreValid(s) && Account(s, a)
    ensures Acquire(s, a, 0, memory) == (true, s)
  {
  }

  /** Where the copy loop stands: `position` bytes of the list are written or consumed,
      block `w` is the one to write next and all after it are fresh. */
  ghost predicate Filling(blocks: seq<Block>, start: nat, w: nat, position: nat) {
    && Sane(blocks) && blocks != [] && w <= |blocks|
    && blocks[0].start == start && (forall i :: 0 < i < |blocks| ==> blocks[i].start == 0)
    && (forall i :: 0 <= i < w ==> |blocks[i].bytes| == BLOCK)
    && (forall i :: w < i < |blocks| ==> blocks[i] == FRESH)
    && position == if w < |blocks| then w * BLOCK + |blocks[w].bytes| else w * BLOCK
  }

  lemma FillingStarts(old_: seq<Block>, needed: nat)
    requires Layout(old_) && |old_| + needed > 0
    ensures var blocks := old_ + seq(needed, _ => FRESH);
            var f := ToFifo(old_);
            Filling(blocks, f.start, if old_ == [] then 0 else |old_| - 1, f.start + |f.contents|)
    ensures Flat(old_ + seq(needed, _ => FRESH)) == Flat(old_)
  {
    hide Flat, Blocks;
    FlatFresh(seq(needed, _ => FRESH));
    FlatAppend(old_, seq(needed, _ => FRESH));
    if old_ != [] { LayoutBlocks(old_); }
  }

  lemma FillingWrites(blocks: seq<Block>, start: nat, w: nat, position: nat, piece: seq<Byte>)
    requires Filling(blocks, start, w, position) && w < |blocks| && |blocks[w].bytes| + |piece| <= BLOCK
    ensures var written := blocks[w := blocks[w].(bytes := blocks[w].bytes + piece)];
            && Filling(written, start, if |written[w].bytes| == BLOCK then w + 1 else w, position + |piece|)
            && Sane(written) && Flat(written) == Flat(blocks) + piece
  {
    FlatWrite(blocks, w, piece);
    hide Flat;
  }

  lemma FillingEnds(blocks: seq<Block>, start: nat, w: nat, position: nat)
    requires Filling(blocks, start, w, position)
    requires (|blocks| - 1) * BLOCK < position <= |blocks| * BLOCK && start < position && start < BLOCK
    ensures Layout(blocks) && blocks[0].start == start
  {
    assert w >= |blocks| - 1;
  }

  ghost predicate Progress(blocks: seq<Block>, f: Fifo, w: nat, all: seq<Byte>, offset: nat) {
    && offset <= |all|
    && Filling(blocks, f.start, w, f.start + |f.contents| + offset)
    && Flat(blocks) == f.contents + all[..offset]
  }

  lemma ProgressStep(blocks: seq<Block>, f: Fifo, w: nat, all: seq<Byte>, offset: nat, amount: nat)
    requires Progress(blocks, f, w, all, offset) && w < |blocks|
    requires offset + amount <= |all| && |blocks[w].bytes| + amount <= BLOCK
    ensures var written := blocks[w := blocks[w].(bytes := blocks[w].bytes + all[offset..offset + amount])];
            Progress(written, f, if |written[w].bytes| == BLOCK then w + 1 else w, all, offset + amount)
  {
    hide Flat, Filling;
    FillingWrites(blocks, f.start, w, f.start + |f.contents| + offset, all[offset..offset + amount]);
    assert all[..offset + amount] == all[..offset] + all[offset..offset + amount];
  }

  lemma ProgressEnds(blocks: seq<Block>, f: Fifo, w: nat, all: seq<Byte>)
    requires Progress(blocks, f, w, all, |all|) && all != [] && FifoValid(f) && |blocks| == Blocks(Appended(f, all))
    ensures Layout(blocks) && ToFifo(blocks) == Appended(f, all)
  {
    hide Flat;
    assert all[..|all|] == all;
    FillingEnds(blocks, f.start, w, f.start + |f.contents| + |all|);
  }

  lemma PieceIsSlice(prefix: seq<Byte>, data: seq<Byte>, offset: nat, amount: nat)
    requires offset + amount <= |prefix| + |data|
    ensures offset + amount <= |prefix| ==> (prefix + data)[offset..offset + amount] == prefix[offset..offset + amount]
    ensures offset >= |prefix| ==>
        (prefix + data)[offset..offset + amount] == data[offset - |prefix|..offset - |prefix| + amount]
  {
  }

  /** The copy loop of core_http2_queue_append_parts. */
  method Fill(old_: seq<Block>, needed: nat, prefix: seq<Byte>, data: seq<Byte>) returns (blocks: seq<Block>)
    requires Sane(old_) && Layout(old_) && |prefix| + |data| > 0
    requires FifoValid(ToFifo(old_)) && |old_| + needed == Blocks(Appended(ToFifo(old_), prefix + data))
    ensures Layout(blocks) && ToFifo(blocks) == Appended(ToFifo(old_), prefix + data)
    ensures |blocks| == |old_| + needed
  {
    hide *;
    ghost var all := prefix + data;
    ghost var f := ToFifo(old_);
    FillStarts(old_, needed, all);
    blocks := old_ + seq(needed, _ => FRESH);
    var write: nat := if old_ == [] then 0 else |old_| - 1;
    var size := |prefix| + |data|;
    var offset: nat := 0;
    while offset < size
      invariant offset <= size == |all| && |blocks| == |old_| + needed && write <= |blocks|
      invariant Progress(blocks, f, write, all, offset)
      decreases size - offset, |blocks| - write
    {
      ProgressRoom(blocks, f, write, all, offset);
      var amount := BLOCK - |blocks[write].bytes|;
      if amount > size - offset {
        amount := size - offset;
      }
      if offset < |prefix| && amount > |prefix| - offset {
        amount := |prefix| - offset;
      }
      var piece := if offset < |prefix| then prefix[offset..offset + amount]
          else data[offset - |prefix|..offset - |prefix| + amount];
      PieceIsSlice(prefix, data, offset, amount);
      ProgressStep(blocks, f, write, all, offset, amount);
      blocks := blocks[write := blocks[write].(bytes := blocks[write].bytes + piece)];
      offset := offset + amount;
      if |blocks[write].bytes| == BLOCK {
        write := write + 1;
      }
    }
    ProgressEnds(blocks, f, write, all);
  }

  lemma AppendedSome(f: Fifo, all: seq<Byte>)
    requires all != []
    ensures Blocks(Appended(f, all)) > 0
  {
  }

  lemma FlatContents(blocks: seq<Block>)
    requires Sane(blocks)
    ensures ToFifo(blocks).contents == Flat(blocks)
  {
    FlatHead(blocks);
    hide Flat;
  }

  lemma FillStarts(old_: seq<Block>, needed: nat, all: seq<Byte>)
    requires Layout(old_) && |old_| + needed == Blocks(Appended(ToFifo(old_), all)) && all != []
    ensures Progress(old_ + seq(needed, _ => FRESH), ToFifo(old_), if old_ == [] then 0 else |old_| - 1, all, 0)
  {
    hide Flat, Filling, FifoValid, Blocks, ToFifo;
    AppendedSome(ToFifo(old_), all);
    FlatContents(old_);
    FillingStarts(old_, needed);
  }

  lemma ProgressRoom(blocks: seq<Block>, f: Fifo, w: nat, all: seq<Byte>, offset: nat)
    requires Progress(blocks, f, w, all, offset) && offset < |all| && |blocks| == Blocks(Appended(f, all))
    ensures w < |blocks| && |blocks[w].bytes| <= BLOCK
  {
    hide Flat;
  }

  lemma GiveManyOne(s: Store, a: nat)
    requires StoreValid(s) && Account(s, a)
    ensures s.budgets[a].used >= BLOCK_SIZE ==> GiveMany(s, a, 1) == Give(s, a)
  {
    hide StoreValid, Give;
    if s.budgets[a].used >= BLOCK_SIZE {
      GiveAdjusts(s, a);
      assert GiveMany(s, a, 1) == GiveMany(Give(s, a), a, 0);
    }
  }

  lemma GiveManyNone(s: Store, a: nat)
    requires StoreValid(s) && Account(s, a)
    ensures GiveMany(s, a, 0) == s
  {
  }

  lemma ConsumeNone(s: Store, a: nat, f: Fifo)
    requires StoreValid(s) && Account(s, a) && FifoValid(f) && s.budgets[a].used == Blocks(f) * BLOCK_SIZE
    ensures Http2Queue.Consume(s, a, f, 0) == (s, f)
  {
    hide StoreValid;
  }

  lemma ConsumeAll(s: Store, a: nat, f: Fifo, n: nat)
    requires StoreValid(s) && Account(s, a) && FifoValid(f) && s.budgets[a].used == Blocks(f) * BLOCK_SIZE
    ensures n > |f.contents| ==> Http2Queue.Consume(s, a, f, n) == Http2Queue.Consume(s, a, f, |f.contents|)
  {
    hide StoreValid, GiveMany;
  }

  /** The head block after `amount` of its bytes are consumed; a spent block leaves the list. */
  ghost function HeadConsumed(blocks: seq<Block>, amount: nat): seq<Block>
    requires blocks != []
  {
    if blocks[0].start + amount == |blocks[0].bytes| then blocks[1..]
        else blocks[0 := blocks[0].(start := blocks[0].start + amount)]
  }

  lemma HeadConsumedLayout(blocks: seq<Block>, amount: nat)
    requires Layout(blocks) && blocks != [] && 0 < amount && blocks[0].start + amount <= |blocks[0].bytes|
    ensures Layout(HeadConsumed(blocks, amount))
    ensures amount <= |Flat(blocks)| && Flat(HeadConsumed(blocks, amount)) == Flat(blocks)[amount..]
  {
    hide Flat, Blocks;
    var next := HeadConsumed(blocks, amount);
    FlatHead(blocks);
    FlatHead(next);
    if blocks[0].start + amount < |blocks[0].bytes| {
      assert next[1..] == blocks[1..];
      assert next[0].bytes[next[0].start..] == blocks[0].bytes[blocks[0].start..][amount..];
    }
  }

  /** Where the head block starts after that. */
  lemma HeadConsumedStart(blocks: seq<Block>, amount: nat)
    requires Layout(blocks) && blocks != [] && 0 < amount && blocks[0].start + amount <= |blocks[0].bytes|
    ensures var next := HeadConsumed(blocks, amount);
            && (next == [] ==> blocks[0].start + amount == |blocks[0].bytes| && |blocks| == 1)
            && (next != [] ==> next[0].start == (blocks[0].start + amount) % BLOCK && next[0].start < |next[0].bytes|)
  {
    Wrapped(blocks[0].start + amount);
  }

  lemma FlatSize(blocks: seq<Block>)
    requires Layout(blocks)
    ensures blocks != [] ==> |Flat(blocks)| > 0 && blocks[0].start < BLOCK
    ensures |blocks| == 1 ==> |Flat(blocks)| == |blocks[0].bytes| - blocks[0].start
  {
    FlatHead(blocks);
  }

  /** Consuming from the head block is consuming from the queue. */
  lemma HeadConsumedFifo(blocks: seq<Block>, amount: nat)
    requires Layout(blocks) && blocks != [] && 0 < amount && blocks[0].start + amount <= |blocks[0].bytes|
    ensures var next := HeadConsumed(blocks, amount);
            && Layout(next) && amount <= |Flat(blocks)| && |Flat(next)| == |Flat(blocks)| - amount
            && FifoValid(ToFifo(blocks)) && ToFifo(next) == Consumed(ToFifo(blocks), amount)
  {
    hide Flat, Blocks, HeadConsumed;
    HeadConsumedLayout(blocks, amount);
    HeadConsumedStart(blocks, amount);
    FlatSize(blocks);
    FlatSize(HeadConsumed(blocks, amount));
  }

  lemma Wrapped(start: nat)
    requires start <= BLOCK
    ensures start % BLOCK == if start == BLOCK then 0 else start
  {
  }

  lemma CopyPiece(data: seq<Byte>, block: seq<Block>, all: seq<Byte>, amount: nat)
    requires Sane(block) && block != [] && data + Flat(block) == all && block[0].start + amount <= |block[0].bytes|
    ensures var next := data + block[0].bytes[block[0].start..block[0].start + amount];
            && |next| <= |all| && next == all[..|next|]
            && (block[0].start + amount == |block[0].bytes| ==> next + Flat(block[1..]) == all)
  {
    FlatHead(block);
    hide Flat;
  }

  lemma FlatHead(blocks: seq<Block>)
    requires Sane(blocks)
    ensures blocks == [] ==> Flat(blocks) == []
    ensures blocks != [] ==> Flat(blocks) == blocks[0].bytes[blocks[0].start..] + Flat(blocks[1..])
  {
  }

  // ----- one growing buffer -----

  /** Capacity after growth: doubled until it holds `need`, but never raised beyond the limit. */
  function Grown(capacity: nat, need: nat, limit: nat): (r: nat)
    requires 0 < capacity && need <= limit
    ensures r >= need && r >= capacity
    ensures r <= if capacity <= limit then limit else capacity
    decreases need - capacity
  {
    if capacity >= need then capacity
    else Grown(if capacity > limit / 2 then limit else capacity * 2, need, limit)
  }

  /** No buffer grows beyond the limit, but the first one has 4096 bytes in any case. */
  function Largest(capacity: nat, limit: nat): nat {
    var most := if limit < 4096 then 4096 else limit;
    if capacity > most then capacity else most
  }

  /** `bytes` copied into `buffer` at `at`. */
  function Overwrite(buffer: seq<Byte>, at: nat, bytes: seq<Byte>): (r: seq<Byte>)
    requires at + |bytes| <= |buffer|
    ensures |r| == |buffer|
  {
    buffer[..at] + bytes + buffer[at + |bytes|..]
  }

  lemma OverwriteAfter(buffer: seq<Byte>, start: nat, at: nat, bytes: seq<Byte>)
    requires start <= at && at + |bytes| <= |buffer|
    ensures Overwrite(buffer, at, bytes)[start..at + |bytes|] == buffer[start..at] + bytes
  {
  }

  /** core_http2_queue_t under any other limit: `buffer` is the whole allocation, empty when there is none. */
  class FlatQueue {
    var buffer: seq<Byte>
    var start: nat
    var length: nat
    const account: nat

    ghost predicate Valid()
      reads this
    {
      start + length <= |buffer| && (length == 0 ==> start == 0 && buffer == [])
    }

    ghost function Contents(): seq<Byte>
      requires start + length <= |buffer|
      reads this
    {
      buffer[start..start + length]
    }

    /** The account, which others share, is charged for this buffer. */
    ghost predicate Held(budgets: seq<Budget>)
      reads this
    {
      account < |budgets| && budgets[account].direction < DIRECTIONS && budgets[account].used >= |buffer|
    }

    /** The account's budgets once this buffer of `was` bytes has `now` bytes. */
    ghost function Recharged(budgets: seq<Budget>, was: nat, now: nat): seq<Budget>
      requires account < |budgets| && budgets[account].used >= was
    {
      budgets[account := budgets[account].(used := budgets[account].used - was + now)]
    }

    constructor (account: nat)
      ensures Valid() && Contents() == [] && this.account == account
    {
      buffer, start, length := [], 0, 0;
      this.account := account;
    }

    /** The bytes move to the front of the buffer. */
    method MoveToFront()
      requires start + length <= |buffer|
      modifies this`buffer, this`start
      ensures start == 0 && |buffer| == old(|buffer|) && length <= |buffer| && Contents() == old(Contents())
    {
      hide Overwrite;
      OverwriteAfter(buffer, 0, 0, Contents());
      buffer := Overwrite(buffer, 0, buffer[start..start + length]);
      start := 0;
    }

    /** The buffer is allocated anew, larger. */
    method Grow(accounts: Accounts, size: nat, memory: bool) returns (ok: bool)
      requires accounts.Valid() && Held(accounts.budgets) && start + length <= |buffer| < size <= SIZE_MAX
      modifies this`buffer, accounts, accounts.charged, accounts.used
      ensures start + length <= |buffer| && Contents() == old(Contents())
          && |buffer| == if ok then size else old(|buffer|)
      ensures !ok ==> buffer == old(buffer)
      ensures accounts.Valid() && Held(accounts.budgets)
      ensures accounts.budgets == Recharged(old(accounts.budgets), old(|buffer|), |buffer|)
      ensures ok == (memory && Succeeds(old(accounts.budgets), Hold(account, size)))
    {
      hide Charged, Used, Within, Succeeds;
      ok := accounts.Realloc(account, |buffer|, size, memory);
      if ok {
        buffer := buffer + seq(size - |buffer|, _ => 0);
      }
    }

    /** Makes room for `size` more bytes: the bytes move to the front, and only if that is
        not enough the buffer grows. */
    method MakeRoom(accounts: Accounts, size: nat, limit: nat, memory: bool) returns (ok: bool)
      requires Valid() && accounts.Valid() && Held(accounts.budgets)
      requires 0 < size && length + size <= limit <= SIZE_MAX
      modifies this, accounts, accounts.charged, accounts.used
      ensures length == old(length) && start + length <= |buffer| <= Largest(old(|buffer|), limit)
          && Contents() == old(Contents())
      ensures ok ==> start + length + size <= |buffer|
      ensures !ok ==> Valid() && |buffer| == old(|buffer|)
      ensures accounts.Valid() && Held(accounts.budgets)
      ensures accounts.budgets == Recharged(old(accounts.budgets), old(|buffer|), |buffer|)
      ensures ok == (old(length) + size <= old(|buffer|) ||
                     (memory && Succeeds(old(accounts.budgets),
                         Hold(account,
                             Grown(if old(buffer) == [] then 4096 else old(|buffer|), old(length) + size, limit)))))
    {
      hide Charged, Used, Within, Grown, Succeeds, Recharged;
      Unchanged(accounts.budgets);
      if start + length + size > |buffer| {
        if start > 0 {
          MoveToFront();
        }
        if length + size > |buffer| {
          ok := Grow(accounts, Grown(if |buffer| > 0 then |buffer| else 4096, length + size, limit), memory);
          return;
        }
      }
      return true;
    }

    lemma Unchanged(budgets: seq<Budget>)
      requires Held(budgets)
      ensures Recharged(budgets, |buffer|, |buffer|) == budgets
    {
    }

    /** core_http2_queue_append_parts under a limit that is not the stream limit. */
    method AppendParts(accounts: Accounts, prefix: seq<Byte>, data: seq<Byte>, limit: nat, memory: bool)
        returns (ok: bool)
      requires Valid() && accounts.Valid() && Held(accounts.budgets)
      requires limit <= SIZE_MAX
      modifies this, accounts, accounts.charged, accounts.used
      ensures Valid() && accounts.Valid() && Held(accounts.budgets) && |buffer| <= Largest(old(|buffer|), limit)
      ensures Contents() == if ok then old(Contents()) + prefix + data else old(Contents())
      ensures accounts.budgets == Recharged(old(accounts.budgets), old(|buffer|), |buffer|)
      ensures !ok ==> accounts.budgets == old(accounts.budgets)
      ensures old(length) + |prefix| + |data| > limit ==> !ok
      ensures old(length) + |prefix| + |data| <= limit && old(length) + |prefix| + |data| <= old(|buffer|) ==> ok
    {
      hide Charged, Used, Within, Succeeds, Overwrite, Grown;
      if |prefix| > SIZE_MAX - |data| {
        return false;
      }
      var size := |prefix| + |data|;
      if length > limit || size > limit - length {
        return false;
      }
      if size == 0 {
        return true;
      }
      ok := MakeRoom(accounts, size, limit, memory);
      if ok {
        OverwriteAfter(buffer, start, start + length, prefix);
        buffer := Overwrite(buffer, start + length, prefix);
        OverwriteAfter(buffer, start, start + length + |prefix|, data);
        buffer := Overwrite(buffer, start + length + |prefix|, data);
        length := length + size;
      }
    }

    /** core_http2_queue_consume; an emptied buffer is freed. */
    method Consume(accounts: Accounts, n: nat)
      requires Valid() && accounts.Valid() && Held(accounts.budgets)
      modifies this, accounts, accounts.charged, accounts.used
      ensures Valid() && accounts.Valid() && Held(accounts.budgets)
      ensures Contents() == if n >= |old(Contents())| then [] else old(Contents())[n..]
      ensures accounts.budgets == Recharged(old(accounts.budgets), old(|buffer|), |buffer|)
      ensures Contents() == [] <==> buffer == []
    {
      hide Charged, Used, Within, Succeeds, Apply;
      ghost var was := Contents();
      assert n < |was| ==> was[n..] == buffer[start + n..start + length];
      var left := if n > length then length else n;
      length := length - left;
      start := start + left;
      if length == 0 {
        if |buffer| > 0 {
          accounts.Release(account, |buffer|);
        }
        buffer := [];
        start := 0;
      }
    }

    method Copy(n: nat) returns (data: seq<Byte>)
      requires Valid() && n <= |Contents()|
      ensures data == Contents()[..n]
    {
      data := buffer[start..start + n];
    }
  }
}
