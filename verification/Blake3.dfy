/** src/blake3.c: BLAKE3 over an in-memory input.

    The code keeps a stack of chaining values and merges them according to the
    trailing zero bits of the number of chunks seen.  The main result is that
    this computes the recursive binary tree of section 2.1 of the BLAKE3 paper,
    for every compression function.  The compression rounds are a parameter.
 */
module Blake3 {
  import Arithmetic
  import opened MergeTree

  type Word = bv32
  type Words8 = s: seq<Word> | |s| == 8 witness [0, 0, 0, 0, 0, 0, 0, 0]
  type Words16 = s: seq<Word> | |s| == 16 witness [0, 0, 0, 0, 0, 0, 0, 0, 0, 0, 0, 0, 0, 0, 0, 0]

  /** chaining value, block, counter, block length, flags */
  type Compress = (Words8, Words16, nat, nat, Word) -> Words16

  const CHUNK_START: Word := 1
  const CHUNK_END: Word := 2
  const PARENT: Word := 4
  const ROOT: Word := 8
  const CHUNK := 1024
  const SIZE_LIMIT := 0x1_0000_0000_0000_0000
  const STACK_SLOTS := 54

  /** What stays fixed during one hash: the compression function, the key words and the mode flags. */
  datatype Mode = Mode(compress: Compress, key: Words8, flags: Word)

  datatype Output = Output(inputCv: Words8, block: Words16, counter: nat, blockLen: nat, flags: Word)

  // ----- nodes -----

  function WithFlag(flags: Word, bit: Word): Word {
    flags | bit
  }

  function StartFlag(flags: Word, first: bool): Word {
    WithFlag(flags, if first then CHUNK_START else 0)
  }

  function OutputCv(m: Mode, o: Output): Words8 {
    m.compress(o.inputCv, o.block, o.counter, o.blockLen, o.flags)[..8]
  }

  function StoreWord(v: Word): seq<bv8> {
    [(v & 0xff) as bv8, ((v >> 8) & 0xff) as bv8, ((v >> 16) & 0xff) as bv8, ((v >> 24) & 0xff) as bv8]
  }

  function StoreWords(words: seq<Word>): (r: seq<bv8>)
    ensures |r| == 4 * |words|
  {
    if words == [] then [] else StoreWord(words[0]) + StoreWords(words[1..])
  }

  /** The root node is compressed with counter zero and the root flag; its first eight words are the digest. */
  function RootDigest(m: Mode, o: Output): seq<bv8> {
    StoreWords(m.compress(o.inputCv, o.block, 0, o.blockLen, WithFlag(o.flags, ROOT))[..8])
  }

  function ByteOrZero(bytes: seq<bv8>, i: nat): Word {
    if i < |bytes| then bytes[i] as Word else 0
  }

  function LoadWord(bytes: seq<bv8>, i: nat): Word {
    ByteOrZero(bytes,
        i) | (ByteOrZero(bytes, i + 1) << 8) | (ByteOrZero(bytes, i + 2) << 16) | (ByteOrZero(bytes, i + 3) << 24)
  }

  /** A block of at most 64 bytes, zero padded, as sixteen little-endian words. */
  function LoadBlock(bytes: seq<bv8>): Words16
    requires |bytes| <= 64
  {
    seq(16, i requires 0 <= i < 16 => LoadWord(bytes, 4 * i))
  }

  function BlockCount(length: nat): (n: nat)
    ensures n >= 1
  {
    if length == 0 then 1 else (length + 63) / 64
  }

  /** Chaining value after the first `n` full blocks of a chunk. */
  function ChunkCv(m: Mode, bytes: seq<bv8>, counter: nat, n: nat): Words8
    requires 64 * n <= |bytes|
  {
    if n == 0 then m.key else
      m.compress(ChunkCv(m, bytes, counter, n - 1), LoadBlock(bytes[64 * (n - 1)..64 * n]), counter, 64,
                 StartFlag(m.flags, n == 1))[..8]
  }

  function ChunkOutput(m: Mode, bytes: seq<bv8>, counter: nat): Output {
    var blocks := BlockCount(|bytes|);
    var last := bytes[64 * (blocks - 1)..];
    Output(ChunkCv(m, bytes, counter, blocks - 1), LoadBlock(last), counter, |last|,
           StartFlag(WithFlag(m.flags, CHUNK_END), blocks == 1))
  }

  function ParentOutput(m: Mode, left: Words8, right: Words8): Output {
    Output(m.key, left + right, 0, 64, WithFlag(m.flags, PARENT))
  }

  /** The block of a parent is its left child's chaining value and then its right child's. */
  lemma ParentExact(m: Mode, left: Words8, right: Words8, i: nat)
    requires i < 8
    ensures var o := ParentOutput(m, left, right);
            && o.block[i] == left[i] && o.block[8 + i] == right[i]
            && o.inputCv == m.key && o.counter == 0 && o.blockLen == 64 && o.flags == WithFlag(m.flags, PARENT)
  {
    hide WithFlag;
  }

  function Join(a: bv8, b: bv8, c: bv8, d: bv8): Word {
    (a as Word) | ((b as Word) << 8) | ((c as Word) << 16) | ((d as Word) << 24)
  }

  lemma Parts(a: bv8, b: bv8, c: bv8, d: bv8)
    ensures StoreWord(Join(a, b, c, d)) == [a, b, c, d]
  {
  }

  lemma Whole(v: Word)
    ensures var s := StoreWord(v); |s| == 4 && Join(s[0], s[1], s[2], s[3]) == v
    ensures StoreWord(0x0403_0201) == [1, 2, 3, 4]
  {
  }

  lemma LoadIs(bytes: seq<bv8>, i: nat)
    requires i + 4 <= |bytes|
    ensures LoadWord(bytes, i) == Join(bytes[i], bytes[i + 1], bytes[i + 2], bytes[i + 3])
    ensures bytes[i..i + 4] == [bytes[i], bytes[i + 1], bytes[i + 2], bytes[i + 3]]
  {
  }

  /** Words are read as they are written, the least significant byte first. */
  lemma LoadExact(bytes: seq<bv8>, i: nat, v: Word)
    requires i + 4 <= |bytes|
    ensures LoadWord(bytes, i) == v <==> bytes[i..i + 4] == StoreWord(v)
    ensures StoreWord(0x0403_0201) == [1, 2, 3, 4]
  {
    hide StoreWord, Join, LoadWord;
    LoadIs(bytes, i);
    Parts(bytes[i], bytes[i + 1], bytes[i + 2], bytes[i + 3]);
    Whole(v);
  }

  /** Past the end of the bytes a block is zero. */
  lemma BlockExact(bytes: seq<bv8>, i: nat)
    requires |bytes| <= 64 && i < 16
    ensures LoadBlock(bytes)[i] == LoadWord(bytes + seq(64 - |bytes|, _ => 0), 4 * i)
  {
    var all := bytes + seq(64 - |bytes|, _ => 0);
    forall j: nat | j < 64 ensures ByteOrZero(bytes, j) == ByteOrZero(all, j) {
    }
    hide ByteOrZero;
  }

  // ----- the tree of the paper -----

  function ChunkCount(length: nat): (n: nat)
    ensures n >= 1
    ensures CHUNK * (n - 1) <= length <= CHUNK * n
    ensures n > 1 ==> CHUNK * (n - 1) < length
  {
    if length == 0 then 1 else (length + CHUNK - 1) / CHUNK
  }

  function Chunk(input: seq<bv8>, j: nat): seq<bv8> {
    if CHUNK * (j + 1) <= |input| then input[CHUNK * j..CHUNK * (j + 1)]
    else if CHUNK * j <= |input| then input[CHUNK * j..]
    else []
  }

  function TreeOps(m: Mode, input: seq<bv8>): Ops<Output, Words8> {
    Ops(j => ChunkOutput(m, Chunk(input, j), j), o => OutputCv(m, o), (l, r) => ParentOutput(m, l, r))
  }

  /** Every input is split into chunks, the tree is built over them, and only its top carries the root flag. */
  ghost function TreeDigest(m: Mode, input: seq<bv8>): seq<bv8> {
    RootDigest(m, Tree(TreeOps(m, input), 0, 0, ChunkCount(|input|)))
  }

  // ----- the code -----

  lemma ChunkCvStep(m: Mode, bytes: seq<bv8>, counter: nat, n: nat)
    requires 64 * (n + 1) <= |bytes|
    ensures ChunkCv(m, bytes, counter, n + 1) ==
            m.compress(ChunkCv(m, bytes, counter, n), LoadBlock(bytes[64 * n..64 * n + 64]), counter, 64,
                       StartFlag(m.flags, n == 0))[..8]
  {
    hide LoadBlock, StartFlag;
  }

  method ComputeChunkOutput(m: Mode, bytes: seq<bv8>, counter: nat) returns (o: Output)
    ensures o == ChunkOutput(m, bytes, counter)
  {
    hide LoadBlock, ChunkCv, StartFlag, WithFlag;
    var cv := m.key;
    var blocks := if |bytes| == 0 then 1 else (|bytes| + 63) / 64;
    var i := 0;
    assert cv == ChunkCv(m, bytes, counter, 0) by { ChunkCvZero(m, bytes, counter); }
    while i + 1 < blocks
      invariant 0 <= i < blocks
      invariant cv == ChunkCv(m, bytes, counter, i)
    {
      var block := LoadBlock(bytes[64 * i..64 * i + 64]);
      var words := m.compress(cv, block, counter, 64, StartFlag(m.flags, i == 0));
      cv := words[..8];
      ChunkCvStep(m, bytes, counter, i);
      i := i + 1;
    }
    var lastOff := (blocks - 1) * 64;
    var lastLen := if |bytes| > lastOff then |bytes| - lastOff else 0;
    assert bytes[lastOff..lastOff + lastLen] == bytes[64 * (blocks - 1)..];
    o := Output(cv, LoadBlock(bytes[lastOff..lastOff + lastLen]), counter, lastLen,
                StartFlag(WithFlag(m.flags, CHUNK_END), blocks == 1));
  }

  lemma ChunkCvZero(m: Mode, bytes: seq<bv8>, counter: nat)
    ensures ChunkCv(m, bytes, counter, 0) == m.key
  {
  }

  lemma OpsFacts(m: Mode, input: seq<bv8>)
    ensures forall j :: TreeOps(m, input).leaf(j) == ChunkOutput(m, Chunk(input, j), j)
    ensures forall o :: TreeOps(m, input).cv(o) == OutputCv(m, o)
    ensures forall l, r :: TreeOps(m, input).parent(l, r) == ParentOutput(m, l, r)
  {
    hide ChunkOutput, OutputCv, ParentOutput, Chunk;
  }

  lemma ChunkFacts(input: seq<bv8>, j: nat)
    requires CHUNK * j <= |input|
    ensures CHUNK * (j + 1) <= |input| ==> Chunk(input, j) == input[CHUNK * j..CHUNK * (j + 1)]
    ensures CHUNK * (j + 1) >= |input| ==> Chunk(input, j) == input[CHUNK * j..]
  {
  }

  /** b3_hash_internal.  `length + 1023` is computed in 64 bits, so it wraps for the last
      1023 lengths; then no chunk is pushed and only the tail is hashed, as chunk 2^64 - 1. */
  method HashInternal(m: Mode, input: seq<bv8>) returns (digest: seq<bv8>)
    requires |input| < SIZE_LIMIT
    ensures digest == if |input| <= SIZE_LIMIT - CHUNK then TreeDigest(m, input) else WrappedDigest(m, input)
  {
    hide HighPower, Tree, Node, Stack, Close, Arithmetic.Two, Ones, Chunk, ChunkOutput, OutputCv, RootDigest;
    var ops := TreeOps(m, input);
    OpsFacts(m, input);
    StackNone(ops, 0);
    var cvStack := new Words8[STACK_SLOTS](_ => [0, 0, 0, 0, 0, 0, 0, 0]);
    var stackLen: nat := 0;
    var chunkCount := if |input| == 0 then 1 else ((|input| + 1023) % SIZE_LIMIT) / 1024;
    Power54();

    var chunk: nat := 0;
    while chunk + 1 < chunkCount
      invariant chunkCount == 0 || chunk < chunkCount
      invariant chunkCount == 0 ==> chunk == 0
      invariant stackLen <= STACK_SLOTS
      invariant cvStack[..stackLen] == Stack(ops, 0, chunk)
    {
      var chunkOut := ComputeChunkOutput(m, input[chunk * 1024..chunk * 1024 + 1024], chunk);
      ChunkFacts(input, chunk);
      stackLen := Push(ops, chunk, OutputCv(m, chunkOut), cvStack, stackLen);
      chunk := chunk + 1;
    }

    var lastChunk := if chunkCount == 0 then SIZE_LIMIT - 1 else chunkCount - 1;
    var lastOff := (lastChunk * 1024) % SIZE_LIMIT;
    var lastLen := if |input| > lastOff then |input| - lastOff else 0;
    assert input[lastOff..lastOff + lastLen] == input[lastOff..];
    var output := ComputeChunkOutput(m, input[lastOff..lastOff + lastLen], lastChunk);
    var root := PopAll(ops, output, cvStack, stackLen);
    if chunkCount > 0 {
      ChunkFacts(input, lastChunk);
      CloseIsTree(ops, lastChunk);
    } else {
      CloseNone(ops, output);
    }
    digest := RootDigest(m, root);
  }

  ghost function WrappedDigest(m: Mode, input: seq<bv8>): seq<bv8>
    requires SIZE_LIMIT - CHUNK < |input| < SIZE_LIMIT
  {
    RootDigest(m, ChunkOutput(m, input[SIZE_LIMIT - CHUNK..], SIZE_LIMIT - 1))
  }


  /** A compression function that shows its flags. */
  function ShowFlags(): Compress {
    (cv, block, counter, length, flags) => seq(16, _ => flags)
  }

  lemma ShownRoot(m: Mode, o: Output)
    requires m.compress == ShowFlags()
    ensures |RootDigest(m, o)| == 32 && RootDigest(m, o)[0] == StoreWord(WithFlag(o.flags, ROOT))[0]
  {
    hide WithFlag, StoreWord;
    var words := m.compress(o.inputCv, o.block, 0, o.blockLen, WithFlag(o.flags, ROOT))[..8];
    assert words[0] == WithFlag(o.flags, ROOT);
    assert StoreWords(words) == StoreWord(words[0]) + StoreWords(words[1..]);
  }

  lemma RootFlagBytes()
    ensures StoreWord(WithFlag(WithFlag(0, PARENT), ROOT))[0] == 12
    ensures StoreWord(WithFlag(StartFlag(WithFlag(0, CHUNK_END), true), ROOT))[0] == 11
    ensures StoreWord(WithFlag(StartFlag(WithFlag(0, CHUNK_END), false), ROOT))[0] == 10
  {
  }

  /** The bound of HashInternal is exact: for every longer input some compression function
      tells the wrapped digest from the tree's, because the wrapped root is not a parent. */
  lemma WrappedDigestDiffers(input: seq<bv8>, key: Words8)
    requires SIZE_LIMIT - CHUNK < |input| < SIZE_LIMIT
    ensures WrappedDigest(Mode(ShowFlags(), key, 0), input) != TreeDigest(Mode(ShowFlags(), key, 0), input)
  {
    var m := Mode(ShowFlags(), key, 0);
    var n := ChunkCount(|input|);
    var ops := TreeOps(m, input);
    assert n > 1;
    WrappedFlags(m, input);
    TreeTopFlags(m, input, n);
    RootFlagBytes();
    hide WithFlag, StoreWord, StartFlag, ChunkOutput, Tree, TreeOps, RootDigest, Chunk;
    ShownRoot(m, ChunkOutput(m, input[SIZE_LIMIT - CHUNK..], SIZE_LIMIT - 1));
    ShownRoot(m, Tree(ops, 0, 0, n));
  }

  lemma WrappedFlags(m: Mode, input: seq<bv8>)
    requires SIZE_LIMIT - CHUNK < |input| < SIZE_LIMIT && m.flags == 0
    ensures var o := ChunkOutput(m, input[SIZE_LIMIT - CHUNK..], SIZE_LIMIT - 1);
            || o.flags == StartFlag(WithFlag(0, CHUNK_END), true)
            || o.flags == StartFlag(WithFlag(0, CHUNK_END), false)
  {
    hide WithFlag, StartFlag, LoadBlock, ChunkCv;
  }

  lemma TreeTopFlags(m: Mode, input: seq<bv8>, n: nat)
    requires n > 1 && m.flags == 0
    ensures Tree(TreeOps(m, input), 0, 0, n).flags == WithFlag(0, PARENT)
  {
    hide WithFlag, Tree, HighPower, Chunk, ChunkOutput, OutputCv;
    TreeStep(TreeOps(m, input), 0, 0, n, HighPower(n - 1));
  }
}
