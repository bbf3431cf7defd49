/** src/hpack.c core_hpack_decode_huffman and core_hpack_huffman_bits.  The decoder knows only
    how many codes each width has; the code it inverts is the canonical one.  Everything here
    holds of any complete code over 257 symbols; the tables of the code are one. */
module HpackHuffman {
  import opened Arithmetic
  import opened Bytes

  const SIZE_MAX := 0xFFFF_FFFF_FFFF_FFFF
  const END := 256
  const TOP: nat := 30

  /** How many codes each width has, the symbols in the order of their codes, and where each symbol stands. */
  datatype Table = Table(count: nat -> nat, symbol: nat -> nat, index: nat -> nat)

  /** The smallest code of width `w`. */
  function First(t: Table, w: nat): nat
    requires 1 <= w <= TOP + 1
  {
    if w == 1 then 0 else 2 * (First(t, w - 1) + t.count(w - 1))
  }

  /** How many codes are shorter than `w`. */
  function Base(t: Table, w: nat): nat
    requires 1 <= w <= TOP + 1
  {
    if w == 1 then 0 else Base(t, w - 1) + t.count(w - 1)
  }

  /** The one after the last code of width `w`. */
  function Limit(t: Table, w: nat): nat
    requires 1 <= w <= TOP
  {
    First(t, w) + t.count(w)
  }

  /** A code over 257 symbols, complete at width 30 and not before, in which the end of string is the last. */
  predicate Complete(t: Table) {
    && t.count(TOP) > 0 && Limit(t, TOP) == Two(TOP) && Base(t, TOP + 1) == 257
    && (forall n :: 0 <= n < 257 ==> Paired(t, n))
  }

  predicate Paired(t: Table, n: nat) {
    t.symbol(n) < 257 && t.index(t.symbol(n)) == n && t.index(n) < 257 && t.symbol(t.index(n)) == n
  }

  // ----- facts of the table -----

  /** The code is not full before width 30, so all ones is never a code there. */
  lemma NotFull(t: Table, w: nat)
    requires Complete(t) && 1 <= w < TOP
    ensures Limit(t, w) < Two(w)
  {
    if Limit(t, w) >= Two(w) {
      Overfull(t, w + 1);
      assert false;
    }
  }

  lemma {:induction false} Overfull(t: Table, w: nat)
    requires 1 <= w <= TOP && First(t, w) >= Two(w)
    ensures First(t, TOP) >= Two(TOP)
    decreases TOP - w
  {
    if w < TOP { Overfull(t, w + 1); }
  }

  lemma {:induction false} BaseOrder(t: Table, v: nat, w: nat)
    requires 1 <= v <= w <= TOP + 1
    ensures Base(t, v) <= Base(t, w)
  {
    if v < w { BaseOrder(t, v, w - 1); }
  }

  /** A code of width `w` names a symbol. */
  lemma SymbolExists(t: Table, w: nat, c: nat)
    requires Complete(t) && 1 <= w <= TOP && First(t, w) <= c < Limit(t, w)
    ensures Base(t, w) <= Base(t, w) + c - First(t, w) < Base(t, w + 1) <= 257
    ensures Paired(t, Base(t, w) + c - First(t, w))
  {
    BaseOrder(t, w + 1, TOP + 1);
  }

  // ----- codes as bit strings -----

  function Number(bits: seq<bool>): nat {
    if bits == [] then 0 else 2 * Number(bits[..|bits| - 1]) + if bits[|bits| - 1] then 1 else 0
  }

  function Word(w: nat, code: nat): (bits: seq<bool>)
    ensures |bits| == w
  {
    if w == 0 then [] else Word(w - 1, code / 2) + [code % 2 == 1]
  }

  lemma {:induction false} WordNumber(w: nat, code: nat)
    requires code < Two(w)
    ensures Number(Word(w, code)) == code
  {
    if w > 0 {
      WordNumber(w - 1, code / 2);
      assert Word(w, code)[..w - 1] == Word(w - 1, code / 2);
    }
  }

  lemma {:induction false} NumberWord(bits: seq<bool>)
    ensures Number(bits) < Two(|bits|) && Word(|bits|, Number(bits)) == bits
  {
    if bits != [] {
      NumberWord(bits[..|bits| - 1]);
      assert bits == bits[..|bits| - 1] + [bits[|bits| - 1]];
    }
  }

  lemma NumberMore(bits: seq<bool>, bit: bool)
    ensures Number(bits + [bit]) == 2 * Number(bits) + if bit then 1 else 0
  {
    assert (bits + [bit])[..|bits|] == bits;
  }

  function Ones(k: nat): (bits: seq<bool>)
    ensures |bits| == k
  {
    seq(k, i => true)
  }

  lemma {:induction false} OnesNumber(k: nat)
    ensures Number(Ones(k)) == Two(k) - 1
  {
    if k > 0 {
      OnesNumber(k - 1);
      assert Ones(k) == Ones(k - 1) + [true];
      NumberMore(Ones(k - 1), true);
    }
  }

  /** The width of the code at position `j`. */
  function Width(t: Table, j: nat, w: nat): (r: nat)
    requires 1 <= w <= TOP && Base(t, w) <= j < Base(t, TOP + 1)
    ensures w <= r <= TOP && Base(t, r) <= j < Base(t, r + 1)
    decreases TOP - w
  {
    if w == TOP || j < Base(t, w + 1) then w else Width(t, j, w + 1)
  }

  lemma WidthUnique(t: Table, j: nat, v: nat, w: nat)
    requires 1 <= v <= TOP && 1 <= w <= TOP
    requires Base(t, v) <= j < Base(t, v + 1) && Base(t, w) <= j < Base(t, w + 1)
    ensures v == w
  {
    hide Base;
    if v < w { BaseOrder(t, v + 1, w); } else if w < v { BaseOrder(t, w + 1, v); }
  }

  function CodeWidth(t: Table, c: nat): (w: nat)
    requires Complete(t) && c < 257
    ensures 1 <= w <= TOP && Base(t, w) <= t.index(c) < Base(t, w + 1)
  {
    assert Paired(t, c);
    Width(t, t.index(c), 1)
  }

  /** The code of a symbol. */
  function Code(t: Table, c: nat): (bits: seq<bool>)
    requires Complete(t) && c < 257
    ensures |bits| == CodeWidth(t, c)
  {
    var w := CodeWidth(t, c);
    Word(w, First(t, w) + t.index(c) - Base(t, w))
  }

  function Codes(t: Table, text: seq<Byte>): seq<bool>
    requires Complete(t)
  {
    if text == [] then [] else Code(t, text[0] as nat) + Codes(t, text[1..])
  }

  lemma CodeIs(t: Table, c: nat, w: nat)
    requires Complete(t) && c < 257 && 1 <= w <= TOP && Base(t, w) <= t.index(c) < Base(t, w + 1)
    ensures CodeWidth(t, c) == w && Code(t, c) == Word(w, First(t, w) + t.index(c) - Base(t, w))
  {
    hide Complete, Base, First, Word, CodeWidth;
    WidthUnique(t, t.index(c), w, CodeWidth(t, c));
  }

  lemma CodeNumber(t: Table, c: nat)
    requires Complete(t) && c < 257
    ensures var w := CodeWidth(t, c);
        First(t, w) <= Number(Code(t, c)) == First(t, w) + t.index(c) - Base(t, w) < Limit(t, w)
  {
    hide Complete, First, Word, CodeWidth, Number, Two;
    var w := CodeWidth(t, c);
    CodeIs(t, c, w);
    Below(t, w);
    BaseNext(t, w);
    WordNumber(w, First(t, w) + t.index(c) - Base(t, w));
  }

  lemma Below(t: Table, w: nat)
    requires Complete(t) && 1 <= w <= TOP
    ensures Limit(t, w) <= Two(w)
  {
    if w < TOP { NotFull(t, w); }
  }

  lemma BaseNext(t: Table, w: nat)
    requires 1 <= w <= TOP
    ensures Base(t, w + 1) == Base(t, w) + t.count(w)
  {
  }

  /** Bits of the right width and value are the code. */
  lemma CodeOf(t: Table, bits: seq<bool>)
    requires Complete(t) && 1 <= |bits| <= TOP && First(t, |bits|) <= Number(bits) < Limit(t, |bits|)
    ensures var j := Base(t, |bits|) + Number(bits) - First(t, |bits|);
        t.symbol(j) < 257 && Code(t, t.symbol(j)) == bits
  {
    hide Complete, First, Base, Limit, Number, Word, Code, CodeWidth;
    var w := |bits|;
    SymbolExists(t, w, Number(bits));
    CodeIs(t, t.symbol(Base(t, w) + Number(bits) - First(t, w)), w);
    NumberWord(bits);
  }

  // ----- decoder -----

  /** The bits left, with `code` the value of the `n` bits since the last symbol. */
  function Decode(t: Table, bits: seq<bool>, code: nat, n: nat): (r: Option<seq<Byte>>)
    requires Complete(t) && n < TOP
    decreases |bits|
  {
    if bits == [] then (if n <= 7 && code == Two(n) - 1 then Some([]) else None) else
      var c := 2 * code + if bits[0] then 1 else 0;
      var w := n + 1;
      if First(t, w) <= c < Limit(t, w) then
        SymbolExists(t, w, c);
        var symbol := t.symbol(Base(t, w) + c - First(t, w));
        if symbol == END then None else Prepend(symbol, Decode(t, bits[1..], 0, 0))
      else if w == TOP then None else Decode(t, bits[1..], c, w)
  }

  function Prepend(symbol: nat, r: Option<seq<Byte>>): Option<seq<Byte>>
    requires symbol < 256
  {
    match r
    case None => None
    case Some(text) => Some([symbol as Byte] + text)
  }

  /** No code ends within these bits: they lie above every code of their width. */
  predicate Pending(t: Table, bits: seq<bool>)
  {
    |bits| < TOP && (bits != [] ==> Number(bits) >= Limit(t, |bits|))
  }

  /** One more bit after pending ones: the number is not below the first code of the new width,
      and with 30 bits it is a code, so the decoder never gives up at 30 bits. */
  lemma NextBit(t: Table, bits: seq<bool>, bit: bool)
    requires Complete(t) && Pending(t, bits)
    ensures var more := bits + [bit]; var w := |more|;
            && Number(more) == 2 * Number(bits) + (if bit then 1 else 0)
            && First(t, w) <= Number(more)
            && (w == TOP ==> Number(more) < Limit(t, w))
            && (Number(more) >= Limit(t, w) ==> Pending(t, more))
  {
    NumberMore(bits, bit);
    NumberWord(bits + [bit]);
    hide Word, Number, Two, Paired;
  }

  /** The first bits of something not below the first code of its width are pending. */
  lemma {:induction false} CodePending(t: Table, bits: seq<bool>, i: nat)
    requires 1 <= |bits| <= TOP && First(t, |bits|) <= Number(bits) && i < |bits|
    ensures Pending(t, bits[..i])
    decreases |bits|
  {
    var shorter := bits[..|bits| - 1];
    if i < |bits| - 1 {
      CodePending(t, shorter, i);
      assert shorter[..i] == bits[..i];
    }
  }

  lemma DecodeUnfolds(t: Table, bits: seq<bool>, code: nat, n: nat)
    requires Complete(t) && n < TOP && bits != []
    ensures var c := 2 * code + if bits[0] then 1 else 0;
            var w := n + 1;
            && (First(t, w) <= c < Limit(t, w) ==>
                  && Paired(t, Base(t, w) + c - First(t, w))
                  && var symbol := t.symbol(Base(t, w) + c - First(t, w));
                     Decode(t, bits, code, n) == if symbol == END then None
                         else Prepend(symbol, Decode(t, bits[1..], 0, 0)))
            && (c >= Limit(t, w) && w < TOP ==> Decode(t, bits, code, n) == Decode(t, bits[1..], c, w))
  {
    hide First, Base, Two, Complete, Limit, Paired, Prepend;
    var c := 2 * code + if bits[0] then 1 else 0;
    if First(t, n + 1) <= c < Limit(t, n + 1) { SymbolExists(t, n + 1, c); }
  }

  /** One step of the decoder after pending bits. */
  lemma DecodeStep(t: Table, pending: seq<bool>, bits: seq<bool>)
    requires Complete(t) && Pending(t, pending) && bits != []
    ensures var more := pending + [bits[0]];
            var now := Decode(t, bits, Number(pending), |pending|);
            if Number(more) < Limit(t, |more|) then
              First(t, |more|) <= Number(more) && Paired(t, Base(t, |more|) + Number(more) - First(t, |more|)) &&
              var symbol := t.symbol(Base(t, |more|) + Number(more) - First(t, |more|));
              now == if symbol == END then None else Prepend(symbol, Decode(t, bits[1..], 0, 0))
            else
              Pending(t, more) && now == Decode(t, bits[1..], Number(more), |more|)
  {
    hide Number, First, Limit, Base, Complete, Two, Decode, Paired;
    NextBit(t, pending, bits[0]);
    DecodeUnfolds(t, bits, Number(pending), |pending|);
  }

  /** Decoding the rest of a code gives its symbol. */
  lemma {:induction false} DecodeCode(t: Table, c: nat, code: seq<bool>, i: nat, rest: seq<bool>)
    requires Complete(t) && c < 256 && code == Code(t, c) && i < |code|
    ensures Pending(t, code[..i])
    ensures Decode(t, code[i..] + rest, Number(code[..i]), i) == Prepend(c, Decode(t, rest, 0, 0))
    decreases |code| - i
  {
    hide Complete, Code, Base, First, Limit, CodeWidth, Pending, Number, Decode, Prepend;
    CodeNumber(t, c);
    CodePending(t, code, i);
    var bits := code[i..] + rest;
    assert bits[0] == code[i] && code[..i] + [code[i]] == code[..i + 1];
    DecodeStep(t, code[..i], bits);
    if i + 1 < |code| {
      assert bits[1..] == code[i + 1..] + rest;
      DecodeCode(t, c, code, i + 1, rest);
      PendingAbove(t, code[..i + 1]);
    } else {
      assert bits[1..] == rest && code[..i + 1] == code;
      IndexPaired(t, c);
    }
  }

  lemma IndexPaired(t: Table, c: nat)
    requires Complete(t) && c < 257
    ensures t.index(c) < 257 && t.symbol(t.index(c)) == c
  {
    assert Paired(t, c);
  }

  lemma PendingAbove(t: Table, bits: seq<bool>)
    requires Pending(t, bits) && bits != []
    ensures |bits| < TOP && Number(bits) >= Limit(t, |bits|)
  {
  }

  /** Up to seven ones after the last code decode to nothing. */
  lemma {:induction false} DecodePadding(t: Table, k: nat, n: nat)
    requires Complete(t) && k + n <= 7
    ensures Decode(t, Ones(k), Two(n) - 1, n) == Some([])
    decreases k
  {
    if k > 0 {
      NotFull(t, n + 1);
      hide Complete, First, Base;
      assert Ones(k)[1..] == Ones(k - 1);
      DecodePadding(t, k - 1, n + 1);
    }
  }

  lemma {:induction false} DecodeCodes(t: Table, text: seq<Byte>, k: nat)
    requires Complete(t) && k <= 7
    ensures Decode(t, Codes(t, text) + Ones(k), 0, 0) == Some(text)
    decreases |text|
  {
    hide Complete, Code, Decode, CodeWidth;
    if text == [] {
      assert Codes(t, text) + Ones(k) == Ones(k);
      DecodePadding(t, k, 0);
    } else {
      var c := text[0] as nat;
      var rest := Codes(t, text[1..]) + Ones(k);
      var code := Code(t, c);
      assert Codes(t, text) + Ones(k) == code[0..] + rest && code[..0] == [];
      DecodeCode(t, c, code, 0, rest);
      DecodeCodes(t, text[1..], k);
      assert [text[0]] + text[1..] == text;
    }
  }

  /** How many bits are pending when the decoder stops. */
  function Left(t: Table, bits: seq<bool>, code: nat, n: nat): nat
    requires Complete(t) && n < TOP
    decreases |bits|
  {
    if bits == [] then n else
      var c := 2 * code + if bits[0] then 1 else 0;
      if c < Limit(t, n + 1) || n == TOP - 1 then Left(t, bits[1..], 0, 0) else Left(t, bits[1..], c, n + 1)
  }

  /** The other way: whatever decodes is the codes of the result and at most seven ones. */
  lemma {:induction false} DecodedCodes(t: Table, pending: seq<bool>, bits: seq<bool>)
    requires Complete(t) && Pending(t, pending) && Decode(t, bits, Number(pending), |pending|).Some?
    ensures var k := Left(t, bits, Number(pending), |pending|);
            k <= 7 && pending + bits == Codes(t, Decode(t, bits, Number(pending), |pending|).value) + Ones(k)
    decreases |bits|
  {
    hide Complete, Pending, Number, First, Limit, Base, Decode, Left, Code, Codes, Ones;
    PendingShort(t, pending);
    if bits == [] {
      PaddingOnly(t, pending);
    } else {
      var more := pending + [bits[0]];
      var rest := bits[1..];
      assert pending + bits == more + rest;
      DecodeStep(t, pending, bits);
      LeftStep(t, pending, bits);
      if Number(more) < Limit(t, |more|) {
        CodeOf(t, more);
        NothingPending(t);
        DecodedCodes(t, [], rest);
        var symbol := t.symbol(Base(t, |more|) + Number(more) - First(t, |more|));
        var text := Decode(t, rest, 0, 0).value;
        CodesPrepend(t, symbol, text);
        assert [] + rest == rest;
        var codes, ones := Codes(t, text), Ones(Left(t, rest, 0, 0));
        assert more + (codes + ones) == more + codes + ones;
      } else {
        PendingShort(t, more);
        DecodedCodes(t, more, rest);
      }
    }
  }

  lemma PendingShort(t: Table, pending: seq<bool>)
    requires Pending(t, pending)
    ensures |pending| < TOP
  {
  }

  lemma CodesPrepend(t: Table, symbol: nat, text: seq<Byte>)
    requires Complete(t) && symbol < 256
    ensures Codes(t, [symbol as Byte] + text) == Code(t, symbol) + Codes(t, text)
  {
    assert ([symbol as Byte] + text)[1..] == text;
    hide Complete;
  }

  lemma NothingPending(t: Table)
    requires Complete(t)
    ensures Pending(t, []) && Number([]) == 0
  {
  }

  lemma LeftUnfolds(t: Table, bits: seq<bool>, code: nat, n: nat)
    requires Complete(t) && n < TOP && bits != []
    ensures var c := 2 * code + if bits[0] then 1 else 0;
            Left(t, bits, code, n) == if c < Limit(t, n + 1)
                || n == TOP - 1 then Left(t, bits[1..], 0, 0) else Left(t, bits[1..], c, n + 1)
  {
    hide Complete, Limit;
  }

  lemma LeftStep(t: Table, pending: seq<bool>, bits: seq<bool>)
    requires Complete(t) && Pending(t, pending) && bits != []
    ensures var more := pending + [bits[0]];
            Left(t, bits, Number(pending), |pending|) ==
              if Number(more) < Limit(t, |more|)
                  || |more| == TOP then Left(t, bits[1..], 0, 0) else Left(t, bits[1..], Number(more), |more|)
  {
    hide Complete, Number, Limit, Left;
    NumberMore(pending, bits[0]);
    LeftUnfolds(t, bits, Number(pending), |pending|);
  }

  lemma PaddingOnly(t: Table, pending: seq<bool>)
    requires Complete(t) && |pending| < TOP && Decode(t, [], Number(pending), |pending|).Some?
    ensures Left(t, [], Number(pending), |pending|) == |pending| <= 7
    ensures pending + [] == Codes(t, Decode(t, [], Number(pending), |pending|).value) + Ones(|pending|)
  {
    hide Complete, Number, Word, Ones;
    OnesNumber(|pending|);
    NumberWord(pending);
    NumberWord(Ones(|pending|));
    assert pending == Ones(|pending|);
  }

  /** Some bits are the codes of a text followed by at most seven ones. */
  predicate Encodes(t: Table, bits: seq<bool>, text: seq<Byte>)
    requires Complete(t)
  {
    exists k :: 0 <= k <= 7 && bits == Codes(t, text) + Ones(k)
  }

  /** The decoder accepts exactly the encodings of texts, and gives back the text. */
  lemma DecodeExact(t: Table, bits: seq<bool>, text: seq<Byte>)
    requires Complete(t)
    ensures Decode(t, bits, 0, 0) == Some(text) <==> Encodes(t, bits, text)
  {
    hide Complete, Decode, Codes;
    if Encodes(t, bits, text) {
      var k :| 0 <= k <= 7 && bits == Codes(t, text) + Ones(k);
      DecodeCodes(t, text, k);
    }
    if Decode(t, bits, 0, 0) == Some(text) {
      NothingPending(t);
      DecodedCodes(t, [], bits);
      assert [] + bits == bits;
    }
  }

  // ----- the code -----

  /** The bits of octets, the most significant first. */
  function BitsOf(buf: seq<Byte>): seq<bool> {
    if buf == [] then [] else Word(8, buf[0] as nat) + BitsOf(buf[1..])
  }

  lemma {:induction false} WordBit(w: nat, code: nat, i: nat)
    requires i < w
    ensures Word(w, code)[i] == (code / Two(w - 1 - i) % 2 == 1)
  {
    if i < w - 1 {
      WordBit(w - 1, code / 2, i);
      DivideTwice(code, 2, Two(w - 2 - i));
    }
  }

  function Extend(out: seq<Byte>, r: Option<seq<Byte>>): Option<seq<Byte>> {
    match r
    case None => None
    case Some(text) => Some(out + text)
  }

  lemma ExtendPrepend(out: seq<Byte>, symbol: nat, r: Option<seq<Byte>>)
    requires symbol < 256
    ensures Extend(out, Prepend(symbol, r)) == Extend(out + [symbol as Byte], r)
  {
    if r.Some? { assert out + ([symbol as Byte] + r.value) == out + [symbol as Byte] + r.value; }
  }

  /** As much of a text as a buffer of `capacity` octets has room for beside the final zero. */
  function Copied(text: seq<Byte>, capacity: nat): seq<Byte> {
    if capacity == 0 then [] else if |text| < capacity then text else text[..capacity - 1]
  }

  lemma CopiedNext(text: seq<Byte>, capacity: nat, b: Byte)
    ensures Copied(text + [b], capacity) == Copied(text, capacity) + if |text| + 1 < capacity then [b] else []
  {
    assert Copied(text, capacity) + [] == Copied(text, capacity);
  }

  /** core_hpack_decode_huffman; `first` and `base` belong to the width about to be tried.  The whole
      text is measured, whatever part of it the buffer holds. */
  method DecodeHuffman(t: Table, buf: seq<Byte>, capacity: nat) returns (ok: bool, out: seq<Byte>, written: nat)
    requires Complete(t)
    ensures ok <==> Decode(t, BitsOf(buf), 0, 0).Some?
    ensures ok ==> var text := Decode(t, BitsOf(buf), 0, 0).value; written == |text| && out == Copied(text, capacity)
  {
    hide Complete, Decode, First, Base, Limit, Number, Pending, Word, Two, Paired, Copied;
    ok, out, written := false, [], 0;
    ghost var text: seq<Byte> := [];
    NothingCopied(capacity);
    var code, first, base, n := 0, 0, 0, 0;
    ghost var pending: seq<bool> := [];
    ghost var goal := Decode(t, BitsOf(buf), 0, 0);
    NothingPending(t);
    StartWidth(t);
    var i := 0;
    assert buf[0..] == buf;
    assert goal == Extend([], goal) by { if goal.Some? { assert [] + goal.value == goal.value; } }
    while i < |buf|
      invariant 0 <= i <= |buf|
      invariant Pending(t, pending) && code == Number(pending) && n == |pending| < TOP && first == First(t, n + 1)
          && base == Base(t, n + 1)
      invariant goal == Extend(text, Decode(t, BitsOf(buf[i..]), code, n)) && written == |text|
          && out == Copied(text, capacity)
    {
      var bit := 7;
      ghost var word := Word(8, buf[i] as nat);
      ghost var rest := BitsOf(buf[i + 1..]);
      assert buf[i..][1..] == buf[i + 1..] && word[0..] == word;
      while bit >= 0
        invariant -1 <= bit <= 7
        invariant Pending(t, pending) && code == Number(pending) && n == |pending| < TOP && first == First(t, n + 1)
            && base == Base(t, n + 1)
        invariant goal == Extend(text, Decode(t, word[7 - bit..] + rest, code, n)) && written == |text|
            && out == Copied(text, capacity)
      {
        ghost var bits := word[7 - bit..] + rest;
        WordBit(8, buf[i] as nat, 7 - bit);
        var one := buf[i] as nat / Two(bit) % 2 == 1;
        assert bits[0] == one && bits[1..] == word[8 - bit..] + rest;
        DecodeStep(t, pending, bits);
        NextBit(t, pending, one);
        WidthStep(t, n + 1);
        ghost var more := pending + [one];
        code := 2 * code + if one then 1 else 0;
        n := n + 1;
        if code >= first && code - first < t.count(n) {
          SymbolExists(t, n, code);
          var symbol := t.symbol(base + code - first);
          if symbol == END { return; }
          PairedBelow(t, base + code - first);
          ExtendPrepend(text, symbol, Decode(t, bits[1..], 0, 0));
          CopiedNext(text, capacity, symbol as Byte);
          out := out + if capacity > 0 && written < capacity - 1 then [symbol as Byte] else [];
          written := written + 1;
          text := text + [symbol as Byte];
          code, first, n, base := 0, 0, 0, 0;
          pending := [];
          NothingPending(t);
        } else {
          PendingShort(t, more);
          if n == TOP {
            assert false;
          }
          base := base + t.count(n);
          first := (first + t.count(n)) * 2;
          pending := more;
        }
        bit := bit - 1;
      }
      assert word[8..] + rest == rest;
      i := i + 1;
    }
    assert buf[i..] == [];
    DecodeEnd(t, code, n);
    ok := n <= 7 && code == Two(n) - 1;
    assert text + [] == text;
  }

  lemma NothingCopied(capacity: nat)
    ensures Copied([], capacity) == []
  {
  }

  lemma DecodeEnd(t: Table, code: nat, n: nat)
    requires Complete(t) && n < TOP
    ensures Decode(t, BitsOf([]), code, n) == if n <= 7 && code == Two(n) - 1 then Some([]) else None
  {
    hide Complete;
  }

  lemma StartWidth(t: Table)
    ensures First(t, 1) == 0 && Base(t, 1) == 0
  {
  }

  lemma WidthStep(t: Table, w: nat)
    requires 1 <= w <= TOP
    ensures Limit(t, w) == First(t, w) + t.count(w)
    ensures First(t, w + 1) == (First(t, w) + t.count(w)) * 2 && Base(t, w + 1) == Base(t, w) + t.count(w)
  {
  }

  lemma PairedBelow(t: Table, n: nat)
    requires Paired(t, n)
    ensures t.symbol(n) < 257
  {
  }

  /** The search of core_hpack_huffman_bits for one octet: widths in turn, and the symbols of each. */
  method FindWidth(t: Table, c: nat) returns (bits: nat)
    requires Complete(t) && c < 256
    ensures bits == CodeWidth(t, c)
  {
    hide Complete, Base;
    IndexPaired(t, c);
    StartWidth(t);
    var index := 0;
    bits := 0;
    var width := 1;
    while width <= 30 && bits == 0
      invariant 1 <= width <= TOP + 1 && (bits == 0 ==> index == Base(t, width) && t.index(c) >= index)
      invariant bits != 0 ==> bits == CodeWidth(t, c)
      decreases 31 - width
    {
      WidthStep(t, width);
      var count := 0;
      while count < t.count(width)
        invariant 0 <= count <= t.count(width) && index == Base(t, width) + count && t.index(c) >= index && bits == 0
      {
        WithinTable(t, width, index);
        if t.symbol(index) == c {
          WidthUnique(t, index, width, CodeWidth(t, c));
          bits := width;
          break;
        }
        count, index := count + 1, index + 1;
      }
      width := width + 1;
    }
    Whole(t);
  }

  lemma WithinTable(t: Table, w: nat, j: nat)
    requires Complete(t) && 1 <= w <= TOP && Base(t, w) <= j < Base(t, w + 1)
    ensures t.index(t.symbol(j)) == j
  {
    BaseOrder(t, w + 1, TOP + 1);
    assert Paired(t, j);
  }

  lemma Whole(t: Table)
    requires Complete(t)
    ensures Base(t, TOP + 1) == 257
  {
  }

  /** core_hpack_huffman_bits: the length of the encoding, unless it does not fit. */
  method HuffmanBits(t: Table, data: seq<Byte>) returns (total: nat)
    requires Complete(t)
    ensures total == if |Codes(t, data)| <= SIZE_MAX then |Codes(t, data)| else SIZE_MAX
  {
    hide Complete, CodeWidth;
    total := 0;
    var i := 0;
    while i < |data|
      invariant 0 <= i <= |data| && total <= SIZE_MAX && total + |Codes(t, data[i..])| == |Codes(t, data)|
    {
      assert data[i..][1..] == data[i + 1..];
      var bits := FindWidth(t, data[i] as nat);
      if total > SIZE_MAX - bits { return SIZE_MAX; }
      total := total + bits;
      i := i + 1;
    }
    assert data[i..] == [];
  }
}
