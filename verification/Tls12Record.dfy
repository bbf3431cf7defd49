/** The CBC arm of core_tls12_record_open_into, and of sealing, src/tls12.c. */
module Tls12Record {
  import opened Arithmetic
  import opened Bits
  import opened Bytes
  import Cbc = Tls12Cbc
  import opened Tls12Hmac

  const CONTENT_LIMIT := 16384

  // ----- the header that the MAC covers -----

  /** What section 6.2.3.1 of RFC 5246 puts before the content: the sequence number and, after type and
      version, the length, both with the most significant octet first. */
  function HeaderOctet(sequence: nat, kind: nat, length: nat, j: nat): nat {
    if j < 8 then sequence / Radix(7 - j) % 256
    else if j == 8 then kind % 256
    else if j < 11 then 3
    else if j == 11 then length / 256 % 256
    else length % 256
  }

  function RecordHeader(sequence: nat, kind: nat, length: nat): (s: Octets)
    ensures |s| == 13 && forall j :: 0 <= j < 13 ==> s[j] as nat == HeaderOctet(sequence, kind, length, j)
  {
    seq(13, j requires 0 <= j < 13 => HeaderOctet(sequence, kind, length, j) as Byte)
  }

  /** record_header: each octet is a shift of the number. */
  method BuildHeader(sequence: nat, kind: nat, length: nat) returns (header: Octets)
    ensures header == RecordHeader(sequence, kind, length)
  {
    hide Radix;
    header := [];
    var i := 0;
    while i < 8
      invariant 0 <= i <= 8 && |header| == i
      invariant forall j :: 0 <= j < i ==> header[j] as nat == HeaderOctet(sequence, kind, length, j)
    {
      header := header + [(sequence / Radix(7 - i) % 256) as Byte];
      i := i + 1;
    }
    header := header + [(kind % 256) as Byte, 3, 3, (length / 256 % 256) as Byte, (length % 256) as Byte];
  }

  /** The number that octets give, the most significant first. */
  function Number(s: Octets): nat {
    if s == [] then 0 else 256 * Number(s[..|s| - 1]) + s[|s| - 1] as nat
  }

  /** The octets of a number give it back. */
  lemma {:induction false} DigitsNumber(v: nat, n: nat, s: Octets)
    requires |s| == n && v < Radix(n) && forall j :: 0 <= j < n ==> s[j] as nat == v / Radix(n - 1 - j) % 256
    ensures Number(s) == v
  {
    if n > 0 {
      var front := s[..n - 1];
      forall j | 0 <= j < n - 1 ensures front[j] as nat == v / 256 / Radix(n - 2 - j) % 256 {
        DivideTwice(v, 256, Radix(n - 2 - j));
      }
      DigitsNumber(v / 256, n - 1, front);
      assert Radix(0) == 1;
    }
  }

  lemma HeaderSequence(sequence: nat, kind: nat, length: nat)
    requires sequence < Radix(8)
    ensures Number(RecordHeader(sequence, kind, length)[..8]) == sequence
  {
    hide Radix, Number;
    DigitsNumber(sequence, 8, RecordHeader(sequence, kind, length)[..8]);
  }

  lemma HeaderRest(sequence: nat, kind: nat, length: nat)
    requires kind < 256 && length < 65536
    ensures var s := RecordHeader(sequence, kind, length);
            s[8] as nat == kind && s[11] as nat * 256 + s[12] as nat == length
  {
    hide Radix;
    var s := RecordHeader(sequence, kind, length);
    assert s[8] as nat == HeaderOctet(sequence, kind, length, 8);
    assert s[11] as nat == HeaderOctet(sequence, kind, length, 11);
    assert s[12] as nat == HeaderOctet(sequence, kind, length, 12);
  }

  /** Records that differ in sequence number, type or length have different headers. */
  lemma HeaderInjective(sequence: nat, kind: nat, length: nat, sequence': nat, kind': nat, length': nat)
    requires sequence < Radix(8) && sequence' < Radix(8) && kind < 256 && kind' < 256 && length < 65536
        && length' < 65536
    requires RecordHeader(sequence, kind, length) == RecordHeader(sequence', kind', length')
    ensures sequence == sequence' && kind == kind' && length == length'
  {
    hide Radix, Number, RecordHeader;
    HeaderSequence(sequence, kind, length);
    HeaderSequence(sequence', kind', length');
    HeaderRest(sequence, kind, length);
    HeaderRest(sequence', kind', length');
  }

  // ----- the MAC with work that does not depend on the length -----

  /** An octet of the padded message, told from its position alone. */
  function At(block: nat, before: nat, message: Octets, p: nat): nat
    requires block == 64 || block == 128
  {
    var total := Blocks(block, |message|) * block;
    if p < |message| then message[p] as nat
    else if p == |message| then 0x80
    else if total - 8 <= p < total then 8 * (before + |message|) / Radix(total - 1 - p) % 256
    else 0
  }

  lemma PartsAt(message: Octets, z: nat, tail: Octets, p: nat)
    requires p < |message| + 1 + z + |tail|
    ensures var s := message + [0x80] + Zeros(z) + tail;
            s[p] == if p < |message| then message[p] else if p == |message| then 0x80 else if p < |message| + 1 + z
                then 0 else tail[p - |message| - 1 - z]
  {
  }

  /** The leading octets of a small number. */
  lemma BigLeads(v: nat, n: nat, j: nat)
    requires v < Radix(8) && j + 8 < n
    ensures Big(v, n)[j] == 0
  {
    hide Radix, Big;
    BigByte(v, n, j);
    PowerGrows(8, n - 1 - j);
    Quotient(v, Radix(n - 1 - j));
  }

  lemma Quotient(v: nat, b: nat)
    requires v < b
    ensures v / b == 0
  {
    DivisionUnique(v, b, 0, v);
  }

  lemma PaddedAt(block: nat, before: nat, message: Octets, p: nat)
    requires block == 64 || block == 128
    requires 8 * (before + |message|) < Radix(8) && p < Blocks(block, |message|) * block
    ensures Padded(block, before, message)[p] as nat == At(block, before, message, p)
  {
    hide Blocks, Radix, Big;
    var total := Blocks(block, |message|) * block;
    BlocksFit(block, |message|);
    var bits := 8 * (before + |message|);
    var n := block / 8;
    PartsAt(message, total - |message| - 1 - n, Big(bits, n), p);
    if total - 8 <= p {
      BigByte(bits, n, p - (total - n));
    } else if total - n <= p {
      BigLeads(bits, n, p - (total - n));
    }
  }

  lemma {:induction false} PowerGrows(a: nat, b: nat)
    requires a <= b
    ensures Radix(a) <= Radix(b)
  {
    if a < b { PowerGrows(a, b - 1); }
  }

  lemma Position(size: nat, actual: nat, index: nat, i: nat)
    requires (size == 64 || size == 128) && i < size && index < actual
    ensures var p := index * size + i; var total := actual * size;
            && p < total
            && (index + 1 == actual ==> total - 1 - p == size - 1 - i)
            && (index + 1 < actual ==> p < total - 8)
  {
  }

  /** An octet of block `index`, computed with masks; only the blocks that count are specified. */
  method Octet(size: nat, header: Octets, data: Octets, length: nat, index: nat, i: nat, actual: nat)
      returns (byte: nat)
    requires (size == 64 || size == 128) && |header| == 13 && length <= |data| && actual == Blocks(size, 13 + length)
        && i < size
    ensures byte < 256
    ensures index < actual ==> byte == At(size, size, header + data[..length], index * size + i)
  {
    hide And, Or, Radix, Blocks;
    ghost var message := header + data[..length];
    var position := index * size + i;
    byte := if position < 13 then header[position] as nat else if position - 13 < |data|
        then data[position - 13] as nat else 0;
    assert position < 13 + length ==> byte == message[position] as nat;
    Masked(byte, position < 13 + length);
    byte := And(byte, Mask(position < 13 + length));
    Masked(0x80, position == 13 + length);
    OrNothing(byte);
    OrNothing(0x80);
    byte := Or(byte, And(0x80, Mask(position == 13 + length)));
    BlocksFit(size, 13 + length);
    if index < actual { Position(size, actual, index, i); }
    if i >= size - 8 {
      var digit := 8 * (size + 13 + length) / Radix(size - 1 - i) % 256;
      Masked(digit, index + 1 == actual);
      OrNothing(digit);
      OrNothing(byte);
      byte := Or(byte, And(digit, Mask(index + 1 == actual)));
    }
  }

  function Slice(s: Octets, index: nat, size: nat): Octets
    requires (index + 1) * size <= |s|
  {
    s[index * size..(index + 1) * size]
  }

  method BuildBlock(size: nat, header: Octets, data: Octets, length: nat, index: nat, actual: nat)
      returns (block: Octets)
    requires (size == 64 || size == 128) && |header| == 13 && length <= |data| && actual == Blocks(size, 13 + length)
    requires 8 * (size + 13 + length) < Radix(8)
    ensures |block| == size
    ensures index < actual ==>
        (index + 1) * size <= |Padded(size, size, header + data[..length])|
            && block == Slice(Padded(size, size, header + data[..length]), index, size)
  {
    hide At, Radix, Blocks, Padded;
    block := [];
    var i := 0;
    ghost var message := header + data[..length];
    while i < size
      invariant 0 <= i <= size && |block| == i
      invariant index < actual ==> forall j ::
          0 <= j < i ==> block[j] as nat == At(size, size, message, index * size + j)
    {
      var byte := Octet(size, header, data, length, index, i, actual);
      block := block + [byte as Byte];
      i := i + 1;
    }
    if index < actual { SliceAt(size, message, index, block); }
  }

  lemma SliceAt(size: nat, message: Octets, index: nat, block: Octets)
    requires (size == 64 || size == 128) && |block| == size && index < Blocks(size, |message|)
        && 8 * (size + |message|) < Radix(8)
    requires forall j :: 0 <= j < size ==> block[j] as nat == At(size, size, message, index * size + j)
    ensures (index + 1) * size <= |Padded(size, size, message)|
        && block == Slice(Padded(size, size, message), index, size)
  {
    hide At, Radix, Blocks, Padded;
    Position(size, Blocks(size, |message|), index, size - 1);
    forall j | 0 <= j < size ensures block[j] == Slice(Padded(size, size, message), index, size)[j] {
      Position(size, Blocks(size, |message|), index, j);
      PaddedAt(size, size, message, index * size + j);
    }
  }

  /** The digest of the block that ends the message is kept, the others are not. */
  method Keep(inner: Octets, candidate: Octets, c: bool) returns (r: Octets)
    requires |inner| == |candidate| && (c ==> inner == Zeros(|inner|))
    ensures r == if c then candidate else inner
  {
    hide And, Or;
    r := [];
    var i := 0;
    while i < |inner|
      invariant 0 <= i <= |inner| && |r| == i && forall j :: 0 <= j < i ==> r[j] == if c then candidate[j] else inner[j]
    {
      var kept := And(candidate[i] as nat, Mask(c));
      Masked(candidate[i] as nat, c);
      OrNothing(candidate[i] as nat);
      OrNothing(inner[i] as nat);
      r := r + [Or(inner[i] as nat, kept) as Byte];
      i := i + 1;
    }
  }

  /** The octets of the first blocks. */
  lemma AbsorbNext<S>(h: Hash<S>, s: S, data: Octets, index: nat)
    requires h.block > 0 && |data| % h.block == 0 && (index + 1) * h.block <= |data|
    ensures (index * h.block) % h.block == 0 && ((index + 1) * h.block) % h.block == 0
        && index * h.block <= (index + 1) * h.block
    ensures Absorb(h, s, data[..(index + 1) * h.block]) ==
        h.transform(Absorb(h, s, data[..index * h.block]), Slice(data, index, h.block))
  {
    Multiple(index, h.block);
    Multiple(index + 1, h.block);
    Steps(index, h.block);
    AbsorbMore(h, s, data[..index * h.block], Slice(data, index, h.block));
    assert data[..(index + 1) * h.block] == data[..index * h.block] + Slice(data, index, h.block);
  }

  lemma Steps(index: nat, b: nat)
    ensures (index + 1) * b == index * b + b
  {
  }

  /** The state after `index` of the blocks of the padded message. */
  ghost function After<S>(h: Hash<S>, s: S, data: Octets, index: nat): S
    requires h.block > 0 && |data| % h.block == 0 && index * h.block <= |data|
  {
    Multiple(index, h.block);
    Absorb(h, s, data[..index * h.block])
  }

  /** cbc_mac: as many blocks as the whole record could need are hashed, and the result is the
      HMAC of the header and the first `length` octets. */
  method CbcMac<S(!new)>(h: Hash<S>, key: Octets, header: Octets, data: Octets, length: nat) returns (output: Octets)
    requires Proper(h) && |key| == h.size && |header| == 13 && length <= |data|
        && 8 * (h.block + 13 + length) < Radix(8)
    ensures output == Hmac(h, key, header + data[..length])
  {
    hide Blocks, Padded, Absorb, Radix, Digest, KeyBlock;
    ghost var message := header + data[..length];
    ghost var padded := Padded(h.block, h.block, message);
    var state := h.transform(h.init, KeyBlock(h.block, key, 0x36));
    ghost var start := state;
    var blocks := Blocks(h.block, 13 + |data|);
    var actual := Blocks(h.block, 13 + length);
    Multiple(actual, h.block);
    MoreBlocks(h.block, 13 + length, 13 + |data|);
    var inner := Zeros(h.size);
    var index := 0;
    NoBlocks(h, start, padded);
    while index < blocks
      invariant 0 <= index <= blocks
      invariant index <= actual ==> index * h.block <= |padded| && state == After(h, start, padded, index)
      invariant inner == if index >= actual then h.digest(Absorb(h, start, padded)) else Zeros(h.size)
    {
      var block := BuildBlock(h.block, header, data, length, index, actual);
      if index < actual { AbsorbNext(h, start, padded, index); }
      state := h.transform(state, block);
      if index + 1 == actual { AllBlocks(h, start, padded, actual); }
      inner := Keep(inner, h.digest(state), index + 1 == actual);
      index := index + 1;
    }
    DigestAfterBlock(h, KeyBlock(h.block, key, 0x36), message);
    output := Digest(h, KeyBlock(h.block, key, 0x5C) + inner);
  }

  lemma NoBlocks<S>(h: Hash<S>, s: S, data: Octets)
    requires h.block > 0 && |data| % h.block == 0
    ensures After(h, s, data, 0) == s
  {
    assert data[..0] == [];
  }

  lemma AllBlocks<S>(h: Hash<S>, s: S, data: Octets, n: nat)
    requires h.block > 0 && |data| == n * h.block && |data| % h.block == 0
    ensures After(h, s, data, n) == Absorb(h, s, data)
  {
    assert data[..n * h.block] == data;
  }

  lemma MoreBlocks(block: nat, a: nat, b: nat)
    requires (block == 64 || block == 128) && a <= b
    ensures 1 <= Blocks(block, a) <= Blocks(block, b)
  {
  }

  // ----- opening and sealing -----

  const RECORD_LIMIT := 18432

  /** The plain reading of a decrypted record: padding and MAC fit, the padding is right, the MAC
      is that of the header and the content, and the content is not too long. */
  ghost predicate Genuine<S>(h: Hash<S>, key: Octets, sequence: nat, kind: nat, data: Octets)
    requires (h.block == 64 || h.block == 128) && |key| <= h.block && data != []
  {
    && Cbc.Padded(data, h.size)
    && var n := Cbc.Content(data, h.size);
       && n <= CONTENT_LIMIT
       && data[n..n + h.size] == Hmac(h, key, RecordHeader(sequence, kind, n) + data[..n])
  }

  lemma Fits(block: nat, length: nat)
    requires block <= 128 && length <= RECORD_LIMIT
    ensures 8 * (block + 13 + length) < Radix(8)
  {
    assert Radix(4) == 0x1_0000_0000;
    PowerGrows(4, 8);
  }

  /** The decision of core_tls12_record_open_into on the decrypted octets of a record whose MAC is
      inside: every part is computed whatever the others say. */
  method OpenDecrypted<S(!new)>(h: Hash<S>, key: Octets, sequence: nat, kind: nat, data: Octets)
      returns (ok: bool, length: nat)
    requires Proper(h) && |key| == h.size && data != [] && |data| <= RECORD_LIMIT
    ensures ok <==> Genuine(h, key, sequence, kind, data)
    ensures ok ==> length == Cbc.Content(data, h.size)
  {
    hide Hmac, RecordHeader, Radix, Cbc.AllFrom;
    var valid;
    valid, length := Cbc.CheckPadding(data, h.size);
    var received := Cbc.ExtractMac(data, length, h.size);
    Fits(h.block, length);
    var header := BuildHeader(sequence, kind, length);
    var authentication := CbcMac(h, key, header, data, length);
    valid := valid && authentication == received;
    ok := valid && length <= CONTENT_LIMIT;
  }

  /** Octets that are genuine under two sequence numbers or types have one MAC for two different
      messages: whoever replays a record must have found a collision of the HMAC. */
  lemma ReplayCollides<S>(h: Hash<S>, key: Octets, sequence: nat, kind: nat, sequence': nat, kind': nat, data: Octets)
    requires (h.block == 64 || h.block == 128) && |key| <= h.block && data != []
    requires sequence < Radix(8) && sequence' < Radix(8) && kind < 256 && kind' < 256
    requires (sequence, kind) != (sequence', kind')
    requires Genuine(h, key, sequence, kind, data) && Genuine(h, key, sequence', kind', data)
    ensures var n := Cbc.Content(data, h.size);
            var one := RecordHeader(sequence, kind, n) + data[..n];
            var two := RecordHeader(sequence', kind', n) + data[..n];
            one != two && Hmac(h, key, one) == Hmac(h, key, two)
  {
    hide Radix, Hmac, RecordHeader;
    var n := Cbc.Content(data, h.size);
    var one := RecordHeader(sequence, kind, n) + data[..n];
    var two := RecordHeader(sequence', kind', n) + data[..n];
    if one == two {
      assert one[..13] == RecordHeader(sequence, kind, n) && two[..13] == RecordHeader(sequence', kind', n);
      HeaderInjective(sequence, kind, n, sequence', kind', n);
    }
  }

  /** What sealing encrypts: content, MAC, and padding up to a multiple of 16. */
  function Sealed<S>(h: Hash<S>, key: Octets, sequence: nat, kind: nat, plain: Octets): Octets
    requires (h.block == 64 || h.block == 128) && |key| <= h.block
  {
    var inside := plain + Hmac(h, key, RecordHeader(sequence, kind, |plain|) + plain);
    var total := (|inside| + 1 + 15) / 16 * 16;
    inside + seq(total - |inside|, i => (total - |inside| - 1) as Byte)
  }

  /** Every record that is sealed opens to its content. */
  lemma SealedOpens<S(!new)>(h: Hash<S>, key: Octets, sequence: nat, kind: nat, plain: Octets)
    requires Proper(h) && |key| == h.size && |plain| <= CONTENT_LIMIT
    ensures var data := Sealed(h, key, sequence, kind, plain);
            data != [] && |data| <= RECORD_LIMIT && |data| % 16 == 0 &&
            Genuine(h, key, sequence, kind, data) && Cbc.Content(data, h.size) == |plain| && data[..|plain|] == plain
  {
    var data := Sealed(h, key, sequence, kind, plain);
    var mac := Hmac(h, key, RecordHeader(sequence, kind, |plain|) + plain);
    HmacSize(h, key, RecordHeader(sequence, kind, |plain|) + plain);
    hide Hmac, RecordHeader;
    var inside := plain + mac;
    var p := |data| - |inside| - 1;
    Sixteen(|inside|);
    assert data[|data| - 1] as nat == p;
    assert Cbc.AllFrom(data, |data| - 1 - p, p);
    assert data[..|plain|] == plain && data[|plain|..|plain| + h.size] == mac;
  }

  lemma Sixteen(n: nat)
    ensures n < (n + 16) / 16 * 16 <= n + 16 && (n + 16) / 16 * 16 % 16 == 0
  {
  }

  lemma HmacSize<S(!new)>(h: Hash<S>, key: Octets, message: Octets)
    requires Proper(h) && |key| <= h.block
    ensures |Hmac(h, key, message)| == h.size
  {
  }
}
