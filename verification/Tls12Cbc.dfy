/** src/tls12.c: opening a TLS 1.2 record in a CBC suite, MAC then encrypt, section 6.2.3.2 of
    RFC 5246.  The code works on the decrypted octets without branching on them; here it is
    compared with the plain reading of the record.  The compression function is any function. */
module Tls12Cbc {
  import opened Arithmetic
  import opened Bits
  import opened Bytes

  const RING := 512

  // ----- padding -----

  predicate AllFrom(data: Octets, from: nat, p: nat) {
    forall i :: from <= i < |data| ==> data[i] as nat == p
  }

  /** The plain reading: the last octet p says that it and the p octets before it are all p, and
      the MAC fits beside them. */
  predicate Padded(data: Octets, mac: nat)
    requires data != []
  {
    var p := data[|data| - 1] as nat;
    p + 1 + mac <= |data| && AllFrom(data, |data| - 1 - p, p)
  }

  function Content(data: Octets, mac: nat): nat
    requires data != []
  {
    if Padded(data, mac) then |data| - 1 - data[|data| - 1] as nat - mac else 0
  }

  /** Where the octets compared after `i` rounds begin. */
  function Reached(length: nat, i: nat, padding: nat): nat {
    var n := if i < padding then i else padding;
    if n < length then length - n else 0
  }

  /** One more octet compared. */
  lemma ReachedNext(data: Octets, i: nat, padding: nat)
    requires padding >= 1
    ensures AllFrom(data, Reached(|data|, i + 1, padding), padding - 1) <==>
              AllFrom(data, Reached(|data|, i, padding), padding - 1)
                  && (i < padding && i < |data| ==> data[|data| - 1 - i] as nat == padding - 1)
  {
    if i < padding && i < |data| {
      assert Reached(|data|, i + 1, padding) == |data| - 1 - i;
    }
  }

  /** cbc_padding: whatever the octets are, 256 of them are looked at. */
  method CheckPadding(data: Octets, mac: nat) returns (good: bool, content: nat)
    requires data != []
    ensures good <==> Padded(data, mac)
    ensures content == Content(data, mac)
  {
    hide Xor, Or, And, AllFrom, Reached;
    var length := |data|;
    var padding := data[length - 1] as nat + 1;
    var bad := if padding > length || mac > length || padding + mac > length then 1 else 0;
    ghost var fits := bad == 0;
    var i := 0;
    NothingReached(data, padding);
    while i < 256
      invariant 0 <= i <= 256
      invariant fits ==> (bad == 0 <==> AllFrom(data, Reached(length, i, padding), padding - 1))
      invariant !fits ==> bad != 0
    {
      var byte := if i < length then data[length - 1 - i] as nat else 0;
      var found := And(Xor(byte, padding - 1), Mask(i < padding));
      FoundZero(byte, padding - 1, i < padding);
      OrZero(bad, found);
      ReachedNext(data, i, padding);
      bad := Or(bad, found);
      i := i + 1;
    }
    AllReached(length, padding);
    good := bad == 0;
    content := if good then length - padding - mac else 0;
  }

  lemma NothingReached(data: Octets, padding: nat)
    ensures padding >= 1 ==> AllFrom(data, Reached(|data|, 0, padding), padding - 1)
  {
  }

  lemma AllReached(length: nat, padding: nat)
    requires padding <= 256
    ensures padding <= length ==> Reached(length, 256, padding) == length - padding
  {
  }

  lemma FoundZero(byte: nat, p: nat, c: bool)
    requires byte < 256 && p < 256
    ensures And(Xor(byte, p), Mask(c)) == 0 <==> (c ==> byte == p)
  {
    hide Xor, And;
    XorOctet(byte, p);
    Masked(Xor(byte, p), c);
    XorZero(byte, p);
  }

  // ----- the MAC in the record -----

  function Rotated(ring: Octets, n: nat): (r: Octets)
    requires |ring| == RING
    ensures |r| == RING
  {
    seq(RING, i requires 0 <= i < RING => ring[(i + n) % RING])
  }

  lemma RotatedTwice(ring: Octets, m: nat, n: nat)
    requires |ring| == RING
    ensures Rotated(Rotated(ring, m), n) == Rotated(ring, m + n)
  {
    forall i | 0 <= i < RING ensures Rotated(Rotated(ring, m), n)[i] == Rotated(ring, m + n)[i] {
      ModTwice(i + n, m, RING);
      assert i + n + m == i + (m + n);
    }
  }

  /** The last octets of the record at the end of a ring. */
  function Ring(data: Octets): (r: Octets)
    ensures |r| == RING
  {
    if |data| >= RING then data[|data| - RING..] else seq(RING - |data|, i => 0) + data
  }

  /** One conditional rotation, octet by octet. */
  method RotateIf(ring: Octets, distance: nat, c: bool) returns (shifted: Octets)
    requires |ring| == RING
    ensures shifted == if c then Rotated(ring, distance) else ring
  {
    hide And, Or;
    shifted := [];
    var i := 0;
    while i < RING
      invariant 0 <= i <= RING && |shifted| == i
      invariant forall j :: 0 <= j < i ==> shifted[j] == if c then ring[(j + distance) % RING] else ring[j]
    {
      var a, b := ring[(i + distance) % RING] as nat, ring[i] as nat;
      Chosen(a, b, c);
      shifted := shifted + [Or(And(a, Mask(c)), And(b, Mask(!c))) as Byte];
      i := i + 1;
    }
  }

  /** One round rotates by one more bit of the rotation. */
  lemma RotateRound(start: Octets, rotation: nat, k: nat)
    requires |start| == RING
    ensures (if And(rotation, Two(k)) != 0 then Rotated(Rotated(start, rotation % Two(k)), Two(k))
        else Rotated(start, rotation % Two(k))) ==
            Rotated(start, rotation % Two(k + 1))
  {
    hide Rotated, And;
    AndBit(rotation, k);
    NextBit(rotation, Two(k));
    RotatedTwice(start, rotation % Two(k), Two(k));
  }

  /** cbc_extract_mac: nine conditional rotations bring the octets at `offset` to the front. */
  method ExtractMac(data: Octets, offset: nat, mac: nat) returns (output: Octets)
    requires mac <= RING
    ensures |output| == mac
    ensures offset + mac <= |data| && |data| - offset <= RING ==> output == data[offset..offset + mac]
  {
    hide And, Rotated, Two, Ring;
    var ring := Ring(data);
    ghost var start := ring;
    var rotation := (offset - |data|) % RING;
    var distance := 1;
    ghost var k: nat := 0;
    RotatedNone(ring);
    TwoNine(0);
    while distance < RING
      invariant k <= 9 && distance == Two(k) && |ring| == RING
      invariant ring == Rotated(start, rotation % Two(k))
      decreases 9 - k
    {
      TwoNine(k);
      RotateRound(start, rotation, k);
      TwoNext(k);
      ring := RotateIf(ring, distance, And(rotation, distance) != 0);
      distance := distance * 2;
      k := k + 1;
    }
    output := ring[..mac];
    TwoNine(k);
    if offset + mac <= |data| && |data| - offset <= RING {
      FrontIsSlice(data, offset, mac, rotation);
    }
  }

  lemma TwoNext(k: nat)
    ensures Two(k + 1) == 2 * Two(k)
  {
  }

  lemma TwoNine(k: nat)
    ensures k == 9 ==> Two(k) == RING
    ensures k > 9 ==> Two(k) > RING
    ensures k < 9 ==> Two(k) < RING
    ensures k == 0 ==> Two(k) == 1
  {
    assert Two(8) == 256;
    if k > 9 { TwoGrows(9, k); } else if k < 9 { TwoGrows(k, 8); }
  }

  lemma {:induction false} TwoGrows(a: nat, b: nat)
    requires a <= b
    ensures Two(a) <= Two(b) && (a < b ==> Two(a) < Two(b))
  {
    if a < b { TwoGrows(a, b - 1); }
  }

  lemma RotatedNone(ring: Octets)
    requires |ring| == RING
    ensures Rotated(ring, 0) == ring
  {
  }

  lemma FrontIsSlice(data: Octets, offset: nat, mac: nat, rotation: nat)
    requires offset + mac <= |data| && |data| - offset <= RING && rotation == (offset - |data|) % RING
    ensures Rotated(Ring(data), rotation)[..mac] == data[offset..offset + mac]
  {
    forall i | 0 <= i < mac ensures Rotated(Ring(data), rotation)[i] == data[offset + i] {
      FrontIndex(|data| - offset, i, rotation);
    }
  }

  lemma FrontIndex(behind: int, i: nat, rotation: nat)
    requires i < behind <= RING && rotation == -behind % RING
    ensures (i + rotation) % RING == RING - behind + i
  {
  }
}
