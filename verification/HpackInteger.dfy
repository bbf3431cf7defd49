/** src/hpack.c core_hpack_decode_int and src/tls_http2.c hpack_append_int: integers with an
    n-bit prefix, section 5.1 of RFC 7541. */
module HpackInteger {
  import opened Arithmetic
  import opened Bytes

  const UINT32_MAX := 0xFFFF_FFFF

  function Power(k: nat): (p: nat)
    ensures p >= 1
  {
    if k == 0 then 1 else 128 * Power(k - 1)
  }

  /** The largest value of the prefix, which announces continuation octets. */
  function Mask(bits: nat): (m: nat)
    requires 1 <= bits <= 8
    ensures 1 <= m <= 255
  {
    if bits == 1 then 1 else if bits == 2 then 3 else if bits == 3 then 7 else if bits == 4 then 15
    else if bits == 5 then 31 else if bits == 6 then 63 else if bits == 7 then 127 else 255
  }

  // ----- what a representation means -----

  /** Seven bits from each continuation octet, the least significant first. */
  function Value(s: seq<Byte>): nat {
    if s == [] then 0 else (s[0] % 128) as nat + 128 * Value(s[1..])
  }

  /** Continuation octets: all but the last have their top bit set. */
  predicate Chain(s: seq<Byte>) {
    s != [] && s[|s| - 1] < 128 && forall i :: 0 <= i < |s| - 1 ==> s[i] >= 128
  }

  predicate Represents(s: seq<Byte>, bits: nat, value: nat)
    requires 1 <= bits <= 8
  {
    && s != []
    && var low := s[0] as nat % (Mask(bits) + 1);
       if low < Mask(bits) then |s| == 1 && value == low
       else Chain(s[1..]) && value == low + Value(s[1..])
  }

  // ----- decoder -----

  /** A result found `n` octets further on. */
  function After(r: Option<(nat, nat)>, n: nat): Option<(nat, nat)> {
    match r
    case None => None
    case Some((value, count)) => Some((value, count + n))
  }

  /** The loop, from accumulated value `v` and after `k` continuation octets: value and octets used. */
  function Tail(s: seq<Byte>, v: nat, k: nat): (r: Option<(nat, nat)>)
    requires v <= UINT32_MAX
    decreases |s|
  {
    if s == [] || k > 4 then None else
      var digit := (s[0] % 128) as nat;
      if digit > (UINT32_MAX - v) / Power(k) then None else
        GuardExact(digit, v, k);
        var w := v + digit * Power(k);
        if s[0] < 128 then Some((w, 1)) else
          After(Tail(s[1..], w, k + 1), 1)
  }

  /** The guard refuses exactly the digits that would overflow 32 bits. */
  lemma GuardExact(digit: nat, v: nat, k: nat)
    requires v <= UINT32_MAX
    ensures digit > (UINT32_MAX - v) / Power(k) <==> v + digit * Power(k) > UINT32_MAX
  {
    DivideExact(UINT32_MAX - v, Power(k), digit);
  }

  lemma DivideExact(a: nat, b: nat, d: nat)
    requires b >= 1
    ensures d > a / b <==> d * b > a
  {
    var q := a / b;
    assert a == b * q + a % b;
    if d > q {
      Times(d, q + 1, b);
    } else {
      Times(q, d, b);
    }
  }

  lemma Times(x: nat, y: nat, b: nat)
    requires x >= y
    ensures x * b >= y * b && (y + 1) * b == y * b + b
  {
  }

  function Decode(s: seq<Byte>, bits: nat): (r: Option<(nat, nat)>)
    requires 1 <= bits <= 8
  {
    if s == [] then None else
      var low := s[0] as nat % (Mask(bits) + 1);
      if low < Mask(bits) then Some((low, 1)) else
        After(Tail(s[1..], low, 0), 1)
  }

  /** The loop finds exactly the chains of at most five octets in all whose value fits. */
  lemma {:induction false} TailFinds(s: seq<Byte>, v: nat, k: nat, count: nat)
    requires v <= UINT32_MAX
    requires 1 <= count <= |s| && count + k <= 5 && Chain(s[..count]) && v + Power(k) * Value(s[..count]) <= UINT32_MAX
    ensures Tail(s, v, k) == Some((v + Power(k) * Value(s[..count]), count))
    decreases |s|
  {
    var digit := (s[0] % 128) as nat;
    var rest := Value(s[..count][1..]);
    Unfold(Power(k), digit, rest);
    GuardExact(digit, v, k);
    assert Value(s[..count]) == digit + 128 * rest;
    if count == 1 {
      assert s[..1][1..] == [];
    } else {
      assert s[..count][1..] == s[1..][..count - 1];
      assert s[..count][0] == s[0];
      var sub := s[1..][..count - 1];
      assert forall i :: 0 <= i < |sub| ==> sub[i] == s[..count][i + 1];
      TailFinds(s[1..], v + digit * Power(k), k + 1, count - 1);
    }
  }

  lemma Unfold(p: nat, digit: nat, rest: nat)
    ensures p * (digit + 128 * rest) == digit * p + (128 * p) * rest
    ensures (128 * p) * rest >= 0
  {
  }

  lemma {:induction false} TailFound(s: seq<Byte>, v: nat, k: nat)
    requires v <= UINT32_MAX && Tail(s, v, k).Some?
    ensures var (value, count) := Tail(s, v, k).value;
            && 1 <= count <= |s| && count + k <= 5 && Chain(s[..count])
            && value == v + Power(k) * Value(s[..count]) && value <= UINT32_MAX
    decreases |s|
  {
    var digit := (s[0] % 128) as nat;
    GuardExact(digit, v, k);
    var w := v + digit * Power(k);
    if s[0] < 128 {
      assert s[..1][1..] == [];
    } else {
      TailFound(s[1..], w, k + 1);
      var (value, count) := Tail(s, v, k).value;
      assert s[..count][1..] == s[1..][..count - 1];
      Unfold(Power(k), digit, Value(s[1..][..count - 1]));
    }
  }

  /** The decoder accepts `value` in `count` octets if and only if these octets represent it,
      there are at most five continuation octets, and it fits 32 bits. */
  lemma DecodeExact(s: seq<Byte>, bits: nat, value: nat, count: nat)
    requires 1 <= bits <= 8
    ensures Decode(s, bits) == Some((value, count)) <==>
              1 <= count <= |s| && count <= 6 && value <= UINT32_MAX && Represents(s[..count], bits, value)
  {
    if s != [] {
      var low := s[0] as nat % (Mask(bits) + 1);
      if low == Mask(bits) {
        if Tail(s[1..], low, 0).Some? {
          TailFound(s[1..], low, 0);
          var c := Tail(s[1..], low, 0).value.1;
          assert s[..c + 1][1..] == s[1..][..c];
        }
        if 2 <= count <= |s| && count <= 6 {
          assert s[..count][1..] == s[1..][..count - 1];
          if Represents(s[..count], bits, value) && value <= UINT32_MAX {
            TailFinds(s[1..], low, 0, count - 1);
          }
        }
      }
    }
  }

  // ----- encoder -----

  function Continued(v: nat): (s: seq<Byte>)
    ensures Chain(s) && Value(s) == v
  {
    if v < 128 then
      assert [v as Byte][1..] == [];
      [v as Byte]
    else
      var rest := Continued(v / 128);
      var s := [(v % 128 + 128) as Byte] + rest;
      assert s[1..] == rest;
      s
  }

  /** `first` holds the bits above the prefix. */
  function Encode(value: nat, bits: nat, first: nat): (s: seq<Byte>)
    requires 1 <= bits <= 8 && first + Mask(bits) < 256 && first % (Mask(bits) + 1) == 0
    ensures Represents(s, bits, value)
  {
    PrefixLow(first, bits, if value < Mask(bits) then value else Mask(bits));
    if value < Mask(bits) then [(first + value) as Byte] else
      var s := [(first + Mask(bits)) as Byte] + Continued(value - Mask(bits));
      assert s[1..] == Continued(value - Mask(bits));
      s
  }

  lemma PrefixLow(first: nat, bits: nat, low: nat)
    requires 1 <= bits <= 8 && first % (Mask(bits) + 1) == 0 && low <= Mask(bits)
    ensures (first + low) % (Mask(bits) + 1) == low
  {
    var b := Mask(bits) + 1;
    DivisionUnique(first + low, b, first / b, low);
  }

  lemma {:induction false} ContinuedLength(v: nat, k: nat)
    requires v < Power(k + 1)
    ensures |Continued(v)| <= k + 1
  {
    if v >= 128 {
      assert k > 0;
      ContinuedLength(v / 128, k - 1);
    }
  }

  /** Every 32-bit value survives, whatever precedes and follows it, for every prefix width. */
  lemma RoundTrip(value: nat, bits: nat, first: nat, suffix: seq<Byte>)
    requires value <= UINT32_MAX && 1 <= bits <= 8 && first + Mask(bits) < 256 && first % (Mask(bits) + 1) == 0
    ensures Decode(Encode(value, bits, first) + suffix, bits) == Some((value, |Encode(value, bits, first)|))
  {
    var s := Encode(value, bits, first);
    assert (s + suffix)[..|s|] == s;
    if value >= Mask(bits) {
      assert Power(5) > UINT32_MAX;
      ContinuedLength(value - Mask(bits), 4);
    }
    DecodeExact(s + suffix, bits, value, |s|);
  }

  // ----- the code -----

  /** core_hpack_decode_int: `offset` advances over the octets read. */
  method DecodeInt(buf: seq<Byte>, offset: nat, bits: nat) returns (ok: bool, value: nat, next: nat)
    requires offset <= |buf|
    ensures ok <==> 1 <= bits <= 8 && Decode(buf[offset..], bits).Some?
    ensures ok ==> next <= |buf| && Decode(buf[offset..], bits) == Some((value, next - offset)) && value <= UINT32_MAX
  {
    hide Tail;
    ok, value, next := false, 0, offset;
    if offset >= |buf| || bits == 0 || bits > 8 { return; }
    ghost var s := buf[offset..];
    var mask := Mask(bits);
    var v: nat := buf[offset] as nat % (mask + 1);
    next := offset + 1;
    assert buf[next..] == s[1..];
    if v != mask {
      return true, v, next;
    }
    ghost var low: nat := v;
    ghost var k: nat := 0;
    var m := 0;
    var scale := 1;
    assert s[0] == buf[offset];
    while true
      invariant m == 7 * k && k <= 5 && scale == Power(k) && next == offset + 1 + k <= |buf| && v <= UINT32_MAX
      invariant Tail(s[1..], low, 0) == After(Tail(buf[next..], v, k), k)
      decreases 35 - m
    {
      TailStep(buf[next..], v, k);
      if next >= |buf| || m > 28 { return; }
      var b := buf[next];
      assert buf[next..][1..] == buf[next + 1..];
      next := next + 1;
      if (b % 128) as nat > (UINT32_MAX - v) / scale { return; }
      v := v + (b % 128) as nat * scale;
      if b < 128 {
        return true, v, next;
      }
      m, k, scale := m + 7, k + 1, scale * 128;
    }
  }

  lemma TailStep(s: seq<Byte>, v: nat, k: nat)
    requires v <= UINT32_MAX
    ensures s == [] || k > 4 ==> Tail(s, v, k) == None
    ensures s != [] && k <= 4 ==>
              var digit := (s[0] % 128) as nat;
              var w := v + digit * Power(k);
              && (digit > (UINT32_MAX - v) / Power(k) ==> Tail(s, v, k) == None)
              && (digit <= (UINT32_MAX - v) / Power(k) ==>
                    w <= UINT32_MAX
                        && Tail(s, v, k) == if s[0] < 128 then Some((w, 1)) else After(Tail(s[1..], w, k + 1), 1))
  {
    if s != [] { GuardExact((s[0] % 128) as nat, v, k); }
  }

  /** hpack_append_int onto `buf`. */
  method AppendInt(buf: seq<Byte>, number: nat, bits: nat, first: nat) returns (r: seq<Byte>)
    requires number <= UINT32_MAX && 1 <= bits <= 8 && first + Mask(bits) < 256 && first % (Mask(bits) + 1) == 0
    ensures r == buf + Encode(number, bits, first)
  {
    hide Chain, Value, Represents;
    var most := Mask(bits);
    if number < most {
      return buf + [(first + number) as Byte];
    }
    var value: nat := number - most;
    r := [];
    while value >= 128
      invariant r + Continued(value) == Continued(number - most)
    {
      ContinuedStep(r, value);
      r := r + [(value % 128 + 128) as Byte];
      value := value / 128;
    }
    r := buf + ([(first + most) as Byte] + (r + [value as Byte]));
  }

  lemma ContinuedStep(r: seq<Byte>, value: nat)
    requires value >= 128
    ensures r + [(value % 128 + 128) as Byte] + Continued(value / 128) == r + Continued(value)
  {
    assert Continued(value) == [(value % 128 + 128) as Byte] + Continued(value / 128);
  }
}
