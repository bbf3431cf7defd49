/** src/shadowsocks.c: the nonce is a little-endian counter that must not be reused after it wraps. */
module ShadowsocksNonce {
  import opened Arithmetic
  import opened Bytes

  /** The value of octets, the least significant first. */
  function Value(s: seq<Byte>): (v: nat)
    ensures v < Radix(|s|)
  {
    if s == [] then 0 else s[0] as nat + 256 * Value(s[1..])
  }

  /** The nonce of operation number `v`. */
  function Little(v: nat, n: nat): (s: seq<Byte>)
    ensures |s| == n
  {
    if n == 0 then [] else [(v % 256) as Byte] + Little(v / 256, n - 1)
  }

  lemma {:induction false} LittleValue(s: seq<Byte>)
    ensures Little(Value(s), |s|) == s
  {
    hide Radix;
    if s != [] {
      LittleValue(s[1..]);
      Digit(s[0] as nat, Value(s[1..]));
      assert s == [s[0]] + s[1..];
    }
  }

  lemma Digit(b: nat, v: nat)
    requires b < 256
    ensures (b + 256 * v) % 256 == b && (b + 256 * v) / 256 == v
  {
  }

  /** The octets after the carry has gone through the first `k`. */
  function Carried(s: seq<Byte>, k: nat): (r: seq<Byte>)
    requires k <= |s|
    ensures |r| == |s|
  {
    seq(|s|, i requires 0 <= i < |s| => if i < k then 0 else s[i])
  }

  /** An increment that stops at octet `k`, all before it having been 255. */
  lemma {:induction false} CarryStops(s: seq<Byte>, k: nat)
    requires k < |s| && (forall i :: 0 <= i < k ==> s[i] == 255) && s[k] < 255
    ensures Value(Carried(s, k)[k := s[k] + 1]) == Value(s) + 1
  {
    var r := Carried(s, k)[k := s[k] + 1];
    if k == 0 {
      assert r[1..] == s[1..];
    } else {
      CarryStops(s[1..], k - 1);
      assert r[1..] == Carried(s[1..], k - 1)[k - 1 := s[1..][k - 1] + 1];
    }
  }

  /** An increment that runs through: the counter was at its last value. */
  lemma {:induction false} CarryRuns(s: seq<Byte>)
    requires forall i :: 0 <= i < |s| ==> s[i] == 255
    ensures Value(s) == Radix(|s|) - 1
  {
    if s != [] { CarryRuns(s[1..]); }
  }

  /** `++next[i] == 0` carried along: true when the counter wrapped. */
  method Increment(a: array<Byte>) returns (wrapped: bool)
    modifies a
    ensures wrapped <==> Value(old(a[..])) == Radix(a.Length) - 1
    ensures !wrapped ==> Value(a[..]) == Value(old(a[..])) + 1
  {
    ghost var s := a[..];
    var i := 0;
    while i < a.Length && a[i] == 255
      invariant 0 <= i <= a.Length && a[..] == Carried(s, i) && forall j :: 0 <= j < i ==> s[j] == 255
    {
      assert a[i] == s[i];
      a[i] := 0;
      i := i + 1;
    }
    wrapped := i == a.Length;
    if wrapped {
      CarryRuns(s);
    } else {
      assert a[i] == s[i];
      CarryStops(s, i);
      NotLast(s, i);
      a[i] := a[i] + 1;
      assert a[..] == Carried(s, i)[i := s[i] + 1];
    }
  }

  lemma NotLast(s: seq<Byte>, k: nat)
    requires k < |s| && (forall i :: 0 <= i < k ==> s[i] == 255) && s[k] < 255
    ensures Value(s) + 1 < Radix(|s|)
  {
    CarryStops(s, k);
    assert Value(Carried(s, k)[k := s[k] + 1]) < Radix(|s|);
  }

  /** The nonce fields of core_ss_body_t. */
  class Counter {
    const nonce: array<Byte>
    var exhausted: bool

    constructor (n: nat)
      ensures Used() == 0 && nonce.Length == n && fresh(nonce)
    {
      nonce := new Byte[n](_ => 0);
      exhausted := false;
      new;
      ZeroValue(nonce[..]);
    }

    /** Operations done: the nonce of the next one, or all of them once exhausted. */
    function Used(): (v: nat)
      reads this, nonce
      ensures v <= Radix(nonce.Length)
    {
      if exhausted then Radix(nonce.Length) else Value(nonce[..])
    }

    /** nonce_available: this many more operations have a nonce each. */
    method Available(operations: nat) returns (ok: bool)
      requires operations >= 1
      ensures ok <==> Used() + operations <= Radix(nonce.Length)
    {
      if exhausted { return false; }
      var next := new Byte[nonce.Length];
      var j := 0;
      while j < next.Length
        invariant 0 <= j <= next.Length == nonce.Length && next[..j] == nonce[..j]
      {
        next[j] := nonce[j];
        j := j + 1;
      }
      assert next[..] == nonce[..];
      var operation := 1;
      while operation < operations
        invariant 1 <= operation <= operations
        invariant Value(next[..]) == Used() + operation - 1
      {
        var wrapped := Increment(next);
        if wrapped { return false; }
        operation := operation + 1;
      }
      ok := true;
    }

    /** The increment at the end of step. */
    method Advance()
      requires !exhausted
      modifies this`exhausted, nonce
      ensures Used() == old(Used()) + 1
    {
      var wrapped := Increment(nonce);
      if wrapped { exhausted := true; }
    }
  }

  lemma {:induction false} ZeroValue(s: seq<Byte>)
    requires forall i :: 0 <= i < |s| ==> s[i] == 0
    ensures Value(s) == 0
  {
    if s != [] { ZeroValue(s[1..]); }
  }
}
