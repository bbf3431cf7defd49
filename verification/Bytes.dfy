/** Octets, numbers in network order, and results that may be absent. */
module Bytes {
  import opened Arithmetic

  newtype Byte = x: int | 0 <= x < 256

  type Octets = seq<Byte>

  datatype Option<T> = None | Some(value: T)

  function Concat(pieces: seq<Octets>): Octets {
    if pieces == [] then [] else pieces[0] + Concat(pieces[1..])
  }

  /** `n` octets of a number, the most significant first. */
  function Big(v: nat, n: nat): (s: Octets)
    ensures |s| == n
  {
    if n == 0 then [] else Big(v / 256, n - 1) + [(v % 256) as Byte]
  }

  lemma BigFour(n: nat)
    ensures var a := n / 256; var b := a / 256; var c := b / 256;
            Big(n, 4) == [(c % 256) as Byte, (b % 256) as Byte, (a % 256) as Byte, (n % 256) as Byte]
  {
    var a := n / 256;
    var b := a / 256;
    var c := b / 256;
    assert Big(c, 1) == Big(c / 256, 0) + [(c % 256) as Byte];
    assert Big(b, 2) == Big(c, 1) + [(b % 256) as Byte];
    assert Big(a, 3) == Big(b, 2) + [(a % 256) as Byte];
  }

  lemma FourDigits(a: Byte, b: Byte, c: Byte, d: Byte)
    ensures var n := a as nat * 0x100_0000 + b as nat * 0x1_0000 + c as nat * 0x100 + d as nat;
            && n % 256 == d as nat && (n / 256) % 256 == c as nat && (n / 256 / 256) % 256 == b as nat
            && n / 256 / 256 / 256 == a as nat
  {
  }

  lemma BigTwo(n: nat)
    ensures Big(n, 2) == [(n / 256 % 256) as Byte, (n % 256) as Byte]
  {
    assert Big(n / 256, 1) == Big(n / 256 / 256, 0) + [(n / 256 % 256) as Byte];
  }

  lemma {:induction false} BigByte(v: nat, n: nat, j: nat)
    requires j < n
    ensures Big(v, n)[j] as nat == v / Radix(n - 1 - j) % 256
  {
    if j < n - 1 {
      BigByte(v / 256, n - 1, j);
      DivideTwice(v, 256, Radix(n - 2 - j));
    }
  }
}
