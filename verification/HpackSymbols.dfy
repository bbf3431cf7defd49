/** The symbols of the Huffman code of Appendix B of RFC 7541 in the order of their codes, as
    src/hpack.c stores them, in rows of sixteen. */
module HpackSymbols {

  /** 256 is the end of string. */
  const SYMBOLS: seq<seq<nat>> := [
    [48, 49, 50, 97, 99, 101, 105, 111, 115, 116, 32, 37, 45, 46, 47, 51],
    [52, 53, 54, 55, 56, 57, 61, 65, 95, 98, 100, 102, 103, 104, 108, 109],
    [110, 112, 114, 117, 58, 66, 67, 68, 69, 70, 71, 72, 73, 74, 75, 76],
    [77, 78, 79, 80, 81, 82, 83, 84, 85, 86, 87, 89, 106, 107, 113, 118],
    [119, 120, 121, 122, 38, 42, 44, 59, 88, 90, 33, 34, 40, 41, 63, 39],
    [43, 124, 35, 62, 0, 36, 64, 91, 93, 126, 94, 125, 60, 96, 123, 92],
    [195, 208, 128, 130, 131, 162, 184, 194, 224, 226, 153, 161, 167, 172, 176, 177],
    [179, 209, 216, 217, 227, 229, 230, 129, 132, 133, 134, 136, 146, 154, 156, 160],
    [163, 164, 169, 170, 173, 178, 181, 185, 186, 187, 189, 190, 196, 198, 228, 232],
    [233, 1, 135, 137, 138, 139, 140, 141, 143, 147, 149, 150, 151, 152, 155, 157],
    [158, 165, 166, 168, 174, 175, 180, 182, 183, 188, 191, 197, 231, 239, 9, 142],
    [144, 145, 148, 159, 171, 206, 215, 225, 236, 237, 199, 207, 234, 235, 192, 193],
    [200, 201, 202, 205, 210, 213, 218, 219, 238, 240, 242, 243, 255, 203, 204, 211],
    [212, 214, 221, 222, 223, 241, 244, 245, 246, 247, 248, 250, 251, 252, 253, 254],
    [2, 3, 4, 5, 6, 7, 8, 11, 12, 14, 15, 16, 17, 18, 19, 20],
    [21, 23, 24, 25, 26, 27, 28, 29, 30, 31, 127, 220, 249, 10, 13, 22],
    [256]]

  /** Where each symbol stands. */
  const INDICES: seq<seq<nat>> := [
    [84, 145, 224, 225, 226, 227, 228, 229, 230, 174, 253, 231, 232, 254, 233, 234],
    [235, 236, 237, 238, 239, 240, 255, 241, 242, 243, 244, 245, 246, 247, 248, 249],
    [10, 74, 75, 82, 85, 11, 68, 79, 76, 77, 69, 80, 70, 12, 13, 14],
    [0, 1, 2, 15, 16, 17, 18, 19, 20, 21, 36, 71, 92, 22, 83, 78],
    [86, 23, 37, 38, 39, 40, 41, 42, 43, 44, 45, 46, 47, 48, 49, 50],
    [51, 52, 53, 54, 55, 56, 57, 58, 72, 59, 73, 87, 95, 88, 90, 24],
    [93, 3, 25, 4, 26, 5, 27, 28, 29, 6, 60, 61, 30, 31, 32, 7],
    [33, 62, 34, 8, 9, 35, 63, 64, 65, 66, 67, 94, 81, 91, 89, 250],
    [98, 119, 99, 100, 120, 121, 122, 146, 123, 147, 148, 149, 150, 151, 175, 152],
    [176, 177, 124, 153, 178, 154, 155, 156, 157, 106, 125, 158, 126, 159, 160, 179],
    [127, 107, 101, 128, 129, 161, 162, 108, 163, 130, 131, 180, 109, 132, 164, 165],
    [110, 111, 133, 112, 166, 134, 167, 168, 102, 135, 136, 137, 169, 138, 139, 170],
    [190, 191, 103, 96, 140, 171, 141, 186, 192, 193, 194, 205, 206, 195, 181, 187],
    [97, 113, 196, 207, 208, 197, 209, 182, 114, 115, 198, 199, 251, 210, 211, 212],
    [104, 183, 105, 116, 142, 117, 118, 172, 143, 144, 188, 189, 184, 185, 200, 173],
    [201, 213, 202, 203, 214, 215, 216, 217, 218, 252, 219, 220, 221, 222, 223, 204],
    [256]]

  function Entry(rows: seq<seq<nat>>, n: nat): nat {
    if n / 16 < |rows| && n % 16 < |rows[n / 16]| then rows[n / 16][n % 16] else 0
  }

  lemma Row0(i: nat)
    requires i < 16
    ensures |INDICES| == 17 && |INDICES[0]| == 16 && INDICES[0][i] < 257 && Entry(SYMBOLS, INDICES[0][i]) == 0 + i
  {
  }

  lemma Row1(i: nat)
    requires i < 16
    ensures |INDICES| == 17 && |INDICES[1]| == 16 && INDICES[1][i] < 257 && Entry(SYMBOLS, INDICES[1][i]) == 16 + i
  {
  }

  lemma Row2(i: nat)
    requires i < 16
    ensures |INDICES| == 17 && |INDICES[2]| == 16 && INDICES[2][i] < 257 && Entry(SYMBOLS, INDICES[2][i]) == 32 + i
  {
  }

  lemma Row3(i: nat)
    requires i < 16
    ensures |INDICES| == 17 && |INDICES[3]| == 16 && INDICES[3][i] < 257 && Entry(SYMBOLS, INDICES[3][i]) == 48 + i
  {
  }

  lemma Row4(i: nat)
    requires i < 16
    ensures |INDICES| == 17 && |INDICES[4]| == 16 && INDICES[4][i] < 257 && Entry(SYMBOLS, INDICES[4][i]) == 64 + i
  {
  }

  lemma Row5(i: nat)
    requires i < 16
    ensures |INDICES| == 17 && |INDICES[5]| == 16 && INDICES[5][i] < 257 && Entry(SYMBOLS, INDICES[5][i]) == 80 + i
  {
  }

  lemma Row6(i: nat)
    requires i < 16
    ensures |INDICES| == 17 && |INDICES[6]| == 16 && INDICES[6][i] < 257 && Entry(SYMBOLS, INDICES[6][i]) == 96 + i
  {
  }

  lemma Row7(i: nat)
    requires i < 16
    ensures |INDICES| == 17 && |INDICES[7]| == 16 && INDICES[7][i] < 257 && Entry(SYMBOLS, INDICES[7][i]) == 112 + i
  {
  }

  lemma Row8(i: nat)
    requires i < 16
    ensures |INDICES| == 17 && |INDICES[8]| == 16 && INDICES[8][i] < 257 && Entry(SYMBOLS, INDICES[8][i]) == 128 + i
  {
  }

  lemma Row9(i: nat)
    requires i < 16
    ensures |INDICES| == 17 && |INDICES[9]| == 16 && INDICES[9][i] < 257 && Entry(SYMBOLS, INDICES[9][i]) == 144 + i
  {
  }

  lemma Row10(i: nat)
    requires i < 16
    ensures |INDICES| == 17 && |INDICES[10]| == 16 && INDICES[10][i] < 257 && Entry(SYMBOLS, INDICES[10][i]) == 160 + i
  {
  }

  lemma Row11(i: nat)
    requires i < 16
    ensures |INDICES| == 17 && |INDICES[11]| == 16 && INDICES[11][i] < 257 && Entry(SYMBOLS, INDICES[11][i]) == 176 + i
  {
  }

  lemma Row12(i: nat)
    requires i < 16
    ensures |INDICES| == 17 && |INDICES[12]| == 16 && INDICES[12][i] < 257 && Entry(SYMBOLS, INDICES[12][i]) == 192 + i
  {
  }

  lemma Row13(i: nat)
    requires i < 16
    ensures |INDICES| == 17 && |INDICES[13]| == 16 && INDICES[13][i] < 257 && Entry(SYMBOLS, INDICES[13][i]) == 208 + i
  {
  }

  lemma Row14(i: nat)
    requires i < 16
    ensures |INDICES| == 17 && |INDICES[14]| == 16 && INDICES[14][i] < 257 && Entry(SYMBOLS, INDICES[14][i]) == 224 + i
  {
  }

  lemma Row15(i: nat)
    requires i < 16
    ensures |INDICES| == 17 && |INDICES[15]| == 16 && INDICES[15][i] < 257 && Entry(SYMBOLS, INDICES[15][i]) == 240 + i
  {
  }

  lemma Row16(i: nat)
    requires i < 1
    ensures |INDICES| == 17 && |INDICES[16]| == 1 && INDICES[16][i] < 257 && Entry(SYMBOLS, INDICES[16][i]) == 256 + i
  {
  }

  /** Every symbol stands where INDICES says. */
  lemma Listed(c: nat)
    requires c < 257
    ensures Entry(INDICES, c) < 257 && Entry(SYMBOLS, Entry(INDICES, c)) == c
  {
    hide SYMBOLS, INDICES;
    var i := c % 16;
    match c / 16 {
      case 0 => Row0(i);
      case 1 => Row1(i);
      case 2 => Row2(i);
      case 3 => Row3(i);
      case 4 => Row4(i);
      case 5 => Row5(i);
      case 6 => Row6(i);
      case 7 => Row7(i);
      case 8 => Row8(i);
      case 9 => Row9(i);
      case 10 => Row10(i);
      case 11 => Row11(i);
      case 12 => Row12(i);
      case 13 => Row13(i);
      case 14 => Row14(i);
      case 15 => Row15(i);
      case _ => Row16(i);
    }
  }

  // ----- each place is taken once -----

  predicate Injective(f: nat -> nat, n: nat) {
    forall c, d :: 0 <= c < d < n ==> f(c) != f(d)
  }

  function Image(f: nat -> nat, n: nat): set<nat> { set c | 0 <= c < n :: f(c) }

  lemma {:induction false} ImageSize(f: nat -> nat, n: nat)
    requires Injective(f, n)
    ensures |Image(f, n)| == n
  {
    if n > 0 {
      ImageSize(f, n - 1);
      assert Image(f, n) == Image(f, n - 1) + {f(n - 1)};
    }
  }

  lemma {:induction false} SubsetSize(a: set<nat>, b: set<nat>)
    requires a <= b
    ensures |a| <= |b|
  {
    if x :| x in a {
      SubsetSize(a - {x}, b - {x});
    }
  }

  lemma Pigeonhole(f: nat -> nat, n: nat, j: nat)
    requires Injective(f, n) && (forall c :: 0 <= c < n ==> f(c) < n) && j < n
    ensures exists c :: 0 <= c < n && f(c) == j
  {
    var same := (x: nat) => x;
    var all := Image(same, n);
    ImageSize(f, n);
    ImageSize(same, n);
    if j !in Image(f, n) {
      forall x | x in Image(f, n) ensures x in all - {j} { assert same(x) == x; }
      assert same(j) == j;
      SubsetSize(Image(f, n), all - {j});
      assert false;
    }
  }

  lemma Places(j: nat)
    requires j < 257
    ensures Entry(SYMBOLS, j) < 257 && Entry(INDICES, Entry(SYMBOLS, j)) == j
  {
    hide SYMBOLS, INDICES, Entry;
    var f := (c: nat) => Entry(INDICES, c);
    forall c | 0 <= c < 257 ensures f(c) < 257 && Entry(SYMBOLS, f(c)) == c { Listed(c); }
    forall c, d | 0 <= c < d < 257 ensures f(c) != f(d) { Listed(c); Listed(d); }
    Pigeonhole(f, 257, j);
    var c :| 0 <= c < 257 && f(c) == j;
    assert Entry(SYMBOLS, f(c)) == c;
  }
}
