/** The tables of src/hpack.c are a complete code. */
module HpackTables {
  import opened Arithmetic
  import opened HpackHuffman
  import opened HpackSymbols

  /** Number of codes of each width. */
  function Count(w: nat): nat {
    match w
    case 5 => 10 case 6 => 26 case 7 => 32 case 8 => 6 case 10 => 5 case 11 => 3 case 12 => 2 case 13 => 6
    case 14 => 2 case 15 => 3 case 19 => 3 case 20 => 8 case 21 => 13 case 22 => 26 case 23 => 29 case 24 => 12
    case 25 => 4 case 26 => 15 case 27 => 19 case 28 => 29 case 30 => 4
    case _ => 0
  }

  const TABLE := Table(w => Count(w), n => Entry(SYMBOLS, n), n => Entry(INDICES, n))

  /** The first code of a width and the number of shorter ones, from those of the width before. */
  lemma NextWidth(w: nat, first: nat, base: nat, count: nat)
    requires 1 <= w <= 30 && Count(w) == count && First(TABLE, w) == first && Base(TABLE, w) == base
    ensures First(TABLE, w + 1) == 2 * (first + count) && Base(TABLE, w + 1) == base + count
  {
    hide SYMBOLS, INDICES, Count;
  }

  lemma FirstWidth()
    ensures First(TABLE, 1) == 0 && Base(TABLE, 1) == 0
  {
    hide SYMBOLS, INDICES, Count;
  }

  lemma Widths10()
    ensures First(TABLE, 10) == 1016 && Base(TABLE, 10) == 74
  {
    hide SYMBOLS, INDICES, First, Base;
    FirstWidth();
    NextWidth(1, 0, 0, 0);
    NextWidth(2, 0, 0, 0);
    NextWidth(3, 0, 0, 0);
    NextWidth(4, 0, 0, 0);
    NextWidth(5, 0, 0, 10);
    NextWidth(6, 20, 10, 26);
    NextWidth(7, 92, 36, 32);
    NextWidth(8, 248, 68, 6);
    NextWidth(9, 508, 74, 0);
  }

  lemma Widths20()
    ensures First(TABLE, 20) == 1048550 && Base(TABLE, 20) == 98
  {
    hide SYMBOLS, INDICES, First, Base;
    Widths10();
    NextWidth(10, 1016, 74, 5);
    NextWidth(11, 2042, 79, 3);
    NextWidth(12, 4090, 82, 2);
    NextWidth(13, 8184, 84, 6);
    NextWidth(14, 16380, 90, 2);
    NextWidth(15, 32764, 92, 3);
    NextWidth(16, 65534, 95, 0);
    NextWidth(17, 131068, 95, 0);
    NextWidth(18, 262136, 95, 0);
    NextWidth(19, 524272, 95, 3);
  }

  lemma Widths31()
    ensures First(TABLE, 31) == 2147483648 && Base(TABLE, 31) == 257
  {
    hide SYMBOLS, INDICES, First, Base;
    Widths20();
    NextWidth(20, 1048550, 98, 8);
    NextWidth(21, 2097116, 106, 13);
    NextWidth(22, 4194258, 119, 26);
    NextWidth(23, 8388568, 145, 29);
    NextWidth(24, 16777194, 174, 12);
    NextWidth(25, 33554412, 186, 4);
    NextWidth(26, 67108832, 190, 15);
    NextWidth(27, 134217694, 205, 19);
    NextWidth(28, 268435426, 224, 29);
    NextWidth(29, 536870910, 253, 0);
    NextWidth(30, 1073741820, 253, 4);
  }

  /** So all that is proved of a complete code holds of these tables. */
  lemma TableComplete()
    ensures Complete(TABLE)
  {
    Widths31();
    Powers();
    LastWidth();
    hide SYMBOLS, INDICES, First, Base, Count, Entry;
    forall n | 0 <= n < 257 ensures Paired(TABLE, n) {
      Listed(n);
      Places(n);
    }
  }

  lemma LastWidth()
    ensures 2 * Limit(TABLE, 30) == First(TABLE, 31) && Count(30) == 4
  {
    hide SYMBOLS, INDICES;
  }

  lemma Powers()
    ensures Two(30) == 1073741824
  {
    assert Two(10) == 1024;
    assert Two(20) == 1048576;
  }
}
