/** src/hpack.c: header blocks and the dynamic table, sections 2.3, 4 and 6 of RFC 7541, and the
    representations the client writes, src/tls_http2.c. */
module Hpack {
  import opened Bytes
  import opened HpackInteger
  import Huffman = HpackHuffman
  import opened HpackTables

  const TABLE_LIMIT := 4096
  const HEADER_LIMIT := 65536
  const SLOTS := 128

  type Text = seq<Byte>

  datatype Field = Field(name: Text, value: Text)
  {
    function Size(): (n: nat)
      ensures n >= 32
    {
      |name| + |value| + 32
    }
  }

  /** Entries with the newest first. */
  datatype Dynamic = Dynamic(entries: seq<Field>, maximum: nat)

  const EMPTY := Dynamic([], TABLE_LIMIT)

  function Total(entries: seq<Field>): nat {
    if entries == [] then 0 else Total(entries[..|entries| - 1]) + entries[|entries| - 1].Size()
  }

  /** What every sequence of blocks keeps. */
  predicate Bounded(d: Dynamic) {
    Total(d.entries) <= d.maximum <= TABLE_LIMIT
  }

  // ----- eviction -----

  /** evict_to: the oldest entries go until the rest fits. */
  function Fit(entries: seq<Field>, size: nat): (r: seq<Field>)
    ensures r <= entries && Total(r) <= size
    ensures forall k :: |r| < k <= |entries| ==> Total(entries[..k]) > size
  {
    if Total(entries) <= size then
      assert entries[..|entries|] == entries;
      entries
    else
      var r := Fit(entries[..|entries| - 1], size);
      assert forall k :: 0 <= k < |entries| ==> entries[..|entries| - 1][..k] == entries[..k];
      assert entries[..|entries|] == entries;
      r
  }

  /** The longest prefix that fits is the only prefix that fits while every longer one does not. */
  lemma FitUnique(entries: seq<Field>, size: nat, r: seq<Field>)
    requires r <= entries && Total(r) <= size && forall k :: |r| < k <= |entries| ==> Total(entries[..k]) > size
    ensures r == Fit(entries, size)
  {
    var f := Fit(entries, size);
    assert f == entries[..|f|] && r == entries[..|r|];
  }

  lemma {:induction false} TotalPrepend(f: Field, entries: seq<Field>)
    ensures Total([f] + entries) == f.Size() + Total(entries)
  {
    if entries == [] {
      assert [f] + entries == [f] && [f][..0] == [];
    } else {
      TotalPrepend(f, entries[..|entries| - 1]);
      assert ([f] + entries)[..|entries|] == [f] + entries[..|entries| - 1];
    }
  }

  lemma {:induction false} TotalCount(entries: seq<Field>)
    ensures 32 * |entries| <= Total(entries)
  {
    if entries != [] { TotalCount(entries[..|entries| - 1]); }
  }

  function Resize(d: Dynamic, maximum: nat): Dynamic { Dynamic(Fit(d.entries, maximum), maximum) }

  /** insert: a field larger than the table empties it. */
  function Insert(d: Dynamic, f: Field): Dynamic {
    if f.Size() > d.maximum then d.(entries := []) else d.(entries := [f] + Fit(d.entries, d.maximum - f.Size()))
  }

  /** After an insertion the table is the longest run of most recent entries that fits. */
  lemma InsertKeepsMost(d: Dynamic, f: Field)
    ensures Insert(d, f).entries == Fit([f] + d.entries, d.maximum)
  {
    var all := [f] + d.entries;
    var r := Insert(d, f).entries;
    forall k | |r| < k <= |all| ensures Total(all[..k]) > d.maximum {
      assert all[..k] == [f] + d.entries[..k - 1];
      TotalPrepend(f, d.entries[..k - 1]);
    }
    if f.Size() <= d.maximum { TotalPrepend(f, Fit(d.entries, d.maximum - f.Size())); }
    FitUnique(all, d.maximum, r);
  }

  /** There is always a free slot for the new entry. */
  lemma SlotFree(d: Dynamic, f: Field)
    requires Bounded(d) && f.Size() <= d.maximum
    ensures |Fit(d.entries, d.maximum - f.Size())| < SLOTS
  {
    TotalCount(Fit(d.entries, d.maximum - f.Size()));
  }

  lemma KeepsBounded(d: Dynamic, f: Field, maximum: nat)
    requires Bounded(d)
    ensures Bounded(Insert(d, f)) && (maximum <= TABLE_LIMIT ==> Bounded(Resize(d, maximum))) && |d.entries| <= SLOTS
  {
    TotalCount(d.entries);
    if f.Size() <= d.maximum { TotalPrepend(f, Fit(d.entries, d.maximum - f.Size())); }
  }

  /** The newest first of many insertions. */
  function Recent(fields: seq<Field>, before: seq<Field>): seq<Field>
    decreases |fields|
  {
    if fields == [] then before else Recent(fields[1..], [fields[0]] + before)
  }

  function InsertAll(d: Dynamic, fields: seq<Field>): Dynamic
    decreases |fields|
  {
    if fields == [] then d else InsertAll(Insert(d, fields[0]), fields[1..])
  }

  /** Forgetting early does not matter: what an insertion keeps depends on the full history only
      through what the table kept of it. */
  lemma FitAgain(f: Field, entries: seq<Field>, size: nat)
    ensures Fit([f] + Fit(entries, size), size) == Fit([f] + entries, size)
  {
    var kept := Fit(entries, size);
    var short := [f] + kept;
    var all := [f] + entries;
    var r := Fit(short, size);
    assert kept == entries[..|kept|];
    forall k | |r| < k <= |all| ensures Total(all[..k]) > size {
      assert all[..k] == [f] + entries[..k - 1];
      TotalPrepend(f, entries[..k - 1]);
      if k <= |short| { assert short[..k] == all[..k]; }
    }
    FitUnique(all, size, r);
  }

  /** While the maximum stands, the table is the longest run of the most recent of all entries ever
      inserted that fits. */
  lemma {:induction false} InsertAllKeepsMost(d: Dynamic, fields: seq<Field>, history: seq<Field>)
    requires d.entries == Fit(history, d.maximum)
    ensures InsertAll(d, fields) == d.(entries := Fit(Recent(fields, history), d.maximum))
    decreases |fields|
  {
    if fields != [] {
      hide Fit;
      InsertKeepsMost(d, fields[0]);
      FitAgain(fields[0], history, d.maximum);
      InsertAllKeepsMost(Insert(d, fields[0]), fields[1..], [fields[0]] + history);
    }
  }

  // ----- strings and fields -----

  /** core_hpack_read_string with the limit of read_allocated_string: the text and the octets used. */
  function ReadString(s: seq<Byte>): (r: Option<(Text, nat)>)
    ensures r.Some? ==> 1 <= r.value.1 <= |s| && |r.value.0| <= HEADER_LIMIT
  {
    match Decode(s, 7)
    case None => None
    case Some((length, used)) =>
      DecodeExact(s, 7, length, used);
      if length > |s| - used then None else
        match Unpacked(s[used..used + length], s[0] >= 128)
        case None => None
        case Some(text) => if |text| > HEADER_LIMIT then None else Some((text, used + length))
  }

  function Unpacked(raw: seq<Byte>, huffman: bool): Option<Text> {
    if huffman then TableComplete(); Huffman.Decode(TABLE, Huffman.BitsOf(raw), 0, 0) else Some(raw)
  }

  /** The first 61 indices. */
  const STATIC: seq<(string, string)> := [
    (":authority", ""), (":method", "GET"), (":method", "POST"), (":path", "/"),
    (":path", "/index.html"), (":scheme", "http"), (":scheme", "https"), (":status", "200"),
    (":status", "204"), (":status", "206"), (":status", "304"), (":status", "400"),
    (":status", "404"), (":status", "500"), ("accept-charset", ""), ("accept-encoding", "gzip, deflate"),
    ("accept-language", ""), ("accept-ranges", ""), ("accept", ""), ("access-control-allow-origin", ""),
    ("age", ""), ("allow", ""), ("authorization", ""), ("cache-control", ""),
    ("content-disposition", ""), ("content-encoding", ""), ("content-language", ""), ("content-length", ""),
    ("content-location", ""), ("content-range", ""), ("content-type", ""), ("cookie", ""),
    ("date", ""), ("etag", ""), ("expect", ""), ("expires", ""),
    ("from", ""), ("host", ""), ("if-match", ""), ("if-modified-since", ""),
    ("if-none-match", ""), ("if-range", ""), ("if-unmodified-since", ""), ("last-modified", ""),
    ("link", ""), ("location", ""), ("max-forwards", ""), ("proxy-authenticate", ""),
    ("proxy-authorization", ""), ("range", ""), ("referer", ""), ("refresh", ""),
    ("retry-after", ""), ("server", ""), ("set-cookie", ""), ("strict-transport-security", ""),
    ("transfer-encoding", ""), ("user-agent", ""), ("vary", ""), ("via", ""),
    ("www-authenticate", "")]

  function Ascii(s: string): Text { seq(|s|, i requires 0 <= i < |s| => (s[i] as int % 256) as Byte) }

  function Lookup(d: Dynamic, index: nat): Option<Field> {
    if index == 0 then None
    else if index <= |STATIC| then Some(Field(Ascii(STATIC[index - 1].0), Ascii(STATIC[index - 1].1)))
    else if index - |STATIC| <= |d.entries| then Some(d.entries[index - |STATIC| - 1])
    else None
  }

  // ----- blocks -----

  datatype Item = Update(maximum: nat) | Header(field: Field, indexed: bool)

  /** One representation and its length; table size updates come first in a block. */
  function Read(d: Dynamic, s: seq<Byte>, saw: bool): (r: Option<(Item, nat)>)
    requires s != []
    ensures r.Some? ==> 1 <= r.value.1 <= |s|
    ensures r.Some? && r.value.0.Update? ==> r.value.0.maximum <= TABLE_LIMIT
  {
    if s[0] / 32 == 1 then
      match Decode(s, 5)
      case None => None
      case Some((n, used)) =>
        DecodeExact(s, 5, n, used);
        if saw || n > TABLE_LIMIT then None else Some((Update(n), used))
    else if s[0] >= 128 then
      match Decode(s, 7)
      case None => None
      case Some((n, used)) =>
        DecodeExact(s, 7, n, used);
        match Lookup(d, n)
        case None => None
        case Some(f) => Some((Header(f, false), used))
    else
      ReadLiteral(d, s, s[0] >= 64)
  }

  /** A literal: an indexed or a new name, then the value. */
  function ReadLiteral(d: Dynamic, s: seq<Byte>, indexed: bool): (r: Option<(Item, nat)>)
    ensures r.Some? ==> 1 <= r.value.1 <= |s| && r.value.0.Header?
  {
    match Decode(s, if indexed then 6 else 4)
    case None => None
    case Some((n, used)) =>
      DecodeExact(s, if indexed then 6 else 4, n, used);
      match ReadName(d, s[used..], n)
      case None => None
      case Some((name, more)) =>
        match ReadString(s[used + more..])
        case None => None
        case Some((value, rest)) => Some((Header(Field(name, value), indexed), used + more + rest))
  }

  function ReadName(d: Dynamic, s: seq<Byte>, index: nat): (r: Option<(Text, nat)>)
    ensures r.Some? ==> r.value.1 <= |s|
  {
    if index == 0 then ReadString(s) else
      match Lookup(d, index)
      case None => None
      case Some(f) => Some((f.name, 0))
  }

  function Apply(d: Dynamic, item: Item): Dynamic {
    match item
    case Update(n) => Resize(d, n)
    case Header(f, indexed) => if indexed then Insert(d, f) else d
  }

  datatype Outcome = Broken | Decoded(table: Dynamic, fields: seq<Field>)

  /** core_hpack_decode, without the verdict on the fields. */
  function DecodeBlock(d: Dynamic, s: seq<Byte>, saw: bool): Outcome
    decreases |s|
  {
    if s == [] then Decoded(d, []) else
      match Read(d, s, saw)
      case None => Broken
      case Some((item, used)) => Listing(item, DecodeBlock(Apply(d, item), s[used..], saw || item.Header?))
  }

  function Listing(item: Item, rest: Outcome): Outcome {
    if item.Header? && rest.Decoded? then rest.(fields := [item.field] + rest.fields) else rest
  }

  /** Every block keeps the table within its limits. */
  lemma {:induction false} BlockKeepsBounded(d: Dynamic, s: seq<Byte>, saw: bool)
    requires Bounded(d)
    ensures var r := DecodeBlock(d, s, saw); r.Decoded? ==> Bounded(r.table) && |r.table.entries| <= SLOTS
    decreases |s|
  {
    hide Bounded, Resize, Insert;
    KeepsBounded(d, Field([], []), 0);
    if s != [] && Read(d, s, saw).Some? {
      var (item, used) := Read(d, s, saw).value;
      KeepsBounded(d, if item.Header? then item.field else Field([], []), if item.Update? then item.maximum else 0);
      hide Read;
      BlockKeepsBounded(Apply(d, item), s[used..], saw || item.Header?);
    }
  }

  /** Blocks one after another on one connection, until one is broken. */
  function DecodeBlocks(d: Dynamic, blocks: seq<seq<Byte>>): Dynamic
    decreases |blocks|
  {
    if blocks == [] then d else
      match DecodeBlock(d, blocks[0], false)
      case Broken => d
      case Decoded(table, _) => DecodeBlocks(table, blocks[1..])
  }

  lemma {:induction false} BlocksKeepBounded(d: Dynamic, blocks: seq<seq<Byte>>)
    requires Bounded(d)
    ensures Bounded(DecodeBlocks(d, blocks))
    decreases |blocks|
  {
    hide Bounded, DecodeBlock;
    if blocks != [] {
      BlockKeepsBounded(d, blocks[0], false);
      match DecodeBlock(d, blocks[0], false) {
        case Broken =>
        case Decoded(table, _) => BlocksKeepBounded(table, blocks[1..]);
      }
    }
  }

  // ----- the client's encoder -----

  datatype Written = Static(index: nat) | NewName(name: Text, value: Text)

  predicate Writable(w: Written) {
    match w
    case Static(index) => 1 <= index <= 61
    case NewName(name, value) => |name| <= HEADER_LIMIT && |value| <= HEADER_LIMIT
  }

  function EncodeString(text: Text): seq<Byte> { Encode(|text|, 7, 0) + text }

  function EncodeItem(w: Written): seq<Byte> {
    match w
    case Static(index) => Encode(index, 7, 128)
    case NewName(name, value) => [0] + EncodeString(name) + EncodeString(value)
  }

  function EncodeItems(items: seq<Written>): seq<Byte> {
    if items == [] then [] else EncodeItem(items[0]) + EncodeItems(items[1..])
  }

  function FieldOf(w: Written): Field
    requires Writable(w)
  {
    match w
    case Static(index) => StaticSize(); Field(Ascii(STATIC[index - 1].0), Ascii(STATIC[index - 1].1))
    case NewName(name, value) => Field(name, value)
  }

  lemma StaticSize()
    ensures |STATIC| == 61
  {
  }

  lemma StringRoundTrip(text: Text, rest: seq<Byte>)
    requires |text| <= HEADER_LIMIT
    ensures ReadString(EncodeString(text) + rest) == Some((text, |EncodeString(text)|))
  {
    var head := Encode(|text|, 7, 0);
    var s := EncodeString(text) + rest;
    assert s == head + (text + rest);
    RoundTrip(|text|, 7, 0, text + rest);
    assert s[|head|..|head| + |text|] == text;
    TopBitClear(|text|, head);
  }

  lemma TopBitClear(value: nat, head: seq<Byte>)
    requires head == Encode(value, 7, 0)
    ensures head[0] < 128
  {
  }

  lemma ItemRoundTrip(d: Dynamic, w: Written, rest: seq<Byte>, saw: bool)
    requires Writable(w)
    ensures EncodeItem(w) != []
        && Read(d, EncodeItem(w) + rest, saw) == Some((Header(FieldOf(w), false), |EncodeItem(w)|))
  {
    hide STATIC, ReadString, EncodeString;
    StaticSize();
    match w {
      case Static(index) =>
        RoundTrip(index, 7, 128, rest);
        TopBitSet(index);
      case NewName(name, value) =>
        var s := EncodeItem(w) + rest;
        var one := EncodeString(name);
        var two := EncodeString(value);
        assert s[1..] == one + (two + rest) && s[1 + |one|..] == two + rest;
        StringRoundTrip(name, two + rest);
        StringRoundTrip(value, rest);
        LiteralByte(s);
    }
  }

  lemma TopBitSet(index: nat)
    requires 1 <= index <= 61
    ensures Encode(index, 7, 128) == [(128 + index) as Byte]
  {
  }

  lemma LiteralByte(s: seq<Byte>)
    requires s != [] && s[0] == 0
    ensures Decode(s, 4) == Some((0, 1))
  {
  }

  /** Blocks the client writes decode to the same list and leave the table alone. */
  lemma {:induction false} ClientRoundTrip(d: Dynamic, items: seq<Written>, saw: bool)
    requires forall i :: 0 <= i < |items| ==> Writable(items[i])
    ensures DecodeBlock(d, EncodeItems(items), saw) ==
        Decoded(d, seq(|items|, i requires 0 <= i < |items| => FieldOf(items[i])))
    decreases |items|
  {
    hide FieldOf, EncodeItem, Read;
    if items != [] {
      var head := EncodeItem(items[0]);
      var rest := EncodeItems(items[1..]);
      ItemRoundTrip(d, items[0], rest, saw);
      assert (head + rest)[|head|..] == rest;
      ClientRoundTrip(d, items[1..], true);
      var all := seq(|items|, i requires 0 <= i < |items| => FieldOf(items[i]));
      assert all == [FieldOf(items[0])] + seq(|items| - 1, i requires 0 <= i < |items| - 1 => FieldOf(items[1..][i]));
    }
  }
}
