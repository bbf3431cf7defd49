/** What header blocks mean to their sender: an index names an entry by how recently it was inserted
    (section 2.3.3 of RFC 7541), and every representation of section 6, in every spelling, is read back. */
module HpackHistory {
  import opened Bytes
  import opened HpackInteger
  import Huffman = HpackHuffman
  import opened HpackTables
  import opened Hpack

  // ----- the sender's record -----

  /** All fields ever inserted, the oldest first; the first `gone` of them were evicted. */
  datatype Sender = Sender(history: seq<Field>, gone: nat, maximum: nat)

  const START := Sender([], 0, TABLE_LIMIT)

  predicate Kept(s: Sender) { s.gone <= |s.history| }

  function Sizes(fields: seq<Field>): nat {
    if fields == [] then 0 else fields[0].Size() + Sizes(fields[1..])
  }

  /** Eviction: as few of the oldest as will do. */
  function Evict(history: seq<Field>, gone: nat, maximum: nat): (n: nat)
    requires gone <= |history|
    ensures gone <= n <= |history| && Sizes(history[n..]) <= maximum
    ensures forall j :: gone <= j < n ==> Sizes(history[j..]) > maximum
    decreases |history| - gone
  {
    if Sizes(history[gone..]) <= maximum then gone else Evict(history, gone + 1, maximum)
  }

  function Inserted(s: Sender, f: Field): (t: Sender)
    requires Kept(s)
    ensures Kept(t)
  {
    s.(history := s.history + [f], gone := Evict(s.history + [f], s.gone, s.maximum))
  }

  function Resized(s: Sender, maximum: nat): (t: Sender)
    requires Kept(s)
    ensures Kept(t)
  {
    s.(gone := Evict(s.history, s.gone, maximum), maximum := maximum)
  }

  /** The index address space: the static table, then the insertions, the most recent first. */
  function FieldAt(s: Sender, index: nat): Option<Field>
    requires Kept(s)
  {
    if index == 0 then None
    else if index <= 61 then StaticSize(); Some(Field(Ascii(STATIC[index - 1].0), Ascii(STATIC[index - 1].1)))
    else
      var age := index - 62;
      if age < |s.history| - s.gone then Some(s.history[|s.history| - 1 - age]) else None
  }

  // ----- the table of the decoder -----

  function Backwards(fields: seq<Field>): (r: seq<Field>)
    ensures |r| == |fields| && forall i :: 0 <= i < |r| ==> r[i] == fields[|fields| - 1 - i]
  {
    seq(|fields|, i requires 0 <= i < |fields| => fields[|fields| - 1 - i])
  }

  /** The decoder holds what the sender believes it holds. */
  predicate Agree(s: Sender, d: Dynamic)
    ensures Agree(s, d) ==> Kept(s)
  {
    Kept(s) && d.maximum == s.maximum && d.entries == Backwards(s.history[s.gone..])
  }

  lemma StartAgrees()
    ensures Agree(START, EMPTY)
  {
  }

  lemma {:induction false} BackwardsTotal(fields: seq<Field>)
    ensures Total(Backwards(fields)) == Sizes(fields)
  {
    if fields != [] {
      var r := Backwards(fields);
      assert r[..|r| - 1] == Backwards(fields[1..]);
      BackwardsTotal(fields[1..]);
    }
  }

  lemma {:induction false} FitEvicts(history: seq<Field>, gone: nat, maximum: nat)
    requires gone <= |history|
    ensures Fit(Backwards(history[gone..]), maximum) == Backwards(history[Evict(history, gone, maximum)..])
    decreases |history| - gone
  {
    var entries := Backwards(history[gone..]);
    BackwardsTotal(history[gone..]);
    if Sizes(history[gone..]) > maximum {
      assert gone < |history|;
      assert entries[..|entries| - 1] == Backwards(history[gone + 1..]);
      FitEvicts(history, gone + 1, maximum);
    }
  }

  /** Both sides evict the same entries. */
  lemma InsertAgrees(s: Sender, d: Dynamic, f: Field)
    requires Agree(s, d)
    ensures Agree(Inserted(s, f), Insert(d, f))
  {
    hide Fit, Evict, Total, Sizes;
    InsertKeepsMost(d, f);
    FitEvicts(s.history + [f], s.gone, s.maximum);
    var live := (s.history + [f])[s.gone..];
    assert live == s.history[s.gone..] + [f];
    assert Backwards(live) == [f] + d.entries;
  }

  lemma ResizeAgrees(s: Sender, d: Dynamic, maximum: nat)
    requires Agree(s, d)
    ensures Agree(Resized(s, maximum), Resize(d, maximum))
  {
    hide Fit, Evict, Total, Sizes;
    FitEvicts(s.history, s.gone, maximum);
  }

  /** An index names the same field on both sides, or none on both. */
  lemma LookupAgrees(s: Sender, d: Dynamic, index: nat)
    requires Agree(s, d)
    ensures Lookup(d, index) == FieldAt(s, index)
  {
    StaticSize();
    hide STATIC;
    if 62 <= index && index - 62 < |d.entries| {
      var live := s.history[s.gone..];
      assert d.entries[index - 62] == live[|live| - 1 - (index - 62)];
    }
  }

  lemma {:induction false} InsertionsAgree(s: Sender, d: Dynamic, fields: seq<Field>) returns (t: Sender)
    requires Agree(s, d)
    ensures Agree(t, InsertAll(d, fields)) && t.history == s.history + fields
    decreases |fields|
  {
    hide Agree, Insert, Evict;
    if fields == [] {
      t := s;
      assert s.history + fields == s.history;
    } else {
      InsertAgrees(s, d, fields[0]);
      t := InsertionsAgree(Inserted(s, fields[0]), Insert(d, fields[0]), fields[1..]);
      assert s.history + [fields[0]] + fields[1..] == s.history + fields;
    }
  }

  /** After any insertions into an empty table, index 62 + k names the k-th most recent of them exactly
      as long as that is in the table. */
  lemma RecentIndex(fields: seq<Field>, k: nat)
    ensures var d := InsertAll(EMPTY, fields);
            && |d.entries| <= |fields|
            && Lookup(d, 62 + k) == if k < |d.entries| then Some(fields[|fields| - 1 - k]) else None
  {
    hide InsertAll, Lookup;
    StartAgrees();
    var t := InsertionsAgree(START, EMPTY, fields);
    assert t.history == fields;
    LookupAgrees(t, InsertAll(EMPTY, fields), 62 + k);
  }

  // ----- representations in every spelling -----

  /** An integer as the sender spelled it, with the flags of its first octet. */
  datatype Int = Int(octets: Octets, value: nat)

  /** The spellings a receiver with 32-bit integers takes: section 5.1, with at most five continuation octets. */
  predicate Spells(i: Int, bits: nat)
    requires 1 <= bits <= 8
  {
    1 <= |i.octets| <= 6 && i.value <= UINT32_MAX && Represents(i.octets, bits, i.value)
  }

  /** A string literal of section 5.2, plain or in the Huffman code. */
  datatype Str = Str(length: Int, raw: Octets, text: Text)

  predicate SpellsText(x: Str) {
    && Spells(x.length, 7) && |x.raw| == x.length.value && |x.text| <= HEADER_LIMIT
    && if x.length.octets[0] < 128 then x.raw == x.text
       else (TableComplete(); Huffman.Encodes(TABLE, Huffman.BitsOf(x.raw), x.text))
  }

  function StrOctets(x: Str): Octets { x.length.octets + x.raw }

  datatype Form =
    | SizeUpdate(size: Int)
    | Indexed(index: Int)
    | Literal(index: Int, name: Option<Str>, value: Str)

  /** Whether a literal is to be inserted; those never to be indexed start with 0001 and are not. */
  predicate Incremental(i: Int) { i.octets != [] && i.octets[0] >= 64 }

  /** Section 6: 001 for a size update, 1 for an index, 01 and 000x for literals. */
  predicate Shaped(f: Form) {
    match f
    case SizeUpdate(n) => Spells(n, 5) && n.octets[0] / 32 == 1
    case Indexed(i) => Spells(i, 7) && i.octets[0] >= 128
    case Literal(i, name, value) =>
      && Spells(i, if Incremental(i) then 6 else 4) && i.octets[0] < 128 && i.octets[0] / 32 != 1
      && (name.Some? <==> i.value == 0) && (name.Some? ==> SpellsText(name.value)) && SpellsText(value)
  }

  function FormOctets(f: Form): Octets {
    match f
    case SizeUpdate(n) => n.octets
    case Indexed(i) => i.octets
    case Literal(i, name, value) => i.octets + (if name.Some? then StrOctets(name.value) else []) + StrOctets(value)
  }

  /** What a form says to whoever knows the history: none when it is not allowed there. */
  function Meaning(s: Sender, f: Form, saw: bool): Option<Item>
    requires Kept(s)
  {
    match f
    case SizeUpdate(n) => if saw || n.value > TABLE_LIMIT then None else Some(Update(n.value))
    case Indexed(i) =>
      (match FieldAt(s, i.value)
       case None => None
       case Some(field) => Some(Header(field, false)))
    case Literal(i, name, value) =>
      if name.Some? then Some(Header(Field(name.value.text, value.text), Incremental(i)))
      else match FieldAt(s, i.value)
        case None => None
        case Some(field) => Some(Header(Field(field.name, value.text), Incremental(i)))
  }

  /** The record after an item. */
  function Follow(s: Sender, item: Item): (t: Sender)
    requires Kept(s)
    ensures Kept(t)
  {
    match item
    case Update(n) => Resized(s, n)
    case Header(f, indexed) => if indexed then Inserted(s, f) else s
  }

  lemma FollowAgrees(s: Sender, d: Dynamic, item: Item)
    requires Agree(s, d)
    ensures Agree(Follow(s, item), Apply(d, item))
  {
    hide Agree, Inserted, Resized, Insert, Resize;
    match item {
      case Update(n) => ResizeAgrees(s, d, n);
      case Header(f, indexed) => InsertAgrees(s, d, f);
    }
  }

  // ----- reading strings and integers in front of others -----

  lemma IntRead(i: Int, bits: nat, rest: Octets)
    requires 1 <= bits <= 8 && Spells(i, bits)
    ensures Decode(i.octets + rest, bits) == Some((i.value, |i.octets|)) && (i.octets + rest)[0] == i.octets[0]
  {
    assert (i.octets + rest)[..|i.octets|] == i.octets;
    DecodeExact(i.octets + rest, bits, i.value, |i.octets|);
    hide Represents, Decode;
  }

  lemma IntFound(o: Octets, bits: nat) returns (i: Int)
    requires 1 <= bits <= 8 && Decode(o, bits).Some?
    ensures Spells(i, bits) && i.octets <= o && Decode(o, bits) == Some((i.value, |i.octets|)) && o[0] == i.octets[0]
  {
    var (value, count) := Decode(o, bits).value;
    DecodeExact(o, bits, value, count);
    i := Int(o[..count], value);
    hide Represents, Decode;
  }

  lemma UnpackExact(raw: Octets, huffman: bool, text: Text)
    ensures Unpacked(raw, huffman) == Some(text) <==>
              if huffman then (TableComplete(); Huffman.Encodes(TABLE, Huffman.BitsOf(raw), text)) else raw == text
  {
    hide TABLE, Huffman.Complete, Huffman.Decode, Huffman.Encodes, Huffman.BitsOf;
    TableComplete();
    Huffman.DecodeExact(TABLE, Huffman.BitsOf(raw), text);
  }

  lemma StrRead(x: Str, rest: Octets)
    requires SpellsText(x)
    ensures ReadString(StrOctets(x) + rest) == Some((x.text, |StrOctets(x)|))
  {
    var o := StrOctets(x) + rest;
    var n := |x.length.octets|;
    assert o == x.length.octets + (x.raw + rest);
    IntRead(x.length, 7, x.raw + rest);
    assert o[n..n + |x.raw|] == x.raw;
    UnpackExact(x.raw, x.length.octets[0] >= 128, x.text);
    hide Spells, Decode, Unpacked, Huffman.Encodes, Huffman.BitsOf, TABLE;
  }

  lemma StrFound(o: Octets) returns (x: Str)
    requires ReadString(o).Some?
    ensures SpellsText(x) && StrOctets(x) <= o && ReadString(o) == Some((x.text, |StrOctets(x)|))
  {
    var i := IntFound(o, 7);
    var raw := o[|i.octets|..|i.octets| + i.value];
    var text := ReadString(o).value.0;
    x := Str(i, raw, text);
    UnpackExact(raw, o[0] >= 128, text);
    hide Spells, Decode, Unpacked, Huffman.Encodes, Huffman.BitsOf, TABLE;
    assert StrOctets(x) == o[..|i.octets| + i.value];
  }

  // ----- one representation -----

  /** Whatever the spelling, a form is read as what it means to its sender. */
  lemma FormRead(s: Sender, d: Dynamic, f: Form, rest: Octets, saw: bool)
    requires Agree(s, d) && Shaped(f) && Meaning(s, f, saw).Some?
    ensures FormOctets(f) != []
        && Read(d, FormOctets(f) + rest, saw) == Some((Meaning(s, f, saw).value, |FormOctets(f)|))
  {
    hide Agree, Lookup, FieldAt, Spells, SpellsText, ReadString, Decode;
    match f {
      case SizeUpdate(n) =>
        IntRead(n, 5, rest);
        FirstOctet(n, 5);
      case Indexed(i) =>
        IntRead(i, 7, rest);
        FirstOctet(i, 7);
        LookupAgrees(s, d, i.value);
      case Literal(i, name, value) => LiteralRead(s, d, f, rest, saw);
    }
  }

  lemma FirstOctet(i: Int, bits: nat)
    requires 1 <= bits <= 8 && Spells(i, bits)
    ensures |i.octets| >= 1
  {
  }

  lemma LiteralRead(s: Sender, d: Dynamic, f: Form, rest: Octets, saw: bool)
    requires Agree(s, d) && f.Literal? && Shaped(f) && Meaning(s, f, saw).Some?
    ensures FormOctets(f) != []
        && Read(d, FormOctets(f) + rest, saw) == Some((Meaning(s, f, saw).value, |FormOctets(f)|))
  {
    hide Agree, Lookup, FieldAt, Spells, SpellsText, ReadString, Decode;
    var i, name, value := f.index, f.name, f.value;
    var bits := if Incremental(i) then 6 else 4;
    FirstOctet(i, bits);
    var middle: Octets := if name.Some? then StrOctets(name.value) else [];
    var o := FormOctets(f) + rest;
    assert o == i.octets + (middle + StrOctets(value) + rest);
    IntRead(i, bits, middle + StrOctets(value) + rest);
    var n := |i.octets|;
    assert o[n..] == middle + (StrOctets(value) + rest);
    assert o[n + |middle|..] == StrOctets(value) + rest;
    StrRead(value, rest);
    if name.Some? {
      StrRead(name.value, StrOctets(value) + rest);
    } else {
      LookupAgrees(s, d, i.value);
    }
  }

  /** Whatever is read was a form in some spelling. */
  lemma FormFound(s: Sender, d: Dynamic, o: Octets, saw: bool) returns (f: Form)
    requires Agree(s, d) && o != [] && Read(d, o, saw).Some?
    ensures Shaped(f) && FormOctets(f) <= o && Meaning(s, f, saw) == Some(Read(d, o, saw).value.0)
    ensures |FormOctets(f)| == Read(d, o, saw).value.1
  {
    hide Agree, Lookup, FieldAt, Spells, SpellsText, ReadString, Decode;
    if o[0] / 32 == 1 {
      var n := IntFound(o, 5);
      FirstOctet(n, 5);
      f := SizeUpdate(n);
    } else if o[0] >= 128 {
      var i := IntFound(o, 7);
      FirstOctet(i, 7);
      LookupAgrees(s, d, i.value);
      f := Indexed(i);
    } else {
      f := LiteralFound(s, d, o, saw);
    }
  }

  lemma LiteralFound(s: Sender, d: Dynamic, o: Octets, saw: bool) returns (f: Form)
    requires Agree(s, d) && o != [] && o[0] < 128 && o[0] / 32 != 1 && Read(d, o, saw).Some?
    ensures f.Literal? && Shaped(f) && FormOctets(f) <= o && Meaning(s, f, saw) == Some(Read(d, o, saw).value.0)
    ensures |FormOctets(f)| == Read(d, o, saw).value.1
  {
    hide Agree, Lookup, FieldAt, Spells, SpellsText, ReadString, Decode;
    var bits := if o[0] >= 64 then 6 else 4;
    var i := IntFound(o, bits);
    FirstOctet(i, bits);
    var n := |i.octets|;
    var name: Option<Str> := None;
    var more := 0;
    if i.value == 0 {
      var x := StrFound(o[n..]);
      name, more := Some(x), |StrOctets(x)|;
    } else {
      LookupAgrees(s, d, i.value);
    }
    var value := StrFound(o[n + more..]);
    f := Literal(i, name, value);
    var middle: Octets := if name.Some? then StrOctets(name.value) else [];
    assert o[..n] == i.octets && o[n..n + more] == middle;
    assert o[n + more..n + more + |StrOctets(value)|] == StrOctets(value);
    assert FormOctets(f) == o[..n + more + |StrOctets(value)|];
  }

  // ----- blocks -----

  function FormsOctets(forms: seq<Form>): Octets {
    if forms == [] then [] else FormOctets(forms[0]) + FormsOctets(forms[1..])
  }

  datatype Said = Nonsense | Said(sender: Sender, fields: seq<Field>)

  /** What a block says: its fields in order, and the record after it. */
  function BlockMeaning(s: Sender, forms: seq<Form>, saw: bool): (r: Said)
    requires Kept(s)
    ensures r.Said? ==> Kept(r.sender)
    decreases |forms|
  {
    if forms == [] then Said(s, []) else
      match Meaning(s, forms[0], saw)
      case None => Nonsense
      case Some(item) =>
        var rest := BlockMeaning(Follow(s, item), forms[1..], saw || item.Header?);
        if rest.Said? && item.Header? then rest.(fields := [item.field] + rest.fields) else rest
  }

  predicate AllShaped(forms: seq<Form>) { forall i :: 0 <= i < |forms| ==> Shaped(forms[i]) }

  /** A block that makes sense to its sender is decoded to the same fields, and both still agree. */
  lemma {:induction false} BlockRead(s: Sender, d: Dynamic, forms: seq<Form>, saw: bool)
    requires Agree(s, d) && AllShaped(forms) && BlockMeaning(s, forms, saw).Said?
    ensures var r := DecodeBlock(d, FormsOctets(forms), saw); var said := BlockMeaning(s, forms, saw);
            r.Decoded? && r.fields == said.fields && Agree(said.sender, r.table)
    decreases |forms|
  {
    hide Agree, Shaped, FormOctets, Meaning, Follow, Apply, Read;
    if forms != [] {
      var head, rest := FormOctets(forms[0]), FormsOctets(forms[1..]);
      FormRead(s, d, forms[0], rest, saw);
      var item := Meaning(s, forms[0], saw).value;
      assert (head + rest)[|head|..] == rest;
      FollowAgrees(s, d, item);
      BlockRead(Follow(s, item), Apply(d, item), forms[1..], saw || item.Header?);
    }
  }

  /** Every block that is decoded made sense: it is a list of forms, with the fields they mean. */
  lemma {:induction false} BlockFound(s: Sender, d: Dynamic, o: Octets, saw: bool) returns (forms: seq<Form>)
    requires Agree(s, d) && DecodeBlock(d, o, saw).Decoded?
    ensures AllShaped(forms) && FormsOctets(forms) == o && BlockMeaning(s, forms, saw).Said?
    ensures var r := DecodeBlock(d, o, saw); var said := BlockMeaning(s, forms, saw);
            r.fields == said.fields && Agree(said.sender, r.table)
    decreases |o|
  {
    hide Agree, Shaped, FormOctets, Meaning, Follow, Apply, Read;
    if o == [] {
      forms := [];
    } else {
      var f := FormFound(s, d, o, saw);
      var (item, n) := Read(d, o, saw).value;
      FollowAgrees(s, d, item);
      var more := BlockFound(Follow(s, item), Apply(d, item), o[n..], saw || item.Header?);
      forms := [f] + more;
      assert forms[1..] == more && FormOctets(f) == o[..n];
      assert o == o[..n] + o[n..];
    }
  }

  /** The decoder accepts exactly the blocks that make sense in the history, and gives their fields. */
  lemma BlockExact(s: Sender, d: Dynamic, o: Octets, fields: seq<Field>)
    requires Agree(s, d)
    ensures (DecodeBlock(d, o, false).Decoded? && DecodeBlock(d, o, false).fields == fields) <==>
              exists forms :: AllShaped(forms) && FormsOctets(forms) == o && Says(s, forms, fields)
  {
    hide Agree, AllShaped, FormsOctets, BlockMeaning, DecodeBlock;
    if DecodeBlock(d, o, false).Decoded? {
      var forms := BlockFound(s, d, o, false);
      if DecodeBlock(d, o, false).fields == fields { assert Says(s, forms, fields); }
    }
    forall forms | AllShaped(forms) && FormsOctets(forms) == o && Says(s, forms, fields)
      ensures DecodeBlock(d, o, false).Decoded? && DecodeBlock(d, o, false).fields == fields
    {
      BlockRead(s, d, forms, false);
    }
  }

  predicate Says(s: Sender, forms: seq<Form>, fields: seq<Field>)
    requires Kept(s)
  {
    BlockMeaning(s, forms, false).Said? && BlockMeaning(s, forms, false).fields == fields
  }

  /** On a whole connection the table always is what some history leaves in it. */
  lemma {:induction false} BlocksAgree(s: Sender, d: Dynamic, blocks: seq<Octets>) returns (t: Sender)
    requires Agree(s, d)
    ensures Agree(t, DecodeBlocks(d, blocks)) && s.history <= t.history
    decreases |blocks|
  {
    hide Agree, BlockMeaning, DecodeBlock;
    t := s;
    if blocks != [] && DecodeBlock(d, blocks[0], false).Decoded? {
      var forms := BlockFound(s, d, blocks[0], false);
      HistoryGrows(s, forms, false);
      t := BlocksAgree(BlockMeaning(s, forms, false).sender, DecodeBlock(d, blocks[0], false).table, blocks[1..]);
    }
  }

  lemma {:induction false} HistoryGrows(s: Sender, forms: seq<Form>, saw: bool)
    requires Kept(s) && BlockMeaning(s, forms, saw).Said?
    ensures s.history <= BlockMeaning(s, forms, saw).sender.history
    decreases |forms|
  {
    hide Meaning, Evict;
    if forms != [] {
      var item := Meaning(s, forms[0], saw).value;
      HistoryGrows(Follow(s, item), forms[1..], saw || item.Header?);
    }
  }
}
