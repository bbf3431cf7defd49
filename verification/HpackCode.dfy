/** The decoder object of src/hpack.c: 128 slots, of which the first `count` hold the table. */
module HpackCode {
  import opened Bytes
  import opened HpackInteger
  import opened HpackSymbols
  import opened HpackTables
  import opened Hpack
  import opened HpackHistory

  /** Result of core_hpack_decode: -1, -2 or 0. */
  datatype Result = Failed | Invalid | Valid

  /** The header record after a list of fields, and whether one of them was refused. */
  function Emitted<H>(emit: (H, Field) -> (H, bool), blank: H, fields: seq<Field>): (H, bool) {
    if fields == [] then (blank, false) else
      var (headers, invalid) := Emitted(emit, blank, fields[..|fields| - 1]);
      var (after, bad) := emit(headers, fields[|fields| - 1]);
      (after, invalid || bad)
  }

  class Decoder {
    const entries: array<Field>
    var count: nat
    var size: nat
    var maximum: nat
    ghost var sender: Sender

    ghost predicate Sized()
      reads this, entries
    {
      entries.Length == SLOTS && count <= SLOTS && size == Total(entries[..count]) && Bounded(View())
    }

    /** The table is within its bounds, and what the insertions so far leave in it. */
    ghost predicate Valid()
      reads this, entries
    {
      Sized() && Agree(sender, View())
    }

    function View(): Dynamic
      reads this, entries
      requires count <= entries.Length
    {
      Dynamic(entries[..count], maximum)
    }

    constructor ()
      ensures Valid() && View() == EMPTY && fresh(entries) && sender == START
    {
      entries := new Field[SLOTS](_ => Field([], []));
      count, size, maximum := 0, 0, TABLE_LIMIT;
      sender := START;
      new;
      StartAgrees();
    }

    /** evict_to. */
    method EvictTo(limit: nat)
      requires entries.Length == SLOTS && count <= SLOTS && size == Total(entries[..count])
      modifies this`count, this`size
      ensures count <= old(count) && size == Total(entries[..count])
      ensures entries[..count] == Fit(old(entries[..count]), limit)
    {
      ghost var before := entries[..count];
      while count > 0 && size > limit
        invariant count <= old(count) && size == Total(entries[..count])
            && Fit(entries[..count], limit) == Fit(before, limit)
      {
        assert entries[..count][..count - 1] == entries[..count - 1];
        count := count - 1;
        size := size - entries[count].Size();
      }
    }

    /** The entries move up one slot. */
    method MoveUp()
      requires entries.Length == SLOTS && count < SLOTS
      modifies entries
      ensures entries[1..count + 1] == old(entries[..count])
    {
      ghost var kept := entries[..count];
      var i := count;
      while i > 0
        invariant 0 <= i <= count
        invariant forall j :: 0 <= j < i ==> entries[j] == kept[j]
        invariant forall j :: i < j <= count ==> entries[j] == kept[j - 1]
      {
        entries[i] := entries[i - 1];
        i := i - 1;
      }
    }

    /** insert: the oldest entries go, and the newest comes first. */
    method Insert(f: Field)
      requires Valid()
      modifies this`count, this`size, this`sender, entries
      ensures Valid() && View() == Hpack.Insert(old(View()), f) && maximum == old(maximum)
      ensures sender == Inserted(old(sender), f)
    {
      hide Hpack.Insert, Agree, Inserted, Bounded, Total;
      InsertAgrees(sender, View(), f);
      Place(f);
      sender := Inserted(sender, f);
    }

    /** Room is made, and the entry takes the first slot. */
    method Place(f: Field)
      requires Sized()
      modifies this`count, this`size, entries
      ensures Sized() && View() == Hpack.Insert(old(View()), f)
    {
      hide Fit, Total, Bounded;
      KeepsBounded(View(), f, 0);
      if f.Size() > maximum {
        EvictTo(0);
        NothingFits(old(entries[..count]));
        return;
      }
      SlotFree(View(), f);
      EvictTo(maximum - f.Size());
      ghost var kept := entries[..count];
      MoveUp();
      entries[0] := f;
      count := count + 1;
      size := size + f.Size();
      assert entries[..count] == [f] + kept;
      TotalPrepend(f, kept);
    }

    /** lookup: an index beyond the static table names an insertion by how recent it is. */
    method Find(index: nat) returns (ok: bool, f: Field)
      requires Valid()
      ensures FieldAt(sender, index) == Lookup(View(), index) == if ok then Some(f) else None
    {
      hide STATIC, FieldAt;
      LookupAgrees(sender, View(), index);
      ok, f := false, Field([], []);
      if index == 0 { return; }
      if index <= |STATIC| {
        return true, Field(Ascii(STATIC[index - 1].0), Ascii(STATIC[index - 1].1));
      }
      var place := index - |STATIC| - 1;
      if place >= count { return; }
      return true, entries[place];
    }

    /** core_hpack_read_string within read_allocated_string. */
    static method TakeString(block: seq<Byte>, offset: nat) returns (ok: bool, text: Text, next: nat)
      requires offset <= |block|
      ensures ok <==> ReadString(block[offset..]).Some?
      ensures ok ==> offset <= next <= |block| && ReadString(block[offset..]) == Some((text, next - offset))
    {
      hide Unpacked, Decode;
      ok, text, next := false, [], offset;
      if offset >= |block| { return; }
      ghost var s := block[offset..];
      var found, length, used := DecodeInt(block, offset, 7);
      if !found || length > |block| - used { return; }
      assert s[used - offset..used - offset + length] == block[used..used + length] && s[0] == block[offset];
      found, text := Unpack(block[used..used + length], block[offset] >= 128);
      ok := found && |text| <= HEADER_LIMIT;
      next := used + length;
    }

    static method Unpack(raw: seq<Byte>, huffman: bool) returns (ok: bool, text: Text)
      ensures Unpacked(raw, huffman) == if ok then Some(text) else None
    {
      hide SYMBOLS, INDICES, Huffman.Complete, Huffman.Decode;
      TableComplete();
      if huffman {
        var size;
        ok, text, size := Huffman.DecodeHuffman(TABLE, raw, 0);
        if ok {
          ok, text, size := Huffman.DecodeHuffman(TABLE, raw, size + 1);
        }
      } else {
        ok, text := true, raw;
      }
    }

    /** One pass of the loop of core_hpack_decode: the representation at `offset`. */
    method Next(block: seq<Byte>, offset: nat, saw: bool) returns (ok: bool, item: Item, next: nat)
      requires Valid() && offset < |block|
      ensures ok <==> Read(View(), block[offset..], saw).Some?
      ensures ok ==> offset < next <= |block| && Read(View(), block[offset..], saw) == Some((item, next - offset))
    {
      hide ReadString, Decode, Lookup, FieldAt, Bounded, Agree, Total;
      ok, item, next := false, Update(0), offset;
      ghost var s := block[offset..];
      var first := block[offset];
      var index: nat := 0;
      var found := false;
      if first / 32 == 1 {
        found, index, next := DecodeInt(block, offset, 5);
        if saw || !found || index > TABLE_LIMIT { return; }
        return true, Update(index), next;
      }
      if first >= 128 {
        found, index, next := DecodeInt(block, offset, 7);
        if !found { return; }
        var hit, f := Find(index);
        return hit, Header(f, false), next;
      }
      ok, item, next := NextLiteral(block, offset, first >= 64);
    }

    method NextLiteral(block: seq<Byte>, offset: nat, indexed: bool) returns (ok: bool, item: Item, next: nat)
      requires Valid() && offset < |block|
      ensures ok <==> ReadLiteral(View(), block[offset..], indexed).Some?
      ensures ok ==>
          offset < next <= |block| && ReadLiteral(View(), block[offset..], indexed) == Some((item, next - offset))
    {
      hide ReadString, ReadName, Decode, Bounded, Agree, Total;
      ok, item, next := false, Update(0), offset;
      ghost var s := block[offset..];
      var found, index, used := DecodeInt(block, offset, if indexed then 6 else 4);
      if !found { return; }
      Later(block, offset, used);
      var name: Text, after: nat;
      found, name, after := TakeName(block, used, index);
      if !found { return; }
      Later(block, offset, after);
      var value: Text;
      found, value, next := TakeString(block, after);
      if !found { return; }
      return true, Header(Field(name, value), indexed), next;
    }

    /** The name of a literal, indexed or new. */
    method TakeName(block: seq<Byte>, offset: nat, index: nat) returns (ok: bool, name: Text, next: nat)
      requires Valid() && offset <= |block|
      ensures ok <==> ReadName(View(), block[offset..], index).Some?
      ensures ok ==>
          offset <= next <= |block| && ReadName(View(), block[offset..], index) == Some((name, next - offset))
    {
      hide ReadString, Lookup, FieldAt, Bounded, Agree, Total;
      if index > 0 {
        var hit, f := Find(index);
        return hit, f.name, offset;
      }
      ok, name, next := TakeString(block, offset);
    }

    /** core_hpack_decode; `emit` is emit_header, which never stops the loop: what it refuses
        changes the result but not the table.  `memory` is whether the allocations for the literal
        at an offset succeed; nothing else allocates.  The table is valid after a failure, too. */
    method DecodeHeaders<H>(block: seq<Byte>, emit: (H, Field) -> (H, bool), blank: H, memory: nat -> bool)
      returns (result: Result, fields: seq<Field>)
      requires Valid()
      modifies this, entries
      ensures Valid() && (DecodeBlock(old(View()), block, false).Broken? ==> result.Failed?)
      ensures (forall n :: memory(n)) ==> (result.Failed? <==> DecodeBlock(old(View()), block, false).Broken?)
      ensures !result.Failed? ==> DecodeBlock(old(View()), block, false) == Decoded(View(), fields)
      ensures !result.Failed? ==> (result.Invalid? <==> Emitted(emit, blank, fields).1)
    {
      hide Read, Bounded, Hpack.Insert, Resize, DecodeBlock, Joined, Total, Agree, Inserted, Resized;
      var headers, offset, saw, invalid := blank, 0, false, false;
      fields := [];
      ghost var goal := DecodeBlock(View(), block, false);
      assert block[0..] == block;
      JoinedNone(goal);
      while offset < |block|
        invariant offset <= |block| && Valid()
        invariant goal == Joined(fields, DecodeBlock(View(), block[offset..], saw))
        invariant (headers, invalid) == Emitted(emit, blank, fields)
      {
        ghost var rest := block[offset..];
        var ok, item, next := Next(block, offset, saw);
        BlockStep(View(), rest, saw, fields);
        if !ok || (item.Header? && block[offset] < 128 && !memory(offset)) { result := Failed; return; }
        assert rest[next - offset..] == block[next..];
        match item {
          case Update(n) =>
            UpdateBounded(View(), n, rest, saw);
            SetMaximum(n);
          case Header(f, indexed) =>
            saw := true;
            assert (fields + [f])[..|fields|] == fields;
            var (after, bad) := emit(headers, f);
            headers := after;
            invalid := invalid || bad;
            if indexed { Insert(f); }
            fields := fields + [f];
        }
        offset := next;
      }
      assert block[offset..] == [];
      BlockEnd(View(), saw, fields);
      result := if invalid then Invalid else Result.Valid;
    }

    /** A table size update. */
    method SetMaximum(n: nat)
      requires Valid() && n <= TABLE_LIMIT
      modifies this`count, this`size, this`maximum, this`sender
      ensures Valid() && View() == Resize(old(View()), n) && sender == Resized(old(sender), n)
    {
      ResizeAgrees(sender, View(), n);
      sender := Resized(sender, n);
      EvictTo(n);
      maximum := n;
    }
  }

  function Joined(fields: seq<Field>, rest: Outcome): Outcome {
    if rest.Decoded? then rest.(fields := fields + rest.fields) else rest
  }

  lemma JoinedNone(rest: Outcome)
    ensures Joined([], rest) == rest
  {
    if rest.Decoded? { assert [] + rest.fields == rest.fields; }
  }

  lemma BlockEnd(d: Dynamic, saw: bool, fields: seq<Field>)
    ensures Joined(fields, DecodeBlock(d, [], saw)) == Decoded(d, fields)
  {
    assert fields + [] == fields;
  }

  lemma BlockStep(d: Dynamic, s: seq<Byte>, saw: bool, fields: seq<Field>)
    requires s != []
    ensures Joined(fields, DecodeBlock(d, s, saw)) ==
              match Read(d, s, saw)
              case None => Broken
              case Some((item, used)) =>
                Joined(if item.Header? then fields + [item.field]
                    else fields, DecodeBlock(Apply(d, item), s[used..], saw || item.Header?))
  {
    hide Read, Apply;
    if Read(d, s, saw).Some? {
      var (item, used) := Read(d, s, saw).value;
      var rest := DecodeBlock(Apply(d, item), s[used..], saw || item.Header?);
      if item.Header?
          && rest.Decoded? { assert fields + ([item.field] + rest.fields) == fields + [item.field] + rest.fields; }
    }
  }

  lemma NothingFits(entries: seq<Field>)
    ensures Fit(entries, 0) == []
  {
    TotalCount(Fit(entries, 0));
  }

  lemma UpdateBounded(d: Dynamic, n: nat, s: seq<Byte>, saw: bool)
    requires s != [] && Read(d, s, saw).Some? && Read(d, s, saw).value.0 == Update(n)
    ensures n <= TABLE_LIMIT
  {
    hide Read;
  }

  lemma Later(block: seq<Byte>, offset: nat, next: nat)
    requires offset <= next <= |block|
    ensures block[offset..][next - offset..] == block[next..]
  {
  }
}
