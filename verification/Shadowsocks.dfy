/** src/shadowsocks.c: the chunked AEAD stream of SIP004 (and, after its headers, of SIP022).
    Sealing and opening are any pair that fits together. */
module Shadowsocks {
  import opened Arithmetic
  import opened Bytes
  import opened ShadowsocksNonce

  const TAG := 16

  /** A key's seal and open, the nonce length and the largest chunk. */
  datatype Channel = Channel(seal: (Octets, Octets) -> Octets, open: (Octets, Octets) -> Option<Octets>, size: nat,
      maximum: nat)

  ghost predicate Ideal(ch: Channel) {
    && ch.maximum <= 65535
    && (forall n, p :: |ch.seal(n, p)| == |p| + TAG && ch.open(n, ch.seal(n, p)) == Some(p))
    && (forall n, c :: ch.open(n, c).Some? ==> |ch.open(n, c).value| + TAG == |c|)
  }

  /** Lengths are in network order. */
  function Write16(n: nat): (s: Octets)
    requires n <= 65535
    ensures s == Big(n, 2)
  {
    assert Big(n / 256, 1) == Big(n / 256 / 256, 0) + [(n / 256 % 256) as Byte];
    [(n / 256) as Byte, (n % 256) as Byte]
  }

  function Read16(s: Octets): nat
    requires |s| >= 2
  {
    s[0] as nat * 256 + s[1] as nat
  }

  // ----- the stream -----

  function Seal(ch: Channel, v: nat, plain: Octets): Octets { ch.seal(Little(v, ch.size), plain) }

  function Open(ch: Channel, v: nat, cipher: Octets): Option<Octets> { ch.open(Little(v, ch.size), cipher) }

  /** A chunk: its length and its payload, sealed with consecutive nonces. */
  function Chunk(ch: Channel, v: nat, plain: Octets): Octets
    requires |plain| <= 65535
  {
    Seal(ch, v, Write16(|plain|)) + Seal(ch, v + 1, plain)
  }

  predicate Small(ch: Channel, chunks: seq<Octets>) {
    ch.maximum <= 65535 && forall i :: 0 <= i < |chunks| ==> |chunks[i]| <= ch.maximum
  }

  function Stream(ch: Channel, v: nat, chunks: seq<Octets>): Octets
    requires Small(ch, chunks)
    decreases |chunks|
  {
    if chunks == [] then [] else Chunk(ch, v, chunks[0]) + Stream(ch, v + 2, chunks[1..])
  }

  lemma {:induction false} StreamAppend(ch: Channel, v: nat, chunks: seq<Octets>, plain: Octets)
    requires Small(ch, chunks) && |plain| <= ch.maximum
    ensures Small(ch, chunks + [plain])
    ensures Stream(ch, v, chunks + [plain]) == Stream(ch, v, chunks) + Chunk(ch, v + 2 * |chunks|, plain)
    decreases |chunks|
  {
    if chunks == [] {
      assert chunks + [plain] == [plain] && [plain][1..] == [];
      assert Stream(ch, v, [plain]) == Chunk(ch, v, plain) + [];
    } else {
      StreamAppend(ch, v + 2, chunks[1..], plain);
      assert (chunks + [plain])[1..] == chunks[1..] + [plain];
    }
  }

  lemma {:induction false} ConcatAppend(chunks: seq<Octets>, plain: Octets)
    ensures Concat(chunks + [plain]) == Concat(chunks) + plain
  {
    if chunks == [] {
      assert chunks + [plain] == [plain] && [plain][1..] == [] && plain + [] == plain;
    } else {
      ConcatAppend(chunks[1..], plain);
      assert (chunks + [plain])[1..] == chunks[1..] + [plain];
    }
  }

  // ----- writer -----

  /** What a writer has done: nonces used, chunks made, octets put out, and the value of each nonce it sealed with. */
  datatype Log = Log(used: nat, failed: bool, chunks: seq<Octets>, taken: Octets, output: Octets, seals: seq<nat>)

  function Begin(used: nat): Log { Log(used, false, [], [], [], []) }

  /** How much of its input one call takes. */
  function Taken(ch: Channel, length: nat, capacity: nat): nat
    requires capacity > 34
  {
    var most := if length > ch.maximum then ch.maximum else length;
    if most > capacity - 34 then capacity - 34 else most
  }

  /** core_ss_body_encode. */
  function Write(ch: Channel, log: Log, input: Octets, capacity: nat): Log
    requires ch.maximum <= 65535
  {
    if log.failed || input == [] || capacity <= 34 then log
    else if log.used + 2 > Radix(ch.size) then log.(failed := true)
    else
      var plain := input[..Taken(ch, |input|, capacity)];
      Log(log.used + 2, false, log.chunks + [plain], log.taken + plain, log.output + Chunk(ch, log.used, plain),
          log.seals + [log.used, log.used + 1])
  }

  function Writes(ch: Channel, start: nat, calls: seq<(Octets, nat)>): Log
    requires ch.maximum <= 65535
  {
    if calls == [] then Begin(start) else
      Write(ch, Writes(ch, start, calls[..|calls| - 1]), calls[|calls| - 1].0, calls[|calls| - 1].1)
  }

  predicate Faithful(ch: Channel, start: nat, log: Log) {
    && Small(ch, log.chunks) && log.output == Stream(ch, start, log.chunks) && log.taken == Concat(log.chunks)
    && log.used == start + 2 * |log.chunks| && |log.seals| == 2 * |log.chunks|
    && (forall i :: 0 <= i < |log.seals| ==> log.seals[i] == start + i)
    && log.used <= Radix(ch.size)
  }

  /** Over any sequence of writes: what is put out is the stream of the chunks, which together are
      what was taken; the nonces sealed with are consecutive, so strictly increasing, and below
      256^n; and lengths and payloads are sealed in pairs, never a length alone. */
  lemma {:induction false} WritesFaithful(ch: Channel, start: nat, calls: seq<(Octets, nat)>)
    requires ch.maximum <= 65535 && start <= Radix(ch.size)
    ensures var log := Writes(ch, start, calls);
        Faithful(ch, start, log) && forall i :: 0 <= i < |log.seals| ==> log.seals[i] < Radix(ch.size)
  {
    if calls != [] {
      var before := Writes(ch, start, calls[..|calls| - 1]);
      var (input, capacity) := calls[|calls| - 1];
      WritesFaithful(ch, start, calls[..|calls| - 1]);
      var log := Writes(ch, start, calls);
      if |log.chunks| > |before.chunks| {
        var plain := input[..Taken(ch, |input|, capacity)];
        StreamAppend(ch, start, before.chunks, plain);
        ConcatAppend(before.chunks, plain);
      }
    }
  }

  // ----- reader -----

  datatype Stage = Length | Block

  /** `buffer` holds the `used` octets of the `needed` ones, `plain` what is opened and not yet read. */
  datatype Reader = Reader(stage: Stage, buffer: Octets, needed: nat, used: nat, plain: Octets, failed: bool)

  function Fresh(used: nat): Reader { Reader(Length, [], 18, used, [], false) }

  /** core_ss_body_prepare: how many octets the reader asks for. */
  function Wanted(r: Reader): nat {
    if r.failed || r.plain != [] || |r.buffer| > r.needed then 0 else r.needed - |r.buffer|
  }

  /** core_ss_body_commit. */
  function Commit(ch: Channel, r: Reader, octets: Octets): Reader {
    if r.failed || r.plain != [] then r
    else if |octets| > Wanted(r) then r.(failed := true)
    else
      var full := r.(buffer := r.buffer + octets);
      if |full.buffer| < r.needed then full
      else match r.stage
        case Length => OpenLength(ch, full)
        case Block => OpenBlock(ch, full)
  }

  function OpenLength(ch: Channel, r: Reader): Reader {
    if r.used + 2 > Radix(ch.size) then r.(failed := true)
    else match Open(ch, r.used, r.buffer)
      case None => r.(failed := true)
      case Some(header) =>
        if |header| < 2 || Read16(header) > ch.maximum then r.(failed := true, used := r.used + 1)
        else Reader(Block, [], Read16(header) + TAG, r.used + 1, [], false)
  }

  function OpenBlock(ch: Channel, r: Reader): Reader {
    if r.used + 1 > Radix(ch.size) then r.(failed := true)
    else match Open(ch, r.used, r.buffer)
      case None => r.(failed := true)
      case Some(plain) => if plain == [] then Fresh(r.used + 1) else r.(plain := plain, used := r.used + 1)
  }

  /** core_ss_body_read. */
  function Read(r: Reader, capacity: nat): (Reader, Octets) {
    var take := if r.failed then 0 else if |r.plain| > capacity then capacity else |r.plain|;
    if take == 0 then (r, [])
    else if take == |r.plain| then (Fresh(r.used), r.plain)
    else (r.(plain := r.plain[take..]), r.plain[..take])
  }

  /** core_ss_body_eof: the peer may stop here. */
  predicate AtEnd(r: Reader) {
    !r.failed && ((r.stage.Length? && r.buffer == []) || (r.stage.Block? && r.plain != [] && |r.buffer| == r.needed))
  }

  /** Octets arriving in pieces of any size, and reads of any size. */
  datatype Event = Feed(octets: Octets) | Take(capacity: nat)

  /** The reader after some events, the octets fed and the octets read; a piece is no larger than was asked for. */
  datatype Trace = Trace(reader: Reader, fed: Octets, read: Octets)

  function Happen(ch: Channel, t: Trace, e: Event): Trace {
    match e
    case Feed(octets) =>
      var piece := if |octets| > Wanted(t.reader) then octets[..Wanted(t.reader)] else octets;
      Trace(Commit(ch, t.reader, piece), t.fed + piece, t.read)
    case Take(capacity) =>
      var (r, data) := Read(t.reader, capacity);
      Trace(r, t.fed, t.read + data)
  }

  function Events(ch: Channel, start: nat, events: seq<Event>): Trace {
    if events == [] then Trace(Fresh(start), [], []) else
      Happen(ch, Events(ch, start, events[..|events| - 1]), events[|events| - 1])
  }

  /** The reader is in step with a writer whose stream goes on with `rest` and whose remaining
      chunks, the current one included while it is not open, are `left`; it will stop at nonce `last`. */
  ghost predicate InStep(ch: Channel, r: Reader, rest: Octets, left: seq<Octets>, last: nat) {
    && Small(ch, left) && !r.failed && last <= Radix(ch.size)
    && match r.stage
       case Length =>
         && r.plain == [] && r.needed == 18 && |r.buffer| < 18
         && r.used + 2 * |left| == last && r.buffer + rest == Stream(ch, r.used, left)
       case Block =>
         if r.plain == [] then
           && left != [] && r.needed == |left[0]| + TAG && |r.buffer| < r.needed && r.used >= 1
           && r.used + 2 * |left| - 1 == last
               && r.buffer + rest == Seal(ch, r.used, left[0]) + Stream(ch, r.used + 1, left[1..])
         else
           && |r.buffer| == r.needed
           && r.used + 2 * |left| == last && rest == Stream(ch, r.used, left)
  }

  lemma ReadWrite16(n: nat)
    requires n <= 65535
    ensures Read16(Write16(n)) == n
  {
  }

  /** A piece that does not complete what is needed. */
  lemma FeedPart(ch: Channel, r: Reader, piece: Octets, rest: Octets, left: seq<Octets>, last: nat)
    requires InStep(ch, r, piece + rest, left, last) && r.plain == [] && |r.buffer| + |piece| < r.needed
    ensures InStep(ch, Commit(ch, r, piece), rest, left, last)
  {
    assert r.buffer + (piece + rest) == (r.buffer + piece) + rest;
  }

  lemma PrefixOf(a: Octets, b: Octets, c: Octets, d: Octets)
    requires a + b == c + d && |a| == |c|
    ensures a == c && b == d
  {
    assert a == (a + b)[..|a|] && c == (c + d)[..|c|];
    assert b == (a + b)[|a|..] && d == (c + d)[|c|..];
  }

  /** The last piece of a length. */
  lemma FeedLength(ch: Channel, r: Reader, piece: Octets, rest: Octets, left: seq<Octets>, last: nat)
    requires Ideal(ch) && InStep(ch, r, piece + rest, left, last) && r.stage.Length? && |r.buffer| + |piece| == 18
    ensures InStep(ch, Commit(ch, r, piece), rest, left, last)
  {
    var full := r.buffer + piece;
    assert r.buffer + (piece + rest) == full + rest && |full| == 18;
    if left != [] {
      var head := Seal(ch, r.used, Write16(|left[0]|));
      var tail := Seal(ch, r.used + 1, left[0]) + Stream(ch, r.used + 2, left[1..]);
      assert full + rest == head + tail;
      PrefixOf(full, rest, head, tail);
      ReadWrite16(|left[0]|);
      hide Stream;
    }
  }

  /** The last piece of a payload. */
  lemma FeedBlock(ch: Channel, r: Reader, piece: Octets, rest: Octets, left: seq<Octets>, last: nat)
    requires Ideal(ch) && InStep(ch, r, piece + rest, left, last) && r.stage.Block? && r.plain == []
        && |r.buffer| + |piece| == r.needed
    ensures InStep(ch, Commit(ch, r, piece), rest, left[1..], last)
    ensures Commit(ch, r, piece).plain == left[0]
  {
    var full := r.buffer + piece;
    assert r.buffer + (piece + rest) == full + rest;
    PrefixOf(full, rest, Seal(ch, r.used, left[0]), Stream(ch, r.used + 1, left[1..]));
    hide Stream;
    assert [] + rest == rest;
  }

  lemma TakeInStep(ch: Channel, r: Reader, capacity: nat, rest: Octets, left: seq<Octets>, last: nat)
    requires InStep(ch, r, rest, left, last)
    ensures var (q, data) := Read(r, capacity); InStep(ch, q, rest, left, last) && data + q.plain == r.plain
  {
    hide Stream;
    assert [] + rest == rest;
    var take := if |r.plain| > capacity then capacity else |r.plain|;
    assert r.plain[..take] + r.plain[take..] == r.plain;
  }

  /** The chunks the reader has not opened yet, once it has been fed the first `n` octets of a stream. */
  ghost predicate Following(ch: Channel, t: Trace, stream: Octets, message: Octets, left: seq<Octets>, last: nat) {
    && t.fed <= stream && InStep(ch, t.reader, stream[|t.fed|..], left, last)
    && t.read + t.reader.plain + Concat(left) == message
  }

  lemma HappenFollowing(ch: Channel, t: Trace, e: Event, stream: Octets, message: Octets, left: seq<Octets>, last: nat)
      returns (after: seq<Octets>)
    requires Ideal(ch) && Following(ch, t, stream, message, left, last) && Happen(ch, t, e).fed <= stream
    ensures Following(ch, Happen(ch, t, e), stream, message, after, last)
    ensures after == left || (left != [] && after == left[1..])
  {
    hide InStep, Concat, Commit, Read, Wanted;
    var q := Happen(ch, t, e);
    var r := t.reader;
    after := left;
    match e {
      case Take(capacity) =>
        TakeInStep(ch, r, capacity, stream[|t.fed|..], left, last);
        var (_, data) := Read(r, capacity);
        assert t.read + r.plain + Concat(left) == (t.read + data) + q.reader.plain + Concat(left);
      case Feed(octets) =>
        var piece := if |octets| > Wanted(r) then octets[..Wanted(r)] else octets;
        var rest := stream[|q.fed|..];
        assert stream[|t.fed|..] == piece + rest by {
          assert q.fed == t.fed + piece && stream == q.fed + rest && stream == t.fed + stream[|t.fed|..];
        }
        after := FeedFollows(ch, t, piece, rest, message, left, last);
    }
  }

  lemma FeedFollows(ch: Channel, t: Trace, piece: Octets, rest: Octets, message: Octets, left: seq<Octets>, last: nat)
      returns (after: seq<Octets>)
    requires Ideal(ch) && InStep(ch, t.reader, piece + rest, left, last) && |piece| <= Wanted(t.reader)
    requires t.read + t.reader.plain + Concat(left) == message
    ensures InStep(ch, Commit(ch, t.reader, piece), rest, after, last)
    ensures t.read + Commit(ch, t.reader, piece).plain + Concat(after) == message
    ensures after == left || (left != [] && after == left[1..])
  {
    var r := t.reader;
    after := left;
    if r.plain != [] {
      assert piece + rest == rest;
    } else if |r.buffer| + |piece| < r.needed {
      FeedPart(ch, r, piece, rest, left, last);
    } else if r.stage.Length? {
      FeedLength(ch, r, piece, rest, left, last);
    } else {
      FeedBlock(ch, r, piece, rest, left, last);
      after := left[1..];
      hide InStep, Commit;
      assert t.read + [] + (left[0] + Concat(left[1..])) == t.read + left[0] + Concat(left[1..]);
    }
  }

  /** A reader that starts at the length stage with the writer's nonce follows it through any cuts and reads. */
  lemma {:induction false} EventsFollow(ch: Channel, start: nat, chunks: seq<Octets>, events: seq<Event>)
      returns (left: seq<Octets>)
    requires Ideal(ch) && Small(ch, chunks) && start + 2 * |chunks| <= Radix(ch.size)
    requires Events(ch, start, events).fed <= Stream(ch, start, chunks)
    ensures Following(ch, Events(ch, start, events), Stream(ch, start, chunks), Concat(chunks), left,
        start + 2 * |chunks|)
    ensures |left| <= |chunks| && left == chunks[|chunks| - |left|..]
    decreases |events|
  {
    var stream := Stream(ch, start, chunks);
    if events == [] {
      left := chunks;
      assert [] + stream == stream && stream[0..] == stream && [] + [] + Concat(chunks) == Concat(chunks);
    } else {
      var before := Events(ch, start, events[..|events| - 1]);
      FedGrows(ch, before, events[|events| - 1]);
      left := EventsFollow(ch, start, chunks, events[..|events| - 1]);
      hide Following, Stream;
      left := HappenFollowing(ch, before, events[|events| - 1], stream, Concat(chunks), left, start + 2 * |chunks|);
    }
  }

  // ----- where the peer may stop -----

  lemma {:induction false} StreamSplit(ch: Channel, v: nat, chunks: seq<Octets>, k: nat)
    requires Small(ch, chunks) && k <= |chunks|
    ensures Small(ch, chunks[..k]) && Small(ch, chunks[k..])
    ensures Stream(ch, v, chunks) == Stream(ch, v, chunks[..k]) + Stream(ch, v + 2 * k, chunks[k..])
    decreases k
  {
    if k == 0 {
      assert chunks[0..] == chunks && chunks[..0] == [];
      var all := Stream(ch, v, chunks);
      assert [] + all == all;
    } else {
      StreamSplit(ch, v + 2, chunks[1..], k - 1);
      assert chunks[..k][1..] == chunks[1..][..k - 1] && chunks[k..] == chunks[1..][k - 1..];
      var head, mid, rest := Chunk(ch, v, chunks[0]), Stream(ch, v + 2, chunks[1..][..k - 1]),
          Stream(ch, v + 2 * k, chunks[k..]);
      assert head + (mid + rest) == (head + mid) + rest;
    }
  }

  /** Two cuts between chunks are at least a whole chunk apart. */
  lemma CutsApart(ch: Channel, v: nat, chunks: seq<Octets>, j: nat, k: nat)
    requires Ideal(ch) && Small(ch, chunks) && j < k <= |chunks|
    ensures Small(ch, chunks[..j]) && Small(ch, chunks[..k])
    ensures |Stream(ch, v, chunks[..j])| + |chunks[j]| + 34 <= |Stream(ch, v, chunks[..k])|
  {
    StreamSplit(ch, v, chunks[..k], j);
    assert chunks[..k][..j] == chunks[..j];
    var more := chunks[..k][j..];
    assert more != [] && more[0] == chunks[j];
  }

  /** How many octets of the chunk it is in the reader has taken; 0 between chunks. */
  function Offset(r: Reader): nat {
    if r.stage.Length? then |r.buffer| else if r.plain != [] then 0 else 18 + |r.buffer|
  }

  lemma OffsetIs(ch: Channel, r: Reader, rest: Octets, left: seq<Octets>, last: nat)
    requires Ideal(ch) && InStep(ch, r, rest, left, last)
    ensures 2 * |left| <= last && |rest| + Offset(r) == |Stream(ch, last - 2 * |left|, left)|
    ensures Offset(r) > 0 ==> left != [] && Offset(r) < |left[0]| + 34
    ensures AtEnd(r) <==> Offset(r) == 0
  {
    if left == [] {
      assert Stream(ch, last, left) == [];
    } else {
      var v := last - 2 * |left|;
      var head, tail := Chunk(ch, v, left[0]), Stream(ch, v + 2, left[1..]);
      assert Stream(ch, v, left) == head + tail && |head| == 34 + |left[0]|;
      hide Stream;
    }
  }

  /** The octets fed are the whole chunks that are no longer left, and the part of the next. */
  lemma FedIs(ch: Channel, start: nat, t: Trace, chunks: seq<Octets>, left: seq<Octets>)
    requires Ideal(ch) && Small(ch, chunks) && |left| <= |chunks| && left == chunks[|chunks| - |left|..]
    requires Following(ch, t, Stream(ch, start, chunks), Concat(chunks), left, start + 2 * |chunks|)
    ensures var k := |chunks| - |left|;
            && Small(ch, chunks[..k]) && |t.fed| == |Stream(ch, start, chunks[..k])| + Offset(t.reader)
            && (Offset(t.reader) > 0 ==> left != [] && Offset(t.reader) < |left[0]| + 34)
            && (AtEnd(t.reader) <==> Offset(t.reader) == 0)
  {
    hide Concat, Stream, InStep, AtEnd, Offset;
    var k := |chunks| - |left|;
    StreamSplit(ch, start, chunks, k);
    OffsetIs(ch, t.reader, Stream(ch, start, chunks)[|t.fed|..], left, start + 2 * |chunks|);
  }

  /** For every run of events on a writer's stream: the end of the input is accepted exactly if the
      octets fed end between two chunks, so a stream that is cut inside a chunk is noticed. */
  lemma EndExact(ch: Channel, start: nat, chunks: seq<Octets>, events: seq<Event>)
    requires Ideal(ch) && Small(ch, chunks) && start + 2 * |chunks| <= Radix(ch.size)
    requires Events(ch, start, events).fed <= Stream(ch, start, chunks)
    ensures var t := Events(ch, start, events);
            AtEnd(t.reader) <==> exists k :: 0 <= k <= |chunks| && Cut(ch, start, chunks, k, t.fed)
  {
    hide Events, Following, Stream, AtEnd;
    var t := Events(ch, start, events);
    var left := EventsFollow(ch, start, chunks, events);
    FedIs(ch, start, t, chunks, left);
    var k := |chunks| - |left|;
    StreamSplit(ch, start, chunks, k);
    if Offset(t.reader) == 0 {
      assert t.fed == Stream(ch, start, chunks)[..|t.fed|];
      assert Cut(ch, start, chunks, k, t.fed);
    } else {
      forall j | 0 <= j <= |chunks| ensures !Cut(ch, start, chunks, j, t.fed) {
        if j < k { CutsApart(ch, start, chunks, j, k); }
        if k < j { CutsApart(ch, start, chunks, k, j); }
      }
    }
  }

  /** The octets are those of the first `k` chunks. */
  predicate Cut(ch: Channel, start: nat, chunks: seq<Octets>, k: nat, fed: Octets)
    requires Small(ch, chunks) && k <= |chunks|
  {
    Small(ch, chunks[..k]) && fed == Stream(ch, start, chunks[..k])
  }

  lemma FedGrows(ch: Channel, t: Trace, e: Event)
    ensures t.fed <= Happen(ch, t, e).fed
  {
  }

  lemma FollowingRead(ch: Channel, t: Trace, stream: Octets, message: Octets, left: seq<Octets>, last: nat)
    requires Following(ch, t, stream, message, left, last)
    ensures !t.reader.failed && t.read <= message && (t.reader.plain == [] && left == [] ==> t.read == message)
  {
    assert message == t.read + (t.reader.plain + Concat(left));
    hide InStep;
  }

  /** Whatever was written, and however the octets are cut into pieces and the result into reads:
      the reader does not fail and returns the beginning of what was written; once it has been fed
      everything and nothing opened is left unread, it has returned all of it, its nonce is the
      writer's; and it is at a place where the peer may stop exactly if the octets fed end between chunks. */
  lemma WriterToReader(ch: Channel, start: nat, calls: seq<(Octets, nat)>, events: seq<Event>)
    requires Ideal(ch) && start <= Radix(ch.size)
    requires Events(ch, start, events).fed <= Writes(ch, start, calls).output
    ensures var log := Writes(ch, start, calls); var t := Events(ch, start, events);
            && !t.reader.failed && t.read <= log.taken && Small(ch, log.chunks)
            && (AtEnd(t.reader) <==> exists k :: 0 <= k <= |log.chunks| && Cut(ch, start, log.chunks, k, t.fed))
            && (t.fed == log.output && t.reader.plain == [] ==>
                t.read == log.taken && t.reader.used == log.used && AtEnd(t.reader))
  {
    WritesFaithful(ch, start, calls);
    hide Events, Writes, Following, Stream, Concat;
    var log := Writes(ch, start, calls);
    var t := Events(ch, start, events);
    EndExact(ch, start, log.chunks, events);
    var left := EventsFollow(ch, start, log.chunks, events);
    FollowingRead(ch, t, log.output, log.taken, left, log.used);
    if t.fed == log.output && t.reader.plain == [] {
      Finished(ch, start, t, log.chunks, left);
    }
  }

  lemma StreamLong(ch: Channel, v: nat, chunks: seq<Octets>)
    requires Ideal(ch) && Small(ch, chunks) && chunks != []
    ensures |Stream(ch, v, chunks)| >= 34
  {
  }

  lemma Finished(ch: Channel, start: nat, t: Trace, chunks: seq<Octets>, left: seq<Octets>)
    requires Ideal(ch) && Small(ch, chunks) && t.fed == Stream(ch, start, chunks) && t.reader.plain == []
    requires Following(ch, t, Stream(ch, start, chunks), Concat(chunks), left, start + 2 * |chunks|)
    ensures left == [] && t.reader.used == start + 2 * |chunks| && AtEnd(t.reader)
  {
    var r := t.reader;
    var rest := Stream(ch, start, chunks)[|t.fed|..];
    assert rest == [] && r.buffer + rest == r.buffer;
    if left != [] && r.stage.Length? { StreamLong(ch, r.used, left); }
  }
}
