/** grpc_pool_read of src/tls_http2.c: the decoder between the cache of received octets and the
    cache of decoded ones, and whole streams read through it. */
module GrpcReader {
  import opened Bytes
  import opened HpackInteger
  import opened Grpc
  import opened GrpcCode
  import opened GrpcMessage

  /** What one read tells its caller: an error, octets, nothing yet, or the end of the stream. */
  datatype Answer = Error | Data | Again | End

  datatype Filling = Failing | Filled | Empty

  class Reader {
    const decoder: Decoding
    var net: Octets
    var app: Octets
    var failed: bool
    ghost var fed: Octets
    ghost var decoded: Octets
    ghost var taken: Octets

    /** What was fed is decoded up to the octets in `net`; what decoding it delivers was taken by the
        reader, is in `app`, or is left in a message that is ready. */
    ghost predicate Valid()
      reads this, decoder
    {
      && decoder.Valid() && failed == decoder.failed && decoded <= fed
      && Run(Fresh(decoder.multi), decoded) == (decoder.Now(), taken + app + decoder.Unread())
      && (if failed then app == [] else fed == decoded + net)
    }

    constructor (multi: bool)
      ensures Valid() && fresh(decoder) && decoder.multi == multi && !failed && fed == [] && taken == []
    {
      decoder := new Decoding(multi);
      net, app, failed, fed, decoded, taken := [], [], false, [], [], [];
      new;
      RunNothing(Fresh(multi));
      assert taken + app + decoder.Unread() == [];
    }

    /** A ready message is moved on, 8192 octets at a time. */
    method TakeReady()
      requires Valid() && app == [] && decoder.ready
      modifies this`app, decoder
      ensures Valid() && decoder.failed == old(decoder.failed) && (decoder.ready ==> app != [])
    {
      hide Run, Sound;
      app := decoder.Read(8192);
      assert taken + app + decoder.Unread() == taken + (app + decoder.Unread());
      assert taken + [] == taken;
    }

    /** Some octets of `net` are decoded. */
    method DecodeNet(room: nat) returns (refused: bool)
      requires Valid() && app == [] && !failed && !decoder.ready && net != []
      modifies this`app, this`net, this`failed, this`decoded, decoder
      ensures refused ==> !decoder.multi && room < MESSAGE_LIMIT
      ensures !refused ==> Valid() && (!failed ==> |net| < old(|net|))
    {
      hide Run, Sound;
      ghost var before := decoder.Now();
      var result, consumed, payload;
      result, consumed, payload, refused := decoder.Decode(net, room);
      if refused {
        failed := true;
        return;
      }
      Decoded(before, decoded, net[..consumed]);
      assert decoded + net == decoded + net[..consumed] + net[consumed..];
      assert taken + [] == taken;
      assert taken + [] + (payload + decoder.Unread()) == taken + payload + decoder.Unread();
      decoded := decoded + net[..consumed];
      if result == Failed {
        failed := true;
      } else {
        app := payload;
        net := net[consumed..];
      }
    }

    lemma Decoded(before: Decoder, done: Octets, more: Octets)
      requires Run(Fresh(decoder.multi), done).0 == before
      ensures Grpc.Sound(before)
      ensures Run(Fresh(decoder.multi), done + more) ==
          (Run(before, more).0, Run(Fresh(decoder.multi), done).1 + Run(before, more).1)
    {
      RunConcat(Fresh(decoder.multi), done, more);
    }

    /** grpc_fill_app_cache; `room` is what the shared reservation allows at each call of the decoder. */
    method Fill(room: nat -> nat) returns (r: Filling, refused: bool)
      requires Valid()
      modifies this`app, this`net, this`failed, this`decoded, decoder
      ensures refused ==> !decoder.multi && exists n :: room(n) < MESSAGE_LIMIT
      ensures !refused ==> Valid() && (r.Failing? ==> failed) && (r.Filled? ==> app != [])
      ensures !refused ==> (r.Empty? ==> app == [] && !failed && net == [] && !decoder.ready)
    {
      hide Run, Sound;
      refused := false;
      while app == []
        invariant Valid()
        decreases |net|
      {
        if decoder.ready {
          TakeReady();
          if app != [] { return Filled, false; }
        }
        if failed { return Failing, false; }
        if net == [] { return Empty, false; }
        refused := DecodeNet(room(|net|));
        if refused { return Failing, true; }
        if failed { return Failing, false; }
      }
      return Filled, false;
    }

    /** grpc_feed_data before it fills: more octets have come. */
    method Feed(data: Octets)
      requires Valid() && !failed
      modifies this`net, this`fed
      ensures Valid() && fed == old(fed) + data
    {
      hide Run, Sound;
      net := net + data;
      fed := fed + data;
      assert decoded + net == fed;
    }

    /** The front of `app` is handed out. */
    method HandOut(capacity: nat) returns (output: Octets)
      requires Valid() && capacity > 0 && app != []
      modifies this`app, this`taken
      ensures Valid() && output != [] && |output| <= capacity && taken == old(taken) + output
    {
      hide Run, Sound;
      var take := if |app| < capacity then |app| else capacity;
      output := app[..take];
      assert taken + app + decoder.Unread() == (taken + output) + app[take..] + decoder.Unread();
      app := app[take..];
      taken := taken + output;
    }

    /** Everything that was fed is decoded, and everything decoded was taken. */
    ghost predicate Drained()
      reads this, decoder
    {
      fed == decoded && app == [] && decoder.Unread() == []
    }

    /** grpc_pool_read; `input` is what the pool has received, nothing at the end of the stream. */
    method Read(capacity: nat, input: Octets, room: nat -> nat)
        returns (answer: Answer, output: Octets, used: bool, refused: bool)
      requires Valid() && capacity > 0
      modifies this, decoder
      ensures refused ==> !decoder.multi && exists n :: room(n) < MESSAGE_LIMIT
      ensures !refused ==> Valid() && taken == old(taken) + output && fed == old(fed) + if used then input else []
      ensures !refused ==> (used ==> input != []) && (answer.Error? || answer.End? ==> output == [])
      ensures !refused && !used ==> !answer.Again? && (answer.Data? ==> output != [])
      ensures !refused && answer.Error? ==> failed || (input == [] && Drained() && decoder.header != [])
      ensures !refused && answer.End? ==> !failed && input == [] && Drained() && decoder.header == []
    {
      hide Run, Sound;
      output, used, refused := [], false, false;
      assert fed + [] == fed && taken + [] == taken;
      if app == [] {
        var filling;
        filling, refused := Fill(room);
        if refused || filling.Failing? { return Error, [], false, refused; }
        if filling.Empty? {
          if input == [] {
            assert decoded + net == decoded;
            return if decoder.header == [] then End else Error, [], false, false;
          }
          Feed(input);
          used := true;
          filling, refused := Fill(room);
          if refused || filling.Failing? { return Error, [], true, refused; }
          if app == [] { return Again, [], true, false; }
        }
      }
      output := HandOut(capacity);
      answer := Data;
    }
  }

  /** Octets that do not break the decoder now do not change what it has delivered. */
  lemma TakenWithin(multi: bool, fed: Octets, decoded: Octets, taken: Octets)
    requires decoded <= fed && taken <= Run(Fresh(multi), decoded).1
    ensures taken <= Run(Fresh(multi), fed).1
  {
    hide Run;
    assert fed == decoded + fed[|decoded|..];
    RunConcat(Fresh(multi), decoded, fed[|decoded|..]);
  }

  /** Once broken, the decoder delivers nothing more. */
  lemma BrokenFor(multi: bool, decoded: Octets, all: Octets)
    requires decoded <= all && Run(Fresh(multi), decoded).0.Broken?
    ensures Run(Fresh(multi), all) == Run(Fresh(multi), decoded)
  {
    hide Run;
    var rest := all[|decoded|..];
    assert all == decoded + rest;
    RunConcat(Fresh(multi), decoded, rest);
    BrokenStays(rest);
    var out := Run(Fresh(multi), decoded).1;
    assert out + [] == out;
  }

  /** A stream is accepted when it breaks no rule and ends between two messages. */
  predicate Accepted(multi: bool, s: Octets) {
    var d := Run(Fresh(multi), s).0;
    d.Decoder? && d.header == []
  }

  /** The streams that are accepted are the lists of messages. */
  lemma AcceptedExact(multi: bool, s: Octets)
    ensures Accepted(multi, s) <==> exists messages :: Carries(messages, s)
    ensures forall messages :: Carries(messages, s) ==> Run(Fresh(multi), s).1 == Deliveries(multi, messages)
  {
    hide Run, Carries, Deliveries, Grpc.Sound;
    StreamExact(Fresh(multi), s);
    AcceptedIdle(multi, s);
  }

  lemma AcceptedIdle(multi: bool, s: Octets)
    ensures Accepted(multi, s) <==> Idle(Run(Fresh(multi), s).0, multi)
  {
    hide Run, Grpc.Sound;
    ModeRun(Fresh(multi), s);
  }

  lemma {:induction false} ModeRun(d: Decoder, s: Octets)
    requires Grpc.Sound(d) && d.Decoder?
    ensures Run(d, s).0.Decoder? ==> Run(d, s).0.multi == d.multi
    decreases |s|
  {
    hide Run, Grpc.Sound, Step;
    if s == [] {
      RunNothing(d);
    } else {
      RunStep(d, s);
      ModeStep(d, s[0]);
      if Step(d, s[0]).0.Decoder? { ModeRun(Step(d, s[0]).0, s[1..]); } else { BrokenStays(s[1..]); }
    }
  }

  lemma ModeStep(d: Decoder, b: Byte)
    requires Grpc.Sound(d) && d.Decoder?
    ensures Step(d, b).0.Decoder? ==> Step(d, b).0.multi == d.multi
  {
    hide Power, Big32;
  }

  lemma {:induction false} ConcatFront(pieces: seq<Octets>, k: nat)
    requires k < |pieces|
    ensures Concat(pieces[..k + 1]) == Concat(pieces[..k]) + pieces[k]
    ensures Concat(pieces[..k]) <= Concat(pieces)
    decreases k
  {
    if k == 0 {
      assert pieces[..1] == [pieces[0]] && pieces[..0] == [];
      assert Concat([pieces[0]][1..]) == [];
    } else {
      ConcatFront(pieces[1..], k - 1);
      assert pieces[..k + 1][1..] == pieces[1..][..k] && pieces[..k][1..] == pieces[1..][..k - 1];
      assert pieces[0] + (Concat(pieces[1..][..k - 1]) + pieces[k]) ==
          pieces[0] + Concat(pieces[1..][..k - 1]) + pieces[k];
    }
  }

  /** A whole stream, in any pieces and with reads of any capacities: what is delivered is what the
      octets one by one deliver, and the stream is accepted exactly when they are, that is when it is a
      list of messages.  Only the shared reservation can refuse more, and never in multi mode. */
  method Receive(multi: bool, pieces: seq<Octets>, capacity: nat -> nat, room: nat -> nat)
      returns (ok: bool, delivered: Octets, refused: bool)
    requires forall n :: capacity(n) > 0
    ensures refused ==> !multi && exists n :: room(n) < MESSAGE_LIMIT
    ensures !refused ==> delivered == Run(Fresh(multi), Concat(pieces)).1
    ensures !refused ==> (ok <==> Accepted(multi, Concat(pieces)))
    ensures !refused ==> (ok <==> exists messages :: Carries(messages, Concat(pieces)))
    ensures !refused ==> forall messages ::
        Carries(messages, Concat(pieces)) ==> delivered == Deliveries(multi, messages)
  {
    hide Run, Grpc.Sound, Concat, Carries, Deliveries;
    AcceptedExact(multi, Concat(pieces));
    var reader := new Reader(multi);
    var k, n := 0, 0;
    delivered := [];
    ConcatNone(pieces);
    while true
      invariant fresh(reader) && fresh(reader.decoder) && reader.Valid() && reader.decoder.multi == multi
      invariant k <= |pieces| && n >= 0 && delivered == reader.taken
          && reader.fed == Concat(pieces[..k]) <= Concat(pieces)
      decreases |pieces| - k, |Run(Fresh(multi), reader.fed).1| - |reader.taken|
    {
      Progress(reader);
      if k < |pieces| { ConcatFront(pieces, k); FrontWithin(pieces, k + 1); }
      if k < |pieces| && pieces[k] == [] {
        assert Concat(pieces[..k]) + [] == Concat(pieces[..k]);
        k := k + 1;
        continue;
      }
      ghost var fed := reader.fed;
      var answer, output, used;
      answer, output, used, refused := reader.Read(capacity(n), if k < |pieces| then pieces[k] else [], room);
      if refused { return false, delivered, true; }
      assert fed + [] == fed;
      delivered := delivered + output;
      n := n + 1;
      if used { k := k + 1; }
      Progress(reader);
      if answer.Error? || answer.End? {
        assert delivered == reader.taken;
        Stopped(reader, pieces, k, answer);
        return answer.End?, delivered, false;
      }
    }
  }

  lemma ConcatNone(pieces: seq<Octets>)
    ensures Concat(pieces[..0]) == [] && pieces[..|pieces|] == pieces
  {
  }

  lemma {:induction false} FrontWithin(pieces: seq<Octets>, k: nat)
    requires k <= |pieces|
    ensures Concat(pieces[..k]) <= Concat(pieces)
  {
    if k < |pieces| {
      ConcatFront(pieces, k);
    } else {
      assert pieces[..k] == pieces;
    }
  }

  lemma Progress(reader: Reader)
    requires reader.Valid()
    ensures reader.taken <= Run(Fresh(reader.decoder.multi), reader.fed).1
  {
    hide Run;
    TakenWithin(reader.decoder.multi, reader.fed, reader.decoded, reader.taken);
  }

  /** Where reading stops, everything was delivered. */
  lemma Stopped(reader: Reader, pieces: seq<Octets>, k: nat, answer: Answer)
    requires reader.Valid() && k <= |pieces| && reader.fed == Concat(pieces[..k]) <= Concat(pieces)
    requires answer.Error? ==> reader.failed || (k == |pieces| && reader.Drained() && reader.decoder.header != [])
    requires answer.End? ==> !reader.failed && k == |pieces| && reader.Drained() && reader.decoder.header == []
    requires answer.Error? || answer.End?
    ensures reader.taken == Run(Fresh(reader.decoder.multi), Concat(pieces)).1
    ensures answer.End? <==> Accepted(reader.decoder.multi, Concat(pieces))
  {
    hide Run, Concat;
    var multi := reader.decoder.multi;
    ConcatNone(pieces);
    assert reader.taken + [] == reader.taken && reader.taken + [] + [] == reader.taken;
    if reader.failed {
      BrokenFor(multi, reader.decoded, Concat(pieces));
    }
  }

  /** However one stream is divided, delivery and outcome are the same. */
  method TwoDivisions(multi: bool, first: seq<Octets>, second: seq<Octets>, capacity: nat -> nat,
      capacity': nat -> nat, room: nat -> nat)
    returns (ok: bool, ok': bool, delivered: Octets, delivered': Octets, refused: bool)
    requires Concat(first) == Concat(second) && (forall n :: capacity(n) > 0) && (forall n :: capacity'(n) > 0)
    ensures !refused ==> ok == ok' && delivered == delivered'
    ensures refused ==> !multi && exists n :: room(n) < MESSAGE_LIMIT
  {
    hide *;
    var refused';
    ok, delivered, refused := Receive(multi, first, capacity, room);
    ok', delivered', refused' := Receive(multi, second, capacity', room);
    refused := refused || refused';
  }

  /** Messages written by grpc_write_hunk, cut anywhere and read anyhow, arrive as the payloads. */
  method Transmit(multi: bool, payloads: seq<Octets>, cut: Octets -> seq<Octets>, capacity: nat -> nat,
      room: nat -> nat)
    returns (ok: bool, delivered: Octets, refused: bool)
    requires Sendable(payloads) && (forall n :: capacity(n) > 0) && forall s :: Concat(cut(s)) == s
    ensures refused ==> !multi && exists n :: room(n) < MESSAGE_LIMIT
    ensures !refused ==> ok && delivered == Concat(payloads)
  {
    hide Run, Grpc.Sound, Concat, Hunk;
    var stream: Octets := [];
    var k := 0;
    HunksNone(payloads);
    while k < |payloads|
      invariant k <= |payloads| && stream + Hunks(payloads[k..]) == Hunks(payloads)
    {
      var fits, hunk := WriteHunk(payloads[k]);
      HunksNext(payloads, k);
      assert stream + (hunk + Hunks(payloads[k + 1..])) == stream + hunk + Hunks(payloads[k + 1..]);
      stream := stream + hunk;
      k := k + 1;
    }
    HunksEnd(payloads);
    assert stream + [] == stream;
    RoundTripHunks(Fresh(multi), payloads);
    ok, delivered, refused := Receive(multi, cut(stream), capacity, room);
  }

  lemma HunksNone(payloads: seq<Octets>)
    requires Sendable(payloads)
    ensures payloads[0..] == payloads && Sound(Fresh(true)) && Sound(Fresh(false))
    ensures [] + Hunks(payloads) == Hunks(payloads)
  {
    hide Hunks;
  }

  lemma HunksNext(payloads: seq<Octets>, k: nat)
    requires Sendable(payloads) && k < |payloads|
    ensures MessageLength(payloads[k]) <= UINT32_MAX
        && Hunks(payloads[k..]) == Hunk(payloads[k]) + Hunks(payloads[k + 1..])
  {
    assert payloads[k..][1..] == payloads[k + 1..];
    hide Hunk;
  }

  lemma HunksEnd(payloads: seq<Octets>)
    ensures Hunks(payloads[|payloads|..]) == []
  {
  }
}
