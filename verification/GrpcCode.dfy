/** core_grpc_decoder_t of src/grpc.c: the decoder as it works on whole pieces of input. */
module GrpcCode {
  import opened Bytes
  import opened HpackInteger
  import opened Grpc

  datatype Result = Failed | More | Ready

  class Decoding {
    const multi: bool
    var header: Octets
    var phase: Phase
    var wire: nat
    var field: nat
    var digits: nat
    var varint: nat
    var remaining: nat
    var left: nat
    var groups: seq<nat>
    var data: Octets
    var reserved: nat
    var ready: bool
    var failed: bool

    constructor (multi: bool)
      ensures Valid() && Now() == Fresh(multi) && !ready
    {
      this.multi := multi;
      header, phase, wire, field, digits, varint, remaining, left, groups, data, reserved, ready, failed := [], Tag, 0,
          0, 0, 0, 0, 0, [], [], 0, false, false;
    }

    /** A message that is ready counts as delivered: only its unread data is left. */
    function Now(): Decoder
      reads this
    {
      if failed then Broken
      else if ready then Decoder(multi, header, remaining, phase, wire, field, digits, varint, left, groups, [], 0)
      else Decoder(multi, header, remaining, phase, wire, field, digits, varint, left, groups, data, reserved)
    }

    ghost predicate Valid()
      reads this
    {
      Sound(Now()) && (ready ==> !multi && !failed && header == [] && |data| <= reserved)
    }

    /** core_grpc_read: the data of a message that is ready, and then its release. */
    method Read(capacity: nat) returns (output: Octets)
      requires Valid() && !failed
      modifies this
      ensures Valid() && Now() == old(Now())
      ensures !old(ready) ==> output == [] && !ready
      ensures old(ready) ==>
          output + (if ready then data else []) == old(data) && (ready ==> |output| == capacity && data != [])
    {
      output := [];
      if !ready { return; }
      var take := if |data| > capacity then capacity else |data|;
      output := data[..take];
      data := data[take..];
      if data == [] { reserved, ready := 0, false; }
    }

    /** The part of core_grpc_decode that collects the prefix; `room` is what the reservation shared
        by all decoders still allows. */
    method TakeHeader(input: Octets, room: nat) returns (taken: nat, refused: bool)
      requires Valid() && !failed && !ready && |header| < 5 && input != []
      modifies this
      ensures 0 < taken <= |input| && (refused ==> failed && !multi && room < MESSAGE_LIMIT)
      ensures !refused ==> Valid() && (Now(), Unread()) == Run(old(Now()), input[..taken])
    {
      hide Run, Big32, Sound;
      SoundInside(Now());
      refused := false;
      taken := if 5 - |header| > |input| then |input| else 5 - |header|;
      ghost var before := Now();
      header := header + input[..taken];
      if |header| < 5 {
        HeaderRun(before, input[..taken]);
        return;
      }
      HeaderWhole(before, input[..taken]);
      OpenedReady(before, header);
      remaining := Big32(header[1..]);
      if header[0] != 0 || remaining > MESSAGE_LIMIT {
        failed := true;
        return;
      }
      phase, digits, varint, groups := Tag, 0, 0, [];
      if !multi && remaining > room {
        failed, refused := true, true;
        return;
      }
      if !multi { reserved := remaining; }
      if remaining == 0 {
        header := [];
        if !multi { ready := true; }
      }
    }

    /** The end of a message, when it has come: it must not come inside a field or a group. */
    method Finish()
      requires Midway(Now()) && !ready
      modifies this
      ensures Valid() && Now() == Ended(old(Now())).0
      ensures Unread() == Ended(old(Now())).1
    {
      EndedSound(Now());
      if failed || remaining > 0 { return; }
      if phase != Tag || digits != 0 || groups != [] {
        failed := true;
        return;
      }
      header := [];
      if !multi { ready := true; }
    }

    /** Content of a field, as much of it as there is: `payload` in multi mode, kept in single mode. */
    method TakeContent(input: Octets) returns (taken: nat, payload: Octets)
      requires Valid() && !failed && !ready && |header| == 5 && phase == Content && input != []
      modifies this
      ensures 0 < taken <= |input| && Valid() && (failed ==> payload == [])
      ensures (Now(), payload + Unread()) == Run(old(Now()), input[..taken])
    {
      hide Run, Ended;
      ghost var before := Now();
      taken := if left > |input| then |input| else left;
      ContentsRun(before, input[..taken]);
      ContentsUnbroken(before, input[..taken]);
      payload := [];
      if groups == [] && field == 1 && wire == 2 {
        if multi { payload := input[..taken]; } else { data := data + input[..taken]; }
      }
      left, remaining := left - taken, remaining - taken;
      if left == 0 { phase := Tag; }
      assert Now() == Contents(before, input[..taken]).0;
      Finish();
    }

    /** One octet of a varint, and what the varint means when that was its last. */
    method TakeOctet(b: Byte)
      requires Valid() && !failed && !ready && |header| == 5 && phase != Content
      modifies this
      ensures Valid() && (Now(), Unread()) == Run(old(Now()), [b])
    {
      hide Run, Ended, Step, Power, OnVarint, Midway, Sound;
      ghost var before := Now();
      VarintMidway(before, b);
      VarintIsStep(before, b);
      RunOne(before, b);
      SoundInside(before);
      remaining := remaining - 1;
      if digits > 9 || (digits == 9 && b >= 2) {
        failed := true;
      } else {
        varint := varint + (b % 128) as nat * Power(digits);
        if b >= 128 {
          digits := digits + 1;
        } else {
          var value := varint;
          varint, digits := 0, 0;
          TakeValue(value);
        }
      }
      Finish();
    }

    /** A whole varint: a tag, a length, or a value that is skipped. */
    method TakeValue(value: nat)
      requires !failed && !ready && phase != Content
      modifies this
      ensures !ready && Now() == OnVarint(old(Now()), value)
    {
      if phase == Length {
        if value > remaining { failed := true; return; }
        if groups == [] && field == 1 && !multi { data := []; }
        left := value;
        phase := if value > 0 then Content else Tag;
      } else if phase == Varint {
        phase := Tag;
      } else if value / 8 == 0 || value / 8 > FIELD_MAX {
        failed := true;
      } else {
        field, wire := value / 8, value % 8;
        if wire == 0 {
          phase := Varint;
        } else if wire == 2 {
          phase := Length;
        } else if wire == 1 || wire == 5 {
          left := if wire == 1 then 8 else 4;
          if left > remaining { failed := true; return; }
          phase := Content;
        } else if wire == 3 {
          if |groups| == DEPTH_MAX { failed := true; return; }
          groups := groups + [field];
        } else if wire == 4 {
          if groups == [] || groups[|groups| - 1] != field { failed := true; return; }
          groups := groups[..|groups| - 1];
        } else {
          failed := true;
        }
      }
    }

    /** core_grpc_decode.  Whatever part of the input it consumes, it has done what octet by octet
        decoding does; what it delivers is `payload`, or a message that is ready to be read. */
    method Decode(input: Octets, room: nat) returns (result: Result, consumed: nat, payload: Octets, refused: bool)
      requires Valid()
      modifies this
      ensures old(failed) ==> result == Failed && consumed == 0
      ensures old(ready) ==> result == Ready && consumed == 0 && Now() == old(Now()) && Unread() == old(Unread())
      ensures refused ==> result == Failed && failed && !multi && room < MESSAGE_LIMIT
      ensures !refused ==>
          Valid() && consumed <= |input| && (result == Failed <==> failed) && (result == More ==> consumed == |input|)
      ensures !refused && !old(ready) && !failed && input != [] ==> 0 < consumed
      ensures failed ==> payload == []
      ensures !refused && !old(ready) && !old(failed) ==>
          (Now(), payload + Unread()) == Run(old(Now()), input[..consumed])
    {
      hide Run, Sound;
      consumed, payload, refused := 0, [], false;
      if failed { return Failed, 0, [], false; }
      if ready { return Ready, 0, [], false; }
      ghost var before := Now();
      RunNothing(before);
      assert input[..0] == [];
      var none: Octets := [];
      assert none + none == none;
      while consumed < |input|
        invariant consumed <= |input| && Valid() && !failed && !ready && payload == []
        invariant Run(before, input[..consumed]) == (Now(), [])
        decreases |input| - consumed
      {
        ghost var d := Now();
        SoundInside(d);
        var rest := input[consumed..];
        var taken := 1;
        if |header| < 5 {
          taken, refused := TakeHeader(rest, room);
          if refused { return Failed, consumed, [], true; }
        } else if phase == Content {
          taken, payload := TakeContent(rest);
        } else {
          TakeOctet(rest[0]);
          assert rest[..1] == [rest[0]];
        }
        RunConcat(before, input[..consumed], rest[..taken]);
        assert input[..consumed] + rest[..taken] == input[..consumed + taken];
        ghost var out := Run(d, rest[..taken]).1;
        assert [] + out == out;
        consumed := consumed + taken;
        if failed { return Failed, consumed, [], false; }
        if ready || payload != [] { return Ready, consumed, payload, false; }
      }
      result := More;
    }

    function Unread(): Octets
      reads this
    {
      if ready then data else []
    }
  }

  lemma OpenedReady(d: Decoder, whole: Octets)
    requires Sound(d) && d.Decoder? && |d.header| < 5 && |whole| == 5
    ensures Sound(OpenMessage(d, whole).0)
  {
  }

  /** Some octets of the content of a field at once. */
  function Contents(d: Decoder, s: Octets): (Decoder, Octets)
    requires d.Decoder? && |s| <= d.left <= d.remaining
  {
    (d.(left := d.left - |s|, remaining := d.remaining - |s|, phase := if d.left == |s| then Tag else d.phase,
        buffer := if Taken(d) && !d.multi then d.buffer + s else d.buffer),
     if Taken(d) && d.multi then s else [])
  }

  lemma VarintIsStep(d: Decoder, b: Byte)
    requires Sound(d) && d.Decoder? && |d.header| == 5 && d.phase != Content
    ensures Step(d, b) == Ended(StepVarint(d, b))
  {
    hide StepVarint, Ended;
  }

  /** Content taken at once is content taken octet by octet. */
  lemma {:induction false} ContentsRun(d: Decoder, s: Octets)
    requires Sound(d) && d.Decoder? && |d.header| == 5 && d.phase == Content && 0 < |s| <= d.left
    ensures |s| <= d.left <= d.remaining
    ensures var (m, payload) := Contents(d, s); var (e, out) := Ended(m); Run(d, s) == (e, payload + out)
    decreases |s|
  {
    hide Run, Step;
    RunStep(d, s);
    ContentIsStep(d, s[0]);
    if |s| == 1 {
      assert s[1..] == [] && s == [s[0]];
      RunNothing(Step(d, s[0]).0);
      var out := Step(d, s[0]).1;
      assert out + [] == out;
    } else {
      var e := StepContent(d, s[0]);
      ContentsRun(e, s[1..]);
      ContentsTwice(d, s);
      var out := Ended(Contents(d, s).0).1;
      assert Contents(d, [s[0]]).1 + (Contents(e, s[1..]).1 + out) ==
          Contents(d, [s[0]]).1 + Contents(e, s[1..]).1 + out;
    }
  }

  lemma ContentIsStep(d: Decoder, b: Byte)
    requires Sound(d) && d.Decoder? && |d.header| == 5 && d.phase == Content
    ensures Step(d, b) == (Ended(Contents(d, [b]).0).0, Contents(d, [b]).1 + Ended(Contents(d, [b]).0).1)
    ensures d.left > 1 ==> Sound(StepContent(d, b)) && Step(d, b) == (StepContent(d, b), Contents(d, [b]).1)
  {
    var out := Ended(StepContent(d, b)).1;
    assert [] + out == out && [b] + [] == [b];
    assert Contents(d, [b]).0 == StepContent(d, b);
  }

  lemma ContentsTwice(d: Decoder, s: Octets)
    requires d.Decoder? && 1 < |s| <= d.left <= d.remaining && d.phase == Content
    ensures var e := StepContent(d, s[0]);
            Contents(e, s[1..]).0 == Contents(d, s).0
                && Contents(d, [s[0]]).1 + Contents(e, s[1..]).1 == Contents(d, s).1
  {
    assert s == [s[0]] + s[1..];
    assert d.buffer + [s[0]] + s[1..] == d.buffer + s;
  }

  /** Content that is delivered does not break the decoder. */
  lemma ContentsUnbroken(d: Decoder, s: Octets)
    requires Sound(d) && d.Decoder? && |d.header| == 5 && d.phase == Content && 0 < |s| <= d.left
    ensures |s| <= d.left <= d.remaining
    ensures Ended(Contents(d, s).0).0.Broken? ==> Contents(d, s).1 == []
  {
  }

  lemma SoundInside(d: Decoder)
    requires Sound(d) && d.Decoder?
    ensures |d.header| <= 5 && (|d.header| == 5 ==> d.remaining > 0)
        && (|d.header| < 5 ==> d.buffer == [] && d.reserved == 0)
  {
  }

  // ----- src/tls_http2.c -----

  /** protobuf_varint_size. */
  method VarintSize(number: nat) returns (n: nat)
    ensures n == |Continued(number)|
  {
    hide Chain, Value, Continued;
    n := 1;
    var value := number;
    while value >= 128
      invariant value >= 0 && n >= 1 && n - 1 + |Continued(value)| == |Continued(number)|
    {
      ContinuedUnfolds(value);
      value := value / 128;
      n := n + 1;
    }
    ContinuedUnfolds(value);
  }

  /** protobuf_write_varint. */
  method WriteVarint(number: nat) returns (s: Octets)
    ensures s == Continued(number)
  {
    hide Chain, Value, Continued;
    s := [];
    var value: nat := number;
    while true
      invariant s + Continued(value) == Continued(number)
      decreases value
    {
      ContinuedUnfolds(value);
      var low := value % 128;
      if value / 128 == 0 {
        s := s + [low as Byte];
        return;
      }
      assert s + Continued(value) == s + [(low + 128) as Byte] + Continued(value / 128);
      s := s + [(low + 128) as Byte];
      value := value / 128;
    }
  }

  /** grpc_write_hunk up to handing over the octets. */
  method WriteHunk(payload: Octets) returns (ok: bool, output: Octets)
    ensures ok <==> MessageLength(payload) <= UINT32_MAX
    ensures ok ==> output == Hunk(payload)
  {
    hide Continued, Write32;
    var size := VarintSize(|payload|);
    if |payload| + 1 + size > UINT32_MAX { return false, []; }
    var length := 1 + size + |payload|;
    var written := WriteVarint(|payload|);
    ok, output := true, [0] + Write32(length) + [10] + written + payload;
  }
}
