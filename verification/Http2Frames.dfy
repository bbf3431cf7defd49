/** src/http2.c core_http2_validate_frame: what a connection accepts, frame by frame, and what
    that means for whole runs (sections 3.4, 4.2, 6 and 6.10 of RFC 9113). */
module Http2Frames {
  import opened Bytes

  const FRAME_LIMIT := 16384
  const STREAM_MAX := 0x7FFF_FFFF

  const HEADERS := 1
  const SETTINGS := 4
  const CONTINUATION := 9

  datatype Frame = Frame(kind: nat, flags: nat, stream: nat, data: seq<Byte>)
  {
    predicate Ack() { flags % 2 == 1 }
    predicate EndHeaders() { flags / 4 % 2 == 1 }
    predicate Padded() { flags / 8 % 2 == 1 }
    predicate Priority() { flags / 32 % 2 == 1 }

    /** The header block of this frame goes on in the next one. */
    predicate Opens() { (kind == HEADERS || kind == CONTINUATION) && !EndHeaders() }
  }

  datatype Verdict = Fine | StreamError(code: nat) | ConnectionError(code: nat)

  datatype State = State(continuation: nat, received: bool, pending: nat)

  const ZERO := State(0, false, 0)

  function Value32(data: seq<Byte>, i: nat): nat
    requires i + 4 <= |data|
  {
    data[i] as nat * 0x100_0000 + data[i + 1] as nat * 0x1_0000 + data[i + 2] as nat * 0x100 + data[i + 3] as nat
  }

  function Value31(data: seq<Byte>, i: nat): nat
    requires i + 4 <= |data|
  {
    Value32(data, i) % 0x8000_0000
  }

  // ----- one frame -----

  predicate BadPadding(f: Frame) { f.Padded() && (f.data == [] || f.data[0] as nat >= |f.data|) }

  /** The first entry of a SETTINGS frame that is out of range, from octet `i` on. */
  function Entries(data: seq<Byte>, i: nat): (v: Verdict)
    requires i <= |data| && (|data| - i) % 6 == 0
    decreases |data| - i
  {
    if i == |data| then Fine else
      var id := data[i] as nat * 256 + data[i + 1] as nat;
      var value := Value32(data, i + 2);
      if id == 4 && value > STREAM_MAX then ConnectionError(3)
      else if (id == 2 && value != 0) || (id == 5 && (value < 16384 || value > 16777215)) then ConnectionError(1)
      else Entries(data, i + 6)
  }

  /** What is wrong with a frame whatever came before it. */
  function Shape(f: Frame): Verdict {
    if f.stream > STREAM_MAX then ConnectionError(1)
    else if |f.data| > FRAME_LIMIT then ConnectionError(6)
    else match f.kind
      case 0 => if f.stream == 0 || BadPadding(f) then ConnectionError(1) else Fine
      case 1 => HeadersShape(f)
      case 2 =>
        if f.stream == 0 then ConnectionError(1)
        else if |f.data| != 5 then StreamError(6)
        else if Value31(f.data, 0) == f.stream then StreamError(1) else Fine
      case 3 => if f.stream == 0 then ConnectionError(1) else if |f.data| != 4 then ConnectionError(6) else Fine
      case 4 =>
        if f.stream != 0 then ConnectionError(1)
        else if f.Ack() then (if f.data != [] then ConnectionError(6) else Fine)
        else if |f.data| % 6 != 0 then ConnectionError(6) else Entries(f.data, 0)
      case 5 => ConnectionError(1)
      case 6 => if f.stream != 0 then ConnectionError(1) else if |f.data| != 8 then ConnectionError(6) else Fine
      case 7 => if f.stream != 0 then ConnectionError(1) else if |f.data| < 8 then ConnectionError(6) else Fine
      case 8 =>
        if |f.data| != 4 then ConnectionError(6)
        else if Value31(f.data, 0) == 0 then (if f.stream != 0 then StreamError(1) else ConnectionError(1)) else Fine
      case 9 => if f.stream == 0 then ConnectionError(1) else Fine
      case _ => Fine
  }

  function HeadersShape(f: Frame): Verdict {
    if f.stream == 0 || BadPadding(f) then ConnectionError(1)
    else
      var start := if f.Padded() then 1 else 0;
      var end := if f.Padded() then |f.data| - f.data[0] as nat else |f.data|;
      if f.Priority() && end - start < 5 then ConnectionError(6)
      else if f.Priority() && Value31(f.data, start) == f.stream then StreamError(1)
      else Fine
  }

  // ----- what section 6 of RFC 9113 asks of one frame -----

  /** DATA, HEADERS, PRIORITY, RST_STREAM and CONTINUATION belong to a stream; SETTINGS, PING and GOAWAY do not. */
  predicate Addressed(f: Frame) {
    f.stream <= STREAM_MAX && (f.kind in {0, 1, 2, 3, 9} ==> f.stream != 0) && (f.kind in {4, 6, 7} ==> f.stream == 0)
  }

  /** In DATA and HEADERS there is room for the padding. */
  predicate PaddingFits(f: Frame) {
    f.kind in {0, 1} && f.Padded() ==> f.data != [] && 1 + f.data[0] as nat <= |f.data|
  }

  /** RST_STREAM and WINDOW_UPDATE have four octets, PING has eight, GOAWAY at least eight, SETTINGS a
      multiple of six and none in an acknowledgement, and HEADERS five for its priority. */
  predicate RightSize(f: Frame) {
    && (f.kind in {3, 8} ==> |f.data| == 4) && (f.kind == 6 ==> |f.data| == 8) && (f.kind == 7 ==> |f.data| >= 8)
    && (f.kind == 4 ==> if f.Ack() then |f.data| == 0 else |f.data| % 6 == 0)
    && (f.kind == 1 && f.Priority() ==>
          |f.data| >= 5 + if f.Padded() && f.data != [] then 1 + f.data[0] as nat else 0)
  }

  /** An entry of SETTINGS is an identifier and a value. */
  predicate HasEntry(data: seq<Byte>, j: nat, id: nat, value: nat) {
    6 * j + 6 <= |data| && data[6 * j..6 * j + 6] == Big(id, 2) + Big(value, 4)
  }

  /** ENABLE_PUSH is 0, INITIAL_WINDOW_SIZE fits 31 bits, MAX_FRAME_SIZE lies between 2^14 and 2^24 - 1. */
  predicate Allowed(id: nat, value: nat) {
    (id == 2 ==> value == 0) && (id == 4 ==> value < 0x8000_0000) && (id == 5 ==> 16384 <= value < 0x100_0000)
  }

  ghost predicate EntriesAllowed(f: Frame) {
    forall j: nat, id: nat, value: nat | id < 0x1_0000 && value < 0x1_0000_0000 && HasEntry(f.data, j, id, value) ::
      Allowed(id, value)
  }

  /** Four octets that hold a number of 31 bits; the top bit is ignored. */
  predicate Holds(data: seq<Byte>, i: nat, n: nat) {
    i + 4 <= |data| && (data[i..i + 4] == Big(n, 4) || data[i..i + 4] == Big(0x8000_0000 + n, 4))
  }

  predicate DependsOnItself(f: Frame) {
    || (f.kind == 2 && Holds(f.data, 0, f.stream))
    || (f.kind == 1 && f.Priority() && Holds(f.data, if f.Padded() then 1 else 0, f.stream))
  }

  predicate NoIncrement(f: Frame) { f.kind == 8 && Holds(f.data, 0, 0) }

  ghost predicate EndsConnection(f: Frame) {
    || !Addressed(f) || |f.data| > FRAME_LIMIT || !PaddingFits(f) || !RightSize(f) || f.kind == 5
    || (f.kind == 4 && !f.Ack() && !EntriesAllowed(f)) || (f.stream == 0 && NoIncrement(f))
  }

  lemma EntryIs(data: seq<Byte>, j: nat, id: nat, value: nat)
    requires 6 * j + 6 <= |data| && id < 0x1_0000 && value < 0x1_0000_0000
    ensures HasEntry(data, j, id, value) <==>
            id == data[6 * j] as nat * 256 + data[6 * j + 1] as nat && value == Value32(data, 6 * j + 2)
  {
    hide Big, Value32;
    var first, last := data[6 * j..6 * j + 2], data[6 * j + 2..6 * j + 6];
    assert data[6 * j..6 * j + 6] == first + last;
    Apart(first, last, Big(id, 2), Big(value, 4));
    TwoOctets(first, id);
    FourOctets(last, value);
    ValueThere(data, 6 * j + 2);
  }

  lemma Apart(a: seq<Byte>, b: seq<Byte>, c: seq<Byte>, d: seq<Byte>)
    requires |a| == |c|
    ensures a + b == c + d <==> a == c && b == d
  {
    if a + b == c + d {
      assert a == (a + b)[..|a|] && c == (c + d)[..|a|] && b == (a + b)[|a|..] && d == (c + d)[|a|..];
    }
  }

  lemma TwoOctets(s: seq<Byte>, n: nat)
    requires |s| == 2 && n < 0x1_0000
    ensures s == Big(n, 2) <==> s[0] as nat * 256 + s[1] as nat == n
  {
    BigTwo(n);
    hide Big;
    assert s == [s[0], s[1]];
  }

  predicate EntryFine(data: seq<Byte>, j: nat)
    requires 6 * j + 6 <= |data|
  {
    Allowed(data[6 * j] as nat * 256 + data[6 * j + 1] as nat, Value32(data, 6 * j + 2))
  }

  lemma {:induction false} EntriesFine(data: seq<Byte>, i: nat)
    requires |data| % 6 == 0 && 6 * i <= |data|
    ensures Entries(data, 6 * i).Fine? <==> forall j :: i <= j < |data| / 6 ==> EntryFine(data, j)
    ensures !Entries(data, 6 * i).StreamError?
    decreases |data| - 6 * i
  {
    if 6 * i < |data| {
      EntriesFine(data, i + 1);
      assert EntryFine(data, i) || !EntryFine(data, i);
    }
  }

  lemma EntriesExact(f: Frame)
    requires |f.data| % 6 == 0
    ensures Entries(f.data, 0).Fine? <==> EntriesAllowed(f)
    ensures !Entries(f.data, 0).StreamError?
  {
    hide Entries, Allowed, HasEntry, Value32;
    EntriesFine(f.data, 0);
    if EntriesAllowed(f) {
      forall j | 0 <= j < |f.data| / 6 ensures EntryFine(f.data, j) {
        var id, value := f.data[6 * j] as nat * 256 + f.data[6 * j + 1] as nat, Value32(f.data, 6 * j + 2);
        ValueFits(f.data, 6 * j + 2);
        EntryIs(f.data, j, id, value);
      }
    }
    if Entries(f.data, 0).Fine? {
      forall j: nat, id: nat, value: nat | id < 0x1_0000 && value < 0x1_0000_0000 && HasEntry(f.data, j, id, value)
        ensures Allowed(id, value)
      {
        EntryThere(f.data, j, id, value);
        EntryIs(f.data, j, id, value);
        assert EntryFine(f.data, j);
      }
    }
  }

  lemma ValueFits(data: seq<Byte>, i: nat)
    requires i + 4 <= |data|
    ensures Value32(data, i) < 0x1_0000_0000
  {
  }

  lemma EntryThere(data: seq<Byte>, j: nat, id: nat, value: nat)
    requires HasEntry(data, j, id, value)
    ensures 6 * j + 6 <= |data| && j < |data| / 6
  {
  }

  lemma HoldsExact(data: seq<Byte>, i: nat, n: nat)
    requires i + 4 <= |data| && n <= STREAM_MAX
    ensures Holds(data, i, n) <==> Value31(data, i) == n
  {
    hide Big, Value32;
    FourOctets(data[i..i + 4], n);
    FourOctets(data[i..i + 4], 0x8000_0000 + n);
    ValueFits(data, i);
    ValueThere(data, i);
  }

  lemma FourOctets(s: seq<Byte>, n: nat)
    requires |s| == 4 && n < 0x1_0000_0000
    ensures s == Big(n, 4) <==> Value32(s, 0) == n
  {
    hide Big, Value32;
    WholeFour(n);
    PartsFour(s);
  }

  lemma ValueThere(data: seq<Byte>, i: nat)
    requires i + 4 <= |data|
    ensures Value32(data[i..i + 4], 0) == Value32(data, i)
  {
  }

  lemma WholeFour(n: nat)
    requires n < 0x1_0000_0000
    ensures Value32(Big(n, 4), 0) == n
  {
    BigFour(n);
    hide Big;
  }

  lemma PartsFour(s: seq<Byte>)
    requires |s| == 4
    ensures Big(Value32(s, 0), 4) == s
  {
    hide Big;
    BigFour(Value32(s, 0));
    FourDigits(s[0], s[1], s[2], s[3]);
    assert s == [s[0], s[1], s[2], s[3]];
  }

  /** What ends a connection, what is an error of one stream, and when the code is FRAME_SIZE_ERROR. */
  lemma ShapeExact(f: Frame)
    ensures Shape(f).ConnectionError? <==> EndsConnection(f)
    ensures Shape(f).StreamError? <==>
            !EndsConnection(f) && ((f.kind == 2 && |f.data| != 5) || DependsOnItself(f) || NoIncrement(f))
    ensures Shape(f) == ConnectionError(6) <==>
            f.stream <= STREAM_MAX &&
            (|f.data| > FRAME_LIMIT || (Addressed(f) && PaddingFits(f) && !RightSize(f)))
    ensures Shape(f) == StreamError(6) <==> !EndsConnection(f) && f.kind == 2 && |f.data| != 5
  {
    hide EntriesAllowed, Entries, Holds, Value31;
    if f.stream <= STREAM_MAX {
      if f.kind == 4 && |f.data| % 6 == 0 { EntriesExact(f); EntryCodes(f.data, 0); }
      if |f.data| >= 4 { HoldsExact(f.data, 0, f.stream); HoldsExact(f.data, 0, 0); }
      if |f.data| >= 5 { HoldsExact(f.data, 1, f.stream); }
    }
  }

  lemma {:induction false} EntryCodes(data: seq<Byte>, i: nat)
    requires i <= |data| && (|data| - i) % 6 == 0
    ensures Entries(data, i) != ConnectionError(6)
    decreases |data| - i
  {
    if i < |data| { EntryCodes(data, i + 6); }
  }

  /** The state after a frame that does not end the connection. */
  function Step(state: State, f: Frame): Option<State> {
    if Shape(f).ConnectionError? then None
    else if !state.received && (f.kind != SETTINGS || f.Ack()) then None
    else if (state.continuation != 0) != (f.kind == CONTINUATION) then None
    else if f.kind == CONTINUATION && f.stream != state.continuation then None
    else if f.kind == SETTINGS && f.Ack() && state.pending == 0 then None
    else Some(State(if f.Opens() then f.stream else 0,
                    true,
                    if f.kind != SETTINGS then state.pending
                    else if f.Ack() then state.pending - 1
                    else if state.received then state.pending else 1))
  }

  // ----- the code -----

  /** core_http2_validation_t. */
  class Validation {
    var continuation: nat
    var received: bool
    var pending: nat

    function Now(): State
      reads this
    {
      State(continuation, received, pending)
    }

    /** The loop over the entries of SETTINGS. */
    static method CheckEntries(data: seq<Byte>) returns (v: Verdict)
      requires |data| % 6 == 0
      ensures v == Entries(data, 0) && !v.StreamError?
    {
      var i := 0;
      while i < |data|
        invariant i <= |data| && i % 6 == 0 && Entries(data, i) == Entries(data, 0)
      {
        var id := data[i] as nat * 256 + data[i + 1] as nat;
        var value := Value32(data, i + 2);
        if id == 4 && value > STREAM_MAX { return ConnectionError(3); }
        if (id == 2 && value != 0) || (id == 5 && (value < 16384 || value > 16777215)) { return ConnectionError(1); }
        i := i + 6;
      }
      v := Fine;
    }

    /** core_http2_validate_frame. */
    method Validate(f: Frame) returns (v: Verdict)
      modifies this
      ensures v.ConnectionError? <==> Step(old(Now()), f).None?
      ensures !v.ConnectionError? ==> Step(old(Now()), f) == Some(Now()) && v == Shape(f)
    {
      hide Entries, Value31;
      v := ConnectionError(1);
      if f.stream > STREAM_MAX { return; }
      if |f.data| > FRAME_LIMIT { return ConnectionError(6); }
      if !received && (f.kind != SETTINGS || f.Ack() || f.stream != 0) { return; }
      if continuation != 0 && (f.kind != CONTINUATION || f.stream != continuation) { return; }
      match f.kind {
        case 0 => if f.stream == 0 || BadPadding(f) { return; }
        case 1 =>
          if f.stream == 0 { return; }
          var start, end := 0, |f.data|;
          if f.Padded() {
            if f.data == [] || f.data[0] as nat >= |f.data| { return; }
            start, end := 1, |f.data| - f.data[0] as nat;
          }
          var own := false;
          if f.Priority() {
            if end - start < 5 { return ConnectionError(6); }
            own := Value31(f.data, start) == f.stream;
          }
          if !f.EndHeaders() { continuation := f.stream; }
          if own { return StreamError(1); }
        case 2 =>
          if f.stream == 0 { return; }
          if |f.data| != 5 { return StreamError(6); }
          if Value31(f.data, 0) == f.stream { return StreamError(1); }
        case 3 =>
          if f.stream == 0 { return; }
          if |f.data| != 4 { return ConnectionError(6); }
        case 4 =>
          if f.stream != 0 { return; }
          if f.Ack() {
            if f.data != [] { return ConnectionError(6); }
            if pending == 0 { return; }
            pending := pending - 1;
          } else {
            if |f.data| % 6 != 0 { return ConnectionError(6); }
            var entries := CheckEntries(f.data);
            if entries != Fine { return entries; }
            if !received { pending := 1; }
            received := true;
          }
        case 5 => return;
        case 6 =>
          if f.stream != 0 { return; }
          if |f.data| != 8 { return ConnectionError(6); }
        case 7 =>
          if f.stream != 0 { return; }
          if |f.data| < 8 { return ConnectionError(6); }
        case 8 =>
          if |f.data| != 4 { return ConnectionError(6); }
          if Value31(f.data, 0) == 0 { return if f.stream != 0 then StreamError(1) else ConnectionError(1); }
        case 9 =>
          if continuation == 0 || f.stream != continuation { return; }
          if f.EndHeaders() { continuation := 0; }
        case _ =>
      }
      v := Fine;
    }
  }

  // ----- runs -----

  function Run(frames: seq<Frame>): Option<State> {
    if frames == [] then Some(ZERO) else
      match Run(frames[..|frames| - 1])
      case None => None
      case Some(state) => Step(state, frames[|frames| - 1])
  }

  function Acks(frames: seq<Frame>): nat {
    if frames == [] then 0 else
      Acks(frames[..|frames| - 1]) + if frames[|frames| - 1].kind == SETTINGS
          && frames[|frames| - 1].Ack() then 1 else 0
  }

  /** Frame `i` is where it may be: the first is a SETTINGS that acknowledges nothing, and a
      header block left open is continued, on its stream, by the very next frame and by no other. */
  predicate InPlace(frames: seq<Frame>, i: nat)
    requires i < |frames|
  {
    && (i == 0 ==> frames[0].kind == SETTINGS && !frames[0].Ack())
    && (if i > 0 && frames[i - 1].Opens() then frames[i].kind == CONTINUATION
        && frames[i].stream == frames[i - 1].stream
        else frames[i].kind != CONTINUATION)
  }

  /** Order of the frames of a connection, with no mention of the validator's state. */
  predicate Ordered(frames: seq<Frame>) {
    (forall i :: 0 <= i < |frames| ==> InPlace(frames, i)) && Acks(frames) <= 1
  }

  /** The state tells where a run stands. */
  predicate Stands(frames: seq<Frame>, state: State) {
    if frames == [] then state == ZERO else
      && state.received && state.pending + Acks(frames) == 1
      && state.continuation == if frames[|frames| - 1].Opens() then frames[|frames| - 1].stream else 0
  }

  /** A run is not refused as a connection error exactly when each of its frames could be
      accepted by itself and they come in order. */
  lemma {:induction false} RunExact(frames: seq<Frame>)
    ensures Run(frames).Some? <==> Ordered(frames) && forall i ::
        0 <= i < |frames| ==> !Shape(frames[i]).ConnectionError?
    ensures Run(frames).Some? ==> Stands(frames, Run(frames).value)
  {
    if frames != [] {
      var before := frames[..|frames| - 1];
      var last := frames[|frames| - 1];
      RunExact(before);
      OrderedNext(before, last);
      hide Shape;
      assert frames == before + [last];
      if Run(before).Some? {
        if before != [] { OpenStream(before); }
        StepExact(before, Run(before).value, last);
      }
    }
  }

  lemma OpenStream(frames: seq<Frame>)
    requires frames != [] && forall i :: 0 <= i < |frames| ==> !Shape(frames[i]).ConnectionError?
    ensures frames[|frames| - 1].Opens() ==> frames[|frames| - 1].stream != 0
  {
  }

  lemma OrderedNext(before: seq<Frame>, last: Frame)
    ensures Ordered(before + [last]) <==>
        Ordered(before) && InPlace(before + [last], |before|) && Acks(before + [last]) <= 1
  {
    var frames := before + [last];
    assert frames[..|before|] == before;
    if Ordered(frames) {
      forall i | 0 <= i < |before| ensures InPlace(before, i) { assert InPlace(frames, i); }
    }
    if Ordered(before) {
      forall i | 0 <= i < |before| ensures InPlace(frames, i) { assert InPlace(before, i); }
    }
  }

  lemma StepExact(before: seq<Frame>, state: State, last: Frame)
    requires Stands(before, state)
        && (before != [] && before[|before| - 1].Opens() ==> before[|before| - 1].stream != 0)
    ensures var frames := before + [last];
            && (Step(state, last).Some? <==>
                !Shape(last).ConnectionError? && InPlace(frames, |before|) && Acks(frames) <= 1)
            && (Step(state, last).Some? ==> Stands(frames, Step(state, last).value))
  {
    var frames := before + [last];
    assert frames[..|before|] == before;
    hide Shape;
  }
}
