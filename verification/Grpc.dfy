/** src/grpc.c core_grpc_decode and src/tls_http2.c grpc_write_hunk: gRPC messages that carry
    their payload in field 1 of a protobuf message. */
module Grpc {
  import opened Bytes
  import opened HpackInteger

  const MESSAGE_LIMIT := 16 * 1024 * 1024
  const FIELD_MAX := 0x1FFF_FFFF
  const DEPTH_MAX := 64

  /** The decoder between two octets.  `header` is complete (five octets) inside a message, of
      which `remaining` octets are to come; `digits` octets of a varint have been read; `groups`
      are the fields of the open groups.  In single mode `buffer` collects the payload. */
  datatype Decoder =
    | Broken
    | Decoder(multi: bool, header: Octets, remaining: nat, phase: Phase, wire: nat, field: nat, digits: nat,
        varint: nat, left: nat,
              groups: seq<nat>, buffer: Octets, reserved: nat)

  datatype Phase = Tag | Length | Content | Varint

  function Fresh(multi: bool): (d: Decoder)
    ensures Sound(d)
  {
    Decoder(multi, [], 0, Tag, 0, 0, 0, 0, 0, [], [], 0)
  }

  function Big32(s: Octets): nat
    requires |s| == 4
  {
    s[0] as nat * 0x100_0000 + s[1] as nat * 0x1_0000 + s[2] as nat * 0x100 + s[3] as nat
  }

  // ----- one octet -----

  /** The end of a message: in single mode its payload becomes available. */
  function Complete(d: Decoder): (Decoder, Octets)
    requires d.Decoder?
  {
    (d.(header := [], remaining := 0, buffer := [], reserved := 0), if d.multi then [] else d.buffer)
  }

  function StepHeader(d: Decoder, b: Byte): (Decoder, Octets)
    requires d.Decoder? && |d.header| < 5
  {
    var h := d.header + [b];
    if |h| < 5 then (d.(header := h), []) else OpenMessage(d, h)
  }

  /** The prefix is complete: its first octet must be 0, and the others are the length. */
  function OpenMessage(d: Decoder, h: Octets): (Decoder, Octets)
    requires d.Decoder? && |h| == 5
  {
    var n := Big32(h[1..]);
    if h[0] != 0 || n > MESSAGE_LIMIT then (Broken, []) else
      var e := d.(header := h, remaining := n, phase := Tag, digits := 0, varint := 0, groups := [],
          reserved := if d.multi then 0 else n);
      if n == 0 then Complete(e) else (e, [])
  }

  predicate Taken(d: Decoder)
    requires d.Decoder?
  {
    d.groups == [] && d.field == 1 && d.wire == 2
  }

  /** An octet of a length-delimited or fixed-size field. */
  function StepContent(d: Decoder, b: Byte): Decoder
    requires d.Decoder? && d.remaining > 0 && d.left > 0
  {
    d.(left := d.left - 1, remaining := d.remaining - 1, phase := if d.left == 1 then Tag else Content,
       buffer := if Taken(d) && !d.multi then d.buffer + [b] else d.buffer)
  }

  /** What a whole varint means at this place. */
  function OnVarint(d: Decoder, value: nat): Decoder
    requires d.Decoder?
  {
    match d.phase
    case Tag =>
      var field, wire := value / 8, value % 8;
      var e := d.(field := field, wire := wire);
      if field == 0 || field > FIELD_MAX then Broken
      else if wire == 0 then e.(phase := Varint)
      else if wire == 2 then e.(phase := Length)
      else if wire == 1 || wire == 5 then
        var size := if wire == 1 then 8 else 4;
        if size > d.remaining then Broken else e.(left := size, phase := Content)
      else if wire == 3 then (if |d.groups| == DEPTH_MAX then Broken else e.(groups := d.groups + [field]))
      else if wire == 4 then
        if d.groups == [] || d.groups[|d.groups| - 1] != field then Broken else e.(groups := d.groups[..|d.groups| - 1])
      else Broken
    case Length =>
      if value > d.remaining then Broken else
        d.(buffer := if d.groups == [] && d.field == 1
            && !d.multi then [] else d.buffer, left := value, phase := if value > 0 then Content else Tag)
    case _ => d.(phase := Tag)
  }

  function StepVarint(d: Decoder, b: Byte): Decoder
    requires d.Decoder? && d.remaining > 0
  {
    var e := d.(remaining := d.remaining - 1);
    if d.digits > 9 || (d.digits == 9 && b >= 2) then Broken else
      var value := d.varint + (b % 128) as nat * Power(d.digits);
      if b >= 128 then e.(varint := value, digits := d.digits + 1)
      else OnVarint(e.(varint := 0, digits := 0), value)
  }

  /** After each octet of a message: at its end nothing may be half done. */
  function Ended(d: Decoder): (Decoder, Octets) {
    if d.Broken? || d.remaining > 0 then (d, [])
    else if d.phase != Tag || d.digits != 0 || d.groups != [] then (Broken, [])
    else Complete(d)
  }

  function Step(d: Decoder, b: Byte): (Decoder, Octets)
    requires Sound(d)
  {
    if d.Broken? then (d, [])
    else if |d.header| < 5 then StepHeader(d, b)
    else if d.phase == Content then
      var (e, out) := Ended(StepContent(d, b));
      (e, if Taken(d) && d.multi then [b] + out else out)
    else Ended(StepVarint(d, b))
  }

  /** What every octet keeps: inside a message some octets remain, a field ends within its message,
      a varint is not longer than ten octets, and what is buffered is covered by the reservation. */
  predicate Sound(d: Decoder) {
    d.Decoder? ==>
      && |d.header| <= 5 && |d.groups| <= DEPTH_MAX && d.digits <= 9
      && (|d.header| == 5 ==> d.remaining > 0)
      && (|d.header| < 5 ==> d.buffer == [] && d.reserved == 0)
      && (|d.header| == 5 && d.phase == Content ==> 0 < d.left <= d.remaining && d.digits == 0)
      && (|d.header| == 5 && !d.multi ==> |d.buffer| + d.remaining <= d.reserved <= MESSAGE_LIMIT)
      && (d.multi ==> d.buffer == [] && d.reserved == 0)
  }

  /** Sound but for the end of the message, which may have come. */
  predicate Midway(d: Decoder) {
    d.Decoder? ==>
      && |d.header| == 5 && |d.groups| <= DEPTH_MAX && d.digits <= 9
      && (d.phase == Content ==> 0 < d.left <= d.remaining && d.digits == 0)
      && (!d.multi ==> |d.buffer| + d.remaining <= d.reserved <= MESSAGE_LIMIT)
      && (d.multi ==> d.buffer == [] && d.reserved == 0)
  }

  lemma VarintMidway(d: Decoder, b: Byte)
    requires Sound(d) && d.Decoder? && |d.header| == 5 && d.phase != Content
    ensures Midway(StepVarint(d, b))
  {
    hide Power;
  }

  lemma EndedSound(d: Decoder)
    requires Midway(d)
    ensures Sound(Ended(d).0)
  {
  }

  lemma StepSound(d: Decoder, b: Byte)
    requires Sound(d)
    ensures Sound(Step(d, b).0)
  {
    hide Ended, StepVarint;
    if d.Decoder? && |d.header| == 5 {
      if d.phase == Content {
        assert Midway(StepContent(d, b));
        EndedSound(StepContent(d, b));
      } else {
        VarintMidway(d, b);
        EndedSound(StepVarint(d, b));
      }
    }
  }

  /** Octets one after another. */
  function Run(d: Decoder, s: Octets): (r: (Decoder, Octets))
    requires Sound(d)
    ensures Sound(r.0)
    decreases |s|
  {
    if s == [] then (d, []) else
      StepSound(d, s[0]);
      var (e, out) := Step(d, s[0]);
      var (f, more) := Run(e, s[1..]);
      (f, out + more)
  }

  /** Feeding in two parts is feeding at once. */
  lemma {:induction false} RunConcat(d: Decoder, a: Octets, b: Octets)
    requires Sound(d)
    ensures var (e, out) := Run(d, a); var (f, more) := Run(e, b); Run(d, a + b) == (f, out + more)
    decreases |a|
  {
    hide Step, Sound;
    if a == [] {
      assert a + b == b;
      var (f, more) := Run(d, b);
      assert [] + more == more;
    } else {
      StepSound(d, a[0]);
      var (e, out) := Step(d, a[0]);
      RunConcat(e, a[1..], b);
      assert (a + b)[0] == a[0] && (a + b)[1..] == a[1..] + b;
      var (f, more) := Run(e, a[1..]);
      var (g, rest) := Run(f, b);
      assert out + (more + rest) == (out + more) + rest;
    }
  }

  lemma RunNothing(d: Decoder)
    requires Sound(d)
    ensures Run(d, []) == (d, [])
  {
  }

  lemma RunOne(d: Decoder, b: Byte)
    requires Sound(d)
    ensures Run(d, [b]) == Step(d, b)
  {
    StepSound(d, b);
    var (e, out) := Step(d, b);
    assert [b][1..] == [] && out + [] == out;
    hide Step;
  }

  // ----- the writer -----

  /** grpc_write_hunk: prefix, tag of field 1, length, payload. */
  function MessageLength(payload: Octets): nat { 1 + |Continued(|payload|)| + |payload| }

  function Write32(n: nat): (s: Octets)
    requires n < 0x1_0000_0000
    ensures |s| == 4 && s == Big(n, 4)
  {
    BigFour(n);
    var a := n / 256;
    var b := a / 256;
    var c := b / 256;
    [c as Byte, (b % 256) as Byte, (a % 256) as Byte, (n % 256) as Byte]
  }

  lemma Write32Big(n: nat)
    requires n < 0x1_0000_0000
    ensures Big32(Write32(n)) == n
  {
  }

  function Hunk(payload: Octets): Octets
    requires MessageLength(payload) <= UINT32_MAX
  {
    [0] + Write32(MessageLength(payload)) + [10] + Continued(|payload|) + payload
  }

  predicate Sendable(payloads: seq<Octets>) {
    forall i :: 0 <= i < |payloads| ==> MessageLength(payloads[i]) <= MESSAGE_LIMIT
  }

  function Hunks(payloads: seq<Octets>): Octets
    requires Sendable(payloads)
  {
    if payloads == [] then [] else Hunk(payloads[0]) + Hunks(payloads[1..])
  }

  /** Between messages. */
  predicate Idle(d: Decoder, multi: bool) {
    Sound(d) && d.Decoder? && d.multi == multi && d.header == []
  }

  /** Inside a message, at a place where a varint begins. */
  function Inside(d: Decoder, header: Octets, remaining: nat, phase: Phase, buffer: Octets, reserved: nat): Decoder
    requires d.Decoder?
  {
    d.(header := header, remaining := remaining, phase := phase, digits := 0, varint := 0, groups := [],
        buffer := buffer, reserved := reserved)
  }

  lemma RunStep(d: Decoder, s: Octets)
    requires Sound(d) && s != []
    ensures Sound(Step(d, s[0]).0)
    ensures Run(d, s) == (Run(Step(d, s[0]).0, s[1..]).0, Step(d, s[0]).1 + Run(Step(d, s[0]).0, s[1..]).1)
    ensures Step(d, s[0]).1 == [] ==> Run(d, s) == Run(Step(d, s[0]).0, s[1..])
  {
    StepSound(d, s[0]);
    var more := Run(Step(d, s[0]).0, s[1..]).1;
    assert [] + more == more;
    hide Step, Sound;
  }

  /** Octets that do not complete the prefix are kept. */
  lemma {:induction false} HeaderRun(d: Decoder, s: Octets)
    requires Sound(d) && d.Decoder? && |d.header| + |s| < 5
    ensures Run(d, s) == (d.(header := d.header + s), [])
    decreases |s|
  {
    hide Run, Sound, Step;
    if s == [] {
      assert d.header + s == d.header;
      RunNothing(d);
    } else {
      RunStep(d, s);
      HeaderStep(d, s[0]);
      var e := d.(header := d.header + [s[0]]);
      HeaderRun(e, s[1..]);
      assert e.header + s[1..] == d.header + s;
    }
  }

  lemma HeaderStep(d: Decoder, b: Byte)
    requires Sound(d) && d.Decoder? && |d.header| < 4
    ensures Step(d, b) == (d.(header := d.header + [b]), [])
  {
  }

  /** Octets that complete the prefix. */
  lemma HeaderWhole(d: Decoder, s: Octets)
    requires Sound(d) && d.Decoder? && |d.header| < 5 && |d.header| + |s| == 5
    ensures Run(d, s) == OpenMessage(d, d.header + s)
  {
    hide Run, Sound, Step, Big32;
    var front, last := s[..|s| - 1], s[|s| - 1];
    assert s == front + [last] && d.header + front + [last] == d.header + s;
    HeaderRun(d, front);
    var e := d.(header := d.header + front);
    RunConcat(d, front, [last]);
    RunOne(e, last);
    HeaderLast(e, last);
    var r := Step(e, last);
    assert [] + r.1 == r.1;
  }

  lemma HeaderLast(d: Decoder, b: Byte)
    requires Sound(d) && d.Decoder? && |d.header| == 4
    ensures Step(d, b) == OpenMessage(d, d.header + [b])
  {
    hide OpenMessage;
  }

  lemma PrefixEnd(d: Decoder, b: Byte, n: nat)
    requires 0 < n <= MESSAGE_LIMIT && Sound(d) && d.Decoder? && |d.header| == 4 && d.header + [b] == [0] + Write32(n)
    ensures Step(d, b) == (Inside(d, [0] + Write32(n), n, Tag, [], if d.multi then 0 else n), [])
  {
    assert ([0] + Write32(n))[1..] == Write32(n);
    Write32Big(n);
    hide Write32, Big32;
  }

  lemma PrefixRun(d: Decoder, n: nat)
    requires Sound(d) && d.Decoder? && d.header == [] && 0 < n <= MESSAGE_LIMIT
    ensures Run(d, [0] + Write32(n)) == (Inside(d, [0] + Write32(n), n, Tag, [], if d.multi then 0 else n), [])
  {
    hide Write32, Big32, Run, Step;
    var s := [0] + Write32(n);
    var front := s[..4];
    assert s == front + [s[4]] && d.header + front == front;
    HeaderRun(d, front);
    var e := d.(header := front);
    PrefixEnd(e, s[4], n);
    RunOne(e, s[4]);
    RunConcat(d, front, [s[4]]);
    assert e.(header := s) == d.(header := s)
        && Inside(e, s, n, Tag, [], if d.multi then 0 else n) == Inside(d, s, n, Tag, [], if d.multi then 0 else n);
    var none: Octets := [];
    assert none + none == none;
  }

  lemma VarintStep(d: Decoder, b: Byte)
    requires Sound(d) && d.Decoder? && |d.header| == 5 && d.phase != Content && d.digits < 9
    ensures b >= 128 && d.remaining > 1 ==>
              Step(d, b) ==
                  (d.(remaining := d.remaining - 1, varint := d.varint + (b % 128) as nat * Power(d.digits),
                      digits := d.digits + 1), [])
    ensures b < 128 ==>
              Step(d, b) ==
                  Ended(OnVarint(d.(remaining := d.remaining - 1, varint := 0, digits := 0),
                      d.varint + b as nat * Power(d.digits)))
  {
    hide Power, OnVarint;
  }

  /** The number that is complete once `value` follows what has been read. */
  predicate Completes(d: Decoder, value: nat, total: nat)
    requires d.Decoder?
  {
    total == d.varint + Power(d.digits) * value
  }

  lemma CompletesNext(d: Decoder, e: Decoder, value: nat, total: nat)
    requires d.Decoder? && e.Decoder? && Completes(d, value, total)
    requires e.varint == d.varint + (value % 128) * Power(d.digits) && e.digits == d.digits + 1
    ensures Completes(e, value / 128, total)
  {
    Unfold(Power(d.digits), value % 128, value / 128);
  }

  lemma CompletesLast(d: Decoder, value: nat, total: nat)
    requires d.Decoder? && Completes(d, value, total)
    ensures total == d.varint + value * Power(d.digits)
  {
  }

  /** A varint of `value` from where one begins, or the rest of one. */
  lemma {:induction false} VarintRun(d: Decoder, value: nat, total: nat)
    requires Sound(d) && d.Decoder? && |d.header| == 5 && d.phase != Content && Completes(d, value, total)
    requires d.remaining >= |Continued(value)| && d.digits + |Continued(value)| <= 9
    ensures Run(d, Continued(value)) ==
              Ended(OnVarint(d.(remaining := d.remaining - |Continued(value)|, varint := 0, digits := 0), total))
    decreases value
  {
    hide Run, Sound, Step, OnVarint, Ended, Chain, Value, Power, Continued, Completes;
    ContinuedUnfolds(value);
    var s := Continued(value);
    if value < 128 {
      CompletesLast(d, value, total);
      VarintStep(d, s[0]);
      RunOne(d, s[0]);
    } else {
      var b := (value % 128 + 128) as Byte;
      var rest := Continued(value / 128);
      assert s[1..] == rest;
      ContinuedUnfolds(value / 128);
      VarintStep(d, b);
      RunStep(d, s);
      var e := Step(d, b).0;
      SoundContinues(d, e);
      CompletesNext(d, e, value, total);
      VarintRun(e, value / 128, total);
      assert d.(remaining := d.remaining - |s|, varint := 0, digits := 0) ==
          e.(remaining := e.remaining - |rest|, varint := 0, digits := 0);
    }
  }

  lemma ContinuedUnfolds(value: nat)
    ensures Continued(value) == if value < 128 then [value as Byte]
        else [(value % 128 + 128) as Byte] + Continued(value / 128)
  {
    hide Chain, Value;
  }

  lemma SoundContinues(d: Decoder, e: Decoder)
    requires Sound(d) && d.Decoder? && |d.header| == 5 && d.phase != Content && d.remaining > 1 && d.digits < 9
    requires e.Decoder? && e == d.(remaining := d.remaining - 1, varint := e.varint, digits := d.digits + 1)
    ensures Sound(e)
  {
  }

  /** The payload of field 1: delivered at once in multi mode, collected in single mode. */
  lemma {:induction false} ContentRun(d: Decoder, s: Octets)
    requires Sound(d) && d.Decoder? && |d.header| == 5 && d.phase == Content && d.digits == 0 && Taken(d)
        && |s| == d.left == d.remaining && s != []
    ensures Run(d, s) ==
        (d.(header := [], remaining := 0, phase := Tag, left := 0, buffer := [], reserved := 0), d.buffer + s)
    decreases |s|
  {
    hide Run, Sound, Step;
    RunStep(d, s);
    if |s| == 1 {
      ContentLast(d, s[0]);
      assert s == [s[0]] && s[1..] == [];
      RunNothing(Step(d, s[0]).0);
      assert d.buffer + s + [] == d.buffer + s;
    } else {
      ContentStep(d, s[0]);
      var e := Step(d, s[0]).0;
      ContentRun(e, s[1..]);
      assert s == [s[0]] + s[1..];
      assert d.buffer + s == if d.multi then [s[0]] + (d.buffer + s[1..]) else (d.buffer + [s[0]]) + s[1..];
    }
  }

  lemma ContentStep(d: Decoder, b: Byte)
    requires Sound(d) && d.Decoder? && |d.header| == 5 && d.phase == Content && Taken(d) && d.left > 1
        && d.remaining > 1
    ensures Step(d, b) ==
              (d.(left := d.left - 1, remaining := d.remaining - 1, buffer := if d.multi then [] else d.buffer + [b]),
                  if d.multi then [b] else [])
    ensures d.multi ==> d.buffer == []
    ensures Sound(Step(d, b).0)
  {
    assert [b] + [] == [b];
  }

  lemma ContentLast(d: Decoder, b: Byte)
    requires Sound(d) && d.Decoder? && |d.header| == 5 && d.phase == Content && Taken(d) && d.left == 1 == d.remaining
        && d.digits == 0
    ensures Step(d, b) ==
        (d.(header := [], remaining := 0, phase := Tag, left := 0, buffer := [], reserved := 0), d.buffer + [b])
  {
    assert [b] + [] == [b] && [] + [b] == [b];
  }

  lemma TagRun(d: Decoder)
    requires Sound(d) && d.Decoder? && |d.header| == 5 && d.phase == Tag && d.digits == 0 && d.varint == 0
        && d.groups == [] && d.remaining > 1
    ensures Run(d, [10]) == (d.(remaining := d.remaining - 1, field := 1, wire := 2, phase := Length), [])
  {
    hide Run, Step, Power, Sound;
    PowerZero();
    VarintStep(d, 10);
    RunOne(d, 10);
  }

  lemma PowerZero()
    ensures Power(0) == 1
  {
  }

  lemma LengthRun(d: Decoder, n: nat)
    requires Sound(d) && d.Decoder? && |d.header| == 5 && d.phase == Length && d.digits == 0 && d.varint == 0
        && Taken(d) && d.buffer == []
    requires d.remaining == |Continued(n)| + n && n <= MESSAGE_LIMIT
    ensures Run(d, Continued(n)) ==
              if n > 0 then (d.(remaining := n, left := n, phase := Content), [])
              else (d.(header := [], remaining := 0, left := 0, phase := Tag, buffer := [], reserved := 0), [])
  {
    hide Run, Continued, Sound;
    assert Power(4) == 268435456 && Power(0) == 1;
    ContinuedLength(n, 3);
    VarintRun(d, n, n);
  }

  /** One message from the writer, whatever the decoder held of the last one. */
  lemma HunkRun(d: Decoder, payload: Octets)
    requires Sound(d) && d.Decoder? && d.header == [] && MessageLength(payload) <= MESSAGE_LIMIT
    ensures var (e, out) := Run(d, Hunk(payload)); e.Decoder? && e.multi == d.multi && e.header == [] && out == payload
  {
    hide Run, Write32, Continued, Step;
    var n := MessageLength(payload);
    var d1 := Inside(d, [0] + Write32(n), n, Tag, [], if d.multi then 0 else n);
    PrefixRun(d, n);
    TagRun(d1);
    var d2 := d1.(remaining := n - 1, field := 1, wire := 2, phase := Length);
    LengthRun(d2, |payload|);
    RunConcat(d, [0] + Write32(n), [10]);
    RunConcat(d, [0] + Write32(n) + [10], Continued(|payload|));
    RunConcat(d, [0] + Write32(n) + [10] + Continued(|payload|), payload);
    var none: Octets := [];
    assert none + none == none;
    if payload == [] {
      RunNothing(Run(d2, Continued(0)).0);
    } else {
      ContentRun(d2.(remaining := |payload|, left := |payload|, phase := Content), payload);
      assert none + payload == payload;
    }
  }

  /** Any sequence of messages from the writer is decoded to the payloads, in both modes. */
  lemma {:induction false} RoundTripHunks(d: Decoder, payloads: seq<Octets>)
    requires Sound(d) && d.Decoder? && d.header == [] && Sendable(payloads)
    ensures var (e, out) := Run(d, Hunks(payloads));
        e.Decoder? && e.multi == d.multi && e.header == [] && out == Concat(payloads)
    decreases |payloads|
  {
    hide Run, Hunk, MessageLength, Sound;
    if payloads == [] {
      RunNothing(d);
    } else {
      HunkRun(d, payloads[0]);
      RunConcat(d, Hunk(payloads[0]), Hunks(payloads[1..]));
      RoundTripHunks(Run(d, Hunk(payloads[0])).0, payloads[1..]);
    }
  }

  lemma {:induction false} BrokenStays(s: Octets)
    ensures Run(Broken, s) == (Broken, [])
    decreases |s|
  {
    if s != [] {
      RunStep(Broken, s);
      BrokenStays(s[1..]);
    }
  }

  /** The writer's limit is higher than the decoder's: a message is accepted if and only if it has at most 16 MiB. */
  lemma HunkAccepted(d: Decoder, payload: Octets)
    requires Sound(d) && d.Decoder? && d.header == [] && MessageLength(payload) <= UINT32_MAX
    ensures Run(d, Hunk(payload)).0.Decoder? <==> MessageLength(payload) <= MESSAGE_LIMIT
  {
    hide Run, Sound, Write32, Continued, Big32;
    var n := MessageLength(payload);
    if n <= MESSAGE_LIMIT {
      HunkRun(d, payload);
    } else {
      var prefix := [0] + Write32(n);
      var rest := [10] + Continued(|payload|) + payload;
      assert Hunk(payload) == prefix + rest;
      Write32Big(n);
      assert prefix[1..] == Write32(n) && d.header + prefix == prefix;
      HeaderWhole(d, prefix);
      RunConcat(d, prefix, rest);
      BrokenStays(rest);
    }
  }
}
