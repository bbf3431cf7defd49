/** What src/grpc.c core_grpc_decode accepts and delivers, told from the encoding of protobuf
    messages alone: tags with every wire type, nested groups, and any spelling of a varint. */
module GrpcMessage {
  import opened Bytes
  import opened HpackInteger
  import opened Grpc

  // ----- protobuf messages -----

  /** A spelling of a 64-bit number: at most ten octets, seven bits from each. */
  predicate Spelled(v: Octets) { Ending(0, v) }

  /** The last octets of one, after some digits. */
  predicate Ending(digits: nat, v: Octets) {
    Chain(v) && digits + |v| <= 10 && (digits + |v| == 10 ==> v[|v| - 1] < 2)
  }

  /** What follows a tag, or the tag that opens or closes a group. */
  datatype Token =
    | Number(field: nat, tag: Octets, value: Octets)
    | Fixed64(field: nat, tag: Octets, data: Octets)
    | Fixed32(field: nat, tag: Octets, data: Octets)
    | Delimited(field: nat, tag: Octets, length: Octets, data: Octets)
    | Open(field: nat, tag: Octets)
    | Close(field: nat, tag: Octets)

  function Wire(t: Token): nat {
    match t
    case Number(_, _, _) => 0
    case Fixed64(_, _, _) => 1
    case Delimited(_, _, _, _) => 2
    case Open(_, _) => 3
    case Close(_, _) => 4
    case Fixed32(_, _, _) => 5
  }

  predicate Proper(t: Token) {
    && 1 <= t.field <= FIELD_MAX && Spelled(t.tag) && Value(t.tag) == 8 * t.field + Wire(t)
    && (t.Number? ==> Spelled(t.value)) && (t.Fixed64? ==> |t.data| == 8) && (t.Fixed32? ==> |t.data| == 4)
    && (t.Delimited? ==> Spelled(t.length) && Value(t.length) == |t.data|)
  }

  function Spelling(t: Token): Octets {
    t.tag + match t
            case Number(_, _, value) => value
            case Fixed64(_, _, data) => data
            case Fixed32(_, _, data) => data
            case Delimited(_, _, length, data) => length + data
            case Open(_, _) => []
            case Close(_, _) => []
  }

  datatype Item = Leaf(token: Token) | Group(open: Token, items: seq<Item>, close: Token)

  /** Well formed, with groups nested no deeper than `room`. */
  predicate ProperItem(i: Item, room: nat)
    decreases i
  {
    match i
    case Leaf(t) => Proper(t) && !t.Open? && !t.Close?
    case Group(open, items, close) =>
      && room > 0 && open.Open? && close.Close? && Proper(open) && Proper(close) && open.field == close.field
      && ProperItems(items, room - 1)
  }

  predicate ProperItems(items: seq<Item>, room: nat)
    decreases items
  {
    items == [] || (ProperItem(items[0], room) && ProperItems(items[1..], room))
  }

  function EncodeItem(i: Item): Octets
    decreases i
  {
    match i
    case Leaf(t) => Spelling(t)
    case Group(open, items, close) => Spelling(open) + Encode(items) + Spelling(close)
  }

  function Encode(items: seq<Item>): Octets
    decreases items
  {
    if items == [] then [] else EncodeItem(items[0]) + Encode(items[1..])
  }

  /** A message is accepted with groups up to 64 deep. */
  predicate Encodes(items: seq<Item>, body: Octets) { ProperItems(items, DEPTH_MAX) && Encode(items) == body }

  predicate Payload(i: Item) { i.Leaf? && i.token.Delimited? && i.token.field == 1 }

  /** The length-delimited fields 1, outside groups. */
  function Payloads(items: seq<Item>): seq<Octets> {
    if items == [] then [] else (if Payload(items[0]) then [items[0].token.data] else []) + Payloads(items[1..])
  }

  function LastOr(list: seq<Octets>, s: Octets): Octets { if list == [] then s else list[|list| - 1] }

  /** All of them in multi mode, the last one in single mode. */
  function Delivery(multi: bool, items: seq<Item>): Octets {
    if multi then Concat(Payloads(items)) else LastOr(Payloads(items), [])
  }

  // ----- the decoder within a message -----

  lemma Nothing(a: Octets)
    ensures [] + a == a && a + [] == a
  {
  }

  lemma Three(a: Octets, b: Octets, c: Octets)
    ensures a + (b + c) == (a + b) + c
  {
  }

  lemma Front(a: Octets, b: Octets)
    requires a != []
    ensures (a + b)[0] == a[0] && (a + b)[1..] == a[1..] + b && a == [a[0]] + a[1..]
  {
  }

  /** One octet inside a message, before its end is considered. */
  function Raw(d: Decoder, b: Byte): (Decoder, Octets)
    requires Midway(d) && (d.Decoder? ==> d.remaining > 0)
  {
    if d.Broken? then (d, [])
    else if d.phase == Content then (StepContent(d, b), if Taken(d) && d.multi then [b] else [])
    else (StepVarint(d, b), [])
  }

  lemma RawMidway(d: Decoder, b: Byte)
    requires Midway(d) && (d.Decoder? ==> d.remaining > 0)
    ensures Midway(Raw(d, b).0)
    ensures Raw(d, b).0.Decoder? ==> d.Decoder? && Raw(d, b).0.remaining == d.remaining - 1
  {
    hide Power;
    if d.Decoder? && d.phase != Content { VarintMidway(d, b); }
  }

  function Inner(d: Decoder, s: Octets): (r: (Decoder, Octets))
    requires Midway(d) && (d.Decoder? ==> |s| <= d.remaining)
    ensures Midway(r.0) && (r.0.Decoder? ==> d.Decoder? && r.0.remaining == d.remaining - |s|)
    decreases |s|
  {
    if s == [] then (d, []) else
      RawMidway(d, s[0]);
      var (e, out) := Raw(d, s[0]);
      var (f, more) := Inner(e, s[1..]);
      (f, out + more)
  }

  lemma InnerStep(d: Decoder, s: Octets)
    requires Midway(d) && (d.Decoder? ==> |s| <= d.remaining) && s != []
    ensures var (e, out) := Raw(d, s[0]);
            && Midway(e) && (e.Decoder? ==> d.Decoder? && e.remaining == d.remaining - 1)
            && Inner(d, s) == (Inner(e, s[1..]).0, out + Inner(e, s[1..]).1)
            && (out == [] ==> Inner(d, s) == Inner(e, s[1..]))
  {
    hide Raw, Midway;
    RawMidway(d, s[0]);
    var more := Inner(Raw(d, s[0]).0, s[1..]).1;
    assert [] + more == more;
  }

  lemma {:induction false} InnerConcat(d: Decoder, a: Octets, b: Octets)
    requires Midway(d) && (d.Decoder? ==> |a| + |b| <= d.remaining)
    ensures var (e, out) := Inner(d, a); Inner(d, a + b) == (Inner(e, b).0, out + Inner(e, b).1)
    ensures Inner(d, a).1 == [] ==> Inner(d, a + b) == Inner(Inner(d, a).0, b)
    decreases |a|
  {
    hide Raw, Midway, Inner;
    var last := Inner(Inner(d, a).0, b).1;
    Nothing(last);
    if a == [] {
      InnerNothing(d);
      Nothing(b);
    } else {
      InnerStep(d, a);
      InnerStep(d, a + b);
      Front(a, b);
      var e := Raw(d, a[0]).0;
      InnerConcat(e, a[1..], b);
      Three(Raw(d, a[0]).1, Inner(e, a[1..]).1, last);
    }
  }

  lemma {:induction false} InnerBroken(s: Octets)
    ensures Inner(Broken, s) == (Broken, [])
    decreases |s|
  {
    if s != [] {
      InnerStep(Broken, s);
      InnerBroken(s[1..]);
    }
  }

  lemma MidwaySound(d: Decoder)
    requires Midway(d) && d.Decoder? && d.remaining > 0
    ensures Sound(d) && |d.header| == 5
  {
  }

  /** The decoder looks for the end after each octet, but it only comes after the last. */
  lemma {:induction false} RunInner(d: Decoder, s: Octets)
    requires Midway(d) && d.Decoder? && 0 < |s| <= d.remaining
    ensures Sound(d)
    ensures var (f, out) := Inner(d, s); Run(d, s) == (Ended(f).0, out + Ended(f).1)
    decreases |s|
  {
    MidwaySound(d);
    hide Run, Inner, Raw, Step, Sound, Midway, Ended;
    RunStep(d, s);
    InnerStep(d, s);
    StepIsRaw(d, s[0]);
    var (e, out) := Raw(d, s[0]);
    var rest := s[1..];
    if rest == [] {
      InnerNothing(e);
      RunNothing(Step(d, s[0]).0);
      Nothing(out);
      Nothing(out + Ended(e).1);
    } else {
      NotEnded(e);
      Nothing(out);
      if e.Broken? {
        BrokenStays(rest);
        InnerBroken(rest);
      } else {
        RunInner(e, rest);
        var (f, more) := Inner(e, rest);
        Three(out, more, Ended(f).1);
      }
      NotEnded(Broken);
    }
  }

  lemma InnerNothing(d: Decoder)
    requires Midway(d)
    ensures Inner(d, []) == (d, [])
  {
    hide Midway;
  }

  lemma NotEnded(d: Decoder)
    requires d.Decoder? ==> d.remaining > 0
    ensures Ended(d) == (d, [])
  {
  }

  lemma StepIsRaw(d: Decoder, b: Byte)
    requires Midway(d) && d.Decoder? && d.remaining > 0
    ensures Sound(d) && var (e, out) := Raw(d, b); Step(d, b) == (Ended(e).0, out + Ended(e).1)
  {
    hide StepVarint, StepContent, Ended;
    var (e, out) := Raw(d, b);
    assert [] + Ended(e).1 == Ended(e).1;
  }

  /** A whole message: its prefix, then what is inside, then its end. */
  lemma MessageInner(d: Decoder, body: Octets)
    requires Sound(d) && d.Decoder? && d.header == [] && |body| <= MESSAGE_LIMIT
    ensures Midway(Started(d, |body|))
    ensures var (f, out) := Inner(Started(d, |body|), body);
            Run(d, Framed(body)) == (Ended(f).0, out + Ended(f).1)
  {
    hide Run, Inner, Ended, Big32, Write32, Midway, Sound, Started;
    var n := |body|;
    var prefix := [0] + Write32(n);
    var e := Started(d, n);
    StartedRun(d, n);
    StartedWith(d, n);
    RunConcat(d, prefix, body);
    assert Framed(body) == prefix + body;
    var none: Octets := [];
    if n == 0 {
      InnerNothing(e);
      RunNothing(Run(d, prefix).0);
      var out := Ended(e).1;
      assert none + out == out && out + [] == out;
    } else {
      NotEnded(e);
      RunInner(e, body);
      var out := Run(e, body).1;
      assert none + out == out;
    }
  }

  function Framed(body: Octets): Octets
    requires |body| <= MESSAGE_LIMIT
  {
    [0] + Write32(|body|) + body
  }

  function Started(d: Decoder, n: nat): Decoder
    requires d.Decoder? && n <= MESSAGE_LIMIT
  {
    Inside(d, [0] + Write32(n), n, Tag, [], if d.multi then 0 else n)
  }

  lemma StartedWith(d: Decoder, n: nat)
    requires d.Decoder? && n <= MESSAGE_LIMIT
    ensures var e := Started(d, n); e.Decoder? && e.remaining == n && Closed(e) && e.varint == 0 && e.groups == []
    ensures Started(d, n).multi == d.multi && Started(d, n).buffer == []
  {
    hide Write32;
  }

  lemma StartedRun(d: Decoder, n: nat)
    requires Sound(d) && d.Decoder? && d.header == [] && n <= MESSAGE_LIMIT
    ensures Midway(Started(d, n)) && Run(d, [0] + Write32(n)) == Ended(Started(d, n))
  {
    hide Run, Write32, Big32;
    if n == 0 {
      var prefix := [0] + Write32(0);
      HeaderWhole(d, prefix);
      assert d.header + prefix == prefix && prefix[1..] == Write32(0);
      Write32Big(0);
      assert d.buffer == [];
    } else {
      PrefixRun(d, n);
    }
  }

  // ----- varints and contents -----

  lemma DigitStep(d: Decoder, b: Byte)
    requires Midway(d) && d.Decoder? && d.phase != Content && d.remaining > 0 && d.digits <= 9
    ensures b >= 128 && d.digits < 9 ==>
              Raw(d, b) == (d.(remaining := d.remaining - 1, digits := d.digits + 1,
                               varint := d.varint + (b % 128) as nat * Power(d.digits)), [])
    ensures d.digits == 9 && b >= 2 ==> Raw(d, b) == (Broken, [])
    ensures b < 128 && (d.digits == 9 ==> b < 2) ==>
              Raw(d, b) == (OnVarint(d.(remaining := d.remaining - 1, varint := 0, digits := 0),
                                     d.varint + (b % 128) as nat * Power(d.digits)), [])
  {
    hide Power, OnVarint;
  }

  /** The value that is complete once these octets follow. */
  function Total(d: Decoder, v: Octets): nat
    requires d.Decoder?
  {
    d.varint + Power(d.digits) * Value(v)
  }

  lemma TotalNext(d: Decoder, e: Decoder, v: Octets)
    requires d.Decoder? && e.Decoder? && v != [] && e.digits == d.digits + 1
    requires e.varint == d.varint + (v[0] % 128) as nat * Power(d.digits)
    ensures Total(e, v[1..]) == Total(d, v)
  {
    Unfold(Power(d.digits), (v[0] % 128) as nat, Value(v[1..]));
  }

  lemma TotalLast(d: Decoder, b: Byte)
    requires d.Decoder?
    ensures Total(d, [b]) == d.varint + (b % 128) as nat * Power(d.digits)
  {
    assert [b][1..] == [];
    assert Value([b]) == (b % 128) as nat;
    hide Power, Value;
  }

  lemma {:induction false} VarintInner(d: Decoder, v: Octets)
    requires Midway(d) && d.Decoder? && d.phase != Content && |v| <= d.remaining && Ending(d.digits, v)
    ensures Inner(d, v) == (OnVarint(d.(remaining := d.remaining - |v|, varint := 0, digits := 0), Total(d, v)), [])
    decreases |v|
  {
    hide Inner, Raw, OnVarint, Midway, Power, Value, Total;
    MidwayDigits(d);
    InnerStep(d, v);
    DigitStep(d, v[0]);
    var e := Raw(d, v[0]).0;
    if |v| == 1 {
      assert v == [v[0]] && v[1..] == [];
      TotalLast(d, v[0]);
      InnerNothing(e);
    } else {
      assert v[0] >= 128;
      TotalNext(d, e, v);
      EndingNext(d.digits, v);
      VarintInner(e, v[1..]);
      assert d.(remaining := d.remaining - |v|, varint := 0, digits := 0) ==
             e.(remaining := e.remaining - |v[1..]|, varint := 0, digits := 0);
    }
  }

  lemma MidwayDigits(d: Decoder)
    requires Midway(d) && d.Decoder?
    ensures d.digits <= 9 && |d.groups| <= DEPTH_MAX && |d.header| == 5
    ensures d.phase == Content ==> 0 < d.left <= d.remaining && d.digits == 0
    ensures d.multi ==> d.buffer == []
  {
  }

  lemma EndingNext(digits: nat, v: Octets)
    requires |v| > 1
    ensures Ending(digits, v) <==> v[0] >= 128 && Ending(digits + 1, v[1..])
  {
    var rest := v[1..];
    if Ending(digits + 1, rest) && v[0] >= 128 {
      forall i | 0 <= i < |v| - 1 ensures v[i] >= 128 {
        assert i > 0 ==> rest[i - 1] == v[i];
      }
    }
  }

  /** At a boundary nothing is half done. */
  predicate Closed(d: Decoder) { d.Decoder? && d.phase == Tag && d.digits == 0 }

  /** If a boundary is reached, then through the end of this varint. */
  lemma {:induction false} VarintFound(d: Decoder, s: Octets) returns (k: nat)
    requires Midway(d) && d.Decoder? && d.phase != Content && |s| <= d.remaining
    requires Closed(Inner(d, s).0) && (s == [] ==> !Closed(d))
    ensures 1 <= k <= |s| && Ending(d.digits, s[..k])
    decreases |s|
  {
    hide Inner, Raw, OnVarint, Midway, Power;
    MidwayDigits(d);
    InnerNothing(d);
    InnerStep(d, s);
    DigitStep(d, s[0]);
    InnerBroken(s[1..]);
    k := 1;
    if s[0] >= 128 {
      var e := Raw(d, s[0]).0;
      var j := VarintFound(e, s[1..]);
      k := j + 1;
      assert s[..k][1..] == s[1..][..j];
      EndingNext(d.digits, s[..k]);
    }
  }

  lemma {:induction false} ContentInner(d: Decoder, s: Octets)
    requires Midway(d) && d.Decoder? && d.phase == Content && 0 < |s| <= d.left
    ensures |s| <= d.remaining
    ensures Inner(d, s) ==
            (d.(left := d.left - |s|, remaining := d.remaining - |s|, phase := if d.left == |s| then Tag else Content,
                buffer := if Taken(d) && !d.multi then d.buffer + s else d.buffer),
             if Taken(d) && d.multi then s else [])
    decreases |s|
  {
    hide Inner, Raw, Midway;
    MidwayDigits(d);
    InnerStep(d, s);
    ContentRaw(d, s[0]);
    var e := Raw(d, s[0]).0;
    Front(s, []);
    if |s| == 1 {
      InnerNothing(e);
      Nothing([s[0]]);
      Nothing([]);
    } else {
      ContentInner(e, s[1..]);
      Three(d.buffer, [s[0]], s[1..]);
      Nothing([]);
    }
  }

  lemma ContentRaw(d: Decoder, b: Byte)
    requires Midway(d) && d.Decoder? && d.phase == Content
    ensures d.remaining > 0 && d.left > 0 && Raw(d, b) == (StepContent(d, b), if Taken(d) && d.multi then [b] else [])
  {
  }

  /** If a boundary is reached, then through the end of this content. */
  lemma ContentFound(d: Decoder, s: Octets)
    requires Midway(d) && d.Decoder? && d.phase == Content && |s| <= d.remaining && Closed(Inner(d, s).0)
    ensures d.left <= |s|
  {
    hide Inner, Midway;
    if s == [] {
      InnerNothing(d);
    } else if |s| < d.left {
      ContentInner(d, s);
    }
  }

  // ----- tokens -----

  /** The open groups after a token, if it may stand there. */
  function Fold(groups: seq<nat>, t: Token): Option<seq<nat>> {
    if t.Open? then (if |groups| < DEPTH_MAX then Some(groups + [t.field]) else None)
    else if t.Close? then
      if groups != [] && groups[|groups| - 1] == t.field then Some(groups[..|groups| - 1]) else None
    else Some(groups)
  }

  predicate Delivers(groups: seq<nat>, t: Token) { groups == [] && t.Delimited? && t.field == 1 }

  /** At the beginning of a tag. */
  predicate At(d: Decoder) { Midway(d) && Closed(d) && d.varint == 0 }

  /** After a token: what it delivers is out in multi mode, and replaces what was kept in single mode. */
  predicate Passed(d: Decoder, t: Token, r: (Decoder, Octets))
    requires d.Decoder?
  {
    && At(r.0) && Fold(d.groups, t) == Some(r.0.groups) && r.0.multi == d.multi
    && r.0.buffer == (if Delivers(d.groups, t) && !d.multi then t.data else d.buffer)
    && r.1 == (if Delivers(d.groups, t) && d.multi then t.data else [])
  }

  /** What a tag means. */
  lemma TagMeans(d: Decoder, t: Token)
    requires d.Decoder? && d.phase == Tag && |d.groups| <= DEPTH_MAX && Proper(t)
    ensures var e := OnVarint(d, Value(t.tag)); var f := d.(field := t.field, wire := Wire(t));
            && (t.Number? ==> e == f.(phase := Varint))
            && (t.Delimited? ==> e == f.(phase := Length))
            && (t.Fixed64? ==> e == if 8 > d.remaining then Broken else f.(left := 8, phase := Content))
            && (t.Fixed32? ==> e == if 4 > d.remaining then Broken else f.(left := 4, phase := Content))
            && (t.Open? || t.Close? ==>
                  e == if Fold(d.groups, t).Some? then f.(groups := Fold(d.groups, t).value) else Broken)
  {
    hide Value, Spelled;
    TagParts(t.field, Wire(t));
  }

  lemma TagParts(field: nat, wire: nat)
    requires wire < 8
    ensures (8 * field + wire) / 8 == field && (8 * field + wire) % 8 == wire
  {
  }

  /** The tag of a token is read from where one begins. */
  lemma TagInner(d: Decoder, t: Token, rest: Octets)
    requires At(d) && Spelled(t.tag) && |t.tag| + |rest| <= d.remaining
    ensures Midway(OnVarint(d.(remaining := d.remaining - |t.tag|), Value(t.tag)))
    ensures var e := OnVarint(d.(remaining := d.remaining - |t.tag|), Value(t.tag));
            Inner(d, t.tag + rest) == Inner(e, rest)
  {
    hide Inner, OnVarint, Midway, Value;
    SpelledInner(d, t.tag, rest);
  }

  /** A varint is read from where one begins. */
  lemma SpelledInner(d: Decoder, v: Octets, rest: Octets)
    requires Midway(d) && d.Decoder? && d.phase != Content && d.digits == 0 && d.varint == 0
    requires Spelled(v) && |v| + |rest| <= d.remaining
    ensures Midway(OnVarint(d.(remaining := d.remaining - |v|), Value(v)))
    ensures var e := OnVarint(d.(remaining := d.remaining - |v|), Value(v));
            && (e.Decoder? ==> e.remaining == d.remaining - |v|) && Inner(d, v + rest) == Inner(e, rest)
  {
    hide Inner, OnVarint, Midway, Value;
    VarintInner(d, v);
    InnerConcat(d, v, rest);
    assert Total(d, v) == Value(v)
        && d.(remaining := d.remaining - |v|, varint := 0, digits := 0) == d.(remaining := d.remaining - |v|);
  }

  /** The content of a field that does not end before it. */
  lemma WholeContent(d: Decoder, s: Octets)
    requires Midway(d) && d.Decoder? && d.phase == Content && |s| == d.left
    ensures |s| <= d.remaining && Inner(d, s).0.Decoder?
    ensures var (e, out) := Inner(d, s);
            && e == d.(left := 0, remaining := d.remaining - |s|, phase := Tag,
                       buffer := if Taken(d) && !d.multi then d.buffer + s else d.buffer)
            && out == if Taken(d) && d.multi then s else []
  {
    hide Inner, Midway;
    MidwayDigits(d);
    ContentInner(d, s);
  }

  lemma NumberInner(d: Decoder, t: Token)
    requires At(d) && Proper(t) && t.Number? && |Spelling(t)| <= d.remaining
    ensures Passed(d, t, Inner(d, Spelling(t)))
  {
    hide Inner, OnVarint, Value, Spelled, Midway;
    MidwayDigits(d);
    TagInner(d, t, t.value);
    var d1 := d.(remaining := d.remaining - |t.tag|);
    TagMeans(d1, t);
    var e := OnVarint(d1, Value(t.tag));
    SpelledInner(e, t.value, []);
    Nothing(t.value);
    InnerNothing(OnVarint(e.(remaining := e.remaining - |t.value|), Value(t.value)));
    SkipsNumber(e.(remaining := e.remaining - |t.value|), Value(t.value));
  }

  lemma SkipsNumber(d: Decoder, value: nat)
    requires d.Decoder? && d.phase == Varint
    ensures OnVarint(d, value) == d.(phase := Tag)
  {
  }

  lemma FixedInner(d: Decoder, t: Token)
    requires At(d) && Proper(t) && (t.Fixed64? || t.Fixed32?) && |Spelling(t)| <= d.remaining
    ensures Passed(d, t, Inner(d, Spelling(t)))
  {
    hide Inner, OnVarint, Value, Spelled;
    TagInner(d, t, t.data);
    TagMeans(d.(remaining := d.remaining - |t.tag|), t);
    WholeContent(OnVarint(d.(remaining := d.remaining - |t.tag|), Value(t.tag)), t.data);
  }

  lemma GroupInner(d: Decoder, t: Token)
    requires At(d) && Proper(t) && (t.Open? || t.Close?) && |Spelling(t)| <= d.remaining && Fold(d.groups, t).Some?
    ensures Passed(d, t, Inner(d, Spelling(t)))
  {
    hide Inner, OnVarint, Value, Spelled;
    TagInner(d, t, []);
    TagMeans(d.(remaining := d.remaining - |t.tag|), t);
    InnerNothing(OnVarint(d.(remaining := d.remaining - |t.tag|), Value(t.tag)));
  }

  lemma LengthMeans(d: Decoder, value: nat)
    requires d.Decoder? && d.phase == Length
    ensures OnVarint(d, value) == if value > d.remaining then Broken else
              d.(buffer := if d.groups == [] && d.field == 1 && !d.multi then [] else d.buffer, left := value,
                 phase := if value > 0 then Content else Tag)
  {
  }

  lemma DelimitedInner(d: Decoder, t: Token)
    requires At(d) && Proper(t) && t.Delimited? && |Spelling(t)| <= d.remaining
    ensures Passed(d, t, Inner(d, Spelling(t)))
  {
    hide Inner, OnVarint, Value, Spelled, Midway;
    MidwayDigits(d);
    TagInner(d, t, t.length + t.data);
    var d1 := d.(remaining := d.remaining - |t.tag|);
    TagMeans(d1, t);
    var e := OnVarint(d1, Value(t.tag));
    SpelledInner(e, t.length, t.data);
    var e1 := e.(remaining := e.remaining - |t.length|);
    LengthMeans(e1, |t.data|);
    var f := OnVarint(e1, |t.data|);
    Nothing(t.data);
    if t.data == [] {
      InnerNothing(f);
    } else {
      WholeContent(f, t.data);
    }
  }

  lemma TokenInner(d: Decoder, t: Token)
    requires At(d) && Proper(t) && |Spelling(t)| <= d.remaining && Fold(d.groups, t).Some?
    ensures Passed(d, t, Inner(d, Spelling(t)))
  {
    hide Inner, At, Proper, Passed, Spelling, Fold;
    match t {
      case Number(_, _, _) => NumberInner(d, t);
      case Fixed64(_, _, _) => FixedInner(d, t);
      case Fixed32(_, _, _) => FixedInner(d, t);
      case Delimited(_, _, _, _) => DelimitedInner(d, t);
      case Open(_, _) => GroupInner(d, t);
      case Close(_, _) => GroupInner(d, t);
    }
  }

  // ----- every token that is accepted is proper -----

  /** The tag and what it announces. */
  lemma TagFound(d: Decoder, s: Octets) returns (tag: Octets, rest: Octets)
    requires At(d) && |s| <= d.remaining && s != [] && Closed(Inner(d, s).0)
    ensures s == tag + rest && Spelled(tag) && 1 <= Value(tag) / 8 <= FIELD_MAX && Value(tag) % 8 <= 5
    ensures Midway(OnVarint(d.(remaining := d.remaining - |tag|), Value(tag)))
    ensures var e := OnVarint(d.(remaining := d.remaining - |tag|), Value(tag));
            e.Decoder? && e.remaining >= |rest| && Inner(d, s) == Inner(e, rest)
  {
    hide Inner, Value, Midway;
    var k := VarintFound(d, s);
    tag, rest := s[..k], s[k..];
    assert s == tag + rest;
    SpelledInner(d, tag, rest);
    InnerBroken(rest);
  }

  lemma NumberFound(d: Decoder, s: Octets) returns (value: Octets)
    requires Midway(d) && d.Decoder? && d.phase == Varint && d.digits == 0 && |s| <= d.remaining
        && Closed(Inner(d, s).0)
    ensures Spelled(value) && value <= s
  {
    hide Inner, Midway, Value;
    var k := VarintFound(d, s);
    value := s[..k];
  }

  lemma DelimitedFound(d: Decoder, s: Octets) returns (length: Octets, data: Octets)
    requires Midway(d) && d.Decoder? && d.phase == Length && d.digits == 0 && d.varint == 0 && |s| <= d.remaining
    requires Closed(Inner(d, s).0)
    ensures Spelled(length) && Value(length) == |data| && length + data <= s
  {
    hide Inner, Midway, Value, OnVarint;
    var k := VarintFound(d, s);
    length := s[..k];
    var rest := s[k..];
    assert s == length + rest;
    SpelledInner(d, length, rest);
    InnerBroken(rest);
    LengthMeans(d.(remaining := d.remaining - k), Value(length));
    var e := OnVarint(d.(remaining := d.remaining - k), Value(length));
    if e.phase == Content { ContentFound(e, rest); }
    data := rest[..Value(length)];
    assert s == length + data + rest[Value(length)..];
  }

  lemma TokenFound(d: Decoder, s: Octets) returns (t: Token)
    requires At(d) && |s| <= d.remaining && s != [] && Closed(Inner(d, s).0)
    ensures Proper(t) && Spelling(t) <= s && Spelling(t) != [] && Fold(d.groups, t).Some?
  {
    hide Inner, Value, OnVarint, Midway;
    MidwayDigits(d);
    var tag, rest := TagFound(d, s);
    var field, wire := Value(tag) / 8, Value(tag) % 8;
    var d1 := d.(remaining := d.remaining - |tag|);
    var e := OnVarint(d1, Value(tag));
    WireMeans(d1, Value(tag));
    assert Value(tag) == 8 * field + wire;
    if wire == 0 {
      var value := NumberFound(e, rest);
      t := Number(field, tag, value);
    } else if wire == 1 {
      ContentFound(e, rest);
      t := Fixed64(field, tag, rest[..8]);
    } else if wire == 5 {
      ContentFound(e, rest);
      t := Fixed32(field, tag, rest[..4]);
    } else if wire == 2 {
      var length, data := DelimitedFound(e, rest);
      t := Delimited(field, tag, length, data);
    } else if wire == 3 {
      t := Open(field, tag);
    } else {
      t := Close(field, tag);
    }
    assert tag != [];
  }

  lemma WireMeans(d: Decoder, value: nat)
    requires d.Decoder? && d.phase == Tag && |d.groups| <= DEPTH_MAX
    requires 1 <= value / 8 <= FIELD_MAX && OnVarint(d, value).Decoder?
    ensures var e := OnVarint(d, value); var wire := value % 8;
            && e.digits == d.digits && e.varint == d.varint && e.remaining == d.remaining && wire <= 5
            && (wire == 0 ==> e.phase == Varint) && (wire == 2 ==> e.phase == Length)
            && (wire == 1 ==> e.phase == Content && e.left == 8) && (wire == 5 ==> e.phase == Content && e.left == 4)
            && (wire == 3 ==> |d.groups| < DEPTH_MAX)
            && (wire == 4 ==> d.groups != [] && d.groups[|d.groups| - 1] == value / 8)
  {
  }

  // ----- lists of tokens -----

  predicate AllProper(tokens: seq<Token>) { forall i :: 0 <= i < |tokens| ==> Proper(tokens[i]) }

  function Spellings(tokens: seq<Token>): Octets {
    if tokens == [] then [] else Spelling(tokens[0]) + Spellings(tokens[1..])
  }

  function FoldAll(groups: seq<nat>, tokens: seq<Token>): Option<seq<nat>>
    decreases |tokens|
  {
    if tokens == [] then Some(groups)
    else if Fold(groups, tokens[0]).None? then None
    else FoldAll(Fold(groups, tokens[0]).value, tokens[1..])
  }

  function Delivered(groups: seq<nat>, tokens: seq<Token>): seq<Octets>
    requires FoldAll(groups, tokens).Some?
    decreases |tokens|
  {
    if tokens == [] then [] else
      (if Delivers(groups, tokens[0]) then [tokens[0].data] else []) +
      Delivered(Fold(groups, tokens[0]).value, tokens[1..])
  }

  predicate PassedAll(d: Decoder, tokens: seq<Token>, r: (Decoder, Octets))
    requires d.Decoder? && FoldAll(d.groups, tokens).Some?
  {
    && At(r.0) && FoldAll(d.groups, tokens) == Some(r.0.groups) && r.0.multi == d.multi
    && r.0.buffer == (if d.multi then d.buffer else LastOr(Delivered(d.groups, tokens), d.buffer))
    && r.1 == (if d.multi then Concat(Delivered(d.groups, tokens)) else [])
  }

  lemma {:induction false} TokensInner(d: Decoder, tokens: seq<Token>)
    requires At(d) && AllProper(tokens) && |Spellings(tokens)| <= d.remaining && FoldAll(d.groups, tokens).Some?
    ensures PassedAll(d, tokens, Inner(d, Spellings(tokens)))
    decreases |tokens|
  {
    hide Inner, Midway, Proper, Spelling, Fold, Delivers;
    if tokens == [] {
      InnerNothing(d);
    } else {
      var t, rest := tokens[0], tokens[1..];
      TokenInner(d, t);
      InnerConcat(d, Spelling(t), Spellings(rest));
      var e := Inner(d, Spelling(t)).0;
      TokensInner(e, rest);
      PassedMore(d, t, Inner(d, Spelling(t)), rest, Inner(e, Spellings(rest)));
      assert tokens == [t] + rest;
    }
  }

  lemma PassedMore(d: Decoder, t: Token, r: (Decoder, Octets), rest: seq<Token>, q: (Decoder, Octets))
    requires d.Decoder? && Passed(d, t, r) && r.0.Decoder? && FoldAll(r.0.groups, rest).Some? && PassedAll(r.0, rest, q)
    ensures FoldAll(d.groups, [t] + rest).Some? && PassedAll(d, [t] + rest, (q.0, r.1 + q.1))
  {
    hide At, Fold, Delivers, FoldAll, Delivered, Concat, LastOr;
    FoldFirst(d.groups, t, rest);
    var more := Delivered(r.0.groups, rest);
    Nothing(q.1);
    Nothing([]);
    if Delivers(d.groups, t) {
      DeliversData(d.groups, t);
      ListFirst(t.data, more, d.buffer);
    }
  }

  /** The first token and then the others. */
  lemma FoldFirst(groups: seq<nat>, t: Token, rest: seq<Token>)
    ensures FoldAll(groups, [t] + rest) ==
              if Fold(groups, t).Some? then FoldAll(Fold(groups, t).value, rest) else None
    ensures FoldAll(groups, [t] + rest).Some? ==>
              Delivered(groups, [t] + rest) == if Delivers(groups, t)
                  then [t.data] + Delivered(Fold(groups, t).value, rest)
                                               else Delivered(Fold(groups, t).value, rest)
  {
    hide Fold;
    assert ([t] + rest)[0] == t && ([t] + rest)[1..] == rest;
    if FoldAll(groups, [t] + rest).Some? {
      var tail := Delivered(Fold(groups, t).value, rest);
      assert [] + tail == tail;
    }
  }

  lemma ListFirst(x: Octets, list: seq<Octets>, s: Octets)
    ensures LastOr([x] + list, s) == LastOr(list, x) && Concat([x] + list) == x + Concat(list)
  {
    assert ([x] + list)[1..] == list;
  }

  lemma DeliversData(groups: seq<nat>, t: Token)
    requires Delivers(groups, t)
    ensures t.Delimited?
  {
  }

  /** Octets inside a message up to a boundary are tokens. */
  lemma {:induction false} TokensFound(d: Decoder, s: Octets) returns (tokens: seq<Token>)
    requires At(d) && |s| <= d.remaining && Closed(Inner(d, s).0)
    ensures AllProper(tokens) && Spellings(tokens) == s && FoldAll(d.groups, tokens).Some?
    decreases |s|
  {
    hide Inner, Midway, Proper, Spelling, Fold, Delivers;
    tokens := [];
    if s != [] {
      var t := TokenFound(d, s);
      var rest := s[|Spelling(t)|..];
      assert s == Spelling(t) + rest;
      TokenInner(d, t);
      InnerConcat(d, Spelling(t), rest);
      var more := TokensFound(Inner(d, Spelling(t)).0, rest);
      tokens := [t] + more;
      assert tokens[0] == t && tokens[1..] == more;
    }
  }

  // ----- items and tokens -----

  function FlatItem(i: Item): seq<Token>
    decreases i
  {
    match i
    case Leaf(t) => [t]
    case Group(open, items, close) => [open] + Flat(items) + [close]
  }

  function Flat(items: seq<Item>): seq<Token>
    decreases items
  {
    if items == [] then [] else FlatItem(items[0]) + Flat(items[1..])
  }

  lemma {:induction false} SpellingsConcat(a: seq<Token>, b: seq<Token>)
    ensures Spellings(a + b) == Spellings(a) + Spellings(b)
    decreases |a|
  {
    hide Spelling;
    if a == [] {
      assert a + b == b;
      Nothing(Spellings(b));
    } else {
      assert (a + b)[0] == a[0] && (a + b)[1..] == a[1..] + b;
      SpellingsConcat(a[1..], b);
      Three(Spelling(a[0]), Spellings(a[1..]), Spellings(b));
    }
  }

  lemma SpellingsOne(t: Token)
    ensures Spellings([t]) == Spelling(t)
  {
    hide Spelling;
    assert [t][1..] == [];
    Nothing(Spelling(t));
  }

  /** The encoding is that of the tokens, and those are proper. */
  lemma {:induction false} FlatItems(items: seq<Item>, room: nat)
    requires ProperItems(items, room)
    ensures Encode(items) == Spellings(Flat(items)) && AllProper(Flat(items))
    decreases items
  {
    hide Spelling, Proper;
    if items != [] {
      FlatOne(items[0], room);
      FlatItems(items[1..], room);
      SpellingsConcat(FlatItem(items[0]), Flat(items[1..]));
    }
  }

  lemma {:induction false} FlatOne(i: Item, room: nat)
    requires ProperItem(i, room)
    ensures EncodeItem(i) == Spellings(FlatItem(i)) && AllProper(FlatItem(i))
    decreases i
  {
    hide Spelling, Proper;
    match i {
      case Leaf(t) => SpellingsOne(t);
      case Group(open, items, close) =>
        FlatItems(items, room - 1);
        SpellingsConcat([open] + Flat(items), [close]);
        SpellingsConcat([open], Flat(items));
        SpellingsOne(open);
        SpellingsOne(close);
    }
  }

  /** Items leave the open groups as they are; outside groups they deliver their payloads. */
  predicate Neutral(groups: seq<nat>, tokens: seq<Token>, payloads: seq<Octets>, rest: seq<Token>) {
    && FoldAll(groups, tokens + rest) == FoldAll(groups, rest)
    && (FoldAll(groups, rest).Some? ==>
          Delivered(groups, tokens + rest) == (if groups == [] then payloads else []) + Delivered(groups, rest))
  }

  lemma {:induction false} ItemsNeutral(groups: seq<nat>, items: seq<Item>, rest: seq<Token>)
    requires |groups| <= DEPTH_MAX && ProperItems(items, DEPTH_MAX - |groups|)
    ensures Neutral(groups, Flat(items), Payloads(items), rest)
    decreases items
  {
    hide FoldAll, Delivered;
    if items == [] {
      assert [] + rest == rest;
      assert forall list: seq<Octets> :: [] + list == list;
    } else {
      var first, more := FlatItem(items[0]), Flat(items[1..]);
      ItemNeutral(groups, items[0], more + rest);
      ItemsNeutral(groups, items[1..], rest);
      assert (first + more) + rest == first + (more + rest);
      if FoldAll(groups, rest).Some? {
        JoinLists(if Payload(items[0]) then [items[0].token.data] else [], Payloads(items[1..]),
                  Delivered(groups, rest));
      }
    }
  }

  lemma JoinLists(a: seq<Octets>, b: seq<Octets>, c: seq<Octets>)
    ensures a + (b + c) == (a + b) + c && [] + c == c
  {
  }

  lemma {:induction false} ItemNeutral(groups: seq<nat>, i: Item, rest: seq<Token>)
    requires |groups| <= DEPTH_MAX && ProperItem(i, DEPTH_MAX - |groups|)
    ensures Neutral(groups, FlatItem(i), if Payload(i) then [i.token.data] else [], rest)
    decreases i
  {
    hide Proper, Delivers;
    match i {
      case Leaf(t) => LeafNeutral(groups, t, rest);
      case Group(open, items, close) => GroupNeutral(groups, i, rest);
    }
  }

  lemma LeafNeutral(groups: seq<nat>, t: Token, rest: seq<Token>)
    requires !t.Open? && !t.Close?
    ensures Neutral(groups, [t], if Payload(Leaf(t)) then [t.data] else [], rest)
  {
    hide FoldAll, Delivered;
    FoldFirst(groups, t, rest);
    if FoldAll(groups, rest).Some? {
      var tail := Delivered(groups, rest);
      assert [] + tail == tail;
    }
  }

  lemma {:induction false} GroupNeutral(groups: seq<nat>, i: Item, rest: seq<Token>)
    requires |groups| <= DEPTH_MAX && i.Group? && ProperItem(i, DEPTH_MAX - |groups|)
    ensures Neutral(groups, FlatItem(i), [], rest)
    decreases i, 0
  {
    hide Proper;
    var open, items, close := i.open, i.items, i.close;
    var inner := groups + [open.field];
    var closing := [close] + rest;
    ItemsNeutral(inner, items, closing);
    GroupFirst(open, items, close, rest);
    OpenFold(groups, open, Flat(items) + closing);
    assert inner[..|groups|] == groups;
    CloseFold(inner, close, rest);
    if FoldAll(groups, rest).Some? {
      var tail := Delivered(groups, rest);
      assert [] + tail == tail;
    }
  }

  lemma OpenFold(groups: seq<nat>, t: Token, rest: seq<Token>)
    requires t.Open? && |groups| < DEPTH_MAX
    ensures FoldAll(groups, [t] + rest) == FoldAll(groups + [t.field], rest)
    ensures FoldAll(groups, [t] + rest).Some? ==> Delivered(groups, [t] + rest) == Delivered(groups + [t.field], rest)
  {
    hide FoldAll, Delivered;
    FoldFirst(groups, t, rest);
  }

  lemma CloseFold(groups: seq<nat>, t: Token, rest: seq<Token>)
    requires t.Close? && groups != [] && groups[|groups| - 1] == t.field
    ensures FoldAll(groups, [t] + rest) == FoldAll(groups[..|groups| - 1], rest)
    ensures FoldAll(groups, [t] + rest).Some? ==>
              Delivered(groups, [t] + rest) == Delivered(groups[..|groups| - 1], rest)
  {
    hide FoldAll, Delivered;
    FoldFirst(groups, t, rest);
  }

  /** Tokens that close every group are items, and then, in a group, the tag that closes it. */
  lemma {:induction false} ItemsFound(groups: seq<nat>, tokens: seq<Token>) returns (items: seq<Item>, rest: seq<Token>)
    requires |groups| <= DEPTH_MAX && AllProper(tokens) && FoldAll(groups, tokens) == Some([])
    ensures tokens == Flat(items) + rest && ProperItems(items, DEPTH_MAX - |groups|) && AllProper(rest)
    ensures if groups == [] then rest == []
            else rest != [] && rest[0].Close? && rest[0].field == groups[|groups| - 1] &&
                 FoldAll(groups[..|groups| - 1], rest[1..]) == Some([])
    decreases |tokens|
  {
    hide Proper, FoldAll, Flat, ProperItems;
    items, rest := [], tokens;
    NoItems(groups, tokens);
    if tokens != [] {
      var t := tokens[0];
      After(tokens);
      FoldFirst(groups, t, tokens[1..]);
      if t.Open? {
        var inner := groups + [t.field];
        var within, after := ItemsFound(inner, tokens[1..]);
        Peel(groups, t.field);
        After(after);
        var more, last := ItemsFound(groups, after[1..]);
        items, rest := [Group(t, within, after[0])] + more, last;
        ItemsFirst(Group(t, within, after[0]), more, last, DEPTH_MAX - |groups|);
        GroupFirst(t, within, after[0], Flat(more) + last);
      } else if !t.Close? {
        var more, last := ItemsFound(groups, tokens[1..]);
        items, rest := [Leaf(t)] + more, last;
        ItemsFirst(Leaf(t), more, last, DEPTH_MAX - |groups|);
      }
    }
  }

  lemma Peel(groups: seq<nat>, field: nat)
    ensures (groups + [field])[..|groups|] == groups
  {
  }

  lemma After(tokens: seq<Token>)
    requires tokens != []
    ensures tokens == [tokens[0]] + tokens[1..]
  {
  }

  lemma NoItems(groups: seq<nat>, tokens: seq<Token>)
    ensures Flat([]) + tokens == tokens && ProperItems([], DEPTH_MAX) && forall n: nat :: ProperItems([], n)
    ensures FoldAll(groups, []) == Some(groups)
  {
    assert [] + tokens == tokens;
  }

  lemma ItemsFirst(i: Item, items: seq<Item>, rest: seq<Token>, room: nat)
    ensures Flat([i] + items) + rest == FlatItem(i) + (Flat(items) + rest)
    ensures ProperItems([i] + items, room) <==> ProperItem(i, room) && ProperItems(items, room)
  {
    hide FlatItem, ProperItem;
    assert ([i] + items)[0] == i && ([i] + items)[1..] == items;
    assert (FlatItem(i) + Flat(items)) + rest == FlatItem(i) + (Flat(items) + rest);
  }

  lemma GroupFirst(open: Token, items: seq<Item>, close: Token, rest: seq<Token>)
    ensures FlatItem(Group(open, items, close)) + rest == [open] + (Flat(items) + ([close] + rest))
  {
    hide Flat;
  }

  // ----- whole messages -----

  /** The end of a message is accepted between two tokens, outside groups. */
  lemma EndExact(d: Decoder)
    requires Midway(d) && (d.Decoder? ==> d.remaining == 0)
    ensures Ended(d).0.Decoder? <==> Closed(d) && d.groups == []
    ensures Ended(d).0.Decoder? ==>
              Idle(Ended(d).0, d.multi) && Ended(d).1 == (if d.multi then [] else d.buffer)
  {
  }

  lemma StartedAt(d: Decoder, n: nat)
    requires Sound(d) && d.Decoder? && d.header == [] && n <= MESSAGE_LIMIT
    ensures var e := Started(d, n); At(e) && e.remaining == n && e.groups == [] && e.multi == d.multi && e.buffer == []
  {
    hide Midway, Sound, Started;
    StartedRun(d, n);
    StartedWith(d, n);
  }

  /** The encoding of a message is accepted, and this is what it delivers. */
  lemma MessageRead(d: Decoder, items: seq<Item>, body: Octets)
    requires Sound(d) && d.Decoder? && d.header == [] && |body| <= MESSAGE_LIMIT && Encodes(items, body)
    ensures Idle(Run(d, Framed(body)).0, d.multi) && Run(d, Framed(body)).1 == Delivery(d.multi, items)
  {
    hide Run, Inner, Midway, Sound, Idle, Ended, Started, Framed, FoldAll, Delivered, Concat, Encode, ProperItems,
        AllProper, Spellings, Flat, Payloads, LastOr;
    var e := Started(d, |body|);
    StartedAt(d, |body|);
    MessageInner(d, body);
    FlatItems(items, DEPTH_MAX);
    ItemsNeutral([], items, []);
    FoldNone([]);
    var tokens := Flat(items);
    assert tokens + [] == tokens && Payloads(items) + [] == Payloads(items);
    TokensInner(e, tokens);
    var (f, out) := Inner(e, body);
    EndExact(f);
    Nothing(out);
    Nothing(LastOr(Payloads(items), []));
  }

  lemma FoldNone(groups: seq<nat>)
    ensures FoldAll(groups, []) == Some(groups) && Delivered(groups, []) == []
  {
  }

  /** What is accepted is the encoding of a message. */
  lemma MessageFound(d: Decoder, body: Octets) returns (items: seq<Item>)
    requires Sound(d) && d.Decoder? && d.header == [] && |body| <= MESSAGE_LIMIT && Run(d, Framed(body)).0.Decoder?
    ensures Encodes(items, body)
  {
    hide Run, Inner, Midway, Sound, Idle, Ended, Started, Framed, FoldAll, Encode, ProperItems, AllProper, Spellings,
        Flat;
    var e := Started(d, |body|);
    StartedAt(d, |body|);
    MessageInner(d, body);
    var f := Inner(e, body).0;
    EndExact(f);
    var tokens := TokensFound(e, body);
    TokensInner(e, tokens);
    var rest;
    items, rest := ItemsFound([], tokens);
    assert Flat(items) + [] == Flat(items);
    FlatItems(items, DEPTH_MAX);
  }

  /** A message of at most 16 MiB is accepted if and only if it is the encoding of some list of fields,
      with groups up to 64 deep; whichever list that is says what is delivered. */
  lemma MessageExact(d: Decoder, body: Octets)
    requires Sound(d) && d.Decoder? && d.header == [] && |body| <= MESSAGE_LIMIT
    ensures Run(d, Framed(body)).0.Decoder? <==> exists items :: Encodes(items, body)
    ensures forall items :: Encodes(items, body) ==>
              Idle(Run(d, Framed(body)).0, d.multi) && Run(d, Framed(body)).1 == Delivery(d.multi, items)
  {
    hide Run, Sound, Framed, Encodes, Delivery;
    if Run(d, Framed(body)).0.Decoder? {
      var items := MessageFound(d, body);
    }
    forall items | Encodes(items, body)
      ensures Idle(Run(d, Framed(body)).0, d.multi) && Run(d, Framed(body)).1 == Delivery(d.multi, items)
    {
      MessageRead(d, items, body);
    }
  }

  // ----- whole streams -----

  predicate Fits(items: seq<Item>) { ProperItems(items, DEPTH_MAX) && |Encode(items)| <= MESSAGE_LIMIT }

  predicate AllFit(messages: seq<seq<Item>>) { forall i :: 0 <= i < |messages| ==> Fits(messages[i]) }

  function Stream(messages: seq<seq<Item>>): Octets
    requires AllFit(messages)
  {
    if messages == [] then [] else
      assert Fits(messages[0]);
      Framed(Encode(messages[0])) + Stream(messages[1..])
  }

  function Deliveries(multi: bool, messages: seq<seq<Item>>): Octets {
    if messages == [] then [] else Delivery(multi, messages[0]) + Deliveries(multi, messages[1..])
  }

  /** The messages of a stream. */
  predicate Carries(messages: seq<seq<Item>>, s: Octets) { AllFit(messages) && Stream(messages) == s }

  lemma StreamFirst(items: seq<Item>, messages: seq<seq<Item>>, rest: Octets, multi: bool)
    requires Fits(items) && Carries(messages, rest)
    ensures Carries([items] + messages, Framed(Encode(items)) + rest)
    ensures Deliveries(multi, [items] + messages) == Delivery(multi, items) + Deliveries(multi, messages)
  {
    hide Fits, Framed, Delivery;
    assert ([items] + messages)[0] == items && ([items] + messages)[1..] == messages;
  }

  lemma {:induction false} StreamRead(d: Decoder, messages: seq<seq<Item>>)
    requires Sound(d) && d.Decoder? && d.header == [] && AllFit(messages)
    ensures var (e, out) := Run(d, Stream(messages)); Idle(e, d.multi) && out == Deliveries(d.multi, messages)
    decreases |messages|
  {
    hide Run, Sound, Framed, Delivery, Encode, ProperItems;
    if messages == [] {
      RunNothing(d);
    } else {
      assert Fits(messages[0]);
      MessageRead(d, messages[0], Encode(messages[0]));
      RunConcat(d, Framed(Encode(messages[0])), Stream(messages[1..]));
      StreamRead(Run(d, Framed(Encode(messages[0]))).0, messages[1..]);
    }
  }

  lemma Big32Write(s: Octets)
    requires |s| == 4
    ensures Write32(Big32(s)) == s
  {
    hide Big;
    FourDigits(s[0], s[1], s[2], s[3]);
  }

  /** The prefix of what is accepted announces octets that follow. */
  lemma FirstMessage(d: Decoder, s: Octets) returns (n: nat)
    requires Sound(d) && d.Decoder? && d.header == [] && s != [] && Idle(Run(d, s).0, d.multi)
    ensures n <= MESSAGE_LIMIT && 5 + n <= |s| && s == Framed(s[5..5 + n]) + s[5 + n..]
  {
    hide Run, Big32, Write32, Sound, Started, OpenMessage;
    WholePrefix(d, s);
    var h, rest := s[..5], s[5..];
    Nothing(h);
    assert s == h + rest;
    HeaderWhole(d, h);
    RunConcat(d, h, rest);
    BrokenStays(rest);
    OpensProperly(d, h);
    n := Big32(h[1..]);
    WholeBody(d, n, rest);
    assert s == (h + s[5..5 + n]) + s[5 + n..];
  }

  lemma WholePrefix(d: Decoder, s: Octets)
    requires Sound(d) && d.Decoder? && d.header == [] && s != [] && Idle(Run(d, s).0, d.multi)
    ensures |s| >= 5
  {
    hide Run, Sound;
    if |s| < 5 { HeaderRun(d, s); }
  }

  lemma OpensProperly(d: Decoder, h: Octets)
    requires d.Decoder? && |h| == 5 && OpenMessage(d, h).0.Decoder?
    ensures Big32(h[1..]) <= MESSAGE_LIMIT && h == [0] + Write32(Big32(h[1..]))
  {
    hide Big32, Write32;
    Big32Write(h[1..]);
  }

  lemma WholeBody(d: Decoder, n: nat, rest: Octets)
    requires Sound(d) && d.Decoder? && d.header == [] && n <= MESSAGE_LIMIT
    requires Idle(Run(Run(d, [0] + Write32(n)).0, rest).0, d.multi)
    ensures n <= |rest|
  {
    hide Run, Sound, Started, Write32;
    if |rest| < n {
      StartedRun(d, n);
      StartedWith(d, n);
      Unfinished(Started(d, n), rest);
    }
  }

  /** Before its end a message is not left. */
  lemma Unfinished(d: Decoder, s: Octets)
    requires Midway(d) && d.Decoder? && |s| < d.remaining
    ensures Sound(d) && Ended(d) == (d, []) && (Run(d, s).0.Decoder? ==> |Run(d, s).0.header| == 5)
  {
    hide Run, Inner;
    MidwaySound(d);
    NotEnded(d);
    if s == [] {
      RunNothing(d);
    } else {
      RunInner(d, s);
      NotEnded(Inner(d, s).0);
    }
  }

  lemma {:induction false} StreamFound(d: Decoder, s: Octets) returns (messages: seq<seq<Item>>)
    requires Sound(d) && d.Decoder? && d.header == [] && Idle(Run(d, s).0, d.multi)
    ensures Carries(messages, s)
    decreases |s|
  {
    hide Run, Sound, Framed, Delivery, Encode, ProperItems, Carries;
    messages := [];
    NoMessages();
    if s != [] {
      var n := FirstMessage(d, s);
      var body, rest := s[5..5 + n], s[5 + n..];
      RunConcat(d, Framed(body), rest);
      BrokenStays(rest);
      var items := MessageFound(d, body);
      MessageRead(d, items, body);
      var more := StreamFound(Run(d, Framed(body)).0, rest);
      messages := [items] + more;
      StreamFirst(items, more, rest, d.multi);
    }
  }

  lemma NoMessages()
    ensures Carries([], [])
  {
  }

  /** A stream ends between messages with no rule broken if and only if it is a list of messages, each the
      encoding of its fields; they say what is delivered. */
  lemma StreamExact(d: Decoder, s: Octets)
    requires Sound(d) && d.Decoder? && d.header == []
    ensures Idle(Run(d, s).0, d.multi) <==> exists messages :: Carries(messages, s)
    ensures forall messages :: Carries(messages, s) ==> Run(d, s).1 == Deliveries(d.multi, messages)
  {
    hide Run, Sound, AllFit, Stream, Deliveries;
    if Idle(Run(d, s).0, d.multi) {
      var messages := StreamFound(d, s);
    }
    forall messages | Carries(messages, s)
      ensures Idle(Run(d, s).0, d.multi) && Run(d, s).1 == Deliveries(d.multi, messages)
    {
      StreamRead(d, messages);
    }
  }
}
