/** src/http2.c core_http2_response_headers and core_http2_response_data: the shape of a response,
    sections 8.1 and 8.1.1 of RFC 9113. */
module Http2Response {
  import opened Bytes

  const UINT64_MAX := 0xFFFF_FFFF_FFFF_FFFF

  /** What emit_header left of a header block; `status` is 0 unless one was seen. */
  datatype Block = Block(status: nat, seen: bool, pseudo: bool, te: bool, hasLength: bool, length: nat)

  datatype Event = Headers(block: Block, end: bool) | Data(octets: nat, end: bool)

  datatype State = State(headers: bool, ended: bool, hasLength: bool, length: nat, noBody: bool, received: nat)

  function Start(head: bool): State { State(false, false, false, 0, head, 0) }

  function Finish(s: State, end: bool): Option<State> {
    if !end then Some(s)
    else if s.hasLength && !s.noBody && s.received != s.length then None
    else Some(s.(ended := true))
  }

  /** core_http2_response_headers. */
  function OnHeaders(s: State, b: Block, end: bool): Option<State> {
    if s.ended || b.pseudo || b.te || b.status == 101 then None
    else if 100 <= b.status < 200 then (if s.headers || end || b.hasLength then None else Some(s))
    else if !s.headers then
      if !b.seen || b.status < 200 || b.status > 599 then None
      else if b.status == 204 && b.hasLength then None
      else Finish(s.(headers := true, hasLength := b.hasLength, length := b.length, noBody := s.noBody
          || b.status == 204 || b.status == 304), end)
    else if b.seen || !end || b.hasLength then None
    else Finish(s, end)
  }

  /** core_http2_response_data. */
  function OnData(s: State, octets: nat, end: bool): Option<State> {
    if !s.headers || s.ended || (s.noBody && octets > 0) || octets > UINT64_MAX - s.received then None
    else if s.hasLength && s.received + octets > s.length then None
    else Finish(s.(received := s.received + octets), end)
  }

  function Step(s: State, e: Event): Option<State> {
    match e
    case Headers(b, end) => OnHeaders(s, b, end)
    case Data(n, end) => OnData(s, n, end)
  }

  function Run(head: bool, events: seq<Event>): Option<State> {
    if events == [] then Some(Start(head)) else
      match Run(head, events[..|events| - 1])
      case None => None
      case Some(s) => Step(s, events[|events| - 1])
  }

  // ----- what a response is -----

  predicate Informational(e: Event) { e.Headers? && 100 <= e.block.status < 200 }

  /** How many informational header blocks come first. */
  function Prelude(events: seq<Event>): (k: nat)
    ensures k <= |events|
    ensures forall i :: 0 <= i < k ==> Informational(events[i])
    ensures k < |events| ==> !Informational(events[k])
  {
    if events == [] || !Informational(events[0]) then 0 else
      assert forall i :: 0 <= i < |events[1..]| ==> events[1..][i] == events[i + 1];
      1 + Prelude(events[1..])
  }

  function Octets(events: seq<Event>): nat {
    if events == [] then 0
        else Octets(events[..|events| - 1]) + match events[|events| - 1] case Headers(_, _) => 0 case Data(n, _) => n
  }

  predicate Clean(e: Event) { e.Headers? ==> !e.block.pseudo && !e.block.te && e.block.status != 101 }

  /** Informational blocks end nothing and declare nothing. */
  predicate GoodPrelude(e: Event) { Informational(e) && !e.end && !e.block.hasLength }

  predicate Final(e: Event) {
    e.Headers? && e.block.seen && 200 <= e.block.status <= 599 && !(e.block.status == 204 && e.block.hasLength)
  }

  /** After the final header: body, and at last perhaps trailers, which end the response. */
  predicate Tail(e: Event) {
    e.Data? || (!Informational(e) && !e.block.seen && e.end && !e.block.hasLength)
  }

  predicate Bodiless(head: bool, e: Event) { head || (e.Headers? && (e.block.status == 204 || e.block.status == 304)) }

  predicate Placed(events: seq<Event>, i: nat)
    requires i < |events|
  {
    var k := Prelude(events);
    && Clean(events[i])
    && (i < k ==> GoodPrelude(events[i])) && (i == k ==> Final(events[i])) && (i > k ==> Tail(events[i]))
    && (events[i].end ==> i == |events| - 1)
  }

  /** The body agrees with the final header. */
  predicate Measured(head: bool, events: seq<Event>) {
    var k := Prelude(events);
    k < |events| && events[k].Headers? ==>
      var b := events[k].block;
      && Octets(events) <= UINT64_MAX
      && (Bodiless(head, events[k]) ==> Octets(events) == 0)
      && (b.hasLength ==> Octets(events) <= b.length)
      && (b.hasLength && !Bodiless(head, events[k]) && events[|events| - 1].end ==> Octets(events) == b.length)
  }

  predicate Message(head: bool, events: seq<Event>) {
    (forall i :: 0 <= i < |events| ==> Placed(events, i)) && Measured(head, events)
  }

  /** The state is what the events so far say. */
  predicate Stands(head: bool, events: seq<Event>, s: State) {
    var k := Prelude(events);
    && s.headers == (k < |events|) && s.received == Octets(events)
    && s.ended == (events != [] && events[|events| - 1].end)
    && (if k < |events| then
          && events[k].Headers? && s.hasLength == events[k].block.hasLength && s.length == events[k].block.length
              && s.noBody == Bodiless(head, events[k])
        else !s.hasLength && s.noBody == head && s.received == 0)
  }

  lemma {:induction false} PreludeNext(before: seq<Event>, e: Event)
    ensures Prelude(before + [e]) == if Prelude(before) == |before|
        && Informational(e) then |before| + 1 else Prelude(before)
  {
    if before == [] {
      assert before + [e] == [e] && [e][1..] == [];
    } else if Informational(before[0]) {
      PreludeNext(before[1..], e);
      assert (before + [e])[1..] == before[1..] + [e];
    }
  }

  lemma OctetsNext(before: seq<Event>, e: Event)
    ensures Octets(before + [e]) == Octets(before) + match e case Headers(_, _) => 0 case Data(n, _) => n
  {
    assert (before + [e])[..|before|] == before;
  }

  /** Earlier events stay in place as long as none of them ended the response. */
  lemma PlacedBefore(before: seq<Event>, e: Event)
    ensures (forall i :: 0 <= i < |before| ==> Placed(before + [e], i)) <==>
            (forall i :: 0 <= i < |before| ==> Placed(before, i)) && (before != [] ==> !before[|before| - 1].end)
  {
    var events := before + [e];
    PreludeNext(before, e);
    if forall i :: 0 <= i < |before| ==> Placed(events, i) {
      forall i | 0 <= i < |before| ensures Placed(before, i) { assert Placed(events, i); }
      if before != [] { assert Placed(events, |before| - 1); }
    }
    if (forall i :: 0 <= i < |before| ==> Placed(before, i)) && (before != [] ==> !before[|before| - 1].end) {
      forall i | 0 <= i < |before| ensures Placed(events, i) { assert Placed(before, i); }
    }
  }

  lemma StepExact(head: bool, before: seq<Event>, s: State, e: Event)
    requires Message(head, before) && Stands(head, before, s)
    ensures var events := before + [e];
            && (Step(s, e).Some? <==> Message(head, events))
            && (Step(s, e).Some? ==> Stands(head, events, Step(s, e).value))
  {
    var events := before + [e];
    PreludeNext(before, e);
    OctetsNext(before, e);
    PlacedBefore(before, e);
    hide Octets, Prelude;
    assert Message(head, events) <==>
        (before != [] ==> !before[|before| - 1].end) && Placed(events, |before|) && Measured(head, events);
  }

  /** The measure of a longer message bounds that of a shorter one. */
  lemma MeasuredBefore(head: bool, before: seq<Event>, e: Event)
    requires Message(head, before + [e])
    ensures Message(head, before)
  {
    var events := before + [e];
    PreludeNext(before, e);
    OctetsNext(before, e);
    PlacedBefore(before, e);
    hide Octets, Prelude;
    if before != [] { assert Placed(events, |before| - 1); }
  }

  /** Events are accepted exactly when they are, so far, a response: informational headers, one
      final header, a body within the declared length and equal to it at the end, trailers. */
  lemma {:induction false} RunExact(head: bool, events: seq<Event>)
    ensures Run(head, events).Some? <==> Message(head, events)
    ensures Run(head, events).Some? ==> Stands(head, events, Run(head, events).value)
  {
    if events != [] {
      var before := events[..|events| - 1];
      var e := events[|events| - 1];
      assert events == before + [e];
      RunExact(head, before);
      hide Message, Stands, Step;
      if Message(head, events) { MeasuredBefore(head, before, e); }
      if Run(head, before).Some? { StepExact(head, before, Run(head, before).value, e); }
    }
  }

  /** Over any accepted run the octets never exceed a declared length, and at the end they are
      exactly as many unless the response has no body. */
  lemma LengthKept(head: bool, events: seq<Event>, n: nat)
    requires Run(head, events).Some? && n <= |events| && Prelude(events) < |events|
    ensures var e := events[Prelude(events)];
            && Final(e)
            && (e.block.hasLength ==> Octets(events[..n]) <= e.block.length)
            && (e.block.hasLength && Run(head, events).value.ended && !Bodiless(head, e) ==>
                Octets(events) == e.block.length)
  {
    RunExact(head, events);
    assert Placed(events, Prelude(events));
    OctetsGrow(events, n);
    hide Octets, Prelude, Run;
  }

  lemma {:induction false} OctetsGrow(events: seq<Event>, n: nat)
    requires n <= |events|
    ensures Octets(events[..n]) <= Octets(events)
  {
    if n < |events| {
      OctetsGrow(events[..|events| - 1], n);
      assert events[..|events| - 1][..n] == events[..n];
    } else {
      assert events[..n] == events;
    }
  }

  // ----- the code -----

  /** core_http2_response_t with the events it has accepted; `head` is set when the request was HEAD.
      A call that fails leaves it in no useful state. */
  class Response {
    var headers: bool
    var ended: bool
    var hasLength: bool
    var length: nat
    var noBody: bool
    var received: nat
    ghost const head: bool
    ghost var events: seq<Event>

    /** What was accepted is the beginning of a response, and the fields say where it stands. */
    ghost predicate Valid()
      reads this
    {
      Message(head, events) && Stands(head, events, State(headers, ended, hasLength, length, noBody, received))
    }

    constructor (head: bool)
      ensures Valid() && events == [] && this.head == head
    {
      headers, ended, hasLength, length, noBody, received := false, false, false, 0, head, 0;
      this.head, events := head, [];
    }

    /** core_http2_response_headers accepts a header block exactly if a response may go on with it. */
    method ReceiveHeaders(b: Block, end: bool) returns (ok: bool)
      requires Valid()
      modifies this
      ensures ok <==> Message(head, old(events) + [Headers(b, end)])
      ensures ok ==> Valid() && events == old(events) + [Headers(b, end)]
    {
      StepExact(head, events, State(headers, ended, hasLength, length, noBody, received), Headers(b, end));
      hide Message, Stands;
      if ended || b.pseudo || b.te || b.status == 101 { return false; }
      if b.status >= 100 && b.status < 200 {
        if headers || end || b.hasLength { return false; }
      } else {
        if !headers {
          if !b.seen || b.status < 200 || b.status > 599 { return false; }
          headers, hasLength, length := true, b.hasLength, b.length;
          noBody := noBody || b.status == 204 || b.status == 304;
          if b.status == 204 && b.hasLength { return false; }
        } else if b.seen || !end || b.hasLength {
          return false;
        }
        if end && hasLength && !noBody && received != length { return false; }
        ended := ended || end;
      }
      events := events + [Headers(b, end)];
      ok := true;
    }

    /** core_http2_response_data accepts octets exactly if a response may go on with them. */
    method ReceiveData(octets: nat, end: bool) returns (ok: bool)
      requires Valid()
      modifies this
      ensures ok <==> Message(head, old(events) + [Data(octets, end)])
      ensures ok ==> Valid() && events == old(events) + [Data(octets, end)]
    {
      StepExact(head, events, State(headers, ended, hasLength, length, noBody, received), Data(octets, end));
      hide Message, Stands;
      if !headers || ended || (noBody && octets > 0) || octets > UINT64_MAX - received { return false; }
      received := received + octets;
      if hasLength && received > length { return false; }
      if end && hasLength && !noBody && received != length { return false; }
      ended := ended || end;
      events := events + [Data(octets, end)];
      ok := true;
    }
  }
}
