/** Receive side of the pool: what the peer may still send, what is queued and what credit is
    owed always add up, so DATA within the advertised windows can always be kept. */
module Http2PoolReceive {
  import opened Bytes
  import opened Sums
  import opened BufferBudget
  import opened Http2Queue
  import opened Http2Pool
  import opened Http2PoolRuns
  import opened Http2PoolLinks

  /** Octets of a stream that still count against its download actor's connection window. */
  function Owed(s: Stream): nat { |s.rx.contents| + s.consumed }

  function OwedTo(a: nat): Stream -> int { (s: Stream) => if s.bound && s.download == a then Owed(s) else 0 }

  function Queued(): Stream -> int { (s: Stream) => |s.rx.contents| }

  /** A stream owes nothing before its download starts and after it closes. */
  predicate Settled(s: Stream) {
    && (!s.bound || s.downId == 0 ==> Owed(s) == 0)
    && (s.bound && s.closed ==> Owed(s) == 0)
  }

  /** The connection: credit given minus DATA received, and nothing lost between window, queues and credit. */
  predicate ActorWindow(p: Pool, a: nat) {
    a < |p.actors| &&
    var x := p.actors[a];
    !x.failed ==>
      && x.receiveWindow >= 0
      && x.receiveWindow == BASE_WINDOW + x.creditSent - x.dataReceived
      && x.receiveWindow + x.pendingCredit + Sum(p.streams, OwedTo(a)) == Capacity(x.receiveSlots, WindowOf(p, a))
  }

  /** A download of an open stream: window, queue and unreturned credit make up the initial window. */
  predicate RequestWindow(p: Pool, a: nat, r: Request) {
    a < |p.actors| && r.stream < |p.streams| &&
    var s := p.streams[r.stream];
    !p.actors[a].failed && r.role.Downloads() && !s.closed ==>
      r.receiveWindow >= 0 && r.receiveWindow + Owed(s) == WindowOf(p, a)
  }

  predicate ActorReceives(p: Pool, a: nat) {
    && ActorWindow(p, a)
    && forall k :: 0 <= k < |p.actors[a].requests| ==> RequestWindow(p, a, p.actors[a].requests[k])
  }

  predicate Receives(p: Pool) {
    && (forall i :: 0 <= i < |p.streams| ==> Settled(p.streams[i]))
    && (forall a :: 0 <= a < |p.actors| ==> ActorReceives(p, a))
    && p.downloadBytes == Sum(p.streams, Queued())
  }

  // ----- frames -----

  predicate SameDownload(s: Stream, t: Stream) {
    && |t.rx.contents| == |s.rx.contents| && t.consumed == s.consumed
    && (!t.closed ==> !s.closed) && (t.closed && !s.closed ==> Owed(s) == 0)
  }

  predicate SameCredit(x: Actor, y: Actor) {
    && |y.requests| == |x.requests|
    && (!y.failed ==>
          && !x.failed
          && y.receiveWindow == x.receiveWindow && y.pendingCredit == x.pendingCredit
              && y.receiveSlots == x.receiveSlots
          && y.creditSent - y.dataReceived == x.creditSent - x.dataReceived
          && forall k :: 0 <= k < |x.requests| ==> y.requests[k].receiveWindow == x.requests[k].receiveWindow)
  }

  predicate SameReceive(p: Pool, q: Pool) {
    && SameShape(p, q) && q.downloadBytes == p.downloadBytes
    && (forall i :: 0 <= i < |p.streams| ==> SameDownload(p.streams[i], q.streams[i]))
    && (forall a :: 0 <= a < |p.actors| ==> SameCredit(p.actors[a], q.actors[a]))
  }

  /** Only the streams' sums and the actors' numbers matter. */
  lemma ActorReceivesSame(p: Pool, q: Pool, a: nat)
    requires Links(p) && GroupsExist(p) && ActorReceives(p, a) && SameShape(p, q)
    requires SameCredit(p.actors[a], q.actors[a])
    requires Sum(q.streams, OwedTo(a)) == Sum(p.streams, OwedTo(a))
    requires forall i ::
        0 <= i < |p.streams| ==>
            (!q.streams[i].closed ==> !p.streams[i].closed && Owed(q.streams[i]) == Owed(p.streams[i]))
    ensures ActorReceives(q, a)
  {
    assert SameActor(p.actors[a], q.actors[a]);
    SameWindow(p, q, a);
    hide WindowOf, Sum, Capacity;
    forall k | 0 <= k < |q.actors[a].requests| ensures RequestWindow(q, a, q.actors[a].requests[k]) {
      assert RequestWindow(p, a, p.actors[a].requests[k]);
      assert SameRequest(p.actors[a].requests[k], q.actors[a].requests[k]);
    }
  }

  lemma ReceivesSame(p: Pool, q: Pool)
    requires Links(p) && GroupsExist(p) && Receives(p) && SameReceive(p, q)
    ensures Receives(q)
  {
    forall i | 0 <= i < |q.streams| ensures Settled(q.streams[i]) && Queued()(q.streams[i]) == Queued()(p.streams[i]) {
      assert Settled(p.streams[i]) && SameDownload(p.streams[i], q.streams[i])
          && SameBinding(p.streams[i], q.streams[i]);
    }
    SumPointwise(q.streams, p.streams, Queued());
    forall a | 0 <= a < |q.actors| ensures ActorReceives(q, a) {
      forall i | 0 <= i < |q.streams| ensures OwedTo(a)(q.streams[i]) == OwedTo(a)(p.streams[i]) {
        assert SameDownload(p.streams[i], q.streams[i]) && SameBinding(p.streams[i], q.streams[i]);
      }
      SumPointwise(q.streams, p.streams, OwedTo(a));
      assert ActorReceives(p, a) && SameCredit(p.actors[a], q.actors[a]);
      forall i | 0 <= i < |p.streams| ensures !q.streams[i].closed ==>
          !p.streams[i].closed && Owed(q.streams[i]) == Owed(p.streams[i]) {
        assert SameDownload(p.streams[i], q.streams[i]);
      }
      ActorReceivesSame(p, q, a);
    }
  }

  // ----- octets that move between window, queue and credit -----

  /** The one stream and its download actor that a step touches keep their balances. */
  predicate Balanced(p: Pool, q: Pool, i: nat, a: nat) {
    && SameShape(p, q) && i < |p.streams| && a < |p.actors|
    && p.streams[i].bound && p.streams[i].download == a
    && (forall j :: 0 <= j < |p.streams| && j != i ==> SameDownload(p.streams[j], q.streams[j]))
    && (forall b :: 0 <= b < |p.actors| && b != a ==> SameCredit(p.actors[b], q.actors[b]))
    && Settled(q.streams[i])
    && q.downloadBytes - p.downloadBytes == |q.streams[i].rx.contents| - |p.streams[i].rx.contents|
    && var x := p.actors[a]; var y := q.actors[a];
       !y.failed ==>
         && !x.failed && y.receiveWindow >= 0 && y.receiveSlots == x.receiveSlots
         && y.receiveWindow - y.creditSent + y.dataReceived == x.receiveWindow - x.creditSent + x.dataReceived
         && y.receiveWindow + y.pendingCredit + Owed(q.streams[i]) ==
             x.receiveWindow + x.pendingCredit + Owed(p.streams[i])
         && (forall k ::
             0 <= k < |x.requests| && x.requests[k].stream != i ==>
                 y.requests[k].receiveWindow == x.requests[k].receiveWindow)
         && (forall k ::
             0 <= k < |x.requests| && x.requests[k].stream == i && x.requests[k].role.Downloads()
                 && !q.streams[i].closed ==>
               !p.streams[i].closed && y.requests[k].receiveWindow >= 0 &&
               y.requests[k].receiveWindow + Owed(q.streams[i]) == x.requests[k].receiveWindow + Owed(p.streams[i]))
  }

  lemma SumMoved(p: Pool, q: Pool, i: nat, f: Stream -> int)
    requires i < |p.streams| && |q.streams| == |p.streams|
    requires forall j :: 0 <= j < |p.streams| && j != i ==> f(q.streams[j]) == f(p.streams[j])
    ensures Sum(q.streams, f) == Sum(p.streams, f) - f(p.streams[i]) + f(q.streams[i])
  {
    var one := p.streams[i := q.streams[i]];
    SumUpdate(p.streams, i, q.streams[i], f);
    SumPointwise(one, q.streams, f);
  }

  lemma ReceivesBalanced(p: Pool, q: Pool, i: nat, a: nat)
    requires Links(p) && GroupsExist(p) && Receives(p) && Balanced(p, q, i, a)
    ensures Receives(q)
  {
    forall j | 0 <= j < |q.streams| ensures Settled(q.streams[j]) {
      assert Settled(p.streams[j]) && SameBinding(p.streams[j], q.streams[j]);
    }
    SumMoved(p, q, i, Queued());
    forall b | 0 <= b < |q.actors| ensures ActorReceives(q, b) {
      assert ActorReceives(p, b);
      forall j | 0 <= j < |p.streams| && j != i ensures OwedTo(b)(q.streams[j]) == OwedTo(b)(p.streams[j]) {
        assert SameDownload(p.streams[j], q.streams[j]) && SameBinding(p.streams[j], q.streams[j]);
      }
      SumMoved(p, q, i, OwedTo(b));
      assert SameBinding(p.streams[i], q.streams[i]);
      if b == a {
        MovedActor(p, q, i, a);
      } else {
        MovedOther(p, q, i, a, b);
      }
    }
  }

  lemma MovedActor(p: Pool, q: Pool, i: nat, a: nat)
    requires Links(p) && GroupsExist(p) && ActorReceives(p, a) && Balanced(p, q, i, a)
    requires Sum(q.streams, OwedTo(a)) == Sum(p.streams, OwedTo(a)) - Owed(p.streams[i]) + Owed(q.streams[i])
    ensures ActorReceives(q, a)
  {
    assert SameActor(p.actors[a], q.actors[a]);
    SameWindow(p, q, a);
    hide WindowOf, Sum, Capacity;
    forall k | 0 <= k < |q.actors[a].requests| ensures RequestWindow(q, a, q.actors[a].requests[k]) {
      var r := p.actors[a].requests[k];
      assert RequestWindow(p, a, r) && SameRequest(r, q.actors[a].requests[k]);
      if r.stream != i { assert SameDownload(p.streams[r.stream], q.streams[r.stream]); }
    }
  }

  lemma MovedOther(p: Pool, q: Pool, i: nat, a: nat, b: nat)
    requires Links(p) && GroupsExist(p) && ActorReceives(p, b) && Balanced(p, q, i, a) && b < |p.actors| && b != a
    requires Sum(q.streams, OwedTo(b)) == Sum(p.streams, OwedTo(b))
    ensures ActorReceives(q, b)
  {
    assert SameActor(p.actors[b], q.actors[b]) && SameCredit(p.actors[b], q.actors[b]);
    SameWindow(p, q, b);
    hide WindowOf, Sum, Capacity;
    forall k | 0 <= k < |q.actors[b].requests| ensures RequestWindow(q, b, q.actors[b].requests[k]) {
      var r := p.actors[b].requests[k];
      assert RequestWindow(p, b, r) && SameRequest(r, q.actors[b].requests[k]);
      assert ActorLinks(p, b) && RequestLink(p, b, r);
      if r.stream != i { assert SameDownload(p.streams[r.stream], q.streams[r.stream]); }
    }
  }

  // ----- steps -----

  /** What enqueuing does to the numbers. */
  predicate Enqueued(p: Pool, i: nat, length: nat, ok: bool, q: Pool) {
    && i < |p.streams| && |q.streams| == |p.streams| && q.actors == p.actors && q.groups == p.groups
        && q.managers == p.managers
    && (!ok ==> q.streams == p.streams && q.downloadBytes == p.downloadBytes)
    && (ok ==>
          var s := p.streams[i]; var t := q.streams[i];
          && q.streams == p.streams[i := t] && SameBinding(s, t) && t.closed == s.closed && Owed(t) == Owed(s) + length
          && q.downloadBytes - p.downloadBytes == |t.rx.contents| - |s.rx.contents|)
  }

  lemma EnqueueEffect(p: Pool, i: nat, length: nat, body: seq<Byte>, memory: nat -> bool)
    requires Memory(p) && i < |p.streams| && |body| <= length
    ensures var (ok, q) := Enqueue(p, i, length, body, memory); Enqueued(p, i, length, ok, q)
  {
    assert StreamMemory(p.store, i, p.streams[i]);
    AppendAdjusts(p.store, RxAccount(i), p.streams[i].rx, body, memory);
    hide Memory, Append, StreamMemory, Blocks, Adjusted;
  }

  lemma KeepDataEffect(p: Pool, q: Pool, a: nat, k: nat, length: nat, ok: bool)
    requires Links(p) && Receives(p) && a < |p.actors| && k < |p.actors[a].requests|
        && p.actors[a].requests[k].stream < |p.streams|
    requires !p.actors[a].failed && length <= p.actors[a].receiveWindow
        && length <= p.actors[a].requests[k].receiveWindow
    requires p.actors[a].requests[k].role.Downloads() && !p.streams[p.actors[a].requests[k].stream].closed
    requires Enqueued(p, p.actors[a].requests[k].stream, length, ok, q)
    ensures ok ==> Balanced(p, SpendWindows(q, a, k, length), p.actors[a].requests[k].stream, a)
    ensures !ok ==> SameReceive(p, FailActor(SpendWindows(q, a, k, length), a))
  {
    var x := p.actors[a];
    var r := x.requests[k];
    assert ActorLinks(p, a) && RequestLink(p, a, r);
    SpendShape(q, a, k, length);
    assert SameShape(p, q);
    ShapeTwice(p, q, SpendWindows(q, a, k, length));
    ShapeTwice(p, q, FailActor(SpendWindows(q, a, k, length), a));
    hide SameShape, Receives;
    forall j | 0 <= j < |x.requests| && x.requests[j].stream == r.stream && x.requests[j].role.Downloads()
      ensures j == k
    {
      assert RequestLink(p, a, x.requests[j]);
    }
  }

  lemma KeepDataReceives(p: Pool, a: nat, k: nat, length: nat, body: seq<Byte>, memory: nat -> bool)
    requires Memory(p) && Links(p) && GroupsExist(p) && Receives(p) && a < |p.actors| && k < |p.actors[a].requests|
        && |body| <= length
    requires !p.actors[a].failed && length <= p.actors[a].receiveWindow
        && length <= p.actors[a].requests[k].receiveWindow
    requires var r := p.actors[a].requests[k];
        r.stream < |p.streams| && r.role.Downloads() && !p.streams[r.stream].closed
    ensures Receives(KeepData(p, a, k, length, body, memory))
  {
    var i := p.actors[a].requests[k].stream;
    hide Memory, Enqueue, SpendWindows, Links, GroupsExist, Receives, Balanced, SameReceive, Enqueued;
    var (ok, q) := Enqueue(p, i, length, body, memory);
    EnqueueEffect(p, i, length, body, memory);
    KeepDataEffect(p, q, a, k, length, ok);
    if ok {
      ReceivesBalanced(p, SpendWindows(q, a, k, length), i, a);
    } else {
      ReceivesSame(p, FailActor(SpendWindows(q, a, k, length), a));
    }
  }

  // ----- steps that leave the receive side alone -----

  lemma ReceiveTwice(p: Pool, q: Pool, r: Pool)
    requires SameReceive(p, q) && SameReceive(q, r)
    ensures SameReceive(p, r)
  {
    ShapeTwice(p, q, r);
    forall i | 0 <= i < |p.streams| ensures SameDownload(p.streams[i], r.streams[i]) {
      assert SameDownload(p.streams[i], q.streams[i]) && SameDownload(q.streams[i], r.streams[i]);
    }
    forall a | 0 <= a < |p.actors| ensures SameCredit(p.actors[a], r.actors[a]) {
      assert SameCredit(p.actors[a], q.actors[a]) && SameCredit(q.actors[a], r.actors[a]);
    }
  }

  lemma ActorReceive(p: Pool, a: nat, y: Actor)
    requires a < |p.actors| && SameActor(p.actors[a], y) && SameCredit(p.actors[a], y)
    ensures SameReceive(p, SetActor(p, a, y))
  {
    ActorShape(p, a, y);
    hide SameShape;
  }

  lemma StreamReceive(p: Pool, i: nat, s: Stream)
    requires i < |p.streams| && SameBinding(p.streams[i], s) && SameDownload(p.streams[i], s)
    ensures SameReceive(p, SetStream(p, i, s))
  {
    StreamShape(p, i, s);
    hide SameShape;
  }

  lemma NothingReceive(p: Pool)
    ensures SameReceive(p, p)
  {
    ShapeNone(p);
    hide SameShape;
  }

  /** Changes outside the streams and actors. */
  lemma OutsideReceive(p: Pool, q: Pool)
    requires q.streams == p.streams && q.actors == p.actors && q.downloadBytes == p.downloadBytes && SameManagers(p, q)
    ensures SameReceive(p, q)
  {
    OutsideShape(p, q);
    hide SameShape;
  }

  lemma AccountReceive(p: Pool, a: nat, n: nat)
    requires a < |p.actors|
    ensures SameReceive(p, AccountOutput(p, a, n))
  {
    var q := SetActor(p, a, p.actors[a].(netAccounted := n));
    ActorReceive(p, a, p.actors[a].(netAccounted := n));
    OutsideReceive(q, AccountOutput(p, a, n));
    hide SameReceive;
    ReceiveTwice(p, q, AccountOutput(p, a, n));
  }

  /** Flags of a request. */
  lemma RequestReceive(p: Pool, a: nat, k: nat, r: Request)
    requires a < |p.actors| && k < |p.actors[a].requests|
    requires SameRequest(p.actors[a].requests[k], r) && r.receiveWindow == p.actors[a].requests[k].receiveWindow
    ensures SameReceive(p, SetActor(p, a, SetRequest(p.actors[a], k, r)))
  {
    RequestShape(p.actors[a], k, r);
    ActorReceive(p, a, SetRequest(p.actors[a], k, r));
  }

  lemma RejectReceive(p: Pool, a: nat, k: nat)
    requires a < |p.actors| && k < |p.actors[a].requests| && p.actors[a].requests[k].stream < |p.streams|
    ensures SameReceive(p, Reject(p, a, k))
  {
    var r := p.actors[a].requests[k];
    var q := FailStream(p, r.stream);
    StreamReceive(p, r.stream, p.streams[r.stream].(failed := true));
    RequestReceive(q, a, k, r.(ended := true, reset := true));
    hide SameReceive;
    ReceiveTwice(p, q, Reject(p, a, k));
  }

  lemma EndDataReceive(p: Pool, a: nat, k: nat)
    requires a < |p.actors| && k < |p.actors[a].requests| && p.actors[a].requests[k].stream < |p.streams|
    ensures SameReceive(p, EndData(p, a, k))
  {
    var r := p.actors[a].requests[k];
    RejectReceive(p, a, k);
    var q := SetActor(p, a, SetRequest(p.actors[a], k, r.(ended := true)));
    RequestReceive(p, a, k, r.(ended := true));
    StreamReceive(q, r.stream, q.streams[r.stream].(eof := true));
    hide SameReceive, Reject;
    ReceiveTwice(p, q, SetStream(q, r.stream, q.streams[r.stream].(eof := true)));
  }

  lemma RefundReceive(p: Pool, a: nat, length: nat)
    requires a < |p.actors|
    ensures SameReceive(p, SetActor(p, a, Refunded(p.actors[a], length)))
  {
    ActorReceive(p, a, Refunded(p.actors[a], length));
  }

  lemma JudgeFacts(p: Pool, a: nat, id: nat, length: nat, valid: bool)
    requires a < |p.actors|
    ensures var v := Judge(p, a, id, length, valid);
            v.Response? ==>
                length <= p.actors[a].receiveWindow && length <= p.actors[a].requests[v.k].receiveWindow
                    && p.actors[a].requests[v.k].id == id
  {
  }

  lemma DataReceives(p: Pool, a: nat, id: nat, length: nat, body: seq<Byte>, valid: bool, end: bool,
      memory: nat -> bool)
    requires Memory(p) && Links(p) && GroupsExist(p) && Receives(p)
    ensures Receives(DoData(p, a, id, length, body, valid, end, memory))
  {
    hide Memory, Links, GroupsExist, Receives, SameReceive, SameShape, Judge, KeepData, EndData, Reject, Refunded;
    if Working(p, a) && |body| <= length {
      var v := Judge(p, a, id, length, valid);
      JudgeFacts(p, a, id, length, valid);
      RefundReceive(p, a, length);
      var refunded := SetActor(p, a, Refunded(p.actors[a], length));
      match v {
        case Broken => BreakReceive(p, a); ReceivesSame(p, FailActor(p, a));
        case Stray => ReceivesSame(p, refunded);
        case Refused(k) =>
          RefundRequests(p.actors[a], length);
          RejectReceive(refunded, a, k);
          ReceiveTwice(p, refunded, Reject(refunded, a, k));
          ReceivesSame(p, Reject(refunded, a, k));
        case Response(k) =>
          var q := TakeData(p, a, k, length, body, memory);
          var r := p.actors[a].requests[k];
          if r.role.Downloads() && !p.streams[r.stream].closed {
            KeepDataReceives(p, a, k, length, body, memory);
          } else {
            ReceivesSame(p, refunded);
          }
          TakeDataShape(p, a, k, length, body, memory);
          LinksSame(p, q);
          EndDataReceive(q, a, k);
          ReceivesSame(q, EndData(q, a, k));
      }
    }
  }

  lemma RefundRequests(x: Actor, length: nat)
    ensures Refunded(x, length).requests == x.requests
  {
  }

  lemma BreakReceive(p: Pool, a: nat)
    requires a < |p.actors|
    ensures SameReceive(p, FailActor(p, a))
  {
    ActorReceive(p, a, p.actors[a].(failed := true));
  }

  // ----- credit, reading, closing -----

  lemma CreditBalanced(p: Pool, a: nat, i: nat)
    requires Links(p) && Receives(p)
    ensures var q := DoCredit(p, a, i); q == p || Balanced(p, q, i, a)
  {
    var q := DoCredit(p, a, i);
    CreditShape(p, a, i);
    hide CreditDue, SameShape, Capacity, Sum;
    if q != p {
      var x := p.actors[a];
      var k := Find(x.requests, p.streams[i].downId);
      assert StreamLink(p, i) && ActorLinks(p, a) && ActorReceives(p, a);
      forall j | 0 <= j < |x.requests| && x.requests[j].stream == i && x.requests[j].role.Downloads() ensures j == k {
        assert RequestLink(p, a, x.requests[j]);
      }
      forall j | 0 <= j < |x.requests| && x.requests[j].stream == i && x.requests[j].role.Downloads()
          && !p.streams[i].closed
        ensures x.requests[j].receiveWindow >= 0
      {
        assert RequestWindow(p, a, x.requests[j]);
      }
    }
  }

  /** A stream's octets were re-labelled: the amount it owes and the actors are as before. */
  predicate Relabelled(p: Pool, q: Pool, i: nat) {
    && i < |p.streams| && q.streams == p.streams[i := if i < |q.streams| then q.streams[i] else p.streams[i]]
        && q.actors == p.actors
    && SameManagers(p, q)
    && var s := p.streams[i]; var t := q.streams[i];
       && SameBinding(s, t) && t.closed == s.closed && Owed(t) == Owed(s)
       && q.downloadBytes - p.downloadBytes == |t.rx.contents| - |s.rx.contents|
  }

  lemma ReadRelabels(p: Pool, i: nat, n: nat)
    requires Memory(p)
    ensures var q := DoRead(p, i, n); q == p || Relabelled(p, q, i)
  {
    if LiveStream(p, i) && !p.streams[i].closed {
      assert StreamMemory(p.store, i, p.streams[i]);
      hide Memory, StreamMemory, GiveMany, Blocks;
    }
  }

  lemma RelabelledReceives(p: Pool, q: Pool, i: nat)
    requires Links(p) && GroupsExist(p) && Receives(p) && Relabelled(p, q, i)
    ensures Receives(q)
  {
    assert StreamLink(p, i) && Settled(p.streams[i]);
    StreamShape(p, i, q.streams[i]);
    OutsideShape(SetStream(p, i, q.streams[i]), q);
    ShapeTwice(p, SetStream(p, i, q.streams[i]), q);
    if p.streams[i].bound {
      var a := p.streams[i].download;
      assert ActorReceives(p, a);
      assert forall k :: 0 <= k < |p.actors[a].requests| ==> RequestWindow(p, a, p.actors[a].requests[k]);
      hide SameShape, Sum, Capacity, WindowOf;
      ReceivesBalanced(p, q, i, a);
    } else {
      hide SameShape, Sum, Capacity, WindowOf;
      ReceivesSame(p, q);
    }
  }

  lemma ReadReceives(p: Pool, i: nat, n: nat)
    requires Memory(p) && Links(p) && GroupsExist(p) && Receives(p)
    ensures Receives(DoRead(p, i, n))
  {
    hide Memory, Links, GroupsExist, Receives, DoRead, Relabelled;
    ReadRelabels(p, i, n);
    if DoRead(p, i, n) != p { RelabelledReceives(p, DoRead(p, i, n), i); }
  }

  /** A bound stream closed: all it owed is now credit its actor has to return. */
  predicate HandedOver(p: Pool, q: Pool, i: nat) {
    && i < |p.streams| && q.streams == p.streams[i := if i < |q.streams| then q.streams[i] else p.streams[i]]
        && |q.actors| == |p.actors|
    && p.streams[i].bound && p.streams[i].download < |p.actors|
    && SameBinding(p.streams[i], q.streams[i]) && q.streams[i].closed && Owed(q.streams[i]) == 0
    && q.downloadBytes == p.downloadBytes - |p.streams[i].rx.contents|
    && var a := p.streams[i].download;
       && (forall b :: 0 <= b < |p.actors| && b != a ==> SameCredit(p.actors[b], q.actors[b]))
       && q.actors[a] ==
           p.actors[a].(pendingCredit := p.actors[a].pendingCredit + Owed(p.streams[i]),
               closeWaiters := q.actors[a].closeWaiters)
  }

  predicate QueuesClosed(p: Pool, q: Pool, i: nat) {
    && i < |p.streams| && q.actors == p.actors && q.groups == p.groups && q.managers == p.managers
    && q.downloadBytes == p.downloadBytes - |p.streams[i].rx.contents|
    && q.streams ==
        p.streams[i :=
            p.streams[i].(closed := true, tx := EMPTY, rx := EMPTY, reserved := 0, consumed := Owed(p.streams[i]))]
  }

  lemma CloseQueuesEffect(p: Pool, i: nat)
    requires Memory(p) && i < |p.streams|
    ensures QueuesClosed(p, CloseQueues(p, i), i)
  {
    hide Memory, StreamMemory, Emptied;
  }

  lemma CloseHandsOver(p: Pool, q: Pool, i: nat, waits: (bool, bool))
    requires QueuesClosed(p, q, i) && p.streams[i].bound && p.streams[i].download < |p.actors|
        && p.streams[i].upload < |p.actors|
    ensures HandedOver(p, Unbind(q, i, waits), i)
  {
    hide AddRunning;
  }

  lemma CloseBalanced(p: Pool, q: Pool, i: nat)
    requires Links(p) && Receives(p) && SameShape(p, q) && HandedOver(p, q, i)
    ensures Balanced(p, q, i, p.streams[i].download)
  {
    assert ActorReceives(p, p.streams[i].download);
    hide SameShape, Sum, Capacity, WindowOf;
  }

  lemma ReleaseReceive(p: Pool, i: nat)
    requires i < |p.streams| && (p.streams[i].closed ==> p.streams[i].rx == EMPTY)
    ensures SameReceive(p, ReleaseStream(p, i))
  {
    hide SameReceive;
    var q := ReleaseStream(p, i);
    StreamReceive(p, i, q.streams[i]);
    OutsideReceive(SetStream(p, i, q.streams[i]), q);
    ReceiveTwice(p, SetStream(p, i, q.streams[i]), q);
  }

  lemma CloseReceives(p: Pool, i: nat, waits: (bool, bool))
    requires Memory(p) && Links(p) && GroupsExist(p) && Receives(p)
    ensures Receives(DoClose(p, i, waits))
  {
    if LiveStream(p, i) && !p.streams[i].closed {
      assert StreamLink(p, i) && Settled(p.streams[i]) && StreamMemory(p.store, i, p.streams[i]);
      CloseQueuesShape(p, i);
      var q := CloseQueues(p, i);
      assert q.streams[i].rx == EMPTY && q.actors == p.actors;
      if p.streams[i].bound {
        CloseQueuesEffect(p, i);
        CloseHandsOver(p, q, i, waits);
        var r := Unbind(q, i, waits);
        assert r.streams[i].rx == EMPTY;
        hide Memory, Links, Receives, GroupsExist, CloseQueues, Unbind, Balanced, ReleaseStream, HandedOver;
        UnbindShape(q, i, waits);
        ShapeTwice(p, q, r);
        CloseBalanced(p, r, i);
        ReceivesBalanced(p, r, i, p.streams[i].download);
        LinksSame(p, r);
        ReleaseReceive(r, i);
        ReceivesSame(r, ReleaseStream(r, i));
      } else {
        CloseUnbound(p, i);
        hide Memory, Links, Receives, GroupsExist, CloseQueues, ReleaseStream;
        ReleaseReceive(q, i);
        ReceiveTwice(p, q, ReleaseStream(q, i));
        ReceivesSame(p, ReleaseStream(q, i));
      }
    }
  }

  lemma CloseUnbound(p: Pool, i: nat)
    requires Memory(p) && i < |p.streams| && !p.streams[i].bound && Settled(p.streams[i])
    ensures SameReceive(p, CloseQueues(p, i))
  {
    assert StreamMemory(p.store, i, p.streams[i]);
    CloseQueuesShape(p, i);
    hide Memory, Emptied, SameShape;
  }

  // ----- requests and streams that come and go -----

  lemma RemoveReceives(p: Pool, a: nat, k: nat)
    requires Links(p) && GroupsExist(p) && Receives(p) && a < |p.actors| && k < |p.actors[a].requests|
    ensures Receives(SetActor(p, a,
        p.actors[a].(requests := p.actors[a].requests[..k] + p.actors[a].requests[k + 1..])))
  {
    var old_ := p.actors[a].requests;
    var rest := old_[..k] + old_[k + 1..];
    var q := SetActor(p, a, p.actors[a].(requests := rest));
    assert forall j :: 0 <= j < |rest| ==> rest[j] == old_[if j < k then j else j + 1];
    hide Sum, Capacity;
    forall b | 0 <= b < |q.actors| ensures ActorReceives(q, b) {
      assert ActorReceives(p, b);
      SameWindow(p, q, b);
      hide WindowOf;
      forall j | 0 <= j < |q.actors[b].requests| ensures RequestWindow(q, b, q.actors[b].requests[j]) {
        assert RequestWindow(p, b, p.actors[b].requests[if b == a && j >= k then j + 1 else j]);
      }
    }
  }

  lemma DropReceives(p: Pool, q: Pool, a: nat)
    requires GroupsExist(p) && Receives(p) && a < |p.actors| && |q.streams| == |p.streams| && SameManagers(p, q)
        && q.downloadBytes == p.downloadBytes
    requires q.actors == p.actors[a := p.actors[a].(failed := true, opening := false, requests := [])]
    requires forall i ::
        0 <= i < |p.streams| ==> SameBinding(p.streams[i], q.streams[i]) && SameDownload(p.streams[i], q.streams[i])
    ensures Receives(q)
  {
    forall i | 0 <= i < |q.streams| ensures Settled(q.streams[i]) { assert Settled(p.streams[i]); }
    SumPointwise(q.streams, p.streams, Queued());
    forall b | 0 <= b < |q.actors| ensures ActorReceives(q, b) {
      if b != a {
        assert ActorReceives(p, b);
        SameWindow(p, q, b);
        SumPointwise(q.streams, p.streams, OwedTo(b));
        hide WindowOf, Sum, Capacity;
        forall j | 0 <= j < |q.actors[b].requests| ensures RequestWindow(q, b, q.actors[b].requests[j]) {
          assert RequestWindow(p, b, p.actors[b].requests[j]);
        }
      }
    }
  }

  lemma {:induction false} ReleaseAllReceive(p: Pool, requests: seq<Request>)
    requires Memory(p)
    ensures SameReceive(p, ReleaseAll(p, requests))
    decreases |requests|
  {
    NothingReceive(p);
    if requests != [] {
      hide SameReceive, ReleaseStream;
      var i := requests[0].stream;
      if i < |p.streams| {
        assert StreamMemory(p.store, i, p.streams[i]);
        ReleaseReceive(p, i);
        ReleaseMemory(p, i);
        ReleaseAllReceive(ReleaseStream(p, i), requests[1..]);
        ReceiveTwice(p, ReleaseStream(p, i), ReleaseAll(p, requests));
      } else {
        ReleaseAllReceive(p, requests[1..]);
      }
    }
  }

  lemma ExitReceives(p: Pool, a: nat)
    requires Memory(p) && Links(p) && GroupsExist(p) && Receives(p)
    ensures Receives(DoExit(p, a))
  {
    if LiveActor(p, a) && !p.actors[a].stopped {
      var q := p.(streams := FailUsers(p.streams, a),
          actors := p.actors[a := p.actors[a].(failed := true, opening := false, requests := [])]);
      hide Memory, Links, Receives, GroupsExist, ReleaseAll;
      MemorySame(p, q);
      DropLinks(p, q, a);
      DropReceives(p, q, a);
      ReleaseAllReceive(q, p.actors[a].requests);
      ReceivesSame(q, ReleaseAll(q, p.actors[a].requests));
    }
  }

  lemma RetireReceives(p: Pool, a: nat, k: nat, pending: nat)
    requires Memory(p) && Links(p) && GroupsExist(p) && Receives(p)
    ensures Receives(DoRetire(p, a, k, pending))
  {
    var q := DoRetire(p, a, k, pending);
    if q != p {
      var x := p.actors[a];
      var i := x.requests[k].stream;
      assert StreamMemory(p.store, i, p.streams[i]);
      hide Memory, Links, Receives, GroupsExist, SameReceive, ReleaseStream;
      var one := SetActor(p, a, x.(requests := x.requests[..k] + x.requests[k + 1..]));
      RemoveReceives(p, a, k);
      RemoveLinks(p, a, k);
      var two := AccountOutput(one, a, pending);
      AccountReceive(one, a, pending);
      ReleaseReceive(two, i);
      ReceiveTwice(one, two, q);
      ReceivesSame(one, q);
    }
  }

  /** Binding or moving a stream that owes nothing to an old download actor. */
  lemma RebindReceives(p: Pool, q: Pool, i: nat)
    requires GroupsExist(p) && Receives(p) && i < |p.streams| && SameManagers(p, q) && q.actors == p.actors
        && |q.streams| == |p.streams|
    requires forall j :: 0 <= j < |p.streams| && j != i ==> q.streams[j] == p.streams[j]
    requires var s := p.streams[i]; var t := q.streams[i];
             && SameDownload(s, t) && t.closed == s.closed && t.bound && t.downId == s.downId
             && (Owed(s) > 0 ==> s.bound && t.download == s.download)
             && q.downloadBytes == p.downloadBytes
    ensures Receives(q)
  {
    assert Settled(p.streams[i]);
    forall j | 0 <= j < |q.streams| ensures Settled(q.streams[j]) { assert Settled(p.streams[j]); }
    SumMoved(p, q, i, Queued());
    forall b | 0 <= b < |q.actors| ensures ActorReceives(q, b) {
      assert ActorReceives(p, b);
      SameWindow(p, q, b);
      SumMoved(p, q, i, OwedTo(b));
      hide WindowOf, Sum, Capacity;
      forall j | 0 <= j < |q.actors[b].requests| ensures RequestWindow(q, b, q.actors[b].requests[j]) {
        assert RequestWindow(p, b, p.actors[b].requests[j]);
      }
    }
  }

  lemma BindReceives(p: Pool, i: nat, u: nat, d: nat)
    requires Memory(p) && Links(p) && GroupsExist(p) && Receives(p)
    ensures Receives(DoBind(p, i, u, d))
  {
    var q := DoBind(p, i, u, d);
    if q != p {
      assert StreamLink(p, i) && Settled(p.streams[i]);
      hide Memory, BindStore, Links, Reservation, Receives;
      RebindReceives(p, q, i);
    }
  }

  lemma MoveReceives(p: Pool, i: nat, v: nat)
    requires Links(p) && GroupsExist(p) && Receives(p)
    ensures Receives(DoMoveUpload(p, i, v)) && Receives(DoMoveDownload(p, i, v))
  {
    if i < |p.streams| { assert Settled(p.streams[i]); }
    hide Links, Receives;
    var q := DoMoveUpload(p, i, v);
    if q != p { RebindReceives(p, q, i); }
    var r := DoMoveDownload(p, i, v);
    if r != p { RebindReceives(p, r, i); }
  }

  lemma ConnectReceives(p: Pool)
    requires Links(p) && GroupsExist(p) && Receives(p)
    ensures Receives(DoConnect(p))
  {
    var q := DoConnect(p);
    SumAppend(p.streams, FRESH, Queued());
    forall i | 0 <= i < |q.streams| ensures Settled(q.streams[i]) { if i < |p.streams| { assert Settled(p.streams[i]);
        } }
    forall b | 0 <= b < |q.actors| ensures ActorReceives(q, b) {
      assert ActorReceives(p, b) && ActorLinks(p, b);
      SameWindow(p, q, b);
      SumAppend(p.streams, FRESH, OwedTo(b));
      hide WindowOf, Sum, Capacity;
      forall j | 0 <= j < |q.actors[b].requests| ensures RequestWindow(q, b, q.actors[b].requests[j]) {
        assert RequestWindow(p, b, p.actors[b].requests[j]);
      }
    }
  }

  lemma NewActorReceives(p: Pool, g: nat)
    requires Links(p) && GroupsExist(p) && Receives(p)
    ensures Receives(DoNewActor(p, g))
  {
    var q := DoNewActor(p, g);
    if q != p {
      forall b | 0 <= b < |q.actors| ensures ActorReceives(q, b) {
        if b < |p.actors| {
          assert ActorReceives(p, b);
          SameWindow(p, q, b);
          hide WindowOf, Sum, Capacity;
          forall j | 0 <= j < |q.actors[b].requests| ensures RequestWindow(q, b, q.actors[b].requests[j]) {
            assert RequestWindow(p, b, p.actors[b].requests[j]);
          }
        } else {
          forall i | 0 <= i < |p.streams| ensures OwedTo(b)(p.streams[i]) == 0 { assert StreamLink(p, i); }
          SumZero(p.streams, OwedTo(b));
          assert Capacity(0, WindowOf(q, b)) == BASE_WINDOW;
        }
      }
    }
  }

  // ----- starting a request -----

  lemma MoreSlots(a: nat, b: nat, w: nat)
    requires a <= b
    ensures a * w <= b * w
  {
  }

  /** The extra credit a new download is granted is exactly the growth of the advertised total. */
  lemma GrowWindowBalance(x: Actor, w: nat)
    ensures var y := GrowWindow(x, w);
            && y.receiveWindow >= x.receiveWindow && y.receiveSlots >= x.receiveSlots && y.receiveSlots >= 1
            && y.receiveWindow - x.receiveWindow == y.creditSent - x.creditSent ==
                Capacity(y.receiveSlots, w) - Capacity(x.receiveSlots, w)
            && y == x.(receiveWindow := y.receiveWindow, creditSent := y.creditSent, receiveSlots := y.receiveSlots)
  {
    hide CountDownloads;
    if x.receiveSlots <= 1 + CountDownloads(x.requests) { MoreSlots(x.receiveSlots, 1 + CountDownloads(x.requests), w);
        }
  }

  /** What start_request does to the numbers of the receive side. */
  predicate StartedReceive(p: Pool, q: Pool, a: nat, i: nat, r: Request) {
    && Started(p, q, a, i, r) && q.downloadBytes == p.downloadBytes
    && SameDownload(p.streams[i], q.streams[i]) && q.streams[i].closed == p.streams[i].closed
    && r.receiveWindow == WindowOf(p, a)
    && q.actors[a].receiveSlots >= p.actors[a].receiveSlots && (r.role.Downloads() ==> q.actors[a].receiveSlots >= 1)
    && q.actors[a].failed == p.actors[a].failed && q.actors[a].pendingCredit == p.actors[a].pendingCredit
        && q.actors[a].dataReceived == p.actors[a].dataReceived
    && q.actors[a].receiveWindow >= p.actors[a].receiveWindow
    && q.actors[a].receiveWindow - p.actors[a].receiveWindow == q.actors[a].creditSent - p.actors[a].creditSent
         == Capacity(q.actors[a].receiveSlots, WindowOf(p, a)) - Capacity(p.actors[a].receiveSlots, WindowOf(p, a))
  }

  lemma StartReceive(p: Pool, a: nat, i: nat, role: Role, id: nat, remaining: nat, inHeader: nat, pending: nat)
    requires Memory(p)
    ensures var q := DoStart(p, a, i, role, id, remaining, inHeader, pending);
            q == p || StartedReceive(p, q, a, i, q.actors[a].requests[0])
  {
    StartStarted(p, a, i, role, id, remaining, inHeader, pending);
    if MayStart(p, a, i, role) {
      GrowWindowBalance(AccountOutput(p, a, pending).actors[a], WindowOf(p, a));
    }
    hide Memory, UpdateUpload, Consume, StreamMemory, Capacity, CountDownloads, GrowWindow, Started;
  }

  lemma StartReceives(p: Pool, q: Pool, a: nat, i: nat, r: Request)
    requires Links(p) && GroupsExist(p) && Receives(p) && StartedReceive(p, q, a, i, r)
    ensures Receives(q)
  {
    assert Settled(p.streams[i]);
    forall j | 0 <= j < |q.streams| ensures Settled(q.streams[j]) { assert Settled(p.streams[j]); }
    SumMoved(p, q, i, Queued());
    forall b | 0 <= b < |q.actors| ensures ActorReceives(q, b) {
      assert ActorReceives(p, b) && ActorLinks(p, b);
      SumMoved(p, q, i, OwedTo(b));
      StartedActor(p, q, a, i, r, b);
    }
  }

  lemma StartStepReceives(p: Pool, a: nat, i: nat, role: Role, id: nat, remaining: nat, inHeader: nat, pending: nat)
    requires Memory(p) && Links(p) && GroupsExist(p) && Receives(p)
    ensures Receives(DoStart(p, a, i, role, id, remaining, inHeader, pending))
  {
    var q := DoStart(p, a, i, role, id, remaining, inHeader, pending);
    StartReceive(p, a, i, role, id, remaining, inHeader, pending);
    if q != p {
      var r := q.actors[a].requests[0];
      hide Memory, Links, GroupsExist, Receives, StartedReceive, DoStart;
      StartReceives(p, q, a, i, r);
    }
  }

  lemma StartedActor(p: Pool, q: Pool, a: nat, i: nat, r: Request, b: nat)
    requires StartedReceive(p, q, a, i, r) && ActorReceives(p, b) && ActorLinks(p, b) && Settled(p.streams[i])
    requires p.actors[b].group < |p.groups| && Sum(q.streams, OwedTo(b)) == Sum(p.streams, OwedTo(b))
    ensures ActorReceives(q, b)
  {
    SameWindow(p, q, b);
    hide WindowOf, Sum, Capacity, SameManagers;
    forall j | 0 <= j < |q.actors[b].requests| ensures RequestWindow(q, b, q.actors[b].requests[j]) {
      if b == a && j == 0 {
        assert r.role.Downloads() ==> Owed(p.streams[i]) == 0;
      } else {
        var t := p.actors[b].requests[if b == a then j - 1 else j];
        assert q.actors[b].requests[j] == t && RequestWindow(p, b, t);
      }
    }
  }

  // ----- every step -----

  lemma WindowUpdateReceive(p: Pool, a: nat, id: nat, n: nat)
    ensures SameReceive(p, DoWindowUpdate(p, a, id, n))
  {
    NothingReceive(p);
    hide SameReceive, Reject;
    if Working(p, a) {
      var x := p.actors[a];
      BreakReceive(p, a);
      ActorReceive(p, a, x.(sendWindow := x.sendWindow + n, granted := x.granted + n));
      var k := Find(x.requests, id);
      if k < |x.requests| && x.requests[k].stream < |p.streams| {
        RejectReceive(p, a, k);
        RequestReceive(p, a, k,
            x.requests[k].(sendWindow := x.requests[k].sendWindow + n, granted := x.requests[k].granted + n));
      }
    }
  }

  lemma {:induction false} SettleCredit(x: Actor, entries: seq<(nat, nat)>)
    ensures SameCredit(x, Settle(x, entries))
    decreases |entries|
  {
    if entries != [] {
      var (id, value) := entries[0];
      if id == 4 {
        SettleCredit(x.(peerWindow := value, requests := Shifted(x.requests, value - x.peerWindow)), entries[1..]);
      } else {
        SettleCredit(if id == 5 then x.(peerFrame := value) else x, entries[1..]);
      }
    }
  }

  lemma SettingsReceive(p: Pool, a: nat, entries: seq<(nat, nat)>)
    ensures SameReceive(p, DoSettings(p, a, entries))
  {
    NothingReceive(p);
    hide SameReceive, Settle;
    if Working(p, a) {
      SettleShape(p.actors[a], entries);
      SettleCredit(p.actors[a], entries);
      ActorReceive(p, a, Settle(p.actors[a], entries));
    }
  }

  lemma StopUploadReceive(p: Pool, i: nat)
    requires Memory(p) && i < |p.streams|
    ensures SameReceive(p, StopUpload(p, i)) && StopUpload(p, i).actors == p.actors
  {
    NothingReceive(p);
    var q := StopUpload(p, i);
    hide Memory, StreamMemory, Emptied, SameReceive;
    if q != p {
      StreamReceive(p, i, q.streams[i]);
      OutsideReceive(SetStream(p, i, q.streams[i]), q);
      ReceiveTwice(p, SetStream(p, i, q.streams[i]), q);
    }
  }

  lemma ResetReceive(p: Pool, a: nat, id: nat, code: nat)
    requires Memory(p)
    ensures SameReceive(p, DoReset(p, a, id, code))
  {
    hide Memory, SameReceive, StopUpload;
    NothingReceive(p);
    if Working(p, a) {
      var k := Find(p.actors[a].requests, id);
      if k < |p.actors[a].requests| && p.actors[a].requests[k].stream < |p.streams| {
        var r := p.actors[a].requests[k];
        StreamReceive(p, r.stream, p.streams[r.stream].(failed := true));
        StopUploadReceive(p, r.stream);
        var s := p.streams[r.stream];
        var q := if code != 0 || !r.ended then FailStream(p, r.stream)
                 else if !r.role.Packets() && s.bound && s.upload == a
                     && r.id == s.upId then StopUpload(p, r.stream) else p;
        RequestReceive(q, a, k, r.(ended := true, reset := true, sendEnded := true));
        ReceiveTwice(p, q, DoReset(p, a, id, code));
      }
    }
  }

  lemma GoawayReceive(p: Pool, a: nat, k: nat)
    ensures SameReceive(p, DoGoaway(p, a, k))
  {
    NothingReceive(p);
    var q := DoGoaway(p, a, k);
    hide SameReceive;
    if q != p {
      var r := p.actors[a].requests[k];
      var f := FailStream(p, r.stream);
      StreamReceive(p, r.stream, p.streams[r.stream].(failed := true));
      RequestShape(p.actors[a], k, r.(ended := true));
      ActorReceive(f, a, q.actors[a]);
      ReceiveTwice(p, f, q);
    }
  }

  lemma HeadersReceive(p: Pool, a: nat, id: nat, accepted: bool, success: bool, end: bool)
    ensures SameReceive(p, DoHeaders(p, a, id, accepted, success, end))
  {
    NothingReceive(p);
    hide SameReceive, Reject;
    if Working(p, a) {
      var k := Find(p.actors[a].requests, id);
      if k < |p.actors[a].requests| && p.actors[a].requests[k].stream < |p.streams| {
        var r := p.actors[a].requests[k];
        RejectReceive(p, a, k);
        var f := FailStream(p, r.stream);
        StreamReceive(p, r.stream, p.streams[r.stream].(failed := true));
        RequestReceive(f, a, k, r.(headers := true, ended := true));
        ReceiveTwice(p, f, SetActor(f, a, SetRequest(f.actors[a], k, r.(headers := true, ended := true))));
        var q := SetActor(p, a, SetRequest(p.actors[a], k, r.(headers := true, ended := r.ended || end)));
        RequestReceive(p, a, k, r.(headers := true, ended := r.ended || end));
        StreamReceive(q, r.stream, q.streams[r.stream].(eof := true));
        ReceiveTwice(p, q, SetStream(q, r.stream, q.streams[r.stream].(eof := true)));
      }
    }
  }

  lemma SendReceive(p: Pool, a: nat, i: nat, k: nat, pending: nat)
    requires Memory(p)
    ensures SameReceive(p, DoSend(p, a, i, k, pending))
  {
    hide Memory, DoSend, SameShape;
    NothingReceive(p);
    SendShape(p, a, i, k, pending);
    SendDoes(p, a, i, k, pending);
  }

  lemma OneStreamReceive(p: Pool, q: Pool, i: nat)
    requires i < |p.streams| && q.actors == p.actors && q.downloadBytes == p.downloadBytes && SameManagers(p, q)
    requires q.streams == p.streams[i := if i < |q.streams| then q.streams[i] else p.streams[i]]
    requires SameBinding(p.streams[i], q.streams[i]) && SameDownload(p.streams[i], q.streams[i])
    ensures SameReceive(p, q)
  {
    hide SameReceive;
    StreamReceive(p, i, q.streams[i]);
    OutsideReceive(SetStream(p, i, q.streams[i]), q);
    ReceiveTwice(p, SetStream(p, i, q.streams[i]), q);
  }

  lemma WriteReceive(p: Pool, i: nat, data: seq<Byte>, memory: nat -> bool)
    requires Memory(p)
    ensures SameReceive(p, DoWrite(p, i, data, memory))
  {
    NothingReceive(p);
    hide Memory, UpdateUpload, WriteAppend, WriteStore, GoodAttempt, SameReceive;
    if MayWrite(p, i) { OneStreamReceive(p, DoWrite(p, i, data, memory), i); }
  }

  lemma ReserveReceive(p: Pool, i: nat, n: nat)
    requires Memory(p)
    ensures SameReceive(p, DoReserve(p, i, n)) && SameReceive(p, DoUnreserve(p, i))
  {
    NothingReceive(p);
    hide Memory, StreamMemory, UpdateUpload, Trimmed, WriteCapacity, Succeeds, SameReceive, UploadMinimum;
    if LiveStream(p, i) {
      OneStreamReceive(p, DoReserve(p, i, n), i);
      OneStreamReceive(p, DoUnreserve(p, i), i);
    }
  }

  lemma EndSendReceive(p: Pool, a: nat, k: nat, pending: nat)
    ensures SameReceive(p, DoEndSend(p, a, k, pending))
  {
    NothingReceive(p);
    hide SameReceive;
    if Working(p, a) && k < |p.actors[a].requests| {
      RequestReceive(p, a, k, p.actors[a].requests[k].(sendEnded := true));
      var q := SetActor(p, a, SetRequest(p.actors[a], k, p.actors[a].requests[k].(sendEnded := true)));
      AccountReceive(q, a, pending);
      ReceiveTwice(p, q, DoEndSend(p, a, k, pending));
    }
  }

  lemma ActorFlagsReceive(p: Pool, a: nat, w: nat, f: nat)
    ensures SameReceive(p, DoOpened(p, a, w, f)) && SameReceive(p, DoCollectActor(p, a))
        && SameReceive(p, DoCloseWaited(p, a)) && SameReceive(p, DoStop(p, a))
    ensures a < |p.actors| ==>
        SameReceive(p, SetActor(p, a, p.actors[a].(draining := true))) && SameReceive(p, FailActor(p, a))
  {
    NothingReceive(p);
    hide SameReceive;
    if a < |p.actors| {
      var x := p.actors[a];
      ActorReceive(p, a, x.(opening := false, peerWindow := w, peerFrame := f));
      ActorReceive(p, a, x.(freed := true));
      if x.closeWaiters > 0 { ActorReceive(p, a, x.(closeWaiters := x.closeWaiters - 1)); }
      ActorReceive(p, a, x.(draining := true));
      BreakReceive(p, a);
      AccountReceive(p, a, 0);
      var q := AccountOutput(p, a, 0);
      ActorReceive(q, a, q.actors[a].(stopped := true));
      ReceiveTwice(p, q, SetActor(q, a, q.actors[a].(stopped := true)));
    }
  }

  lemma StreamFlagsReceive(p: Pool, i: nat)
    requires i < |p.streams|
    ensures SameReceive(p, SetStream(p, i, p.streams[i].(ready := true))) && SameReceive(p, FailStream(p, i))
    ensures SameReceive(p, SetStream(p, i, p.streams[i].(finishRequested := true)))
  {
    StreamReceive(p, i, p.streams[i].(ready := true));
    StreamReceive(p, i, p.streams[i].(failed := true));
    StreamReceive(p, i, p.streams[i].(finishRequested := true));
    hide SameReceive;
  }

  lemma OutsideReceives(p: Pool, m: nat, g: nat, store: Store)
    ensures SameReceive(p, DoNewGroup(p, m)) && SameReceive(p, DoCollectGroup(p, g))
        && SameReceive(p, p.(store := store))
  {
    hide SameReceive;
    OutsideReceive(p, DoNewGroup(p, m));
    OutsideReceive(p, DoCollectGroup(p, g));
    OutsideReceive(p, p.(store := store));
  }

  predicate Quiet(step: Step) {
    !(step.Connect? || step.NewActor? || step.Bind? || step.MoveUpload? || step.MoveDownload? || step.Start?
        || step.Retire? || step.Exit? ||
      step.Data? || step.Credit? || step.Read? || step.Close?)
  }

  lemma ActorQuietReceive(p: Pool, step: Step)
    requires Memory(p) && Quiet(step)
    requires OnActor(step)
    ensures SameReceive(p, Raw(p, step))
  {
    hide Memory, SameReceive, AccountOutput, SetStream, FailStream, SetActor, FailActor, Apply, CacheCleared;
    hide DoConnect, DoNewGroup, DoNewActor, DoOpened, DoBind, DoMoveUpload, DoMoveDownload, DoStart, DoData,
        DoWindowUpdate, DoSettings, DoReset, DoGoaway, DoHeaders;
    hide DoCredit, DoSend, DoEndSend, DoRetire, DoExit, DoStop, DoCollectActor, DoCollectGroup, DoWrite, DoReserve,
        DoUnreserve, DoRead, DoClose, DoCloseWaited;
    NothingReceive(p);
    match step {
      case WindowUpdate(a, id, n) => WindowUpdateReceive(p, a, id, n);
      case Settings(a, entries) => SettingsReceive(p, a, entries);
      case ResetStream(a, id, code) => ResetReceive(p, a, id, code);
      case Goaway(a, k) => GoawayReceive(p, a, k);
      case Headers(a, id, accepted, success, end) => HeadersReceive(p, a, id, accepted, success, end);
      case Send(a, i, k, pending) => SendReceive(p, a, i, k, pending);
      case EndSend(a, k, pending) => EndSendReceive(p, a, k, pending);
      case Stop(a) => ActorFlagsReceive(p, a, 0, 0);
      case Flushed(a, n) => if Working(p, a) { AccountReceive(p, a, n); }
      case Opened(a, w, f) => ActorFlagsReceive(p, a, w, f);
      case Drain(a) => ActorFlagsReceive(p, a, 0, 0);
      case Break(a) => ActorFlagsReceive(p, a, 0, 0);
      case CollectActor(a) => ActorFlagsReceive(p, a, 0, 0);
      case CloseWaited(a) => ActorFlagsReceive(p, a, 0, 0);
    }
  }

  lemma StreamQuietReceive(p: Pool, step: Step)
    requires Memory(p) && Quiet(step)
    requires !OnActor(step)
    ensures SameReceive(p, Raw(p, step))
  {
    hide Memory, SameReceive, AccountOutput, SetStream, FailStream, SetActor, FailActor, Apply, CacheCleared;
    hide DoConnect, DoNewGroup, DoNewActor, DoOpened, DoBind, DoMoveUpload, DoMoveDownload, DoStart, DoData,
        DoWindowUpdate, DoSettings, DoReset, DoGoaway, DoHeaders;
    hide DoCredit, DoSend, DoEndSend, DoRetire, DoExit, DoStop, DoCollectActor, DoCollectGroup, DoWrite, DoReserve,
        DoUnreserve, DoRead, DoClose, DoCloseWaited;
    NothingReceive(p);
    match step {
      case Write(i, data, memory) => WriteReceive(p, i, data, memory);
      case Reserve(i, n) => ReserveReceive(p, i, n);
      case Unreserve(i) => ReserveReceive(p, i, 0);
      case Ready(i) => if LiveStream(p, i) { StreamFlagsReceive(p, i); }
      case Fail(i) => if LiveStream(p, i) { StreamFlagsReceive(p, i); }
      case FinishWrite(i) => if LiveStream(p, i) { StreamFlagsReceive(p, i); }
      case NewGroup(m) => OutsideReceives(p, m, 0, p.store);
      case CollectGroup(g) => OutsideReceives(p, 0, g, p.store);
      case Ledger(_) => OutsideReceives(p, 0, 0, Raw(p, step).store);
      case ClearCache => OutsideReceives(p, 0, 0, Raw(p, step).store);
    }
  }

  lemma QuietReceive(p: Pool, step: Step)
    requires Memory(p) && Quiet(step)
    ensures SameReceive(p, Raw(p, step))
  {
    hide *;
    if OnActor(step) { ActorQuietReceive(p, step); } else { StreamQuietReceive(p, step); }
  }

  lemma LoudReceives(p: Pool, step: Step)
    requires Memory(p) && Links(p) && GroupsExist(p) && Receives(p)
    requires !Quiet(step)
    ensures Receives(Next(p, step))
  {
    hide Memory, Links, GroupsExist, Receives, SameReceive, Balanced, StartedReceive;
    hide DoConnect, DoNewGroup, DoNewActor, DoOpened, DoBind, DoMoveUpload, DoMoveDownload, DoStart, DoData,
        DoWindowUpdate, DoSettings, DoReset, DoGoaway, DoHeaders;
    hide DoCredit, DoSend, DoEndSend, DoRetire, DoExit, DoStop, DoCollectActor, DoCollectGroup, DoWrite, DoReserve,
        DoUnreserve, DoRead, DoClose, DoCloseWaited;
    var q := Next(p, step);
    match step {
      case Connect => ConnectReceives(p);
      case NewActor(g) => NewActorReceives(p, g);
      case Bind(i, u, d) => BindReceives(p, i, u, d);
      case MoveUpload(i, v) => MoveReceives(p, i, v);
      case MoveDownload(i, v) => MoveReceives(p, i, v);
      case Start(a, i, role, id, remaining, inHeader, pending) =>
        StartStepReceives(p, a, i, role, id, remaining, inHeader, pending);
      case Retire(a, k, pending) => RetireReceives(p, a, k, pending);
      case Exit(a) => ExitReceives(p, a);
      case Data(a, id, length, body, valid, end, memory) => DataReceives(p, a, id, length, body, valid, end, memory);
      case Credit(a, i) =>
        CreditBalanced(p, a, i);
        if q != p { ReceivesBalanced(p, q, i, a); }
      case Read(i, n) => ReadReceives(p, i, n);
      case Close(i, waits) => CloseReceives(p, i, waits);
    }
  }

  /** Every step keeps the receive side in balance. */
  lemma ReceivesNext(p: Pool, step: Step)
    requires Memory(p) && Links(p) && GroupsExist(p) && Receives(p)
    ensures Receives(Next(p, step))
  {
    hide Memory, Links, GroupsExist, Receives, SameReceive, Balanced, StartedReceive;
    hide DoConnect, DoNewGroup, DoNewActor, DoOpened, DoBind, DoMoveUpload, DoMoveDownload, DoStart, DoData,
        DoWindowUpdate, DoSettings, DoReset, DoGoaway, DoHeaders;
    hide DoCredit, DoSend, DoEndSend, DoRetire, DoExit, DoStop, DoCollectActor, DoCollectGroup, DoWrite, DoReserve,
        DoUnreserve, DoRead, DoClose, DoCloseWaited;
    var q := Next(p, step);
    if Quiet(step) {
      QuietReceive(p, step);
      ReceivesSame(p, q);
    } else {
      LoudReceives(p, step);
    }
  }
}
