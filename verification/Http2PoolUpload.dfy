/** Upload side of the pool: the global count of octets under way is exact and bounded, what the
    capacity promises is never refused, and octets go through in order. */
module Http2PoolUpload {
  import opened Bytes
  import opened Sums
  import opened BufferBudget
  import opened Http2Queue
  import opened Http2Pool
  import opened Http2PoolRuns

  function Held(): Stream -> int { (s: Stream) => |s.tx.contents| + s.reserved }

  function Output(): Actor -> int { (x: Actor) => x.netAccounted }

  /** uploadBytes counts what streams queue or reserve and what the backends have not sent. */
  predicate Accounted(p: Pool) {
    p.uploadBytes == Sum(p.streams, Held()) + Sum(p.actors, Output())
  }

  /** Octets leave in the order they came: what was delivered is the beginning of what was
      received, and while the stream is open the rest is queued; likewise for the upload until
      it is stopped. */
  predicate InOrder(s: Stream) {
    && s.delivered <= s.received && s.emitted <= s.accepted
    && (!s.closed ==> s.received == s.delivered + s.rx.contents)
    && (!s.closed && !s.sendStopped ==> s.accepted == s.emitted + s.tx.contents)
    && (s.closed || s.sendStopped ==> s.tx.contents == [])
  }

  predicate Carried(p: Pool) {
    Accounted(p) && forall i :: 0 <= i < |p.streams| ==> InOrder(p.streams[i])
  }

  // ----- frames -----

  predicate SameFlow(s: Stream, t: Stream) {
    && t.rx == s.rx && t.tx == s.tx && t.reserved == s.reserved && t.closed == s.closed
        && t.sendStopped == s.sendStopped
    && t.received == s.received && t.delivered == s.delivered && t.accepted == s.accepted && t.emitted == s.emitted
  }

  /** At most stream `i` and actor `a` carry something else than before, and the count followed;
      an index past the end stands for nobody. */
  predicate Carries(p: Pool, q: Pool, i: nat, a: nat) {
    && |q.streams| == |p.streams| && |q.actors| == |p.actors|
    && (forall j :: 0 <= j < |p.streams| && j != i ==> SameFlow(p.streams[j], q.streams[j]))
    && (forall b :: 0 <= b < |p.actors| && b != a ==> q.actors[b].netAccounted == p.actors[b].netAccounted)
    && (i < |p.streams| && InOrder(p.streams[i]) ==> InOrder(q.streams[i]))
    && q.uploadBytes - p.uploadBytes ==
         (if i < |p.streams| then Held()(q.streams[i]) - Held()(p.streams[i]) else 0) +
         (if a < |p.actors| then q.actors[a].netAccounted - p.actors[a].netAccounted else 0)
  }

  lemma SumChanged<T>(s: seq<T>, t: seq<T>, i: nat, f: T -> int)
    requires |t| == |s| && forall j :: 0 <= j < |s| && j != i ==> f(t[j]) == f(s[j])
    ensures Sum(t, f) == Sum(s, f) + if i < |s| then f(t[i]) - f(s[i]) else 0
  {
    if i < |s| {
      SumUpdate(s, i, t[i], f);
      SumPointwise(s[i := t[i]], t, f);
    } else {
      SumPointwise(s, t, f);
    }
  }

  lemma CarriesOn(p: Pool, q: Pool, i: nat, a: nat)
    requires Carried(p) && Carries(p, q, i, a)
    ensures Carried(q)
  {
    forall j | 0 <= j < |p.streams| ensures InOrder(q.streams[j])
        && (j != i ==> Held()(q.streams[j]) == Held()(p.streams[j])) {
      assert InOrder(p.streams[j]) && (j != i ==> SameFlow(p.streams[j], q.streams[j]));
    }
    SumChanged(p.streams, q.streams, i, Held());
    SumChanged(p.actors, q.actors, a, Output());
  }

  // ----- steps -----

  lemma InOrderReceived(s: Stream, t: Stream, body: seq<Byte>)
    requires InOrder(s) && t.rx.contents == s.rx.contents + body
    requires t == s.(rx := t.rx, consumed := t.consumed, received := s.received + body)
    ensures InOrder(t)
  {
    assert s.delivered + (s.rx.contents + body) == (s.delivered + s.rx.contents) + body;
  }

  lemma EnqueueFields(p: Pool, i: nat, length: nat, body: seq<Byte>, memory: nat -> bool)
    requires Memory(p) && i < |p.streams| && |body| <= length
    ensures var (ok, q) := Enqueue(p, i, length, body, memory);
            var s := p.streams[i];
            && q.streams == p.streams[i := q.streams[i]] && q.actors == p.actors && q.uploadBytes == p.uploadBytes
            && var t := q.streams[i];
               if ok then t == s.(rx := t.rx, consumed := t.consumed, received := s.received + body)
                   && t.rx.contents == s.rx.contents + body else t == s
  {
    hide Memory, Acquire, StreamMemory, Blocks;
  }

  lemma EnqueueCarries(p: Pool, i: nat, length: nat, body: seq<Byte>, memory: nat -> bool)
    requires Memory(p) && i < |p.streams| && |body| <= length
    ensures Carries(p, Enqueue(p, i, length, body, memory).1, i, |p.actors|)
  {
    hide Memory, Enqueue, InOrder;
    EnqueueFields(p, i, length, body, memory);
    var (ok, q) := Enqueue(p, i, length, body, memory);
    if ok && InOrder(p.streams[i]) { InOrderReceived(p.streams[i], q.streams[i], body); }
  }

  lemma InOrderDelivered(s: Stream, t: Stream, n: nat)
    requires InOrder(s) && !s.closed && n <= |s.rx.contents| && t.rx.contents == s.rx.contents[n..]
    requires t == s.(rx := t.rx, consumed := t.consumed, delivered := s.delivered + s.rx.contents[..n])
    ensures InOrder(t)
  {
    assert s.rx.contents == s.rx.contents[..n] + s.rx.contents[n..];
    assert s.delivered + s.rx.contents == (s.delivered + s.rx.contents[..n]) + s.rx.contents[n..];
  }

  lemma ReadFields(p: Pool, i: nat, n: nat)
    requires Memory(p) && LiveStream(p, i) && !p.streams[i].closed
    ensures var q := DoRead(p, i, n);
            var s := p.streams[i];
            var take := if |s.rx.contents| < n then |s.rx.contents| else n;
            && q.streams == p.streams[i := q.streams[i]] && q.actors == p.actors && q.uploadBytes == p.uploadBytes
            && var t := q.streams[i];
               t == s.(rx := t.rx, consumed := t.consumed, delivered := s.delivered + s.rx.contents[..take])
                   && t.rx.contents == s.rx.contents[take..]
  {
    assert StreamMemory(p.store, i, p.streams[i]);
    hide Memory, StreamMemory, GiveMany, Blocks;
  }

  lemma ReadCarries(p: Pool, i: nat, n: nat)
    requires Memory(p)
    ensures Carries(p, DoRead(p, i, n), i, |p.actors|)
  {
    hide Memory, InOrder;
    if LiveStream(p, i) && !p.streams[i].closed {
      hide DoRead;
      ReadFields(p, i, n);
      var s := p.streams[i];
      if InOrder(s) { InOrderDelivered(s, DoRead(p, i, n).streams[i], if |s.rx.contents| < n then |s.rx.contents|
          else n); }
    }
  }

  lemma WriteCarries(p: Pool, i: nat, data: seq<Byte>, memory: nat -> bool)
    requires Memory(p)
    ensures Carries(p, DoWrite(p, i, data, memory), i, |p.actors|)
  {
    hide Memory, UpdateUpload, WriteAppend, WriteStore, Adjusted, FifoValid;
    if MayWrite(p, i) {
      WriteAppendFacts(p, i, data, memory);
      var s := p.streams[i];
      var block := WriteAppend(p, i, data, memory).block;
      assert s.emitted + (s.tx.contents + data[..block]) == (s.emitted + s.tx.contents) + data[..block];
    }
  }

  lemma ReserveCarries(p: Pool, i: nat, n: nat)
    requires Memory(p)
    ensures Carries(p, DoReserve(p, i, n), i, |p.actors|) && Carries(p, DoUnreserve(p, i), i, |p.actors|)
  {
    hide Memory, StreamMemory, UpdateUpload, Trimmed, WriteCapacity, Succeeds, UploadMinimum;
  }

  lemma DropFields(p: Pool, i: nat, n: nat)
    requires Memory(p) && i < |p.streams| && n <= |p.streams[i].tx.contents|
    ensures var s := p.streams[i]; var t := DropUpload(p, i, n).1;
            t == s.(tx := t.tx, emitted := s.emitted + s.tx.contents[..n]) && t.tx.contents == s.tx.contents[n..]
  {
    assert StreamMemory(p.store, i, p.streams[i]);
    hide Memory, StreamMemory, GiveMany, Blocks, UpdateUpload;
  }

  lemma DropInOrder(s: Stream, t: Stream, n: nat)
    requires InOrder(s) && n <= |s.tx.contents|
    requires t == s.(tx := t.tx, emitted := s.emitted + s.tx.contents[..n]) && t.tx.contents == s.tx.contents[n..]
    ensures InOrder(t)
  {
    assert s.tx.contents == s.tx.contents[..n] + s.tx.contents[n..];
    assert s.emitted + s.tx.contents == (s.emitted + s.tx.contents[..n]) + s.tx.contents[n..];
  }

  /** What taking octets off an upload queue does. */
  lemma DropCarries(p: Pool, i: nat, n: nat)
    requires Memory(p) && i < |p.streams| && n <= |p.streams[i].tx.contents|
    ensures var (t, s) := DropUpload(p, i, n);
            Carries(p, p.(store := t, uploadBytes := p.uploadBytes - n, streams := p.streams[i := s]), i, |p.actors|)
  {
    hide Memory, DropUpload, InOrder;
    DropFields(p, i, n);
    if InOrder(p.streams[i]) { DropInOrder(p.streams[i], DropUpload(p, i, n).1, n); }
  }

  /** Then the request and the output of the actor change. */
  predicate Followed(p: Pool, q: Pool, a: nat) {
    && |q.streams| == |p.streams| && |q.actors| == |p.actors| && a < |p.actors|
    && (forall j :: 0 <= j < |p.streams| ==> SameFlow(p.streams[j], q.streams[j]))
    && (forall b :: 0 <= b < |p.actors| && b != a ==> q.actors[b].netAccounted == p.actors[b].netAccounted)
    && q.uploadBytes - p.uploadBytes == q.actors[a].netAccounted - p.actors[a].netAccounted
  }

  lemma CarriesFollowed(p: Pool, mid: Pool, q: Pool, i: nat, a: nat)
    requires Carries(p, mid, i, |p.actors|) && mid.actors == p.actors && Followed(mid, q, a)
    ensures Carries(p, q, i, a)
  {
    forall j | 0 <= j < |p.streams| ensures (j != i ==> SameFlow(p.streams[j], q.streams[j]))
        && SameFlow(mid.streams[j], q.streams[j]) {
    }
  }

  lemma SendCarries(p: Pool, a: nat, i: nat, k: nat, pending: nat)
    requires Memory(p)
    ensures var q := DoSend(p, a, i, k, pending); q == p || Carries(p, q, i, a)
  {
    if MaySend(p, a, i, k) && p.actors[a].peerFrame != 0 {
      assert StreamMemory(p.store, i, p.streams[i]);
      var n: nat := SendLength(p, a, i, k);
      DropCarries(p, i, n);
      hide Memory, StreamMemory, SendLength, Carries, FifoValid, DropUpload;
      var (t, s) := DropUpload(p, i, n);
      var mid := p.(store := t, uploadBytes := p.uploadBytes - n, streams := p.streams[i := s]);
      CarriesFollowed(p, mid, DoSend(p, a, i, k, pending), i, a);
    }
  }

  lemma StartCarries(p: Pool, a: nat, i: nat, role: Role, id: nat, remaining: nat, inHeader: nat, pending: nat)
    requires Memory(p)
    ensures var q := DoStart(p, a, i, role, id, remaining, inHeader, pending); q == p || Carries(p, q, i, a)
  {
    hide Memory, Carries, DropUpload, GrowWindow, InitialWindow, ManagerOf;
    var q := DoStart(p, a, i, role, id, remaining, inHeader, pending);
    if MayStart(p, a, i,
        role) { GrowKeepsOutput(p.actors[a].(netAccounted := pending), InitialWindow(ManagerOf(p, a))); }
    if q != p {
      if inHeader > 0 {
        DropCarries(p, i, inHeader);
        var (t, s) := DropUpload(p, i, inHeader);
        CarriesFollowed(p, p.(store := t, uploadBytes := p.uploadBytes - inHeader, streams := p.streams[i := s]), q, i,
            a);
      } else {
        SelfCarries(p, i);
        CarriesFollowed(p, p, q, i, a);
      }
    }
  }

  lemma GrowKeepsOutput(x: Actor, window: nat)
    ensures GrowWindow(x, window).netAccounted == x.netAccounted
  {
    hide Capacity, CountDownloads;
  }

  lemma SelfCarries(p: Pool, i: nat)
    ensures Carries(p, p, i, |p.actors|)
  {
  }

  lemma StopUploadCarries(p: Pool, i: nat)
    requires Memory(p) && i < |p.streams|
    ensures Carries(p, StopUpload(p, i), i, |p.actors|) && StopUpload(p, i).actors == p.actors
  {
    hide Memory, StreamMemory, Emptied;
  }

  lemma CloseQueuesCarries(p: Pool, i: nat)
    requires Memory(p) && i < |p.streams|
    ensures Carries(p, CloseQueues(p, i), i, |p.actors|)
  {
    hide Memory, StreamMemory, Emptied;
  }

  lemma ReleaseCarries(p: Pool, i: nat)
    requires i < |p.streams| && (p.streams[i].closed ==> p.streams[i].tx == EMPTY && p.streams[i].reserved == 0)
    ensures Carries(p, ReleaseStream(p, i), i, |p.actors|)
  {
  }

  lemma ClosedEmpty(p: Pool, i: nat)
    requires Memory(p) && i < |p.streams|
    ensures p.streams[i].closed ==> p.streams[i].tx == EMPTY && p.streams[i].reserved == 0
  {
    assert StreamMemory(p.store, i, p.streams[i]);
  }

  /** Nothing that is carried changed but, perhaps, the output of actor `a`. */
  lemma FollowedCarried(p: Pool, q: Pool, a: nat)
    requires Carried(p) && Followed(p, q, a)
    ensures Carried(q)
  {
    hide InOrder;
    CarriesOn(p, q, |p.streams|, a);
  }

  predicate SameCarried(p: Pool, q: Pool) {
    && |q.streams| == |p.streams| && |q.actors| == |p.actors| && q.uploadBytes == p.uploadBytes
    && (forall j :: 0 <= j < |p.streams| ==> SameFlow(p.streams[j], q.streams[j]))
    && (forall b :: 0 <= b < |p.actors| ==> q.actors[b].netAccounted == p.actors[b].netAccounted)
  }

  lemma SameCarriedOn(p: Pool, q: Pool)
    requires Carried(p) && SameCarried(p, q)
    ensures Carried(q)
  {
    hide InOrder, SameFlow;
    CarriesOn(p, q, |p.streams|, |p.actors|);
  }

  lemma ConnectCarried(p: Pool)
    requires Carried(p)
    ensures Carried(DoConnect(p))
  {
    SumAppend(p.streams, FRESH, Held());
    hide Sum;
  }

  lemma NewActorCarried(p: Pool, g: nat)
    requires Carried(p)
    ensures Carried(DoNewActor(p, g))
  {
    var q := DoNewActor(p, g);
    if q != p { SumAppend(p.actors, q.actors[|p.actors|], Output()); }
    hide Sum, InOrder;
  }

  lemma AccountCarried(p: Pool, a: nat, n: nat)
    requires Carried(p) && a < |p.actors|
    ensures Carried(AccountOutput(p, a, n))
  {
    hide Carried;
    FollowedCarried(p, AccountOutput(p, a, n), a);
  }

  lemma TakeDataCarried(p: Pool, a: nat, k: nat, length: nat, body: seq<Byte>, memory: nat -> bool)
    requires Memory(p) && a < |p.actors| && k < |p.actors[a].requests| && p.actors[a].requests[k].stream < |p.streams|
        && |body| <= length && Carried(p)
    ensures Carried(TakeData(p, a, k, length, body, memory))
  {
    hide Memory, Carried, Enqueue, Carries;
    var i := p.actors[a].requests[k].stream;
    var q := Enqueue(p, i, length, body, memory).1;
    EnqueueCarries(p, i, length, body, memory);
    CarriesOn(p, q, i, |p.actors|);
    SpentSame(q, a, k, length);
    SpentSame(p, a, k, length);
    hide SpendWindows, SameCarried;
    SameCarriedOn(q, SpendWindows(q, a, k, length));
    SameCarriedOn(q, FailActor(SpendWindows(q, a, k, length), a));
    SameCarriedOn(p, SetActor(p, a, Refunded(p.actors[a], length)));
  }

  lemma SpentSame(p: Pool, a: nat, k: nat, length: nat)
    requires a < |p.actors| && k < |p.actors[a].requests|
    ensures SameCarried(p, SpendWindows(p, a, k, length)) && SameCarried(p, FailActor(SpendWindows(p, a, k, length), a))
    ensures SameCarried(p, SetActor(p, a, Refunded(p.actors[a], length)))
  {
  }

  lemma RejectSame(p: Pool, a: nat, k: nat)
    requires a < |p.actors| && k < |p.actors[a].requests| && p.actors[a].requests[k].stream < |p.streams|
    ensures SameCarried(p, Reject(p, a, k))
  {
  }

  lemma EndDataSame(p: Pool, a: nat, k: nat)
    requires a < |p.actors| && k < |p.actors[a].requests| && p.actors[a].requests[k].stream < |p.streams|
    ensures SameCarried(p, EndData(p, a, k))
  {
    RejectSame(p, a, k);
    hide Reject;
  }

  lemma DataCarried(p: Pool, a: nat, id: nat, length: nat, body: seq<Byte>, valid: bool, end: bool, memory: nat -> bool)
    requires Memory(p) && Carried(p)
    ensures Carried(DoData(p, a, id, length, body, valid, end, memory))
  {
    hide Memory, Carried, Judge, TakeData, EndData, Reject, Refunded;
    if Working(p, a) && |body| <= length {
      var v := Judge(p, a, id, length, valid);
      match v {
        case Broken => SameCarriedOn(p, FailActor(p, a));
        case Stray => SameRefund(p, a, length); SameCarriedOn(p, SetActor(p, a, Refunded(p.actors[a], length)));
        case Refused(k) =>
          SameRefund(p, a, length);
          var q := SetActor(p, a, Refunded(p.actors[a], length));
          SameCarriedOn(p, q);
          RejectSame(q, a, k);
          SameCarriedOn(q, Reject(q, a, k));
        case Response(k) =>
          TakeDataCarried(p, a, k, length, body, memory);
          var q := TakeData(p, a, k, length, body, memory);
          EndDataSame(q, a, k);
          SameCarriedOn(q, EndData(q, a, k));
      }
    }
  }

  lemma SameRefund(p: Pool, a: nat, length: nat)
    requires a < |p.actors|
    ensures SameCarried(p, SetActor(p, a, Refunded(p.actors[a], length)))
        && Refunded(p.actors[a], length).requests == p.actors[a].requests
  {
  }

  lemma ResetCarried(p: Pool, a: nat, id: nat, code: nat)
    requires Memory(p) && Carried(p)
    ensures Carried(DoReset(p, a, id, code))
  {
    hide Memory, Carried, StopUpload, Carries;
    if Working(p, a) {
      var k := Find(p.actors[a].requests, id);
      if k < |p.actors[a].requests| && p.actors[a].requests[k].stream < |p.streams| {
        var i := p.actors[a].requests[k].stream;
        StopUploadCarries(p, i);
        CarriesOn(p, StopUpload(p, i), i, |p.actors|);
        var s := p.streams[i];
        var r := p.actors[a].requests[k];
        if !(code != 0 || !r.ended) && !r.role.Packets() && s.bound && s.upload == a && r.id == s.upId {
          SameCarriedOn(StopUpload(p, i), DoReset(p, a, id, code));
        } else {
          SameCarriedOn(p, DoReset(p, a, id, code));
        }
      }
    }
  }

  lemma RetireCarried(p: Pool, a: nat, k: nat, pending: nat)
    requires Memory(p) && Carried(p)
    ensures Carried(DoRetire(p, a, k, pending))
  {
    var q := DoRetire(p, a, k, pending);
    hide Memory, Carried, Carries, ReleaseStream;
    if q != p {
      var x := p.actors[a];
      var mid := AccountOutput(SetActor(p, a, x.(requests := x.requests[..k] + x.requests[k + 1..])), a, pending);
      FollowedCarried(p, mid, a);
      ClosedEmpty(p, x.requests[k].stream);
      ReleaseCarries(mid, x.requests[k].stream);
      CarriesOn(mid, q, x.requests[k].stream, |mid.actors|);
    }
  }

  lemma {:induction false} ReleaseAllCarried(p: Pool, requests: seq<Request>)
    requires Memory(p) && Carried(p)
    ensures Carried(ReleaseAll(p, requests))
    decreases |requests|
  {
    hide Memory, Carried, Carries, ReleaseStream;
    if requests != [] {
      var i := requests[0].stream;
      if i < |p.streams| {
        ClosedEmpty(p, i);
        ReleaseCarries(p, i);
        CarriesOn(p, ReleaseStream(p, i), i, |p.actors|);
        ReleaseMemory(p, i);
        ReleaseAllCarried(ReleaseStream(p, i), requests[1..]);
      } else {
        ReleaseAllCarried(p, requests[1..]);
      }
    }
  }

  lemma ExitCarried(p: Pool, a: nat)
    requires Memory(p) && Carried(p)
    ensures Carried(DoExit(p, a))
  {
    hide Memory, Carried, ReleaseAll;
    if LiveActor(p, a) && !p.actors[a].stopped {
      var mid := p.(streams := FailUsers(p.streams, a),
          actors := p.actors[a := p.actors[a].(failed := true, opening := false, requests := [])]);
      SameCarriedOn(p, mid);
      MemorySame(p, mid);
      ReleaseAllCarried(mid, p.actors[a].requests);
    }
  }

  lemma CloseCarried(p: Pool, i: nat, waits: (bool, bool))
    requires Memory(p) && Carried(p)
    ensures Carried(DoClose(p, i, waits))
  {
    hide Memory, Carried, Carries, CloseQueues, Unbind, ReleaseStream;
    if LiveStream(p, i) && !p.streams[i].closed {
      CloseQueuesCarries(p, i);
      var q := CloseQueues(p, i);
      CarriesOn(p, q, i, |p.actors|);
      CloseQueuesMemory(p, i);
      CloseQueuesFrame(p, i);
      ClosedEmpty(q, i);
      var s := p.streams[i];
      if s.bound && s.download < |p.actors| && s.upload < |p.actors| {
        UnbindSame(q, i, waits);
        var r := Unbind(q, i, waits);
        SameCarriedOn(q, r);
        ReleaseCarries(r, i);
        CarriesOn(r, ReleaseStream(r, i), i, |r.actors|);
      } else {
        ReleaseCarries(q, i);
        CarriesOn(q, ReleaseStream(q, i), i, |q.actors|);
      }
    }
  }

  lemma UnbindSame(p: Pool, i: nat, waits: (bool, bool))
    requires i < |p.streams| && p.streams[i].download < |p.actors| && p.streams[i].upload < |p.actors|
    ensures SameCarried(p, Unbind(p, i, waits))
    ensures Unbind(p, i, waits).streams[i].tx == p.streams[i].tx
        && Unbind(p, i, waits).streams[i].reserved == p.streams[i].reserved
  {
    hide AddRunning;
  }

  // ----- steps that carry nothing -----

  lemma {:induction false} SettleOutput(x: Actor, entries: seq<(nat, nat)>)
    ensures Settle(x, entries).netAccounted == x.netAccounted
    decreases |entries|
  {
    if entries != [] {
      var (id, value) := entries[0];
      SettleOutput(x.(peerWindow := value, requests := Shifted(x.requests, value - x.peerWindow)), entries[1..]);
      SettleOutput(x.(peerFrame := value), entries[1..]);
      SettleOutput(x, entries[1..]);
    }
  }

  lemma FrameSame(p: Pool, a: nat, id: nat, n: nat, entries: seq<(nat, nat)>)
    ensures SameCarried(p, DoWindowUpdate(p, a, id, n)) && SameCarried(p, DoSettings(p, a, entries))
  {
    hide Reject, Settle;
    if Working(p, a) {
      SettleOutput(p.actors[a], entries);
      var k := Find(p.actors[a].requests, id);
      if k < |p.actors[a].requests| && p.actors[a].requests[k].stream < |p.streams| { RejectSame(p, a, k); }
    }
  }

  lemma HeadersSame(p: Pool, a: nat, id: nat, accepted: bool, success: bool, end: bool)
    ensures SameCarried(p, DoHeaders(p, a, id, accepted, success, end))
  {
    hide Reject;
    if Working(p, a) {
      var k := Find(p.actors[a].requests, id);
      if k < |p.actors[a].requests| && p.actors[a].requests[k].stream < |p.streams| { RejectSame(p, a, k); }
    }
  }

  lemma RequestSame(p: Pool, a: nat, k: nat, i: nat)
    ensures SameCarried(p, DoGoaway(p, a, k)) && SameCarried(p, DoCredit(p, a, i))
  {
    hide CreditDue;
  }

  lemma BindSame(p: Pool, i: nat, u: nat, d: nat)
    requires Memory(p)
    ensures SameCarried(p, DoBind(p, i, u, d)) && SameCarried(p, DoMoveUpload(p, i, u))
        && SameCarried(p, DoMoveDownload(p, i, u))
  {
    hide Memory, BindStore, Reservation, AddRunning, ManagerOf;
  }

  lemma ActorSame(p: Pool, a: nat, w: nat, f: nat)
    ensures SameCarried(p, DoOpened(p, a, w, f)) && SameCarried(p, DoCollectActor(p, a))
        && SameCarried(p, DoCloseWaited(p, a))
    ensures a < |p.actors| ==>
        SameCarried(p, SetActor(p, a, p.actors[a].(draining := true))) && SameCarried(p, FailActor(p, a))
  {
  }

  lemma StreamSame(p: Pool, i: nat)
    requires i < |p.streams|
    ensures SameCarried(p, FailStream(p, i)) && SameCarried(p, SetStream(p, i, p.streams[i].(ready := true)))
    ensures SameCarried(p, SetStream(p, i, p.streams[i].(finishRequested := true)))
  {
  }

  lemma OutsideSame(p: Pool, q: Pool)
    requires q.streams == p.streams && q.actors == p.actors && q.uploadBytes == p.uploadBytes
    ensures SameCarried(p, q)
  {
  }

  predicate Idle(step: Step) {
    !(step.Connect? || step.NewActor? || step.Start? || step.Data? || step.ResetStream? || step.Send? || step.EndSend?
        || step.Retire? || step.Flushed? || step.Exit? ||
    step.Stop? || step.Write? || step.Reserve? || step.Unreserve? || step.Read? || step.Close?)
  }

  lemma ActorIdleSame(p: Pool, step: Step)
    requires Memory(p) && Idle(step)
    requires OnActor(step)
    ensures SameCarried(p, Raw(p, step))
  {
    hide Memory, SameCarried, FailActor, SetActor, FailStream, SetStream, Apply, CacheCleared;
    hide DoConnect, DoNewActor, DoOpened, DoBind, DoMoveUpload, DoMoveDownload, DoStart, DoData, DoWindowUpdate,
        DoSettings, DoReset, DoGoaway, DoHeaders;
    hide DoCredit, DoSend, DoEndSend, DoRetire, DoExit, DoStop, DoCollectActor, DoWrite, DoReserve, DoUnreserve,
        DoRead, DoClose, DoCloseWaited;
    OutsideSame(p, p);
    match step {
      case WindowUpdate(a, id, n) => FrameSame(p, a, id, n, []);
      case Settings(a, entries) => FrameSame(p, a, 0, 0, entries);
      case Goaway(a, k) => RequestSame(p, a, k, 0);
      case Headers(a, id, accepted, success, end) => HeadersSame(p, a, id, accepted, success, end);
      case Credit(a, i) => RequestSame(p, a, 0, i);
      case Opened(a, w, f) => ActorSame(p, a, w, f);
      case Drain(a) => ActorSame(p, a, 0, 0);
      case Break(a) => ActorSame(p, a, 0, 0);
      case CollectActor(a) => ActorSame(p, a, 0, 0);
      case CloseWaited(a) => ActorSame(p, a, 0, 0);
    }
  }

  lemma StreamIdleSame(p: Pool, step: Step)
    requires Memory(p) && Idle(step)
    requires !OnActor(step)
    ensures SameCarried(p, Raw(p, step))
  {
    hide Memory, SameCarried, FailActor, SetActor, FailStream, SetStream, Apply, CacheCleared;
    hide DoConnect, DoNewActor, DoOpened, DoBind, DoMoveUpload, DoMoveDownload, DoStart, DoData, DoWindowUpdate,
        DoSettings, DoReset, DoGoaway, DoHeaders;
    hide DoCredit, DoSend, DoEndSend, DoRetire, DoExit, DoStop, DoCollectActor, DoWrite, DoReserve, DoUnreserve,
        DoRead, DoClose, DoCloseWaited;
    OutsideSame(p, p);
    match step {
      case Bind(i, u, d) => BindSame(p, i, u, d);
      case MoveUpload(i, v) => BindSame(p, i, v, 0);
      case MoveDownload(i, v) => BindSame(p, i, v, 0);
      case Ready(i) => if LiveStream(p, i) { StreamSame(p, i); }
      case Fail(i) => if LiveStream(p, i) { StreamSame(p, i); }
      case FinishWrite(i) => if LiveStream(p, i) { StreamSame(p, i); }
      case NewGroup(_) => OutsideSame(p, Raw(p, step));
      case CollectGroup(_) => OutsideSame(p, Raw(p, step));
      case Ledger(_) => OutsideSame(p, Raw(p, step));
      case ClearCache => OutsideSame(p, Raw(p, step));
    }
  }

  lemma IdleSame(p: Pool, step: Step)
    requires Memory(p) && Idle(step)
    ensures SameCarried(p, Raw(p, step))
  {
    hide *;
    if OnActor(step) { ActorIdleSame(p, step); } else { StreamIdleSame(p, step); }
  }

  lemma EndSendCarried(p: Pool, a: nat, k: nat, n: nat)
    requires Carried(p)
    ensures Carried(DoEndSend(p, a, k, n)) && Carried(DoStop(p, a))
  {
    hide Carried;
    if Working(p, a) && k < |p.actors[a].requests| { FollowedCarried(p, DoEndSend(p, a, k, n), a); }
    if DoStop(p, a) != p { FollowedCarried(p, DoStop(p, a), a); }
  }

  lemma CarryingNext(p: Pool, step: Step)
    requires Memory(p) && Carried(p)
    requires !Idle(step)
    ensures Carried(Next(p, step))
  {
    hide Memory, Carried, Carries, SameCarried, AccountOutput;
    hide DoConnect, DoNewGroup, DoNewActor, DoOpened, DoBind, DoMoveUpload, DoMoveDownload, DoStart, DoData,
        DoWindowUpdate, DoSettings, DoReset, DoGoaway, DoHeaders;
    hide DoCredit, DoSend, DoEndSend, DoRetire, DoExit, DoStop, DoCollectActor, DoCollectGroup, DoWrite, DoReserve,
        DoUnreserve, DoRead, DoClose, DoCloseWaited;
    var q := Next(p, step);
    match step {
      case Connect => ConnectCarried(p);
      case NewActor(g) => NewActorCarried(p, g);
      case Start(a, i, role, id, remaining, inHeader, pending) =>
        StartCarries(p, a, i, role, id, remaining, inHeader, pending);
        if q != p { CarriesOn(p, q, i, a); }
      case Data(a, id, length, body, valid, end, memory) => DataCarried(p, a, id, length, body, valid, end, memory);
      case ResetStream(a, id, code) => ResetCarried(p, a, id, code);
      case Send(a, i, k, pending) => SendCarries(p, a, i, k, pending); if q != p { CarriesOn(p, q, i, a); }
      case EndSend(a, k, n) => EndSendCarried(p, a, k, n);
      case Retire(a, k, pending) => RetireCarried(p, a, k, pending);
      case Flushed(a, n) => if Working(p, a) { AccountCarried(p, a, n); }
      case Exit(a) => ExitCarried(p, a);
      case Stop(a) => EndSendCarried(p, a, 0, 0);
      case Write(i, data, memory) => WriteCarries(p, i, data, memory); CarriesOn(p, q, i, |p.actors|);
      case Reserve(i, n) => ReserveCarries(p, i, n); CarriesOn(p, q, i, |p.actors|);
      case Unreserve(i) => ReserveCarries(p, i, 0); CarriesOn(p, q, i, |p.actors|);
      case Read(i, n) => ReadCarries(p, i, n); CarriesOn(p, q, i, |p.actors|);
      case Close(i, waits) => CloseCarried(p, i, waits);
    }
  }

  lemma CarriedNext(p: Pool, step: Step)
    requires Memory(p) && Carried(p)
    ensures Carried(Next(p, step))
  {
    hide Memory, Carried, Carries, SameCarried, AccountOutput;
    hide DoConnect, DoNewGroup, DoNewActor, DoOpened, DoBind, DoMoveUpload, DoMoveDownload, DoStart, DoData,
        DoWindowUpdate, DoSettings, DoReset, DoGoaway, DoHeaders;
    hide DoCredit, DoSend, DoEndSend, DoRetire, DoExit, DoStop, DoCollectActor, DoCollectGroup, DoWrite, DoReserve,
        DoUnreserve, DoRead, DoClose, DoCloseWaited;
    var q := Next(p, step);
    if Idle(step) {
      IdleSame(p, step);
      SameCarriedOn(p, q);
    } else {
      CarryingNext(p, step);
    }
  }

  /** Over every run, uploadBytes is exact, and each stream's octets go through in order. */
  lemma {:induction false} UploadRun(p: Pool, steps: seq<Step>)
    requires Initial(p)
    ensures Carried(Run(p, steps))
    decreases |steps|
  {
    hide Memory, Carried, Initial, Next;
    if steps == [] {
      InitialCarried(p);
    } else {
      var before := steps[..|steps| - 1];
      UploadRun(p, before);
      CarriedNext(Run(p, before), steps[|steps| - 1]);
    }
  }

  lemma InitialCarried(p: Pool)
    requires Initial(p)
    ensures Carried(p)
  {
  }

  // ----- bounds and capacity -----

  /** Neither a write nor a reservation raises the count above its limit. */
  lemma UploadBounded(p: Pool, i: nat, data: seq<Byte>, memory: nat -> bool, n: nat)
    requires Memory(p)
    ensures var limit := if p.uploadBytes > UPLOAD_LIMIT then p.uploadBytes else UPLOAD_LIMIT;
            DoWrite(p, i, data, memory).uploadBytes <= limit && DoReserve(p, i, n).uploadBytes <= limit
  {
    hide Memory, UpdateUpload, WriteAppend, WriteStore, Adjusted, FifoValid, Trimmed, WriteCapacity, Succeeds,
        UploadMinimum;
    if MayWrite(p, i) { WriteAppendFacts(p, i, data, memory); }
  }

  /** What is charged to the direction of account `a` by everybody else. */
  function Others(s: Store, a: nat): int
    requires a < |s.budgets|
  {
    Charged(s.budgets, s.budgets[a].direction) - s.budgets[a].Charge()
  }

  /** The charge of the account once it holds `n` blocks more. */
  function Need(b: Budget, n: nat): nat { b.(used := b.used + n * BLOCK_SIZE).Charge() }

  lemma TakeFits(s: Store, a: nat, memory: bool)
    requires StoreValid(s) && Account(s, a) && memory
    requires Others(s, a) + Need(s.budgets[a], 1) <= TOTAL_LIMIT
    ensures var (ok, t) := Take(s, a, memory); ok && a < |t.budgets| && Others(t, a) <= Others(s, a)
  {
    var d := s.budgets[a].direction;
    MemberBound(s.budgets, a, d);
    hide Charged, Used;
    if s.cached[d] > 0 && Succeeds(s.budgets, Transfer(d, a, BLOCK_SIZE)) {
      TransferTotals(s.budgets, d, a, BLOCK_SIZE);
    } else {
      var b := s.budgets[a].(used := s.budgets[a].used + BLOCK_SIZE);
      Moved(s.budgets, a, b);
      var asked := Asked(s.budgets, Hold(a, BLOCK_SIZE));
      assert asked == s.budgets[a := b];
      forall e | 0 <= e < DIRECTIONS ensures Charged(asked, e) <= TOTAL_LIMIT {
        assert Charged(s.budgets, e) <= TOTAL_LIMIT;
      }
    }
  }

  lemma {:induction false} TakeManyFits(s: Store, a: nat, n: nat, memory: nat -> bool)
    requires StoreValid(s) && Account(s, a) && (forall i :: memory(i))
    requires Others(s, a) + Need(s.budgets[a], n) <= TOTAL_LIMIT
    ensures var (k, t) := TakeMany(s, a, n, memory); k == n && a < |t.budgets| && Others(t, a) <= Others(s, a)
  {
    hide StoreValid, Take, Others;
    if n > 0 {
      assert Need(s.budgets[a], n - 1) <= Need(s.budgets[a], n);
      TakeManyFits(s, a, n - 1, memory);
      var t := TakeMany(s, a, n - 1, memory).1;
      assert Need(t.budgets[a], 1) == Need(s.budgets[a], n);
      TakeAdjusts(t, a, memory(n - 1));
      TakeFits(t, a, memory(n - 1));
    }
  }

  lemma NeedWithin(b: Budget, n: nat, limit: nat)
    requires b.used + n * BLOCK_SIZE <= limit
    ensures Need(b, n) <= if b.minimum > limit then b.minimum else limit
  {
  }

  /** When the reservation for the new length fits beside what everybody else is charged, an
      append is refused by nothing but malloc. */
  lemma AppendHasRoom(s: Store, a: nat, f: Fifo, data: seq<Byte>, memory: nat -> bool)
    requires StoreValid(s) && Account(s, a) && FifoValid(f)
    requires s.budgets[a].used == Blocks(f) * BLOCK_SIZE && (forall i :: memory(i))
    requires |f.contents| + |data| <= STREAM_LIMIT && Reservation(|f.contents| + |data|) + Others(s, a) <= TOTAL_LIMIT
    ensures Append(s, a, f, data, memory).0
  {
    hide StoreValid, Others, Reservation, TakeMany, Blocks, Need;
    var g := Appended(f, data);
    AppendedBlocks(f, data);
    BlocksReserved(g);
    MinimumFits(s, a);
    NeedWithin(s.budgets[a], Blocks(g) - Blocks(f), Reservation(|g.contents|));
    TakeManyFits(s, a, Blocks(g) - Blocks(f), memory);
  }

  lemma MinimumFits(s: Store, a: nat)
    requires StoreValid(s) && Account(s, a)
    ensures s.budgets[a].minimum + Others(s, a) <= TOTAL_LIMIT
  {
    assert Charged(s.budgets, s.budgets[a].direction) <= TOTAL_LIMIT;
    hide Charged;
  }

  lemma UploadQueue(p: Pool, i: nat)
    requires Memory(p) && i < |p.streams|
    ensures var s := p.streams[i]; var tx := p.store.budgets[TxAccount(i)];
            && TxAccount(i) < |p.store.budgets| && tx.direction == UPLOAD && FifoValid(s.tx)
                && tx.used == Blocks(s.tx) * BLOCK_SIZE
            && |s.tx.contents| + s.reserved <= STREAM_LIMIT
            && (s.reserved > 0 ==> tx.minimum >= Reservation(|s.tx.contents| + s.reserved))
  {
    assert StreamMemory(p.store, i, p.streams[i]);
  }

  /** The amount a write takes, by its reservation or by the capacity it was told, is never refused by a budget. */
  lemma WriteNeverRefused(p: Pool, i: nat, data: seq<Byte>, memory: nat -> bool)
    requires Memory(p) && i < |p.streams| && forall j :: memory(j)
    ensures WriteAppend(p, i, data, memory).ok
  {
    hide Memory, WriteStore, WriteBlock, Append, Charged, Reservation, FifoValid, StoreValid;
    UploadQueue(p, i);
    var s := p.streams[i];
    var store := WriteStore(p, i, |data|);
    var block := WriteBlock(p, i, store, |data|);
    assert store.budgets[TxAccount(i)] == p.store.budgets[TxAccount(i)];
    if block == 0 {
      AppendNothing(store, TxAccount(i), s.tx, data[..block], memory);
    } else if s.reserved >= |data| {
      BlockReserved(p, i, store, |data|);
      ReservationMonotone(|s.tx.contents| + |data|, |s.tx.contents| + s.reserved);
      AppendFits(store, TxAccount(i), s.tx, data[..block], memory);
    } else {
      BlockFits(p, i, store, |data|);
      AppendHasRoom(store, TxAccount(i), s.tx, data[..block], memory);
    }
  }

  lemma BlockReserved(p: Pool, i: nat, store: Store, wanted: nat)
    requires i < |p.streams| && TxAccount(i) < |store.budgets| && |p.streams[i].tx.contents| <= STREAM_LIMIT
        && p.streams[i].reserved >= wanted
    ensures WriteBlock(p, i, store, wanted) == wanted
  {
  }

  lemma BlockFits(p: Pool, i: nat, store: Store, wanted: nat)
    requires i < |p.streams| && TxAccount(i) < |store.budgets| && |p.streams[i].tx.contents| <= STREAM_LIMIT
        && p.streams[i].reserved < wanted
    requires store.budgets[TxAccount(i)].direction == UPLOAD && WriteBlock(p, i, store, wanted) > 0
    ensures var block := WriteBlock(p, i, store, wanted);
            && block <= wanted && |p.streams[i].tx.contents| + block <= STREAM_LIMIT
            && Reservation(|p.streams[i].tx.contents| + block) + Others(store, TxAccount(i)) <= TOTAL_LIMIT
  {
    hide LargestFit, Charged, Reservation;
    var tx := p.streams[i].tx;
    ReservationMonotone(|tx.contents| + WriteBlock(p, i, store, wanted), |tx.contents| + WriteCapacity(store, i, tx));
  }

  lemma AppendNothing(s: Store, a: nat, f: Fifo, data: seq<Byte>, memory: nat -> bool)
    requires StoreValid(s) && Account(s, a) && |f.contents| <= STREAM_LIMIT && data == []
    ensures Append(s, a, f, data, memory).0
  {
    assert Appended(f, data) == f;
    hide StoreValid;
  }
}
