/** Which request, stream and actor belong together, in every reachable state of the pool. */
module Http2PoolLinks {
  import opened Bytes
  import opened BufferBudget
  import opened Http2Queue
  import opened Http2Pool
  import opened Http2PoolRuns

  /** The receive window of the requests of an actor. */
  function WindowOf(p: Pool, a: nat): (w: nat)
    requires a < |p.actors|
    ensures 1 <= w <= STREAM_LIMIT
  {
    InitialWindow(ManagerOf(p, a))
  }

  /** A request has an id of its actor and belongs to a bound stream; the download request of a
      stream is on the stream's download actor, under the id the stream remembers. */
  predicate RequestLink(p: Pool, a: nat, r: Request) {
    && a < |p.actors| && 0 < r.id <= p.actors[a].latest
    && r.stream < |p.streams| && p.streams[r.stream].bound
    && (r.role.Downloads() ==> p.streams[r.stream].download == a && p.streams[r.stream].downId == r.id)
  }

  predicate ActorLinks(p: Pool, a: nat) {
    && a < |p.actors|
    && (forall k :: 0 <= k < |p.actors[a].requests| ==> RequestLink(p, a, p.actors[a].requests[k]))
    && (forall j, k :: 0 <= j < k < |p.actors[a].requests| ==> p.actors[a].requests[j].id != p.actors[a].requests[k].id)
    && (p.actors[a].opening ==> p.actors[a].requests == [])
  }

  /** The id a stream remembers for its download is nobody else's. */
  predicate StreamLink(p: Pool, i: nat) {
    && i < |p.streams|
    && var s := p.streams[i];
       && (!s.bound ==> s.downId == 0 && s.upId == 0)
       && (s.bound ==>
             && s.download < |p.actors| && s.upload < |p.actors|
             && s.downId <= p.actors[s.download].latest && s.upId <= p.actors[s.upload].latest
             && s.window == WindowOf(p, s.download)
             && (forall k ::
                 0 <= k < |p.actors[s.download].requests| && p.actors[s.download].requests[k].id == s.downId ==>
                   p.actors[s.download].requests[k].stream == i && p.actors[s.download].requests[k].role.Downloads()))
  }

  predicate Links(p: Pool) {
    && (forall a :: 0 <= a < |p.actors| ==> ActorLinks(p, a))
    && (forall i :: 0 <= i < |p.streams| ==> StreamLink(p, i))
  }

  // ----- frames -----

  predicate SameRequest(r: Request, t: Request) { t.stream == r.stream && t.id == r.id && t.role == r.role }

  predicate SameActor(x: Actor, y: Actor) {
    && y.group == x.group && y.latest == x.latest && |y.requests| == |x.requests| && (y.opening ==> x.opening)
    && forall k :: 0 <= k < |x.requests| ==> SameRequest(x.requests[k], y.requests[k])
  }

  predicate SameBinding(s: Stream, t: Stream) {
    t.bound == s.bound && t.download == s.download && t.upload == s.upload && t.downId == s.downId && t.upId == s.upId
        && t.window == s.window
  }

  predicate SameManagers(p: Pool, q: Pool) {
    && q.managers == p.managers && |q.groups| >= |p.groups|
    && forall g :: 0 <= g < |p.groups| ==> q.groups[g].manager == p.groups[g].manager
  }

  predicate GroupsExist(p: Pool) {
    forall a :: 0 <= a < |p.actors| ==> p.actors[a].group < |p.groups|
  }

  predicate SameShape(p: Pool, q: Pool) {
    && SameManagers(p, q) && |q.streams| == |p.streams| && |q.actors| == |p.actors|
    && (forall a :: 0 <= a < |p.actors| ==> SameActor(p.actors[a], q.actors[a]))
    && (forall i :: 0 <= i < |p.streams| ==> SameBinding(p.streams[i], q.streams[i]))
  }

  lemma SameWindow(p: Pool, q: Pool, a: nat)
    requires a < |p.actors| && a < |q.actors| && q.actors[a].group == p.actors[a].group < |p.groups|
        && SameManagers(p, q)
    ensures WindowOf(q, a) == WindowOf(p, a) && ManagerOf(q, a) == ManagerOf(p, a)
  {
  }

  lemma LinksSame(p: Pool, q: Pool)
    requires Links(p) && GroupsExist(p) && SameShape(p, q)
    ensures Links(q) && GroupsExist(q)
  {
    forall a | 0 <= a < |q.actors| ensures ActorLinks(q, a) {
      assert ActorLinks(p, a) && SameActor(p.actors[a], q.actors[a]);
      var x := p.actors[a];
      forall k | 0 <= k < |x.requests| ensures RequestLink(q, a, q.actors[a].requests[k]) {
        assert RequestLink(p, a, x.requests[k]) && SameRequest(x.requests[k], q.actors[a].requests[k]);
        assert SameBinding(p.streams[x.requests[k].stream], q.streams[x.requests[k].stream]);
      }
      forall j, k | 0 <= j < k < |x.requests| ensures q.actors[a].requests[j].id != q.actors[a].requests[k].id {
        assert SameRequest(x.requests[j], q.actors[a].requests[j])
            && SameRequest(x.requests[k], q.actors[a].requests[k]);
      }
    }
    forall i | 0 <= i < |q.streams| ensures StreamLink(q, i) {
      assert StreamLink(p, i) && SameBinding(p.streams[i], q.streams[i]);
      var s := p.streams[i];
      if s.bound {
        assert SameActor(p.actors[s.download], q.actors[s.download])
            && SameActor(p.actors[s.upload], q.actors[s.upload]);
        SameWindow(p, q, s.download);
        hide WindowOf;
      }
    }
  }

  lemma ShapeTwice(p: Pool, q: Pool, r: Pool)
    requires SameShape(p, q) && SameShape(q, r)
    ensures SameShape(p, r)
  {
    forall a | 0 <= a < |p.actors| ensures SameActor(p.actors[a], r.actors[a]) {
      assert SameActor(p.actors[a], q.actors[a]) && SameActor(q.actors[a], r.actors[a]);
      forall k | 0 <= k < |p.actors[a].requests| ensures SameRequest(p.actors[a].requests[k], r.actors[a].requests[k]) {
        assert SameRequest(p.actors[a].requests[k], q.actors[a].requests[k]);
        assert SameRequest(q.actors[a].requests[k], r.actors[a].requests[k]);
      }
    }
    forall i | 0 <= i < |p.streams| ensures SameBinding(p.streams[i], r.streams[i]) {
      assert SameBinding(p.streams[i], q.streams[i]) && SameBinding(q.streams[i], r.streams[i]);
    }
  }

  lemma ReleaseShape(p: Pool, i: nat)
    requires i < |p.streams|
    ensures SameShape(p, ReleaseStream(p, i))
  {
  }

  lemma {:induction false} ReleaseAllShape(p: Pool, requests: seq<Request>)
    ensures SameShape(p, ReleaseAll(p, requests))
    decreases |requests|
  {
    if requests != [] {
      var q := if requests[0].stream < |p.streams| then ReleaseStream(p, requests[0].stream) else p;
      if requests[0].stream < |p.streams| { ReleaseShape(p, requests[0].stream); }
      hide SameShape;
      ReleaseAllShape(q, requests[1..]);
      ShapeTwice(p, q, ReleaseAll(q, requests[1..]));
    }
  }

  lemma RejectShape(p: Pool, a: nat, k: nat)
    requires a < |p.actors| && k < |p.actors[a].requests| && p.actors[a].requests[k].stream < |p.streams|
    ensures SameShape(p, Reject(p, a, k))
  {
  }

  lemma EndDataShape(p: Pool, a: nat, k: nat)
    requires a < |p.actors| && k < |p.actors[a].requests| && p.actors[a].requests[k].stream < |p.streams|
    ensures SameShape(p, EndData(p, a, k))
  {
    RejectShape(p, a, k);
    hide Reject;
  }

  lemma ActorShape(p: Pool, a: nat, y: Actor)
    requires a < |p.actors| && SameActor(p.actors[a], y)
    ensures SameShape(p, SetActor(p, a, y))
  {
  }

  lemma RequestShape(x: Actor, k: nat, r: Request)
    requires k < |x.requests| && SameRequest(x.requests[k], r)
    ensures SameActor(x, SetRequest(x, k, r))
  {
  }

  lemma StreamShape(p: Pool, i: nat, s: Stream)
    requires i < |p.streams| && SameBinding(p.streams[i], s)
    ensures SameShape(p, SetStream(p, i, s))
  {
  }

  lemma TakenShape(p: Pool, a: nat, k: nat, x: Actor, r: Request)
    requires a < |p.actors| && k < |p.actors[a].requests| && SameRequest(p.actors[a].requests[k], r)
    requires x.requests == p.actors[a].requests && x.group == p.actors[a].group && x.latest == p.actors[a].latest
        && x.opening == p.actors[a].opening
    ensures SameShape(p, SetActor(p, a, SetRequest(x, k, r)))
    ensures SameShape(p, FailActor(SetActor(p, a, SetRequest(x, k, r)), a))
  {
    RequestShape(p.actors[a], k, r);
    ActorShape(p, a, SetRequest(x, k, r));
    ActorShape(p, a, SetRequest(x, k, r).(failed := true));
  }

  lemma EnqueueShape(p: Pool, i: nat, length: nat, body: seq<Byte>, memory: nat -> bool)
    requires Memory(p) && i < |p.streams| && |body| <= length
    ensures SameShape(p, Enqueue(p, i, length, body, memory).1)
  {
    hide Memory, Append, StreamMemory;
  }

  lemma SpendShape(p: Pool, a: nat, k: nat, length: nat)
    requires a < |p.actors| && k < |p.actors[a].requests|
    ensures SameShape(p, SpendWindows(p, a, k, length))
    ensures SameShape(p, FailActor(SpendWindows(p, a, k, length), a))
  {
    var x := p.actors[a];
    var r := x.requests[k];
    TakenShape(p, a, k, x.(receiveWindow := x.receiveWindow - length, dataReceived := x.dataReceived + length),
        r.(receiveWindow := r.receiveWindow - length));
    hide SameShape;
  }

  lemma KeepDataShape(p: Pool, a: nat, k: nat, length: nat, body: seq<Byte>, memory: nat -> bool)
    requires Memory(p) && a < |p.actors| && k < |p.actors[a].requests| && p.actors[a].requests[k].stream < |p.streams|
        && |body| <= length
    ensures SameShape(p, KeepData(p, a, k, length, body, memory))
  {
    hide Memory, Enqueue, SameShape, SpendWindows, FailActor;
    var i := p.actors[a].requests[k].stream;
    EnqueueShape(p, i, length, body, memory);
    var q := Enqueue(p, i, length, body, memory).1;
    SpendShape(q, a, k, length);
    ShapeTwice(p, q, KeepData(p, a, k, length, body, memory));
  }

  lemma TakeDataShape(p: Pool, a: nat, k: nat, length: nat, body: seq<Byte>, memory: nat -> bool)
    requires Memory(p) && a < |p.actors| && k < |p.actors[a].requests| && p.actors[a].requests[k].stream < |p.streams|
        && |body| <= length
    ensures SameShape(p, TakeData(p, a, k, length, body, memory))
  {
    hide Memory, KeepData;
    KeepDataShape(p, a, k, length, body, memory);
  }

  lemma DataShape(p: Pool, a: nat, id: nat, length: nat, body: seq<Byte>, valid: bool, end: bool, memory: nat -> bool)
    requires Memory(p)
    ensures SameShape(p, DoData(p, a, id, length, body, valid, end, memory))
  {
    hide Memory, Judge, TakeData, EndData, Reject;
    if Working(p, a) && |body| <= length {
      var v := Judge(p, a, id, length, valid);
      if v.Response? {
        TakeDataShape(p, a, v.k, length, body, memory);
        var q := TakeData(p, a, v.k, length, body, memory);
        EndDataShape(q, a, v.k);
        hide SameShape;
        ShapeTwice(p, q, EndData(q, a, v.k));
      } else if v.Refused? {
        var q := SetActor(p, a, Refunded(p.actors[a], length));
        RejectShape(q, a, v.k);
        assert SameShape(p, q);
        ShapeTwice(p, q, Reject(q, a, v.k));
      }
    }
  }

  lemma WindowUpdateShape(p: Pool, a: nat, id: nat, n: nat)
    ensures SameShape(p, DoWindowUpdate(p, a, id, n))
  {
    hide Reject, SameActor;
    ShapeNone(p);
    if Working(p, a) {
      var x := p.actors[a];
      ActorShapes(p, a, n);
      var k := Find(x.requests, id);
      if k < |x.requests| && x.requests[k].stream < |p.streams| {
        RejectShape(p, a, k);
        TakenShape(p, a, k, x,
            x.requests[k].(sendWindow := x.requests[k].sendWindow + n, granted := x.requests[k].granted + n));
      }
    }
  }

  lemma ShapeNone(p: Pool)
    ensures SameShape(p, p)
  {
  }

  lemma ActorShapes(p: Pool, a: nat, n: nat)
    requires a < |p.actors|
    ensures SameShape(p, FailActor(p, a))
    ensures SameShape(p,
        SetActor(p, a, p.actors[a].(sendWindow := p.actors[a].sendWindow + n, granted := p.actors[a].granted + n)))
  {
  }

  lemma GoawayShape(p: Pool, a: nat, k: nat)
    ensures SameShape(p, DoGoaway(p, a, k))
  {
  }

  lemma HeadersShape(p: Pool, a: nat, id: nat, accepted: bool, success: bool, end: bool)
    ensures SameShape(p, DoHeaders(p, a, id, accepted, success, end))
  {
    hide Reject;
    if Working(p, a) {
      var k := Find(p.actors[a].requests, id);
      if k < |p.actors[a].requests| && p.actors[a].requests[k].stream < |p.streams| { RejectShape(p, a, k); }
    }
  }

  lemma CreditShape(p: Pool, a: nat, i: nat)
    ensures SameShape(p, DoCredit(p, a, i))
  {
    hide CreditDue;
  }

  lemma {:induction false} SettleShape(x: Actor, entries: seq<(nat, nat)>)
    ensures SameActor(x, Settle(x, entries))
    decreases |entries|
  {
    if entries != [] {
      var (id, value) := entries[0];
      var y := if id == 4 then x.(peerWindow := value, requests := Shifted(x.requests, value - x.peerWindow))
               else if id == 5 then x.(peerFrame := value) else x;
      SettleShape(y, entries[1..]);
      assert SameActor(x, y);
      SameActorTwice(x, y, Settle(y, entries[1..]));
    }
  }

  lemma SameActorTwice(x: Actor, y: Actor, z: Actor)
    requires SameActor(x, y) && SameActor(y, z)
    ensures SameActor(x, z)
  {
    forall k | 0 <= k < |x.requests| ensures SameRequest(x.requests[k], z.requests[k]) {
      assert SameRequest(x.requests[k], y.requests[k]) && SameRequest(y.requests[k], z.requests[k]);
    }
  }

  lemma ResetShape(p: Pool, a: nat, id: nat, code: nat)
    requires Memory(p)
    ensures SameShape(p, DoReset(p, a, id, code))
  {
    hide Memory, Emptied, StreamMemory;
  }

  /** What sending one DATA frame of `n` octets does to everything but the queue. */
  predicate FrameSent(p: Pool, q: Pool, a: nat, i: nat, k: nat, n: nat) {
    && a < |p.actors| && k < |p.actors[a].requests| && i < |p.streams| && |q.actors| == |p.actors|
        && |q.streams| == |p.streams|
    && q.groups == p.groups && q.managers == p.managers && q.downloadBytes == p.downloadBytes
    && (forall b :: 0 <= b < |p.actors| && b != a ==> q.actors[b] == p.actors[b])
    && (forall j :: 0 <= j < |p.streams| && j != i ==> q.streams[j] == p.streams[j])
    && n <= p.actors[a].sendWindow && n <= p.actors[a].requests[k].sendWindow
    && q.streams[i] == p.streams[i].(tx := q.streams[i].tx, emitted := q.streams[i].emitted)
    && var x := p.actors[a]; var y := q.actors[a]; var r := x.requests[k];
       && |y.requests| == |x.requests|
       && y == x.(sendWindow := x.sendWindow - n, sent := x.sent + n, netAccounted := y.netAccounted,
           requests := y.requests)
       && (forall j :: 0 <= j < |x.requests| && j != k ==> y.requests[j] == x.requests[j])
       && y.requests[k] ==
           r.(sendWindow := r.sendWindow - n, sent := r.sent + n, sendEnded := y.requests[k].sendEnded,
               remaining := y.requests[k].remaining)
  }

  lemma TxValid(p: Pool, i: nat)
    requires Memory(p) && i < |p.streams|
    ensures FifoValid(p.streams[i].tx)
  {
    assert StreamMemory(p.store, i, p.streams[i]);
  }

  lemma DropStream(p: Pool, i: nat, n: nat)
    requires Memory(p) && i < |p.streams| && n <= |p.streams[i].tx.contents|
    ensures var t := DropUpload(p, i, n).1; t == p.streams[i].(tx := t.tx, emitted := t.emitted)
  {
    hide Memory, StreamMemory, Consume, UpdateUpload;
  }

  lemma SendDoes(p: Pool, a: nat, i: nat, k: nat, pending: nat)
    requires Memory(p)
    ensures var q := DoSend(p, a, i, k, pending); q == p || exists n :: FrameSent(p, q, a, i, k, n)
  {
    hide Memory, DropUpload, SendLength, FifoValid;
    if MaySend(p, a, i, k) && p.actors[a].peerFrame != 0 {
      TxValid(p, i);
      var n: nat := SendLength(p, a, i, k);
      DropStream(p, i, n);
      assert FrameSent(p, DoSend(p, a, i, k, pending), a, i, k, n);
    }
  }

  lemma SendShape(p: Pool, a: nat, i: nat, k: nat, pending: nat)
    requires Memory(p)
    ensures SameShape(p, DoSend(p, a, i, k, pending))
  {
    hide Memory, DoSend;
    SendDoes(p, a, i, k, pending);
  }

  lemma AppShape(p: Pool, i: nat, n: nat, data: seq<Byte>, memory: nat -> bool)
    requires Memory(p)
    ensures SameShape(p, DoWrite(p, i, data, memory))
    ensures SameShape(p, DoReserve(p, i, n))
    ensures SameShape(p, DoUnreserve(p, i))
    ensures SameShape(p, DoRead(p, i, n))
  {
    hide Memory, StreamMemory, Consume, UpdateUpload, WriteAppend, Trimmed, WriteCapacity, Succeeds, GoodAttempt;
  }

  lemma CloseQueuesShape(p: Pool, i: nat)
    requires Memory(p) && i < |p.streams|
    ensures SameShape(p, CloseQueues(p, i))
  {
    hide Memory, StreamMemory, Emptied;
  }

  lemma UnbindShape(p: Pool, i: nat, waits: (bool, bool))
    requires i < |p.streams| && p.streams[i].download < |p.actors| && p.streams[i].upload < |p.actors|
    ensures SameShape(p, Unbind(p, i, waits))
  {
    var q := Unbind(p, i, waits);
    forall a | 0 <= a < |p.actors| ensures SameActor(p.actors[a], q.actors[a]) { UnbindActor(p, i, waits, a); }
    UnbindManagers(p, i, waits);
    hide SameActor, SameManagers, AddRunning;
  }

  lemma UnbindActor(p: Pool, i: nat, waits: (bool, bool), a: nat)
    requires i < |p.streams| && p.streams[i].download < |p.actors| && p.streams[i].upload < |p.actors| && a < |p.actors|
    ensures |Unbind(p, i, waits).actors| == |p.actors| && SameActor(p.actors[a], Unbind(p, i, waits).actors[a])
  {
    hide AddRunning;
  }

  lemma UnbindManagers(p: Pool, i: nat, waits: (bool, bool))
    requires i < |p.streams| && p.streams[i].download < |p.actors| && p.streams[i].upload < |p.actors|
    ensures SameManagers(p, Unbind(p, i, waits))
  {
  }

  lemma CloseShape(p: Pool, i: nat, waits: (bool, bool))
    requires Memory(p)
    ensures SameShape(p, DoClose(p, i, waits))
  {
    if LiveStream(p, i) && !p.streams[i].closed {
      CloseQueuesShape(p, i);
      CloseQueuesFrame(p, i);
      hide Memory, CloseQueues, Unbind, ReleaseStream;
      var q := CloseQueues(p, i);
      var s := p.streams[i];
      if s.bound && s.download < |p.actors| && s.upload < |p.actors| {
        UnbindShape(q, i, waits);
        var r := Unbind(q, i, waits);
        ReleaseShape(r, i);
        hide SameShape;
        ShapeTwice(p, q, r);
        ShapeTwice(p, r, ReleaseStream(r, i));
      } else {
        ReleaseShape(q, i);
        hide SameShape;
        ShapeTwice(p, q, ReleaseStream(q, i));
      }
    }
  }

  // ----- steps that change who belongs to whom -----

  lemma ConnectLinks(p: Pool)
    requires Links(p)
    ensures Links(DoConnect(p))
  {
    var q := DoConnect(p);
    forall a | 0 <= a < |q.actors| ensures ActorLinks(q, a) {
      assert ActorLinks(p, a);
      forall k | 0 <= k < |q.actors[a].requests| ensures RequestLink(q, a, q.actors[a].requests[k]) {
        assert RequestLink(p, a, p.actors[a].requests[k]);
      }
    }
    forall i | 0 <= i < |q.streams| ensures StreamLink(q, i) {
      if i < |p.streams| { assert StreamLink(p, i); }
    }
  }

  lemma NewActorLinks(p: Pool, g: nat)
    requires Links(p) && GroupsExist(p)
    ensures Links(DoNewActor(p, g)) && GroupsExist(DoNewActor(p, g))
  {
    var q := DoNewActor(p, g);
    if q != p {
      forall a | 0 <= a < |q.actors| ensures ActorLinks(q, a) {
        if a < |p.actors| {
          assert ActorLinks(p, a);
          forall k | 0 <= k < |q.actors[a].requests| ensures RequestLink(q, a, q.actors[a].requests[k]) {
            assert RequestLink(p, a, p.actors[a].requests[k]);
          }
        }
      }
      forall i | 0 <= i < |q.streams| ensures StreamLink(q, i) {
        assert StreamLink(p, i);
        if p.streams[i].bound { SameWindow(p, q, p.streams[i].download); }
        hide WindowOf;
      }
    }
  }

  /** Binding a stream, or moving its ends while they have no request, keeps the links. */
  lemma RebindLinks(p: Pool, q: Pool, i: nat)
    requires Links(p) && GroupsExist(p) && i < |p.streams| && SameManagers(p, q) && q.actors == p.actors
        && |q.streams| == |p.streams|
    requires forall j :: 0 <= j < |p.streams| && j != i ==> q.streams[j] == p.streams[j]
    requires var s := p.streams[i]; var t := q.streams[i];
             && t.bound && t.download < |p.actors| && t.upload < |p.actors| && t.window == WindowOf(p, t.download)
             && t.downId == s.downId && t.upId == s.upId == 0
             && (s.downId != 0 ==> s.bound && t.download == s.download)
    ensures Links(q) && GroupsExist(q)
  {
    assert StreamLink(p, i);
    forall a | 0 <= a < |q.actors| ensures ActorLinks(q, a) {
      assert ActorLinks(p, a);
      forall k | 0 <= k < |q.actors[a].requests| ensures RequestLink(q, a, q.actors[a].requests[k]) {
        assert RequestLink(p, a, p.actors[a].requests[k]);
      }
    }
    forall j | 0 <= j < |q.streams| ensures StreamLink(q, j) {
      assert StreamLink(p, j);
      if q.streams[j].bound {
        SameWindow(p, q, q.streams[j].download);
        assert ActorLinks(p, q.streams[j].download);
        assert forall k ::
            0 <= k < |p.actors[q.streams[j].download].requests| ==>
                RequestLink(p, q.streams[j].download, p.actors[q.streams[j].download].requests[k]);
      }
      hide WindowOf;
    }
  }

  lemma BindLinks(p: Pool, i: nat, u: nat, d: nat)
    requires Memory(p) && Links(p) && GroupsExist(p)
    ensures Links(DoBind(p, i, u, d)) && GroupsExist(DoBind(p, i, u, d))
  {
    var q := DoBind(p, i, u, d);
    if q != p {
      assert StreamLink(p, i);
      hide Memory, BindStore, Links, Reservation;
      RebindLinks(p, q, i);
    }
  }

  lemma MoveUploadLinks(p: Pool, i: nat, v: nat)
    requires Links(p) && GroupsExist(p)
    ensures Links(DoMoveUpload(p, i, v)) && GroupsExist(DoMoveUpload(p, i, v))
  {
    var q := DoMoveUpload(p, i, v);
    if q != p {
      assert StreamLink(p, i);
      hide Links;
      RebindLinks(p, q, i);
    }
  }

  lemma MoveDownloadLinks(p: Pool, i: nat, v: nat)
    requires Links(p) && GroupsExist(p)
    ensures Links(DoMoveDownload(p, i, v)) && GroupsExist(DoMoveDownload(p, i, v))
  {
    var q := DoMoveDownload(p, i, v);
    if q != p {
      assert StreamLink(p, i);
      assert WindowOf(p, v) == WindowOf(p, p.streams[i].download);
      hide Links;
      RebindLinks(p, q, i);
    }
  }

  /** What start_request does to the links: a new request with a fresh id. */
  predicate Started(p: Pool, q: Pool, a: nat, i: nat, r: Request) {
    && a < |p.actors| && i < |p.streams| && |q.actors| == |p.actors| && |q.streams| == |p.streams| && SameManagers(p, q)
    && !p.actors[a].opening && r.id > p.actors[a].latest && r.stream == i
    && (forall b :: 0 <= b < |p.actors| && b != a ==> q.actors[b] == p.actors[b])
    && (forall j :: 0 <= j < |p.streams| && j != i ==> q.streams[j] == p.streams[j])
    && q.actors[a].requests == [r] + p.actors[a].requests && q.actors[a].latest == r.id
    && q.actors[a].group == p.actors[a].group && q.actors[a].opening == p.actors[a].opening
    && var s := p.streams[i]; var t := q.streams[i];
       && s.bound && t.bound && t.download == s.download && t.upload == s.upload && t.window == s.window
       && (r.role.Downloads() ==> s.download == a && s.downId == 0 && t.downId == r.id)
       && (!r.role.Downloads() ==> t.downId == s.downId)
       && (t.upId == s.upId || (t.upId == r.id && s.upload == a))
  }

  lemma StartActorLinks(p: Pool, q: Pool, a: nat, i: nat, r: Request, b: nat)
    requires Links(p) && Started(p, q, a, i, r) && b < |q.actors|
    ensures ActorLinks(q, b)
  {
    assert ActorLinks(p, b) && StreamLink(p, i);
    hide Links, SameManagers, WindowOf;
    var old_ := p.actors[b].requests;
    forall k | 0 <= k < |q.actors[b].requests| ensures RequestLink(q, b, q.actors[b].requests[k]) {
      if b == a && k == 0 {
      } else {
        var t := if b == a then old_[k - 1] else old_[k];
        assert q.actors[b].requests[k] == t && RequestLink(p, b, t);
        if t.stream == i && t.role.Downloads() { assert !r.role.Downloads(); }
      }
    }
    if b == a {
      forall j,
          k | 0 <= j < k < |q.actors[a].requests| ensures q.actors[a].requests[j].id != q.actors[a].requests[k].id {
        assert q.actors[a].requests[k] == old_[k - 1] && RequestLink(p, a, old_[k - 1]);
        if j > 0 { assert q.actors[a].requests[j] == old_[j - 1]; }
      }
    }
  }

  lemma StartStreamLink(p: Pool, q: Pool, a: nat, i: nat, r: Request, j: nat)
    requires Links(p) && GroupsExist(p) && Started(p, q, a, i, r) && j < |q.streams|
    ensures StreamLink(q, j)
  {
    assert StreamLink(p, j);
    var s := q.streams[j];
    if s.bound {
      SameWindow(p, q, s.download);
      if s.download == a {
        assert ActorLinks(p, a);
        hide Links, WindowOf, SameManagers;
        forall k | 0 <= k < |q.actors[a].requests| && q.actors[a].requests[k].id == s.downId
          ensures q.actors[a].requests[k].stream == j && q.actors[a].requests[k].role.Downloads()
        {
          if k > 0 { assert q.actors[a].requests[k] == p.actors[a].requests[k - 1]
              && RequestLink(p, a, p.actors[a].requests[k - 1]); }
        }
      }
      hide WindowOf;
    }
  }

  lemma StartLinks(p: Pool, q: Pool, a: nat, i: nat, r: Request)
    requires Links(p) && GroupsExist(p) && Started(p, q, a, i, r)
    ensures Links(q) && GroupsExist(q)
  {
    hide ActorLinks, StreamLink, SameManagers;
    forall b | 0 <= b < |q.actors| ensures ActorLinks(q, b) { StartActorLinks(p, q, a, i, r, b); }
    forall j | 0 <= j < |q.streams| ensures StreamLink(q, j) { StartStreamLink(p, q, a, i, r, j); }
    assert |q.groups| >= |p.groups| by { StartedGroups(p, q, a, i, r); }
  }

  lemma StartedGroups(p: Pool, q: Pool, a: nat, i: nat, r: Request)
    requires Started(p, q, a, i, r)
    ensures |q.groups| >= |p.groups|
  {
  }

  lemma StartStarted(p: Pool, a: nat, i: nat, role: Role, id: nat, remaining: nat, inHeader: nat, pending: nat)
    requires Memory(p)
    ensures var q := DoStart(p, a, i, role, id, remaining, inHeader, pending);
            q == p || (a < |q.actors| && q.actors[a].requests != [] && Started(p, q, a, i, q.actors[a].requests[0]))
  {
    hide Memory, UpdateUpload, Consume, StreamMemory, GrowWindow, InitialWindow, ManagerOf;
    var q := DoStart(p, a, i, role, id, remaining, inHeader, pending);
    if q != p {
      GrowKeeps(AccountOutput(p, a, pending).actors[a], InitialWindow(ManagerOf(p, a)));
    }
  }

  /** A raised window leaves the rest of the actor alone. */
  lemma GrowKeeps(x: Actor, w: nat)
    ensures var y := GrowWindow(x, w);
            y == x.(receiveWindow := y.receiveWindow, creditSent := y.creditSent, receiveSlots := y.receiveSlots)
  {
    hide CountDownloads, Capacity;
  }

  lemma RemoveLinks(p: Pool, a: nat, k: nat)
    requires Links(p) && GroupsExist(p) && a < |p.actors| && k < |p.actors[a].requests|
    ensures var q :=
        SetActor(p, a, p.actors[a].(requests := p.actors[a].requests[..k] + p.actors[a].requests[k + 1..]));
            Links(q) && GroupsExist(q)
  {
    var old_ := p.actors[a].requests;
    var rest := old_[..k] + old_[k + 1..];
    var q := SetActor(p, a, p.actors[a].(requests := rest));
    assert forall j :: 0 <= j < |rest| ==> rest[j] == old_[if j < k then j else j + 1];
    forall b | 0 <= b < |q.actors| ensures ActorLinks(q, b) {
      assert ActorLinks(p, b);
      forall j | 0 <= j < |q.actors[b].requests| ensures RequestLink(q, b, q.actors[b].requests[j]) {
        assert RequestLink(p, b, p.actors[b].requests[if b == a && j >= k then j + 1 else j]);
      }
    }
    forall j | 0 <= j < |q.streams| ensures StreamLink(q, j) {
      assert StreamLink(p, j);
      if p.streams[j].bound { SameWindow(p, q, p.streams[j].download); }
      hide WindowOf;
    }
  }

  lemma DropLinks(p: Pool, q: Pool, a: nat)
    requires Links(p) && GroupsExist(p) && a < |p.actors| && |q.streams| == |p.streams| && q.groups == p.groups
        && q.managers == p.managers
    requires forall i :: 0 <= i < |p.streams| ==> SameBinding(p.streams[i], q.streams[i])
    requires q.actors == p.actors[a := p.actors[a].(failed := true, opening := false, requests := [])]
    ensures Links(q) && GroupsExist(q)
  {
    forall b | 0 <= b < |q.actors| ensures ActorLinks(q, b) {
      assert ActorLinks(p, b);
      forall j | 0 <= j < |q.actors[b].requests| ensures RequestLink(q, b, q.actors[b].requests[j]) {
        assert RequestLink(p, b, p.actors[b].requests[j]);
        assert SameBinding(p.streams[p.actors[b].requests[j].stream], q.streams[p.actors[b].requests[j].stream]);
      }
    }
    forall j | 0 <= j < |q.streams| ensures StreamLink(q, j) {
      assert StreamLink(p, j) && SameBinding(p.streams[j], q.streams[j]);
      if p.streams[j].bound { SameWindow(p, q, p.streams[j].download); }
      hide WindowOf;
    }
  }

  lemma RetireLinks(p: Pool, a: nat, k: nat, pending: nat)
    requires Links(p) && GroupsExist(p)
    ensures Links(DoRetire(p, a, k, pending)) && GroupsExist(DoRetire(p, a, k, pending))
  {
    var q := DoRetire(p, a, k, pending);
    if q != p {
      hide Links, ReleaseStream;
      var x := p.actors[a];
      RemoveLinks(p, a, k);
      var one := SetActor(p, a, x.(requests := x.requests[..k] + x.requests[k + 1..]));
      var two := AccountOutput(one, a, pending);
      assert SameShape(one, two);
      LinksSame(one, two);
      ReleaseShape(two, x.requests[k].stream);
      LinksSame(two, q);
    }
  }

  lemma ExitLinks(p: Pool, a: nat)
    requires Links(p) && GroupsExist(p)
    ensures Links(DoExit(p, a)) && GroupsExist(DoExit(p, a))
  {
    if LiveActor(p, a) && !p.actors[a].stopped {
      hide Links, ReleaseAll;
      var q := p.(streams := FailUsers(p.streams, a),
          actors := p.actors[a := p.actors[a].(failed := true, opening := false, requests := [])]);
      DropLinks(p, q, a);
      ReleaseAllShape(q, p.actors[a].requests);
      LinksSame(q, ReleaseAll(q, p.actors[a].requests));
    }
  }

  lemma AccountShape(p: Pool, a: nat, n: nat)
    requires a < |p.actors|
    ensures SameShape(p, AccountOutput(p, a, n))
  {
    ActorShape(p, a, p.actors[a].(netAccounted := n));
  }

  /** Changes outside the streams and actors. */
  lemma OutsideShape(p: Pool, q: Pool)
    requires q.streams == p.streams && q.actors == p.actors && SameManagers(p, q)
    ensures SameShape(p, q)
  {
  }

  lemma EndSendShape(p: Pool, a: nat, k: nat, pending: nat)
    ensures SameShape(p, DoEndSend(p, a, k, pending))
  {
    ShapeNone(p);
    hide SameShape, SameActor;
    if Working(p, a) && k < |p.actors[a].requests| {
      var x := SetRequest(p.actors[a], k, p.actors[a].requests[k].(sendEnded := true));
      RequestShape(p.actors[a], k, p.actors[a].requests[k].(sendEnded := true));
      ActorShape(p, a, x);
      AccountShape(SetActor(p, a, x), a, pending);
      ShapeTwice(p, SetActor(p, a, x), DoEndSend(p, a, k, pending));
    }
  }

  lemma StopShape(p: Pool, a: nat)
    ensures SameShape(p, DoStop(p, a))
  {
    ShapeNone(p);
    if DoStop(p, a) != p {
      AccountShape(p, a, 0);
      var q := AccountOutput(p, a, 0);
      ActorShape(q, a, q.actors[a].(stopped := true));
      hide SameShape;
      ShapeTwice(p, q, DoStop(p, a));
    }
  }

  lemma ActorFlagsShape(p: Pool, a: nat, w: nat, f: nat)
    ensures SameShape(p, DoOpened(p, a, w, f)) && SameShape(p, DoCollectActor(p, a))
        && SameShape(p, DoCloseWaited(p, a))
    ensures a < |p.actors| ==>
        SameShape(p, SetActor(p, a, p.actors[a].(draining := true))) && SameShape(p, FailActor(p, a))
  {
    ShapeNone(p);
    if a < |p.actors| {
      var x := p.actors[a];
      ActorShape(p, a, x.(opening := false, peerWindow := w, peerFrame := f));
      ActorShape(p, a, x.(freed := true));
      if x.closeWaiters > 0 { ActorShape(p, a, x.(closeWaiters := x.closeWaiters - 1)); }
      ActorShape(p, a, x.(draining := true));
      ActorShape(p, a, x.(failed := true));
    }
    hide SameShape;
  }

  lemma StreamFlagsShape(p: Pool, i: nat)
    requires i < |p.streams|
    ensures SameShape(p, SetStream(p, i, p.streams[i].(ready := true))) && SameShape(p, FailStream(p, i))
    ensures SameShape(p, SetStream(p, i, p.streams[i].(finishRequested := true)))
  {
  }

  lemma OutsideShapes(p: Pool, m: nat, g: nat, store: Store)
    ensures SameShape(p, DoNewGroup(p, m)) && SameShape(p, DoCollectGroup(p, g)) && SameShape(p, p.(store := store))
  {
    OutsideShape(p, DoNewGroup(p, m));
    OutsideShape(p, DoCollectGroup(p, g));
    OutsideShape(p, p.(store := store));
  }

  /** Steps that leave the links alone. */
  predicate Shaped(step: Step) {
    !(step.Connect? || step.NewActor? || step.Bind? || step.MoveUpload? || step.MoveDownload? || step.Start?
        || step.Retire? || step.Exit?)
  }

  lemma RelinkNext(p: Pool, step: Step)
    requires Memory(p) && Links(p) && GroupsExist(p)
    requires !Shaped(step)
    ensures Links(Next(p, step)) && GroupsExist(Next(p, step))
  {
    hide Memory, Links, GroupsExist, SameShape;
    hide DoConnect, DoNewGroup, DoNewActor, DoOpened, DoBind, DoMoveUpload, DoMoveDownload, DoStart, DoData,
        DoWindowUpdate, DoSettings, DoReset, DoGoaway, DoHeaders;
    hide DoCredit, DoSend, DoEndSend, DoRetire, DoExit, DoStop, DoCollectActor, DoCollectGroup, DoWrite, DoReserve,
        DoUnreserve, DoRead, DoClose, DoCloseWaited;
    var q := Next(p, step);
    match step {
      case Connect => ConnectLinks(p); ConnectGroups(p);
      case NewActor(g) => NewActorLinks(p, g);
      case Bind(i, u, d) => BindLinks(p, i, u, d);
      case MoveUpload(i, v) => MoveUploadLinks(p, i, v);
      case MoveDownload(i, v) => MoveDownloadLinks(p, i, v);
      case Start(a, i, role, id, remaining, inHeader, pending) =>
        StartStarted(p, a, i, role, id, remaining, inHeader, pending);
        if q != p {
          var r :| Started(p, q, a, i, r);
          StartLinks(p, q, a, i, r);
        }
      case Retire(a, k, pending) => RetireLinks(p, a, k, pending);
      case Exit(a) => ExitLinks(p, a);
    }
  }

  lemma LinksNext(p: Pool, step: Step)
    requires Memory(p) && Links(p) && GroupsExist(p)
    ensures Links(Next(p, step)) && GroupsExist(Next(p, step))
  {
    hide Memory, Links, GroupsExist, SameShape;
    hide DoConnect, DoNewGroup, DoNewActor, DoOpened, DoBind, DoMoveUpload, DoMoveDownload, DoStart, DoData,
        DoWindowUpdate, DoSettings, DoReset, DoGoaway, DoHeaders;
    hide DoCredit, DoSend, DoEndSend, DoRetire, DoExit, DoStop, DoCollectActor, DoCollectGroup, DoWrite, DoReserve,
        DoUnreserve, DoRead, DoClose, DoCloseWaited;
    var q := Next(p, step);
    if Shaped(step) {
      StepShape(p, step);
      LinksSame(p, q);
    } else {
      RelinkNext(p, step);
    }
  }

  lemma ConnectGroups(p: Pool)
    requires GroupsExist(p)
    ensures GroupsExist(DoConnect(p))
  {
  }

  lemma ActorStepShape(p: Pool, step: Step)
    requires Memory(p)
    requires Shaped(step)
    requires OnActor(step)
    ensures SameShape(p, Raw(p, step))
  {
    hide Memory, SameShape, AccountOutput, SetStream, FailStream, SetActor, FailActor, Apply, CacheCleared;
    hide DoConnect, DoNewGroup, DoNewActor, DoOpened, DoBind, DoMoveUpload, DoMoveDownload, DoStart, DoData,
        DoWindowUpdate, DoSettings, DoReset, DoGoaway, DoHeaders;
    hide DoCredit, DoSend, DoEndSend, DoRetire, DoExit, DoStop, DoCollectActor, DoCollectGroup, DoWrite, DoReserve,
        DoUnreserve, DoRead, DoClose, DoCloseWaited;
    ShapeNone(p);
    match step {
      case Data(a, id, length, body, valid, end, memory) => DataShape(p, a, id, length, body, valid, end, memory);
      case WindowUpdate(a, id, n) => WindowUpdateShape(p, a, id, n);
      case Settings(a, entries) => SettingsShape(p, a, entries);
      case ResetStream(a, id, code) => ResetShape(p, a, id, code);
      case Goaway(a, k) => GoawayShape(p, a, k);
      case Headers(a, id, accepted, success, end) => HeadersShape(p, a, id, accepted, success, end);
      case Credit(a, i) => CreditShape(p, a, i);
      case Send(a, i, k, pending) => SendShape(p, a, i, k, pending);
      case EndSend(a, k, pending) => EndSendShape(p, a, k, pending);
      case Stop(a) => StopShape(p, a);
      case Flushed(a, n) => if Working(p, a) { AccountShape(p, a, n); }
      case Opened(a, w, f) => ActorFlagsShape(p, a, w, f);
      case Drain(a) => ActorFlagsShape(p, a, 0, 0);
      case Break(a) => ActorFlagsShape(p, a, 0, 0);
      case CollectActor(a) => ActorFlagsShape(p, a, 0, 0);
      case CloseWaited(a) => ActorFlagsShape(p, a, 0, 0);
    }
  }

  lemma StreamStepShape(p: Pool, step: Step)
    requires Memory(p)
    requires Shaped(step)
    requires !OnActor(step)
    ensures SameShape(p, Raw(p, step))
  {
    hide Memory, SameShape, AccountOutput, SetStream, FailStream, SetActor, FailActor, Apply, CacheCleared;
    hide DoConnect, DoNewGroup, DoNewActor, DoOpened, DoBind, DoMoveUpload, DoMoveDownload, DoStart, DoData,
        DoWindowUpdate, DoSettings, DoReset, DoGoaway, DoHeaders;
    hide DoCredit, DoSend, DoEndSend, DoRetire, DoExit, DoStop, DoCollectActor, DoCollectGroup, DoWrite, DoReserve,
        DoUnreserve, DoRead, DoClose, DoCloseWaited;
    ShapeNone(p);
    match step {
      case Write(i, data, memory) => AppShape(p, i, 0, data, memory);
      case Reserve(i, n) => AppShape(p, i, n, [], x => true);
      case Unreserve(i) => AppShape(p, i, 0, [], x => true);
      case Read(i, n) => AppShape(p, i, n, [], x => true);
      case Close(i, waits) => CloseShape(p, i, waits);
      case Ready(i) => if LiveStream(p, i) { StreamFlagsShape(p, i); }
      case Fail(i) => if LiveStream(p, i) { StreamFlagsShape(p, i); }
      case FinishWrite(i) => if LiveStream(p, i) { StreamFlagsShape(p, i); }
      case NewGroup(m) => OutsideShapes(p, m, 0, p.store);
      case CollectGroup(g) => OutsideShapes(p, 0, g, p.store);
      case Ledger(_) => OutsideShapes(p, 0, 0, Raw(p, step).store);
      case ClearCache => OutsideShapes(p, 0, 0, Raw(p, step).store);
    }
  }

  lemma StepShape(p: Pool, step: Step)
    requires Memory(p)
    requires Shaped(step)
    ensures SameShape(p, Raw(p, step))
  {
    hide *;
    if OnActor(step) { ActorStepShape(p, step); } else { StreamStepShape(p, step); }
  }

  lemma SettingsShape(p: Pool, a: nat, entries: seq<(nat, nat)>)
    ensures SameShape(p, DoSettings(p, a, entries))
  {
    if Working(p, a) {
      SettleShape(p.actors[a], entries);
      hide Settle;
      ActorShape(p, a, Settle(p.actors[a], entries));
    }
  }
}
