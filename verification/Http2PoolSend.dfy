/** Send side of the pool: a window is credit granted minus DATA sent, and DATA stays within it. */
module Http2PoolSend {
  import opened Bytes
  import opened BufferBudget
  import opened Http2Queue
  import opened Http2Pool
  import opened Http2PoolRuns
  import opened Http2PoolLinks

  /** A request's window: the initial window the peer last announced, plus credit, minus DATA. */
  predicate RequestSends(x: Actor, r: Request) {
    r.sendWindow == x.peerWindow + r.granted - r.sent && r.sendWindow <= WINDOW_MAX
  }

  predicate SendOk(x: Actor) {
    !x.failed ==>
      && x.sendWindow == BASE_WINDOW + x.granted - x.sent && 0 <= x.sendWindow <= WINDOW_MAX
      && 0 <= x.peerWindow <= WINDOW_MAX && 16384 <= x.peerFrame <= 16777215
      && forall k :: 0 <= k < |x.requests| ==> RequestSends(x, x.requests[k])
  }

  predicate Sends(p: Pool) {
    forall a :: 0 <= a < |p.actors| ==> SendOk(p.actors[a])
  }

  function Room(window: int): nat { if window > 0 then window else 0 }

  /** DATA sent by one step stays within the windows before it, so nothing is sent on a window
      that is not positive. */
  predicate WithinWindows(x: Actor, y: Actor) {
    && x.sent <= y.sent <= x.sent + Room(x.sendWindow)
    && forall j, k :: 0 <= j < |x.requests| && 0 <= k < |y.requests| && x.requests[j].id == y.requests[k].id ==>
         x.requests[j].sent <= y.requests[k].sent <= x.requests[j].sent + Room(x.requests[j].sendWindow)
  }

  predicate SendsWithin(p: Pool, q: Pool) {
    |q.actors| >= |p.actors| && forall a :: 0 <= a < |p.actors| ==> WithinWindows(p.actors[a], q.actors[a])
  }

  // ----- frames -----

  predicate SameSending(r: Request, t: Request) {
    t.id == r.id && t.sendWindow == r.sendWindow && t.granted == r.granted && t.sent == r.sent
  }

  predicate SameSend(x: Actor, y: Actor) {
    && (x.failed ==> y.failed) && y.sendWindow == x.sendWindow && y.granted == x.granted && y.sent == x.sent
    && y.peerWindow == x.peerWindow && y.peerFrame == x.peerFrame && |y.requests| == |x.requests|
    && forall k :: 0 <= k < |x.requests| ==> SameSending(x.requests[k], y.requests[k])
  }

  predicate SameSends(p: Pool, q: Pool) {
    |q.actors| == |p.actors| && forall a :: 0 <= a < |p.actors| ==> SameSend(p.actors[a], q.actors[a])
  }

  predicate DistinctIds(x: Actor) {
    forall j, k :: 0 <= j < k < |x.requests| ==> x.requests[j].id != x.requests[k].id
  }

  lemma SameSendOk(x: Actor, y: Actor)
    requires SameSend(x, y) && DistinctIds(x)
    ensures SendOk(x) ==> SendOk(y)
    ensures WithinWindows(x, y)
  {
    forall j, k | 0 <= j < |x.requests| && 0 <= k < |y.requests| && x.requests[j].id == y.requests[k].id
      ensures x.requests[j].sent == y.requests[k].sent
    {
      assert SameSending(x.requests[k], y.requests[k]);
    }
    if SendOk(x) && !x.failed {
      forall k | 0 <= k < |y.requests| ensures RequestSends(y, y.requests[k]) {
        assert RequestSends(x, x.requests[k]) && SameSending(x.requests[k], y.requests[k]);
      }
    }
  }

  lemma SameSendsOk(p: Pool, q: Pool)
    requires SameSends(p, q) && Links(p)
    ensures Sends(p) ==> Sends(q)
    ensures SendsWithin(p, q)
  {
    forall a | 0 <= a < |p.actors| ensures (SendOk(p.actors[a]) ==> SendOk(q.actors[a]))
        && WithinWindows(p.actors[a], q.actors[a]) {
      assert ActorLinks(p, a);
      SameSendOk(p.actors[a], q.actors[a]);
    }
  }

  lemma SameSendsTwice(p: Pool, q: Pool, r: Pool)
    requires SameSends(p, q) && SameSends(q, r)
    ensures SameSends(p, r)
  {
    forall a | 0 <= a < |p.actors| ensures SameSend(p.actors[a], r.actors[a]) {
      assert SameSend(p.actors[a], q.actors[a]) && SameSend(q.actors[a], r.actors[a]);
      forall k | 0 <= k < |p.actors[a].requests| ensures SameSending(p.actors[a].requests[k], r.actors[a].requests[k]) {
        assert SameSending(p.actors[a].requests[k], q.actors[a].requests[k]);
        assert SameSending(q.actors[a].requests[k], r.actors[a].requests[k]);
      }
    }
  }

  /** Only this actor changed, and in ways of its own. */
  lemma OneActorSends(p: Pool, q: Pool, a: nat)
    requires a < |p.actors| && |q.actors| == |p.actors| && Links(p)
    requires forall b :: 0 <= b < |p.actors| && b != a ==> q.actors[b] == p.actors[b]
    requires SendOk(p.actors[a]) ==> SendOk(q.actors[a])
    requires WithinWindows(p.actors[a], q.actors[a])
    ensures Sends(p) ==> Sends(q)
    ensures SendsWithin(p, q)
  {
    forall b | 0 <= b < |p.actors| && b != a ensures WithinWindows(p.actors[b], q.actors[b]) {
      assert ActorLinks(p, b);
      SameSendOk(p.actors[b], q.actors[b]);
    }
    hide SendOk, WithinWindows;
  }

  // ----- steps that leave the send side alone -----

  lemma SameActors(p: Pool, q: Pool)
    requires q.actors == p.actors
    ensures SameSends(p, q)
  {
  }

  lemma ActorSends(p: Pool, a: nat, y: Actor)
    requires a < |p.actors| && SameSend(p.actors[a], y)
    ensures SameSends(p, SetActor(p, a, y))
  {
  }

  lemma RequestSame(x: Actor, k: nat, r: Request)
    requires k < |x.requests| && SameSending(x.requests[k], r)
    ensures SameSend(x, SetRequest(x, k, r))
  {
  }

  lemma RejectSends(p: Pool, a: nat, k: nat)
    requires a < |p.actors| && k < |p.actors[a].requests| && p.actors[a].requests[k].stream < |p.streams|
    ensures SameSends(p, Reject(p, a, k))
  {
  }

  lemma EndDataSends(p: Pool, a: nat, k: nat)
    requires a < |p.actors| && k < |p.actors[a].requests| && p.actors[a].requests[k].stream < |p.streams|
    ensures SameSends(p, EndData(p, a, k))
  {
    RejectSends(p, a, k);
    hide Reject;
  }

  lemma SpendSends(p: Pool, a: nat, k: nat, length: nat)
    requires a < |p.actors| && k < |p.actors[a].requests|
    ensures SameSends(p, SpendWindows(p, a, k, length)) && SameSends(p, FailActor(SpendWindows(p, a, k, length), a))
  {
  }

  lemma TakeDataSends(p: Pool, a: nat, k: nat, length: nat, body: seq<Byte>, memory: nat -> bool)
    requires Memory(p) && a < |p.actors| && k < |p.actors[a].requests| && p.actors[a].requests[k].stream < |p.streams|
        && |body| <= length
    ensures SameSends(p, TakeData(p, a, k, length, body, memory))
  {
    hide Memory, Enqueue, SpendWindows, FailActor, SameSends;
    var q := Enqueue(p, p.actors[a].requests[k].stream, length, body, memory).1;
    SameActors(p, q);
    SpendSends(q, a, k, length);
    SameSendsTwice(p, q, SpendWindows(q, a, k, length));
    SameSendsTwice(p, q, FailActor(SpendWindows(q, a, k, length), a));
    RefundSends(p, a, length);
  }

  lemma RefundSends(p: Pool, a: nat, length: nat)
    requires a < |p.actors|
    ensures SameSends(p, SetActor(p, a, Refunded(p.actors[a], length)))
  {
  }

  lemma DataSends(p: Pool, a: nat, id: nat, length: nat, body: seq<Byte>, valid: bool, end: bool, memory: nat -> bool)
    requires Memory(p)
    ensures SameSends(p, DoData(p, a, id, length, body, valid, end, memory))
  {
    hide Memory, Judge, TakeData, EndData, Reject;
    SameActors(p, p);
    if Working(p, a) && |body| <= length {
      var v := Judge(p, a, id, length, valid);
      if v.Response? {
        TakeDataSends(p, a, v.k, length, body, memory);
        var q := TakeData(p, a, v.k, length, body, memory);
        EndDataSends(q, a, v.k);
        hide SameSends;
        SameSendsTwice(p, q, EndData(q, a, v.k));
      } else if v.Refused? {
        var q := SetActor(p, a, Refunded(p.actors[a], length));
        RejectSends(q, a, v.k);
        assert SameSends(p, q);
        hide SameSends;
        SameSendsTwice(p, q, Reject(q, a, v.k));
      }
    }
  }

  lemma ResetSends(p: Pool, a: nat, id: nat, code: nat)
    requires Memory(p)
    ensures SameSends(p, DoReset(p, a, id, code))
  {
    hide Memory, Emptied, StreamMemory;
  }

  lemma HeadersSends(p: Pool, a: nat, id: nat, accepted: bool, success: bool, end: bool)
    ensures SameSends(p, DoHeaders(p, a, id, accepted, success, end))
  {
    hide Reject;
    if Working(p, a) {
      var k := Find(p.actors[a].requests, id);
      if k < |p.actors[a].requests| && p.actors[a].requests[k].stream < |p.streams| { RejectSends(p, a, k); }
    }
  }

  lemma RequestFlagsSend(p: Pool, a: nat, k: nat, i: nat, n: nat)
    ensures SameSends(p, DoGoaway(p, a, k)) && SameSends(p, DoCredit(p, a, i)) && SameSends(p, DoEndSend(p, a, k, n))
  {
    hide CreditDue;
  }

  lemma ActorFlagsSend(p: Pool, a: nat, n: nat)
    ensures SameSends(p, DoStop(p, a)) && SameSends(p, DoCollectActor(p, a)) && SameSends(p, DoCloseWaited(p, a))
    ensures a < |p.actors| ==>
        SameSends(p, AccountOutput(p, a, n)) && SameSends(p, SetActor(p, a, p.actors[a].(draining := true)))
            && SameSends(p, FailActor(p, a))
  {
    hide SameSends;
    SameActors(p, p);
    if a < |p.actors| {
      OutputSends(p, a, n);
      OutputSends(p, a, 0);
      var x := p.actors[a];
      ActorSends(p, a, x.(draining := true));
      ActorSends(p, a, x.(failed := true));
      ActorSends(p, a, x.(freed := true));
      if x.closeWaiters > 0 { ActorSends(p, a, x.(closeWaiters := x.closeWaiters - 1)); }
      var q := AccountOutput(p, a, 0);
      ActorSends(q, a, q.actors[a].(stopped := true));
      SameSendsTwice(p, q, SetActor(q, a, q.actors[a].(stopped := true)));
    }
  }

  lemma OutputSends(p: Pool, a: nat, n: nat)
    requires a < |p.actors|
    ensures SameSends(p, AccountOutput(p, a, n))
  {
  }

  lemma CloseSends(p: Pool, i: nat, waits: (bool, bool))
    requires Memory(p)
    ensures SameSends(p, DoClose(p, i, waits))
  {
    hide Memory, StreamMemory, Emptied, AddRunning;
  }

  lemma StreamSends(p: Pool, i: nat, n: nat, v: nat, data: seq<Byte>, memory: nat -> bool)
    requires Memory(p)
    ensures SameSends(p, DoWrite(p, i, data, memory)) && SameSends(p, DoReserve(p, i, n))
        && SameSends(p, DoUnreserve(p, i)) && SameSends(p, DoRead(p, i, n))
    ensures SameSends(p, DoMoveUpload(p, i, v)) && SameSends(p, DoMoveDownload(p, i, v))
        && SameSends(p, DoBind(p, i, n, v)) && SameSends(p, DoConnect(p))
  {
    hide Memory, StreamMemory, Consume, UpdateUpload, WriteAppend, Trimmed, WriteCapacity, Succeeds, GoodAttempt,
        AddRunning, BindStore, SameSends;
    SameActors(p, DoWrite(p, i, data, memory));
    SameActors(p, DoReserve(p, i, n));
    SameActors(p, DoUnreserve(p, i));
    SameActors(p, DoRead(p, i, n));
    SameActors(p, DoMoveUpload(p, i, v));
    SameActors(p, DoMoveDownload(p, i, v));
    SameActors(p, DoBind(p, i, n, v));
    SameActors(p, DoConnect(p));
  }

  // ----- steps that change windows -----

  lemma WindowUpdateSends(p: Pool, a: nat, id: nat, n: nat)
    requires Links(p)
    ensures var q := DoWindowUpdate(p, a, id, n); SendsWithin(p, q) && (Sends(p) ==> Sends(q))
  {
    var q := DoWindowUpdate(p, a, id, n);
    SameActors(p, p);
    SameSendsOk(p, p);
    if Working(p, a) {
      var x := p.actors[a];
      var k := Find(x.requests, id);
      assert ActorLinks(p, a);
      hide Links, Reject;
      if !(1 <= n <= WINDOW_MAX) || (id == 0 && x.sendWindow > WINDOW_MAX - n) {
        ActorFlagsSend(p, a, 0);
        hide SameSends, SendsWithin, Sends;
        SameSendsOk(p, q);
      } else if id == 0 {
        OneActorSends(p, q, a);
      } else if k < |x.requests| && x.requests[k].stream < |p.streams| {
        if x.requests[k].sendWindow > WINDOW_MAX - n {
          RejectSends(p, a, k);
          hide SameSends, SendsWithin, Sends;
          SameSendsOk(p, q);
        } else {
          OneActorSends(p, q, a);
        }
      }
    }
  }

  predicate ShiftedBy(before: seq<Request>, after: seq<Request>, delta: int) {
    |after| == |before| && forall k ::
        0 <= k < |before| ==> after[k] == before[k].(sendWindow := before[k].sendWindow + delta)
  }

  lemma ShiftedTwice(r: seq<Request>, s: seq<Request>, t: seq<Request>, d: int, e: int)
    requires ShiftedBy(r, s, d) && ShiftedBy(s, t, e)
    ensures ShiftedBy(r, t, d + e)
  {
  }

  lemma ShiftedNone(r: seq<Request>)
    ensures ShiftedBy(r, r, 0)
  {
  }

  /** A SETTINGS frame that does not end the connection shifts every request by the same amount,
      the change of the announced initial window. */
  lemma {:induction false} SettleShifts(x: Actor, entries: seq<(nat, nat)>)
    requires !x.failed && !Settle(x, entries).failed
    ensures ShiftedBy(x.requests, Settle(x, entries).requests, Settle(x, entries).peerWindow - x.peerWindow)
    decreases |entries|
  {
    hide ShiftedBy;
    ShiftedNone(x.requests);
    if entries != [] {
      var (id, value) := entries[0];
      if id == 4 {
        var y := x.(peerWindow := value, requests := Shifted(x.requests, value - x.peerWindow));
        SettleShifts(y, entries[1..]);
        ShiftIsShifted(x.requests, value - x.peerWindow);
        var z := Settle(y, entries[1..]);
        ShiftedTwice(x.requests, y.requests, z.requests, value - x.peerWindow, z.peerWindow - value);
      } else {
        SettleShifts(if id == 5 then x.(peerFrame := value) else x, entries[1..]);
      }
    }
  }

  lemma ShiftIsShifted(r: seq<Request>, delta: int)
    ensures ShiftedBy(r, Shifted(r, delta), delta)
  {
  }

  lemma {:induction false} SettleOk(x: Actor, entries: seq<(nat, nat)>)
    requires SendOk(x)
    ensures SendOk(Settle(x, entries))
    decreases |entries|
  {
    if entries != [] {
      var (id, value) := entries[0];
      if id == 4 {
        var delta := value - x.peerWindow;
        if value <= WINDOW_MAX && !exists k :: 0 <= k < |x.requests| && x.requests[k].sendWindow + delta > WINDOW_MAX {
          var y := x.(peerWindow := value, requests := Shifted(x.requests, delta));
          ShiftedOk(x, value);
          SettleOk(y, entries[1..]);
        }
      } else if id == 5 {
        if 16384 <= value <= 16777215 {
          hide RequestSends;
          SettleOk(x.(peerFrame := value), entries[1..]);
        }
      } else {
        hide SendOk;
        SettleOk(x, entries[1..]);
      }
    }
  }

  lemma ShiftedOk(x: Actor, value: nat)
    requires SendOk(x) && value <= WINDOW_MAX && forall k ::
        0 <= k < |x.requests| ==> x.requests[k].sendWindow + value - x.peerWindow <= WINDOW_MAX
    ensures SendOk(x.(peerWindow := value, requests := Shifted(x.requests, value - x.peerWindow)))
  {
    var y := x.(peerWindow := value, requests := Shifted(x.requests, value - x.peerWindow));
    if !x.failed {
      forall k | 0 <= k < |y.requests| ensures RequestSends(y, y.requests[k]) { assert RequestSends(x, x.requests[k]); }
    }
  }

  lemma {:induction false} SettleSent(x: Actor, entries: seq<(nat, nat)>)
    ensures var y := Settle(x, entries);
            && y.sent == x.sent && |y.requests| == |x.requests|
            && forall k ::
                0 <= k < |x.requests| ==>
                    y.requests[k].id == x.requests[k].id && y.requests[k].sent == x.requests[k].sent
    decreases |entries|
  {
    if entries != [] {
      var (id, value) := entries[0];
      SettleSent(if id == 4 then x.(peerWindow := value, requests := Shifted(x.requests, value - x.peerWindow))
                 else if id == 5 then x.(peerFrame := value) else x, entries[1..]);
    }
  }

  lemma SettingsSends(p: Pool, a: nat, entries: seq<(nat, nat)>)
    requires Links(p)
    ensures var q := DoSettings(p, a, entries); SendsWithin(p, q) && (Sends(p) ==> Sends(q))
  {
    SameActors(p, p);
    SameSendsOk(p, p);
    if Working(p, a) {
      var x := p.actors[a];
      assert ActorLinks(p, a);
      SettleSent(x, entries);
      if SendOk(x) { SettleOk(x, entries); }
      hide Links, Settle, SendOk;
      OneActorSends(p, DoSettings(p, a, entries), a);
    }
  }

  /** Before the connection is open it has no requests. */
  lemma OpenedSends(p: Pool, a: nat, w: nat, f: nat)
    requires Links(p)
    ensures var q := DoOpened(p, a, w, f); SendsWithin(p, q) && (Sends(p) ==> Sends(q))
  {
    SameActors(p, p);
    SameSendsOk(p, p);
    if DoOpened(p, a, w, f) != p {
      assert ActorLinks(p, a);
      hide Links;
      OneActorSends(p, DoOpened(p, a, w, f), a);
    }
  }

  lemma NewActorSends(p: Pool, g: nat)
    requires Links(p)
    ensures var q := DoNewActor(p, g); SendsWithin(p, q) && (Sends(p) ==> Sends(q))
  {
    SameActors(p, p);
    SameSendsOk(p, p);
  }

  /** The effect of start_request: a new request at the announced window. */
  predicate StartedSend(p: Pool, q: Pool, a: nat, r: Request) {
    && a < |p.actors| && |q.actors| == |p.actors|
    && (forall b :: 0 <= b < |p.actors| && b != a ==> q.actors[b] == p.actors[b])
    && var x := p.actors[a]; var y := q.actors[a];
       && y.failed == x.failed && y.sendWindow == x.sendWindow && y.granted == x.granted && y.sent == x.sent
           && y.peerWindow == x.peerWindow && y.peerFrame == x.peerFrame
       && y.requests == [r] + x.requests && r.id > x.latest && r.sendWindow == x.peerWindow && r.granted == 0
           && r.sent == 0
  }

  lemma StartSend(p: Pool, a: nat, i: nat, role: Role, id: nat, remaining: nat, inHeader: nat, pending: nat)
    requires Memory(p)
    ensures var q := DoStart(p, a, i, role, id, remaining, inHeader, pending);
            q == p || exists r :: StartedSend(p, q, a, r)
  {
    var q := DoStart(p, a, i, role, id, remaining, inHeader, pending);
    hide Memory, UpdateUpload, Consume, StreamMemory, Capacity, CountDownloads, InitialWindow, ManagerOf;
    if q != p { assert StartedSend(p, q, a, q.actors[a].requests[0]); }
  }

  lemma StartedSends(p: Pool, q: Pool, a: nat, r: Request)
    requires Links(p) && StartedSend(p, q, a, r)
    ensures SendsWithin(p, q) && (Sends(p) ==> Sends(q))
  {
    var x := p.actors[a];
    var y := q.actors[a];
    assert ActorLinks(p, a);
    forall j, k | 0 <= j < |x.requests| && 0 <= k < |y.requests| && x.requests[j].id == y.requests[k].id
      ensures x.requests[j].sent == y.requests[k].sent
    {
      assert RequestLink(p, a, x.requests[j]);
      if k > 0 { assert y.requests[k] == x.requests[k - 1]; }
    }
    if SendOk(x) && !x.failed {
      forall k | 0 <= k < |y.requests| ensures RequestSends(y, y.requests[k]) {
        if k > 0 { assert y.requests[k] == x.requests[k - 1] && RequestSends(x, x.requests[k - 1]); }
      }
    }
    hide Links;
    OneActorSends(p, q, a);
  }

  /** One DATA frame: its octets leave both windows. */
  predicate Sent(p: Pool, q: Pool, a: nat, k: nat, n: nat) {
    && a < |p.actors| && |q.actors| == |p.actors| && k < |p.actors[a].requests|
    && (forall b :: 0 <= b < |p.actors| && b != a ==> q.actors[b] == p.actors[b])
    && var x := p.actors[a]; var y := q.actors[a];
       && n <= x.sendWindow && n <= x.requests[k].sendWindow
       && y.failed == x.failed && y.sendWindow == x.sendWindow - n && y.granted == x.granted && y.sent == x.sent + n
           && y.peerWindow == x.peerWindow && y.peerFrame == x.peerFrame
       && |y.requests| == |x.requests|
       && (forall j :: 0 <= j < |x.requests| && j != k ==> y.requests[j] == x.requests[j])
       && y.requests[k].id == x.requests[k].id && y.requests[k].granted == x.requests[k].granted
       && y.requests[k].sendWindow == x.requests[k].sendWindow - n && y.requests[k].sent == x.requests[k].sent + n
  }

  lemma SendSent(p: Pool, a: nat, i: nat, k: nat, pending: nat)
    requires Memory(p)
    ensures var q := DoSend(p, a, i, k, pending);
            q == p || exists n :: Sent(p, q, a, k, n)
  {
    hide Memory, DoSend;
    SendDoes(p, a, i, k, pending);
    var q := DoSend(p, a, i, k, pending);
    if q != p {
      var n :| FrameSent(p, q, a, i, k, n);
      assert Sent(p, q, a, k, n);
    }
  }

  lemma SentSends(p: Pool, q: Pool, a: nat, k: nat, n: nat)
    requires Links(p) && Sent(p, q, a, k, n)
    ensures SendsWithin(p, q) && (Sends(p) ==> Sends(q))
  {
    var x := p.actors[a];
    var y := q.actors[a];
    assert ActorLinks(p, a);
    if SendOk(x) && !x.failed {
      forall j | 0 <= j < |y.requests| ensures RequestSends(y, y.requests[j]) { assert RequestSends(x, x.requests[j]); }
    }
    hide Links;
    OneActorSends(p, q, a);
  }

  lemma RetireSends(p: Pool, a: nat, k: nat, pending: nat)
    requires Links(p)
    ensures var q := DoRetire(p, a, k, pending); SendsWithin(p, q) && (Sends(p) ==> Sends(q))
  {
    var q := DoRetire(p, a, k, pending);
    SameActors(p, p);
    SameSendsOk(p, p);
    if q != p {
      var x := p.actors[a];
      var y := q.actors[a];
      var rest := x.requests[..k] + x.requests[k + 1..];
      assert y.requests == rest && forall j :: 0 <= j < |rest| ==> rest[j] == x.requests[if j < k then j else j + 1];
      assert ActorLinks(p, a);
      hide Links, ReleaseStream;
      OneActorSends(p, q, a);
    }
  }

  lemma {:induction false} ReleaseAllActors(p: Pool, requests: seq<Request>)
    ensures ReleaseAll(p, requests).actors == p.actors
    decreases |requests|
  {
    if requests != [] {
      ReleaseAllActors(if requests[0].stream < |p.streams| then ReleaseStream(p, requests[0].stream)
          else p, requests[1..]);
    }
  }

  lemma ExitSends(p: Pool, a: nat)
    requires Links(p)
    ensures var q := DoExit(p, a); SendsWithin(p, q) && (Sends(p) ==> Sends(q))
  {
    SameActors(p, p);
    SameSendsOk(p, p);
    if LiveActor(p, a) && !p.actors[a].stopped {
      ReleaseAllActors(p.(streams := FailUsers(p.streams, a),
          actors := p.actors[a := p.actors[a].(failed := true, opening := false, requests := [])]),
              p.actors[a].requests);
      hide Links, ReleaseAll;
      OneActorSends(p, DoExit(p, a), a);
    }
  }

  // ----- every step -----

  predicate Silent(step: Step) {
    !(step.NewActor? || step.Opened? || step.Start? || step.WindowUpdate? || step.Settings? || step.Send?
        || step.Retire? || step.Exit?)
  }

  lemma ActorSilentSends(p: Pool, step: Step)
    requires Memory(p) && Silent(step)
    requires OnActor(step)
    ensures SameSends(p, Raw(p, step))
  {
    hide Memory, SameSends, AccountOutput, FailActor, SetActor, Apply, CacheCleared;
    hide DoConnect, DoNewActor, DoOpened, DoBind, DoMoveUpload, DoMoveDownload, DoStart, DoData, DoWindowUpdate,
        DoSettings, DoReset, DoGoaway, DoHeaders;
    hide DoCredit, DoSend, DoEndSend, DoRetire, DoExit, DoStop, DoCollectActor, DoWrite, DoReserve, DoUnreserve,
        DoRead, DoClose, DoCloseWaited;
    SameActors(p, p);
    match step {
      case Data(a, id, length, body, valid, end, memory) => DataSends(p, a, id, length, body, valid, end, memory);
      case ResetStream(a, id, code) => ResetSends(p, a, id, code);
      case Headers(a, id, accepted, success, end) => HeadersSends(p, a, id, accepted, success, end);
      case Goaway(a, k) => RequestFlagsSend(p, a, k, 0, 0);
      case Credit(a, i) => RequestFlagsSend(p, a, 0, i, 0);
      case EndSend(a, k, n) => RequestFlagsSend(p, a, k, 0, n);
      case Flushed(a, n) => ActorFlagsSend(p, a, n);
      case Drain(a) => ActorFlagsSend(p, a, 0);
      case Break(a) => ActorFlagsSend(p, a, 0);
      case Stop(a) => ActorFlagsSend(p, a, 0);
      case CollectActor(a) => ActorFlagsSend(p, a, 0);
      case CloseWaited(a) => ActorFlagsSend(p, a, 0);
    }
  }

  lemma StreamSilentSends(p: Pool, step: Step)
    requires Memory(p) && Silent(step)
    requires !OnActor(step)
    ensures SameSends(p, Raw(p, step))
  {
    hide Memory, SameSends, AccountOutput, FailActor, SetActor, Apply, CacheCleared;
    hide DoConnect, DoNewActor, DoOpened, DoBind, DoMoveUpload, DoMoveDownload, DoStart, DoData, DoWindowUpdate,
        DoSettings, DoReset, DoGoaway, DoHeaders;
    hide DoCredit, DoSend, DoEndSend, DoRetire, DoExit, DoStop, DoCollectActor, DoWrite, DoReserve, DoUnreserve,
        DoRead, DoClose, DoCloseWaited;
    SameActors(p, p);
    match step {
      case Connect => StreamSends(p, 0, 0, 0, [], x => true);
      case Bind(i, u, d) => StreamSends(p, i, u, d, [], x => true);
      case MoveUpload(i, v) => StreamSends(p, i, 0, v, [], x => true);
      case MoveDownload(i, v) => StreamSends(p, i, 0, v, [], x => true);
      case Write(i, data, memory) => StreamSends(p, i, 0, 0, data, memory);
      case Reserve(i, n) => StreamSends(p, i, n, 0, [], x => true);
      case Unreserve(i) => StreamSends(p, i, 0, 0, [], x => true);
      case Read(i, n) => StreamSends(p, i, n, 0, [], x => true);
      case Close(i, waits) => CloseSends(p, i, waits);
      case NewGroup(m) => SameActors(p, DoNewGroup(p, m));
      case CollectGroup(g) => SameActors(p, DoCollectGroup(p, g));
      case Ready(i) => if LiveStream(p, i) { SameActors(p, SetStream(p, i, p.streams[i].(ready := true))); }
      case Fail(i) => if LiveStream(p, i) { SameActors(p, FailStream(p, i)); }
      case FinishWrite(i) => SameActors(p, Raw(p, step));
      case Ledger(_) => SameActors(p, Raw(p, step));
      case ClearCache => SameActors(p, Raw(p, step));
    }
  }

  lemma SilentSends(p: Pool, step: Step)
    requires Memory(p) && Silent(step)
    ensures SameSends(p, Raw(p, step))
  {
    hide *;
    if OnActor(step) { ActorSilentSends(p, step); } else { StreamSilentSends(p, step); }
  }

  lemma LoudSends(p: Pool, step: Step)
    requires Memory(p) && Links(p)
    requires !Silent(step)
    ensures SendsWithin(p, Next(p, step)) && (Sends(p) ==> Sends(Next(p, step)))
  {
    hide Memory, Links, Sends, SendsWithin, SameSends, StartedSend, Sent;
    hide DoConnect, DoNewGroup, DoNewActor, DoOpened, DoBind, DoMoveUpload, DoMoveDownload, DoStart, DoData,
        DoWindowUpdate, DoSettings, DoReset, DoGoaway, DoHeaders;
    hide DoCredit, DoSend, DoEndSend, DoRetire, DoExit, DoStop, DoCollectActor, DoCollectGroup, DoWrite, DoReserve,
        DoUnreserve, DoRead, DoClose, DoCloseWaited;
    var q := Next(p, step);
    match step {
      case NewActor(g) => NewActorSends(p, g);
      case Opened(a, w, f) => OpenedSends(p, a, w, f);
      case Start(a, i, role, id, remaining, inHeader, pending) =>
        StartSend(p, a, i, role, id, remaining, inHeader, pending);
        if q == p { NothingSends(p); } else { var r :| StartedSend(p, q, a, r); StartedSends(p, q, a, r); }
      case WindowUpdate(a, id, n) => WindowUpdateSends(p, a, id, n);
      case Settings(a, entries) => SettingsSends(p, a, entries);
      case Send(a, i, k, pending) =>
        SendSent(p, a, i, k, pending);
        if q == p { NothingSends(p); } else { var n :| Sent(p, q, a, k, n); SentSends(p, q, a, k, n); }
      case Retire(a, k, pending) => RetireSends(p, a, k, pending);
      case Exit(a) => ExitSends(p, a);
    }
  }

  /** Every step keeps each window equal to credit minus DATA, and sends only within the windows. */
  lemma SendsNext(p: Pool, step: Step)
    requires Memory(p) && Links(p)
    ensures SendsWithin(p, Next(p, step)) && (Sends(p) ==> Sends(Next(p, step)))
  {
    hide Memory, Links, Sends, SendsWithin, SameSends, StartedSend, Sent;
    hide DoConnect, DoNewGroup, DoNewActor, DoOpened, DoBind, DoMoveUpload, DoMoveDownload, DoStart, DoData,
        DoWindowUpdate, DoSettings, DoReset, DoGoaway, DoHeaders;
    hide DoCredit, DoSend, DoEndSend, DoRetire, DoExit, DoStop, DoCollectActor, DoCollectGroup, DoWrite, DoReserve,
        DoUnreserve, DoRead, DoClose, DoCloseWaited;
    var q := Next(p, step);
    if Silent(step) {
      SilentSends(p, step);
      SameSendsOk(p, q);
    } else {
      LoudSends(p, step);
    }
  }

  lemma NothingSends(p: Pool)
    requires Links(p)
    ensures SendsWithin(p, p)
  {
    hide Links, SendsWithin;
    SameActors(p, p);
    SameSendsOk(p, p);
  }

  /** Over every run: each send window is what the peer granted minus the DATA sent, none is
      above 2^31 - 1, and the last step, whichever it is, sent DATA only within the windows. */
  lemma {:induction false} SendRun(p: Pool, steps: seq<Step>)
    requires Initial(p)
    ensures Links(Run(p, steps)) && GroupsExist(Run(p, steps)) && Sends(Run(p, steps))
    ensures steps != [] ==> SendsWithin(Run(p, steps[..|steps| - 1]), Run(p, steps))
    decreases |steps|
  {
    hide Memory, Links, GroupsExist, Sends, Initial, Next, SendsWithin;
    if steps == [] {
      InitialSends(p);
    } else {
      var before := steps[..|steps| - 1];
      SendRun(p, before);
      LinksNext(Run(p, before), steps[|steps| - 1]);
      SendsNext(Run(p, before), steps[|steps| - 1]);
    }
  }

  lemma InitialSends(p: Pool)
    requires Initial(p)
    ensures Links(p) && GroupsExist(p) && Sends(p)
  {
  }
}
