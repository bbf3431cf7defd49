/** Who keeps what alive: references of streams, actors of streams, groups of actors. */
module Http2PoolOwnership {
  import opened Bytes
  import opened Sums
  import opened BufferBudget
  import opened Http2Queue
  import opened Http2Pool
  import opened Http2PoolRuns
  import opened Http2PoolLinks

  function PointsTo(i: nat): Request -> int { (r: Request) => if r.stream == i then 1 else 0 }

  function RequestsTo(i: nat): Actor -> int { (x: Actor) => Sum(x.requests, PointsTo(i)) }

  /** The references of a stream are its own, while it is open, and one per request that points
      to it; `pending` are requests already off their actor's list but not yet released.  A
      stream is freed exactly when the last reference of a closed one goes. */
  predicate StreamCounted(p: Pool, i: nat, pending: seq<Request>)
    requires i < |p.streams|
  {
    var s := p.streams[i];
    && s.references == (if s.closed then 0 else 1) + Sum(p.actors, RequestsTo(i)) + Sum(pending, PointsTo(i))
    && (s.freed <==> s.closed && s.references == 0)
  }

  predicate Counted(p: Pool, pending: seq<Request>) {
    forall i :: 0 <= i < |p.streams| ==> StreamCounted(p, i, pending)
  }

  /** A live stream that has channels has live ones. */
  predicate StreamPlaced(p: Pool, i: nat)
    requires i < |p.streams|
  {
    var s := p.streams[i];
    !s.freed && s.bound ==> LiveActor(p, s.download) && LiveActor(p, s.upload)
  }

  /** A freed actor has stopped and nobody waits for it, a stopped one has no requests, and a
      live one has a live group. */
  predicate ActorPlaced(p: Pool, a: nat)
    requires a < |p.actors|
  {
    var x := p.actors[a];
    && (x.freed ==> x.stopped && x.closeWaiters == 0) && (x.stopped ==> x.requests == [])
    && x.group < |p.groups| && (!x.freed ==> !p.groups[x.group].freed)
  }

  predicate Placed(p: Pool) {
    && (forall i :: 0 <= i < |p.streams| ==> StreamPlaced(p, i))
    && (forall a :: 0 <= a < |p.actors| ==> ActorPlaced(p, a))
  }

  predicate Uses(actors: seq<Actor>, g: nat, s: Stream) {
    && s.bound && !s.closed
    && ((s.download < |actors| && actors[s.download].group == g)
        || (s.upload < |actors| && actors[s.upload].group == g))
  }

  function UsesGroup(actors: seq<Actor>, g: nat): Stream -> int { (s: Stream) => if Uses(actors, g, s) then 1 else 0 }

  /** A group's running count is the number of open streams with a channel in it. */
  predicate GroupCounted(p: Pool, g: nat)
    requires g < |p.groups|
  {
    p.groups[g].running == Sum(p.streams, UsesGroup(p.actors, g))
  }

  predicate Grouped(p: Pool) {
    forall g :: 0 <= g < |p.groups| ==> GroupCounted(p, g)
  }

  predicate Owned(p: Pool) {
    Counted(p, []) && Placed(p) && Grouped(p)
  }

  // ----- what it means -----

  /** Nothing is freed while something still points to it. */
  lemma NothingDangles(p: Pool)
    requires Owned(p) && Memory(p)
    ensures forall a, k ::
        0 <= a < |p.actors| && 0 <= k < |p.actors[a].requests| && p.actors[a].requests[k].stream < |p.streams| ==>
              !p.streams[p.actors[a].requests[k].stream].freed
    ensures forall i :: 0 <= i < |p.streams| && !p.streams[i].freed && p.streams[i].bound ==>
              LiveActor(p, p.streams[i].download) && LiveActor(p, p.streams[i].upload)
    ensures forall a ::
        0 <= a < |p.actors| && p.actors[a].freed ==> p.actors[a].requests == [] && p.actors[a].closeWaiters == 0
    ensures forall a ::
        0 <= a < |p.actors| && !p.actors[a].freed ==>
            p.actors[a].group < |p.groups| && !p.groups[p.actors[a].group].freed
    ensures forall g :: 0 <= g < |p.groups| && p.groups[g].freed ==> p.groups[g].running == 0
  {
    hide Memory;
    forall a, k | 0 <= a < |p.actors| && 0 <= k < |p.actors[a].requests| && p.actors[a].requests[k].stream < |p.streams|
      ensures !p.streams[p.actors[a].requests[k].stream].freed
    {
      HeldStream(p, a, k);
    }
    forall i | 0 <= i < |p.streams| && !p.streams[i].freed && p.streams[i].bound
      ensures LiveActor(p, p.streams[i].download) && LiveActor(p, p.streams[i].upload)
    {
      assert StreamPlaced(p, i);
    }
    forall a | 0 <= a < |p.actors|
      ensures p.actors[a].freed ==> p.actors[a].requests == [] && p.actors[a].closeWaiters == 0
      ensures !p.actors[a].freed ==> p.actors[a].group < |p.groups| && !p.groups[p.actors[a].group].freed
    {
      assert ActorPlaced(p, a);
    }
    forall g | 0 <= g < |p.groups| && p.groups[g].freed ensures p.groups[g].running == 0 {
      IdleGroup(p, g);
    }
  }

  lemma HeldStream(p: Pool, a: nat, k: nat)
    requires Counted(p, []) && a < |p.actors| && k < |p.actors[a].requests|
        && p.actors[a].requests[k].stream < |p.streams|
    ensures !p.streams[p.actors[a].requests[k].stream].freed
  {
    var i := p.actors[a].requests[k].stream;
    assert StreamCounted(p, i, []);
    forall b | 0 <= b < |p.actors| ensures RequestsTo(i)(p.actors[b]) >= 0 {
      SumNonnegative(p.actors[b].requests, PointsTo(i));
    }
    SumMember(p.actors, a, RequestsTo(i));
    SumMember(p.actors[a].requests, k, PointsTo(i));
  }

  lemma IdleGroup(p: Pool, g: nat)
    requires Placed(p) && Memory(p) && g < |p.groups| && p.groups[g].freed && GroupCounted(p, g)
    ensures p.groups[g].running == 0
  {
    forall i | 0 <= i < |p.streams| ensures UsesGroup(p.actors, g)(p.streams[i]) == 0 {
      assert StreamPlaced(p, i) && StreamMemory(p.store, i, p.streams[i]);
      if p.streams[i].download < |p.actors| { assert ActorPlaced(p, p.streams[i].download); }
      if p.streams[i].upload < |p.actors| { assert ActorPlaced(p, p.streams[i].upload); }
    }
    SumZero(p.streams, UsesGroup(p.actors, g));
  }

  // ----- frames -----

  predicate SameStreamLife(s: Stream, t: Stream) {
    t.freed == s.freed && t.closed == s.closed && t.references == s.references
  }

  predicate SameActorLife(x: Actor, y: Actor) {
    y.freed == x.freed && y.stopped == x.stopped && y.closeWaiters == x.closeWaiters
  }

  predicate SameLives(p: Pool, q: Pool) {
    && q.groups == p.groups && |q.streams| == |p.streams| && |q.actors| == |p.actors|
    && (forall i :: 0 <= i < |p.streams| ==> SameStreamLife(p.streams[i], q.streams[i]))
    && (forall a :: 0 <= a < |p.actors| ==> SameActorLife(p.actors[a], q.actors[a]))
  }

  lemma SamePoints(x: Actor, y: Actor, i: nat)
    requires SameActor(x, y)
    ensures RequestsTo(i)(x) == RequestsTo(i)(y)
  {
    forall k | 0 <= k < |x.requests| ensures PointsTo(i)(x.requests[k]) == PointsTo(i)(y.requests[k]) {
      assert SameRequest(x.requests[k], y.requests[k]);
    }
    SumPointwise(x.requests, y.requests, PointsTo(i));
  }

  lemma CountedSame(p: Pool, q: Pool, pending: seq<Request>)
    requires Counted(p, pending) && |q.streams| == |p.streams| && |q.actors| == |p.actors|
    requires forall i :: 0 <= i < |p.streams| ==> SameStreamLife(p.streams[i], q.streams[i])
    requires forall a :: 0 <= a < |p.actors| ==> SameActor(p.actors[a], q.actors[a])
    ensures Counted(q, pending)
  {
    forall i | 0 <= i < |q.streams| ensures StreamCounted(q, i, pending) {
      assert StreamCounted(p, i, pending) && SameStreamLife(p.streams[i], q.streams[i]);
      forall a | 0 <= a < |p.actors| ensures RequestsTo(i)(p.actors[a]) == RequestsTo(i)(q.actors[a]) {
        SamePoints(p.actors[a], q.actors[a], i);
      }
      SumPointwise(p.actors, q.actors, RequestsTo(i));
    }
  }

  lemma GroupedSame(p: Pool, q: Pool)
    requires Grouped(p) && q.groups == p.groups && |q.streams| == |p.streams| && |q.actors| == |p.actors|
    requires forall i ::
        0 <= i < |p.streams| ==> SameBinding(p.streams[i], q.streams[i]) && q.streams[i].closed == p.streams[i].closed
    requires forall a :: 0 <= a < |p.actors| ==> q.actors[a].group == p.actors[a].group
    ensures Grouped(q)
  {
    forall g | 0 <= g < |q.groups| ensures GroupCounted(q, g) {
      assert GroupCounted(p, g);
      SameUses(p, q, g);
    }
  }

  /** The streams of a group are the same ones. */
  lemma SameUses(p: Pool, q: Pool, g: nat)
    requires |q.streams| == |p.streams|
    requires forall i :: 0 <= i < |p.streams| ==> (Uses(p.actors, g, p.streams[i]) <==> Uses(q.actors, g, q.streams[i]))
    ensures Sum(q.streams, UsesGroup(q.actors, g)) == Sum(p.streams, UsesGroup(p.actors, g))
  {
    var f := UsesGroup(p.actors, g);
    var h := UsesGroup(q.actors, g);
    SumTwo(p.streams, q.streams, f, h);
  }

  lemma {:induction false} SumTwo<T>(s: seq<T>, t: seq<T>, f: T -> int, h: T -> int)
    requires |s| == |t| && forall i :: 0 <= i < |s| ==> f(s[i]) == h(t[i])
    ensures Sum(s, f) == Sum(t, h)
  {
    if s != [] { SumTwo(s[..|s| - 1], t[..|t| - 1], f, h); }
  }

  lemma PlacedSame(p: Pool, q: Pool)
    requires Placed(p) && SameShape(p, q) && SameLives(p, q)
    ensures Placed(q)
  {
    forall i | 0 <= i < |q.streams| ensures StreamPlaced(q, i) {
      assert StreamPlaced(p, i) && SameBinding(p.streams[i], q.streams[i])
          && SameStreamLife(p.streams[i], q.streams[i]);
      if !p.streams[i].freed && p.streams[i].bound {
        assert SameActorLife(p.actors[p.streams[i].download], q.actors[p.streams[i].download]);
        assert SameActorLife(p.actors[p.streams[i].upload], q.actors[p.streams[i].upload]);
      }
    }
    forall a | 0 <= a < |q.actors| ensures ActorPlaced(q, a) {
      assert ActorPlaced(p, a) && SameActor(p.actors[a], q.actors[a]) && SameActorLife(p.actors[a], q.actors[a]);
    }
  }

  lemma OwnedSame(p: Pool, q: Pool)
    requires Owned(p) && SameShape(p, q) && SameLives(p, q)
    ensures Owned(q)
  {
    PlacedSame(p, q);
    hide Placed;
    CountedSame(p, q, []);
    forall i | 0 <= i < |p.streams| ensures SameBinding(p.streams[i], q.streams[i])
        && q.streams[i].closed == p.streams[i].closed {
      assert SameStreamLife(p.streams[i], q.streams[i]);
    }
    forall a | 0 <= a < |p.actors| ensures q.actors[a].group == p.actors[a].group {
      assert SameActor(p.actors[a], q.actors[a]);
    }
    hide Counted;
    GroupedSame(p, q);
  }

  lemma LivesTwice(p: Pool, q: Pool, r: Pool)
    requires SameLives(p, q) && SameLives(q, r)
    ensures SameLives(p, r)
  {
    forall i | 0 <= i < |p.streams| ensures SameStreamLife(p.streams[i], r.streams[i]) {
      assert SameStreamLife(p.streams[i], q.streams[i]) && SameStreamLife(q.streams[i], r.streams[i]);
    }
    forall a | 0 <= a < |p.actors| ensures SameActorLife(p.actors[a], r.actors[a]) {
      assert SameActorLife(p.actors[a], q.actors[a]) && SameActorLife(q.actors[a], r.actors[a]);
    }
  }

  // ----- steps that leave lives alone -----

  lemma NothingLives(p: Pool, store: Store)
    ensures SameLives(p, p) && SameLives(p, p.(store := store))
  {
  }

  lemma DataLives(p: Pool, a: nat, id: nat, length: nat, body: seq<Byte>, valid: bool, end: bool, memory: nat -> bool)
    requires Memory(p)
    ensures SameLives(p, DoData(p, a, id, length, body, valid, end, memory))
  {
    hide Memory, Judge, TakeData, EndData, Reject;
    NothingLives(p, p.store);
    if Working(p, a) && |body| <= length {
      var v := Judge(p, a, id, length, valid);
      if v.Response? {
        TakeDataLives(p, a, v.k, length, body, memory);
        var q := TakeData(p, a, v.k, length, body, memory);
        EndDataLives(q, a, v.k);
        hide SameLives;
        LivesTwice(p, q, EndData(q, a, v.k));
      } else if v.Refused? {
        var q := SetActor(p, a, Refunded(p.actors[a], length));
        RejectLives(q, a, v.k);
        assert SameLives(p, q);
        hide SameLives;
        LivesTwice(p, q, Reject(q, a, v.k));
      }
    }
  }

  lemma RejectLives(p: Pool, a: nat, k: nat)
    requires a < |p.actors| && k < |p.actors[a].requests| && p.actors[a].requests[k].stream < |p.streams|
    ensures SameLives(p, Reject(p, a, k))
  {
  }

  lemma EndDataLives(p: Pool, a: nat, k: nat)
    requires a < |p.actors| && k < |p.actors[a].requests| && p.actors[a].requests[k].stream < |p.streams|
    ensures SameLives(p, EndData(p, a, k))
  {
    RejectLives(p, a, k);
    hide Reject;
  }

  lemma EnqueueLives(p: Pool, i: nat, length: nat, body: seq<Byte>, memory: nat -> bool)
    requires Memory(p) && i < |p.streams| && |body| <= length
    ensures SameLives(p, Enqueue(p, i, length, body, memory).1)
  {
    hide Memory, Append, StreamMemory;
  }

  lemma SpendLives(p: Pool, a: nat, k: nat, length: nat)
    requires a < |p.actors| && k < |p.actors[a].requests|
    ensures SameLives(p, SpendWindows(p, a, k, length)) && SameLives(p, FailActor(SpendWindows(p, a, k, length), a))
    ensures SameLives(p, SetActor(p, a, Refunded(p.actors[a], length)))
  {
  }

  lemma TakeDataLives(p: Pool, a: nat, k: nat, length: nat, body: seq<Byte>, memory: nat -> bool)
    requires Memory(p) && a < |p.actors| && k < |p.actors[a].requests| && p.actors[a].requests[k].stream < |p.streams|
        && |body| <= length
    ensures SameLives(p, TakeData(p, a, k, length, body, memory))
  {
    hide Memory, Enqueue, SpendWindows, FailActor, SameLives;
    var i := p.actors[a].requests[k].stream;
    var q := Enqueue(p, i, length, body, memory).1;
    EnqueueLives(p, i, length, body, memory);
    SpendLives(p, a, k, length);
    SpendLives(q, a, k, length);
    LivesTwice(p, q, SpendWindows(q, a, k, length));
    LivesTwice(p, q, FailActor(SpendWindows(q, a, k, length), a));
  }

  lemma ResetLives(p: Pool, a: nat, id: nat, code: nat)
    requires Memory(p)
    ensures SameLives(p, DoReset(p, a, id, code))
  {
    hide Memory, StreamMemory, Emptied;
  }

  lemma SettleLife(x: Actor, entries: seq<(nat, nat)>)
    ensures SameActorLife(x, Settle(x, entries))
    decreases |entries|
  {
  }

  lemma SettingsLives(p: Pool, a: nat, entries: seq<(nat, nat)>)
    ensures SameLives(p, DoSettings(p, a, entries))
  {
    if a < |p.actors| { SettleLife(p.actors[a], entries); }
    hide Settle;
  }

  lemma WindowUpdateLives(p: Pool, a: nat, id: nat, n: nat)
    ensures SameLives(p, DoWindowUpdate(p, a, id, n))
  {
    hide Reject;
    if Working(p, a) {
      var k := Find(p.actors[a].requests, id);
      if k < |p.actors[a].requests| && p.actors[a].requests[k].stream < |p.streams| { RejectLives(p, a, k); }
    }
  }

  lemma CreditLives(p: Pool, a: nat, i: nat)
    ensures SameLives(p, DoCredit(p, a, i))
  {
    hide CreditDue;
  }

  lemma RequestLives(p: Pool, a: nat, k: nat, n: nat)
    ensures SameLives(p, DoGoaway(p, a, k)) && SameLives(p, DoEndSend(p, a, k, n))
  {
  }

  lemma HeadersLives(p: Pool, a: nat, id: nat, accepted: bool, success: bool, end: bool)
    ensures SameLives(p, DoHeaders(p, a, id, accepted, success, end))
  {
  }

  lemma SendLives(p: Pool, a: nat, i: nat, k: nat, pending: nat)
    requires Memory(p)
    ensures SameLives(p, DoSend(p, a, i, k, pending))
  {
    hide Memory, StreamMemory, Consume, UpdateUpload, SendLength;
  }

  lemma AppLives(p: Pool, i: nat, n: nat, data: seq<Byte>, memory: nat -> bool)
    requires Memory(p)
    ensures SameLives(p, DoWrite(p, i, data, memory)) && SameLives(p, DoReserve(p, i, n))
        && SameLives(p, DoUnreserve(p, i)) && SameLives(p, DoRead(p, i, n))
  {
    hide Memory, StreamMemory, Consume, UpdateUpload, WriteAppend, Trimmed, WriteCapacity, Succeeds, GoodAttempt;
  }

  lemma ActorFlagLives(p: Pool, a: nat, w: nat, f: nat)
    ensures SameLives(p, DoOpened(p, a, w, f))
    ensures a < |p.actors| ==>
        SameLives(p, AccountOutput(p, a, w)) && SameLives(p, SetActor(p, a, p.actors[a].(draining := true)))
            && SameLives(p, FailActor(p, a))
  {
  }

  lemma StreamFlagLives(p: Pool, i: nat)
    requires i < |p.streams|
    ensures SameLives(p, FailStream(p, i)) && SameLives(p, SetStream(p, i, p.streams[i].(ready := true)))
    ensures SameLives(p, SetStream(p, i, p.streams[i].(finishRequested := true)))
  {
  }

  predicate Lasting(step: Step) {
    !(step.Connect? || step.NewGroup? || step.NewActor? || step.Bind? || step.MoveUpload? || step.MoveDownload?
        || step.Start? || step.Retire? || step.Exit? ||
      step.Stop? || step.CollectActor? || step.CollectGroup? || step.Close? || step.CloseWaited?)
  }

  lemma ActorLastingLives(p: Pool, step: Step)
    requires Memory(p) && Lasting(step)
    requires OnActor(step)
    ensures SameLives(p, Raw(p, step))
  {
    hide Memory, SameLives, AccountOutput, FailActor, SetActor, FailStream, SetStream, Apply, CacheCleared;
    hide DoConnect, DoNewGroup, DoNewActor, DoOpened, DoBind, DoMoveUpload, DoMoveDownload, DoStart, DoData,
        DoWindowUpdate, DoSettings, DoReset, DoGoaway, DoHeaders;
    hide DoCredit, DoSend, DoEndSend, DoRetire, DoExit, DoStop, DoCollectActor, DoCollectGroup, DoWrite, DoReserve,
        DoUnreserve, DoRead, DoClose, DoCloseWaited;
    NothingLives(p, p.store);
    match step {
      case Opened(a, w, f) => ActorFlagLives(p, a, w, f);
      case Data(a, id, length, body, valid, end, memory) => DataLives(p, a, id, length, body, valid, end, memory);
      case WindowUpdate(a, id, n) => WindowUpdateLives(p, a, id, n);
      case Settings(a, entries) => SettingsLives(p, a, entries);
      case ResetStream(a, id, code) => ResetLives(p, a, id, code);
      case Goaway(a, k) => RequestLives(p, a, k, 0);
      case Headers(a, id, accepted, success, end) => HeadersLives(p, a, id, accepted, success, end);
      case Credit(a, i) => CreditLives(p, a, i);
      case Send(a, i, k, pending) => SendLives(p, a, i, k, pending);
      case EndSend(a, k, n) => RequestLives(p, a, k, n);
      case Flushed(a, n) => ActorFlagLives(p, a, n, 0);
      case Drain(a) => ActorFlagLives(p, a, 0, 0);
      case Break(a) => ActorFlagLives(p, a, 0, 0);
    }
  }

  lemma StreamLastingLives(p: Pool, step: Step)
    requires Memory(p) && Lasting(step)
    requires !OnActor(step)
    ensures SameLives(p, Raw(p, step))
  {
    hide Memory, SameLives, AccountOutput, FailActor, SetActor, FailStream, SetStream, Apply, CacheCleared;
    hide DoConnect, DoNewGroup, DoNewActor, DoOpened, DoBind, DoMoveUpload, DoMoveDownload, DoStart, DoData,
        DoWindowUpdate, DoSettings, DoReset, DoGoaway, DoHeaders;
    hide DoCredit, DoSend, DoEndSend, DoRetire, DoExit, DoStop, DoCollectActor, DoCollectGroup, DoWrite, DoReserve,
        DoUnreserve, DoRead, DoClose, DoCloseWaited;
    NothingLives(p, p.store);
    match step {
      case Ready(i) => if LiveStream(p, i) { StreamFlagLives(p, i); }
      case Fail(i) => if LiveStream(p, i) { StreamFlagLives(p, i); }
      case FinishWrite(i) => if LiveStream(p, i) { StreamFlagLives(p, i); }
      case Write(i, data, memory) => AppLives(p, i, 0, data, memory);
      case Reserve(i, n) => AppLives(p, i, n, [], x => true);
      case Unreserve(i) => AppLives(p, i, 0, [], x => true);
      case Read(i, n) => AppLives(p, i, n, [], x => true);
      case Ledger(op) => NothingLives(p, Raw(p, step).store);
      case ClearCache => NothingLives(p, Raw(p, step).store);
    }
  }

  lemma LastingLives(p: Pool, step: Step)
    requires Memory(p) && Lasting(step)
    ensures SameLives(p, Raw(p, step))
  {
    hide *;
    if OnActor(step) { ActorLastingLives(p, step); } else { StreamLastingLives(p, step); }
  }

  // ----- steps that begin something -----

  lemma ConnectOwned(p: Pool)
    requires Owned(p) && Links(p)
    ensures Owned(DoConnect(p))
  {
    var q := DoConnect(p);
    hide Sum;
    forall i | 0 <= i < |q.streams| ensures StreamCounted(q, i, []) && StreamPlaced(q, i) {
      if i < |p.streams| {
        assert StreamCounted(p, i, []) && StreamPlaced(p, i);
      } else {
        Unpointed(p, i);
        SumZero([], PointsTo(i));
      }
    }
    forall a | 0 <= a < |q.actors| ensures ActorPlaced(q, a) { assert ActorPlaced(p, a); }
    forall g | 0 <= g < |q.groups| ensures GroupCounted(q, g) {
      assert GroupCounted(p, g);
      SumAppend(p.streams, FRESH, UsesGroup(p.actors, g));
    }
  }

  /** No request points to a stream that does not exist yet. */
  lemma Unpointed(p: Pool, i: nat)
    requires Links(p) && i >= |p.streams|
    ensures Sum(p.actors, RequestsTo(i)) == 0
  {
    forall a | 0 <= a < |p.actors| ensures RequestsTo(i)(p.actors[a]) == 0 {
      assert ActorLinks(p, a);
      forall k | 0 <= k < |p.actors[a].requests| ensures PointsTo(i)(p.actors[a].requests[k]) == 0 {
        assert RequestLink(p, a, p.actors[a].requests[k]);
      }
      SumZero(p.actors[a].requests, PointsTo(i));
    }
    SumZero(p.actors, RequestsTo(i));
  }

  lemma NewGroupOwned(p: Pool, m: nat)
    requires Owned(p)
    ensures Owned(DoNewGroup(p, m))
  {
    var q := DoNewGroup(p, m);
    if q != p {
      hide Sum;
      assert forall i :: 0 <= i < |q.streams| ==> StreamCounted(p, i, []) && StreamPlaced(p, i);
      forall a | 0 <= a < |q.actors| ensures ActorPlaced(q, a) { assert ActorPlaced(p, a); }
      forall i | 0 <= i < |q.streams| ensures StreamCounted(q, i, [])
          && StreamPlaced(q, i) { assert StreamCounted(p, i, []) && StreamPlaced(p, i); }
      forall g | 0 <= g < |q.groups| ensures GroupCounted(q, g) {
        if g < |p.groups| {
          assert GroupCounted(p, g);
        } else {
          forall i | 0 <= i < |p.streams| ensures UsesGroup(p.actors, g)(p.streams[i]) == 0 {
            if p.streams[i].download < |p.actors| { assert ActorPlaced(p, p.streams[i].download); }
            if p.streams[i].upload < |p.actors| { assert ActorPlaced(p, p.streams[i].upload); }
          }
          SumZero(p.streams, UsesGroup(p.actors, g));
        }
      }
    }
  }

  lemma NewActorOwned(p: Pool, g: nat)
    requires Owned(p) && Links(p)
    ensures Owned(DoNewActor(p, g))
  {
    var q := DoNewActor(p, g);
    if q != p {
      var x := q.actors[|p.actors|];
      forall i | 0 <= i < |q.streams| ensures StreamCounted(q, i, []) {
        assert StreamCounted(p, i, []);
        SumAppend(p.actors, x, RequestsTo(i));
        SumZero(x.requests, PointsTo(i));
        hide Sum;
      }
      hide Sum;
      forall i | 0 <= i < |q.streams| ensures StreamPlaced(q, i) { assert StreamPlaced(p, i); }
      forall a | 0 <= a < |q.actors| ensures ActorPlaced(q, a) { if a < |p.actors| { assert ActorPlaced(p, a); } }
      forall h | 0 <= h < |q.groups| ensures GroupCounted(q, h) {
        assert GroupCounted(p, h);
        forall i | 0 <= i < |p.streams| ensures Uses(p.actors, h, p.streams[i]) <==> Uses(q.actors, h, q.streams[i]) {
          assert StreamLink(p, i);
        }
        SameUses(p, q, h);
      }
    }
  }

  // ----- channels -----

  /** One stream changed channels or closed, and the running counts followed. */
  predicate Regrouped(p: Pool, q: Pool, i: nat) {
    && i < |p.streams| && |q.streams| == |p.streams| && |q.actors| == |p.actors| && |q.groups| == |p.groups|
    && (forall j :: 0 <= j < |p.streams| && j != i ==> q.streams[j] == p.streams[j])
    && (forall a :: 0 <= a < |p.actors| ==> q.actors[a].group == p.actors[a].group)
    && (forall g :: 0 <= g < |p.groups| ==>
          && q.groups[g].freed == p.groups[g].freed
          && q.groups[g].running - p.groups[g].running ==
              UsesGroup(p.actors, g)(q.streams[i]) - UsesGroup(p.actors, g)(p.streams[i]))
  }

  lemma RegroupedGrouped(p: Pool, q: Pool, i: nat)
    requires Grouped(p) && Regrouped(p, q, i)
    ensures Grouped(q)
  {
    var mid := SetStream(p, i, q.streams[i]);
    forall g | 0 <= g < |q.groups| ensures GroupCounted(q, g) {
      assert GroupCounted(p, g);
      SumUpdate(p.streams, i, q.streams[i], UsesGroup(p.actors, g));
      SameUses(mid, q, g);
      hide Sum;
    }
  }

  lemma BindRegroups(p: Pool, i: nat, u: nat, d: nat)
    requires Memory(p)
    ensures var q := DoBind(p, i, u, d); q == p || Regrouped(p, q, i)
  {
    hide Memory, BindStore, Reservation;
  }

  lemma MoveUploadRegroups(p: Pool, i: nat, v: nat)
    ensures var q := DoMoveUpload(p, i, v); q == p || Regrouped(p, q, i)
  {
  }

  lemma MoveDownloadRegroups(p: Pool, i: nat, v: nat)
    ensures var q := DoMoveDownload(p, i, v); q == p || Regrouped(p, q, i)
  {
  }

  /** A live stream got live channels. */
  predicate Rechannelled(p: Pool, q: Pool, i: nat) {
    && i < |p.streams| && q.actors == p.actors && |q.streams| == |p.streams| && |q.groups| == |p.groups|
    && (forall j :: 0 <= j < |p.streams| && j != i ==> q.streams[j] == p.streams[j])
    && SameStreamLife(p.streams[i], q.streams[i])
    && LiveActor(p, q.streams[i].download) && LiveActor(p, q.streams[i].upload)
    && (forall g :: 0 <= g < |p.groups| ==> q.groups[g].freed == p.groups[g].freed)
  }

  lemma RechannelledOwned(p: Pool, q: Pool, i: nat)
    requires Owned(p) && Rechannelled(p, q, i) && Regrouped(p, q, i)
    ensures Owned(q)
  {
    RegroupedGrouped(p, q, i);
    hide Grouped, Regrouped;
    CountedSame(p, q, []);
    hide Counted;
    forall j | 0 <= j < |q.streams| ensures StreamPlaced(q, j) { assert StreamPlaced(p, j); }
    forall a | 0 <= a < |q.actors| ensures ActorPlaced(q, a) { assert ActorPlaced(p, a); }
  }

  lemma BindOwned(p: Pool, i: nat, u: nat, d: nat)
    requires Memory(p) && Owned(p)
    ensures Owned(DoBind(p, i, u, d))
  {
    var q := DoBind(p, i, u, d);
    if q != p {
      BindRegroups(p, i, u, d);
      hide Memory, BindStore, Reservation, Regrouped, Owned;
      RechannelledOwned(p, q, i);
    }
  }

  lemma MoveUploadOwned(p: Pool, i: nat, v: nat)
    requires Owned(p)
    ensures Owned(DoMoveUpload(p, i, v))
  {
    var q := DoMoveUpload(p, i, v);
    if q != p {
      MoveUploadRegroups(p, i, v);
      assert StreamPlaced(p, i);
      hide Regrouped, Owned;
      RechannelledOwned(p, q, i);
    }
  }

  lemma MoveDownloadOwned(p: Pool, i: nat, v: nat)
    requires Owned(p)
    ensures Owned(DoMoveDownload(p, i, v))
  {
    var q := DoMoveDownload(p, i, v);
    if q != p {
      MoveDownloadRegroups(p, i, v);
      assert StreamPlaced(p, i);
      hide Regrouped, Owned;
      RechannelledOwned(p, q, i);
    }
  }

  // ----- requests -----

  /** A request was taken on: its stream holds one reference more. */
  predicate TakenOn(p: Pool, q: Pool, a: nat, i: nat) {
    && Working(p, a) && LiveStream(p, i) && |q.actors| == |p.actors| && |q.streams| == |p.streams|
        && q.groups == p.groups
    && (forall b :: 0 <= b < |p.actors| && b != a ==> q.actors[b] == p.actors[b])
    && (forall j :: 0 <= j < |p.streams| && j != i ==> q.streams[j] == p.streams[j])
    && q.actors[a].requests != [] && q.actors[a].requests[0].stream == i
        && q.actors[a].requests[1..] == p.actors[a].requests
    && SameActorLife(p.actors[a], q.actors[a]) && q.actors[a].group == p.actors[a].group
    && var s := p.streams[i]; var t := q.streams[i];
       && !s.closed && !t.closed && t.freed == s.freed && t.bound == s.bound && t.download == s.download
           && t.upload == s.upload && t.references == s.references + 1
  }

  lemma StartTakesOn(p: Pool, a: nat, i: nat, role: Role, id: nat, remaining: nat, inHeader: nat, pending: nat)
    requires Memory(p)
    ensures var q := DoStart(p, a, i, role, id, remaining, inHeader, pending); q == p || TakenOn(p, q, a, i)
  {
    var q := DoStart(p, a, i, role, id, remaining, inHeader, pending);
    hide Memory, UpdateUpload, Consume, StreamMemory, Capacity, CountDownloads, InitialWindow, ManagerOf;
  }

  lemma TakenOnCounted(p: Pool, q: Pool, a: nat, i: nat)
    requires Counted(p, []) && TakenOn(p, q, a, i)
    ensures Counted(q, [])
  {
    var r := q.actors[a].requests[0];
    assert q.actors[a].requests == [r] + p.actors[a].requests;
    assert q.actors == p.actors[a := q.actors[a]];
    forall j | 0 <= j < |q.streams| ensures StreamCounted(q, j, []) {
      assert StreamCounted(p, j, []);
      SumUpdate(p.actors, a, q.actors[a], RequestsTo(j));
      SumPrepend(r, p.actors[a].requests, PointsTo(j));
      hide Sum;
    }
    if p.streams[i].references == -1 { assert StreamCounted(p, i, []); HoldersNonnegative(p, i); }
  }

  lemma HoldersNonnegative(p: Pool, i: nat)
    ensures Sum(p.actors, RequestsTo(i)) >= 0
  {
    forall b | 0 <= b < |p.actors| ensures RequestsTo(i)(p.actors[b]) >= 0 { SumNonnegative(p.actors[b].requests,
        PointsTo(i)); }
    SumNonnegative(p.actors, RequestsTo(i));
  }

  lemma TakenOnOwned(p: Pool, q: Pool, a: nat, i: nat)
    requires Owned(p) && TakenOn(p, q, a, i)
    ensures Owned(q)
  {
    TakenOnCounted(p, q, a, i);
    hide Counted;
    forall j | 0 <= j < |q.streams| ensures StreamPlaced(q, j) { assert StreamPlaced(p, j); }
    forall b | 0 <= b < |q.actors| ensures ActorPlaced(q, b) { assert ActorPlaced(p, b); }
    hide Placed;
    forall g | 0 <= g < |q.groups| ensures GroupCounted(q, g) {
      assert GroupCounted(p, g);
      SameUses(p, q, g);
      hide Sum;
    }
  }

  /** release_stream gives up the reference of one pending request, and frees a closed stream with the last one. */
  lemma ReleaseCounted(p: Pool, r: Request, pending: seq<Request>)
    requires Counted(p, [r] + pending) && r.stream < |p.streams|
    ensures Counted(ReleaseStream(p, r.stream), pending)
  {
    var q := ReleaseStream(p, r.stream);
    forall j | 0 <= j < |q.streams| ensures StreamCounted(q, j, pending) {
      assert StreamCounted(p, j, [r] + pending);
      SumPrepend(r, pending, PointsTo(j));
      if j == r.stream { HoldersNonnegative(p, j); SumNonnegative(pending, PointsTo(j)); }
      hide Sum;
    }
  }

  lemma {:induction false} ReleaseAllCounted(p: Pool, requests: seq<Request>)
    requires Counted(p, requests) && forall k :: 0 <= k < |requests| ==> requests[k].stream < |p.streams|
    ensures Counted(ReleaseAll(p, requests), [])
    decreases |requests|
  {
    hide Counted, ReleaseStream;
    if requests != [] {
      assert requests == [requests[0]] + requests[1..];
      ReleaseCounted(p, requests[0], requests[1..]);
      ReleaseShape(p, requests[0].stream);
      ReleaseAllCounted(ReleaseStream(p, requests[0].stream), requests[1..]);
    }
  }

  /** What releasing requests leaves as it is. */
  predicate SameButReferences(p: Pool, q: Pool) {
    && q.actors == p.actors && q.groups == p.groups && |q.streams| == |p.streams|
    && forall i ::
        0 <= i < |p.streams| ==>
            SameBinding(p.streams[i], q.streams[i]) && q.streams[i].closed == p.streams[i].closed
                && (p.streams[i].freed ==> q.streams[i].freed)
  }

  lemma {:induction false} ReleaseAllFrame(p: Pool, requests: seq<Request>)
    ensures SameButReferences(p, ReleaseAll(p, requests))
    decreases |requests|
  {
    if requests != [] {
      var q := if requests[0].stream < |p.streams| then ReleaseStream(p, requests[0].stream) else p;
      ReleaseAllFrame(q, requests[1..]);
      assert SameButReferences(p, q);
      hide ReleaseStream, ReleaseAll;
    }
  }

  lemma SameButReferencesOwned(p: Pool, q: Pool)
    requires Placed(p) && Grouped(p) && SameButReferences(p, q)
    ensures Placed(q) && Grouped(q)
  {
    GroupedSame(p, q);
    forall j | 0 <= j < |q.streams| ensures StreamPlaced(q, j) { assert StreamPlaced(p, j)
        && SameBinding(p.streams[j], q.streams[j]); }
    forall b | 0 <= b < |q.actors| ensures ActorPlaced(q, b) { assert ActorPlaced(p, b); }
  }

  lemma RetireOwned(p: Pool, a: nat, k: nat, pending: nat)
    requires Owned(p)
    ensures Owned(DoRetire(p, a, k, pending))
  {
    var q := DoRetire(p, a, k, pending);
    if q != p {
      var x := p.actors[a];
      var r := x.requests[k];
      var mid := AccountOutput(SetActor(p, a, x.(requests := x.requests[..k] + x.requests[k + 1..])), a, pending);
      RemovedCounted(p, mid, a, k);
      assert [r] + [] == [r];
      ReleaseCounted(mid, r, []);
      hide Counted, Sum;
      forall j | 0 <= j < |mid.streams| ensures StreamPlaced(mid, j) { assert StreamPlaced(p, j); }
      forall b | 0 <= b < |mid.actors| ensures ActorPlaced(mid, b) { assert ActorPlaced(p, b); }
      hide Placed;
      GroupedSame(p, mid);
      hide Grouped;
      assert SameButReferences(mid, q);
      SameButReferencesOwned(mid, q);
    }
  }

  lemma RemovedCounted(p: Pool, q: Pool, a: nat, k: nat)
    requires Counted(p, []) && a < |p.actors| && k < |p.actors[a].requests| && q.streams == p.streams
        && |q.actors| == |p.actors|
    requires forall b :: 0 <= b < |p.actors| && b != a ==> q.actors[b] == p.actors[b]
    requires q.actors[a].requests == p.actors[a].requests[..k] + p.actors[a].requests[k + 1..]
    ensures Counted(q, [p.actors[a].requests[k]])
  {
    var r := p.actors[a].requests[k];
    assert q.actors == p.actors[a := q.actors[a]];
    forall j | 0 <= j < |q.streams| ensures StreamCounted(q, j, [r]) {
      assert StreamCounted(p, j, []);
      SumUpdate(p.actors, a, q.actors[a], RequestsTo(j));
      SumRemove(p.actors[a].requests, k, PointsTo(j));
      SumPrepend(r, [], PointsTo(j));
      assert [r] + [] == [r];
    }
  }

  lemma ExitOwned(p: Pool, a: nat)
    requires Owned(p) && Links(p)
    ensures Owned(DoExit(p, a))
  {
    if LiveActor(p, a) && !p.actors[a].stopped {
      var requests := p.actors[a].requests;
      var mid := p.(streams := FailUsers(p.streams, a),
          actors := p.actors[a := p.actors[a].(failed := true, opening := false, requests := [])]);
      DetachedCounted(p, mid, a);
      assert ActorLinks(p, a);
      forall k | 0 <= k < |requests| ensures requests[k].stream < |p.streams| { assert RequestLink(p, a, requests[k]); }
      hide Links, Counted, ReleaseAll;
      ReleaseAllCounted(mid, requests);
      forall j | 0 <= j < |mid.streams| ensures StreamPlaced(mid, j) { assert StreamPlaced(p, j); }
      forall b | 0 <= b < |mid.actors| ensures ActorPlaced(mid, b) { assert ActorPlaced(p, b); }
      hide Placed;
      GroupedSame(p, mid);
      hide Grouped;
      ReleaseAllFrame(mid, requests);
      SameButReferencesOwned(mid, ReleaseAll(mid, requests));
    }
  }

  lemma DetachedCounted(p: Pool, q: Pool, a: nat)
    requires Counted(p, []) && a < |p.actors| && |q.streams| == |p.streams|
        && q.actors == p.actors[a := p.actors[a].(failed := true, opening := false, requests := [])]
    requires forall i :: 0 <= i < |p.streams| ==> SameStreamLife(p.streams[i], q.streams[i])
    ensures Counted(q, p.actors[a].requests)
  {
    forall j | 0 <= j < |q.streams| ensures StreamCounted(q, j, p.actors[a].requests) {
      assert StreamCounted(p, j, []) && SameStreamLife(p.streams[j], q.streams[j]);
      SumUpdate(p.actors, a, q.actors[a], RequestsTo(j));
      assert Sum(q.actors[a].requests, PointsTo(j)) == 0 && Sum([], PointsTo(j)) == 0;
      hide Sum;
    }
  }

  // ----- endings -----

  lemma ActorEndOwned(p: Pool, q: Pool, a: nat)
    requires Owned(p) && a < |p.actors| && q.streams == p.streams && q.groups == p.groups && |q.actors| == |p.actors|
    requires forall b :: 0 <= b < |p.actors| && b != a ==> q.actors[b] == p.actors[b]
    requires q.actors[a].requests == p.actors[a].requests && q.actors[a].group == p.actors[a].group
        && q.actors[a].latest == p.actors[a].latest
    requires (q.actors[a].opening ==> p.actors[a].opening) && ActorPlaced(q, a)
    requires q.actors[a].freed && !p.actors[a].freed ==> forall i ::
        0 <= i < |p.streams| && !p.streams[i].freed && p.streams[i].bound ==>
            p.streams[i].download != a && p.streams[i].upload != a
    requires p.actors[a].freed ==> q.actors[a].freed
    ensures Owned(q)
  {
    forall j | 0 <= j < |q.streams| ensures StreamPlaced(q, j) { assert StreamPlaced(p, j); }
    forall b | 0 <= b < |q.actors| ensures ActorPlaced(q, b) { assert ActorPlaced(p, b); }
    hide Placed;
    CountedSame(p, q, []);
    hide Counted;
    GroupedSame(p, q);
  }

  lemma StopOwned(p: Pool, a: nat)
    requires Owned(p)
    ensures Owned(DoStop(p, a))
  {
    var q := DoStop(p, a);
    if q != p {
      assert ActorPlaced(p, a);
      hide Owned;
      ActorEndOwned(p, q, a);
    }
  }

  lemma CollectActorOwned(p: Pool, a: nat)
    requires Owned(p)
    ensures Owned(DoCollectActor(p, a)) && Owned(DoCloseWaited(p, a))
  {
    if a < |p.actors| { assert ActorPlaced(p, a); }
    hide Owned;
    var q := DoCollectActor(p, a);
    if q != p { ActorEndOwned(p, q, a); }
    var r := DoCloseWaited(p, a);
    if r != p { ActorEndOwned(p, r, a); }
  }

  lemma CollectGroupOwned(p: Pool, g: nat)
    requires Owned(p)
    ensures Owned(DoCollectGroup(p, g))
  {
    var q := DoCollectGroup(p, g);
    if q != p {
      hide Sum;
      forall j | 0 <= j < |q.streams| ensures StreamPlaced(q, j) { assert StreamPlaced(p, j); }
      forall b | 0 <= b < |q.actors| ensures ActorPlaced(q, b) { assert ActorPlaced(p, b); }
      forall i | 0 <= i < |q.streams| ensures StreamCounted(q, i, []) { assert StreamCounted(p, i, []); }
      forall h | 0 <= h < |q.groups| ensures GroupCounted(q, h) { assert GroupCounted(p, h); }
    }
  }

  /** Closed, its channels' groups told, but its own reference not yet given up. */
  predicate HalfClosed(p: Pool, q: Pool, i: nat) {
    && LiveStream(p, i) && !p.streams[i].closed
    && Regrouped(p, q, i)
    && var s := p.streams[i]; var t := q.streams[i];
       && t.closed && !t.freed && SameBinding(s, t) && t.references == s.references
       && forall a ::
           0 <= a < |p.actors| ==> SameUser(p.actors[a], q.actors[a], s.bound && (s.download == a || s.upload == a))
  }

  predicate SameUser(x: Actor, y: Actor, user: bool) {
    && y.freed == x.freed && y.stopped == x.stopped && y.requests == x.requests && y.group == x.group
        && y.latest == x.latest && y.opening == x.opening
    && (!user ==> y.closeWaiters == x.closeWaiters)
  }

  lemma QueuesHalfClose(p: Pool, i: nat)
    requires Memory(p) && LiveStream(p, i) && !p.streams[i].closed && !p.streams[i].bound
    ensures HalfClosed(p, CloseQueues(p, i), i)
  {
    hide Memory, StreamMemory, Emptied;
  }

  /** The queues of the stream are closed; actors and groups do not know yet. */
  predicate JustClosed(p: Pool, q: Pool, i: nat) {
    && LiveStream(p, i) && !p.streams[i].closed
    && q.actors == p.actors && q.groups == p.groups && |q.streams| == |p.streams|
    && (forall j :: 0 <= j < |p.streams| && j != i ==> q.streams[j] == p.streams[j])
    && SameBinding(p.streams[i], q.streams[i]) && q.streams[i].closed
    && q.streams[i].freed == p.streams[i].freed && q.streams[i].references == p.streams[i].references
  }

  lemma ClosedFields(p: Pool, i: nat)
    requires Memory(p) && LiveStream(p, i) && !p.streams[i].closed
    ensures JustClosed(p, CloseQueues(p, i), i)
  {
    hide Memory, StreamMemory, Emptied;
  }

  lemma UnbindRegroups(p: Pool, q: Pool, i: nat, waits: (bool, bool))
    requires JustClosed(p, q, i) && p.streams[i].bound && p.streams[i].download < |p.actors|
        && p.streams[i].upload < |p.actors|
    ensures Regrouped(p, Unbind(q, i, waits), i)
  {
    var r := Unbind(q, i, waits);
    var d := p.actors[p.streams[i].download].group;
    var u := p.actors[p.streams[i].upload].group;
    forall g | 0 <= g < |p.groups|
      ensures r.groups[g].freed == p.groups[g].freed
      ensures r.groups[g].running == p.groups[g].running - if g == d || g == u then 1 else 0
    {
    }
  }

  lemma UnbindUsers(p: Pool, q: Pool, i: nat, waits: (bool, bool), a: nat)
    requires JustClosed(p, q, i) && p.streams[i].bound && p.streams[i].download < |p.actors|
        && p.streams[i].upload < |p.actors| && a < |p.actors|
    ensures SameUser(p.actors[a], Unbind(q, i, waits).actors[a], p.streams[i].download == a || p.streams[i].upload == a)
  {
    hide AddRunning;
  }

  lemma UnbindHalfCloses(p: Pool, q: Pool, i: nat, waits: (bool, bool))
    requires JustClosed(p, q, i) && p.streams[i].bound && p.streams[i].download < |p.actors|
        && p.streams[i].upload < |p.actors|
    ensures HalfClosed(p, Unbind(q, i, waits), i)
  {
    hide Regrouped;
    UnbindRegroups(p, q, i, waits);
    var r := Unbind(q, i, waits);
    forall a | 0 <= a < |p.actors| ensures SameUser(p.actors[a], r.actors[a], p.streams[i].bound
        && (p.streams[i].download == a || p.streams[i].upload == a)) {
      UnbindUsers(p, q, i, waits, a);
    }
    hide AddRunning, SameUser;
  }

  const OWN := Request(0, 0, Download, false, false, false, false, 0, 0, 0, 0, 0)

  lemma HalfClosedOwned(p: Pool, q: Pool, i: nat)
    requires Owned(p) && HalfClosed(p, q, i)
    ensures Counted(q, [OWN.(stream := i)]) && Placed(q) && Grouped(q)
  {
    RegroupedGrouped(p, q, i);
    hide Grouped;
    var own := OWN.(stream := i);
    forall j | 0 <= j < |q.streams| ensures StreamCounted(q, j, [own]) {
      assert StreamCounted(p, j, []);
      forall a | 0 <= a < |p.actors| ensures RequestsTo(j)(p.actors[a]) == RequestsTo(j)(q.actors[a]) {
        assert SameUser(p.actors[a], q.actors[a], p.streams[i].bound
            && (p.streams[i].download == a || p.streams[i].upload == a));
      }
      SumPointwise(p.actors, q.actors, RequestsTo(j));
      SumPrepend(own, [], PointsTo(j));
      assert [own] + [] == [own];
      HoldersNonnegative(p, j);
    }
    hide Counted, Regrouped;
    HalfClosedPlaced(p, q, i);
  }

  lemma HalfClosedPlaced(p: Pool, q: Pool, i: nat)
    requires Placed(p) && HalfClosed(p, q, i)
    ensures Placed(q)
  {
    forall a | 0 <= a < |p.actors| ensures ActorPlaced(q, a) {
      assert ActorPlaced(p, a) && StreamPlaced(p, i);
      assert SameUser(p.actors[a], q.actors[a], p.streams[i].bound
          && (p.streams[i].download == a || p.streams[i].upload == a));
    }
    forall j | 0 <= j < |q.streams| ensures StreamPlaced(q, j) {
      assert StreamPlaced(p, j) && (j != i ==> q.streams[j] == p.streams[j]);
      var s := p.streams[j];
      if !s.freed && s.bound {
        var t := p.streams[i];
        assert SameUser(p.actors[s.download], q.actors[s.download], t.bound
            && (t.download == s.download || t.upload == s.download));
        assert SameUser(p.actors[s.upload], q.actors[s.upload], t.bound
            && (t.download == s.upload || t.upload == s.upload));
      }
    }
  }

  lemma CloseEnds(p: Pool, q: Pool, i: nat)
    requires Owned(p) && HalfClosed(p, q, i)
    ensures Owned(ReleaseStream(q, i))
  {
    HalfClosedOwned(p, q, i);
    assert [OWN.(stream := i)] + [] == [OWN.(stream := i)];
    hide Counted, Placed, Grouped;
    ReleaseCounted(q, OWN.(stream := i), []);
    assert SameButReferences(q, ReleaseStream(q, i));
    SameButReferencesOwned(q, ReleaseStream(q, i));
  }

  lemma CloseOwned(p: Pool, i: nat, waits: (bool, bool))
    requires Memory(p) && Owned(p) && Links(p)
    ensures Owned(DoClose(p, i, waits))
  {
    hide Memory, Links, Owned, CloseQueues, Unbind, HalfClosed, ReleaseStream, JustClosed;
    if LiveStream(p, i) && !p.streams[i].closed {
      if p.streams[i].bound { Channels(p, i); }
      CloseQueuesFrame(p, i);
      ClosedFields(p, i);
      var mid := CloseQueues(p, i);
      if p.streams[i].bound {
        UnbindHalfCloses(p, mid, i, waits);
        CloseEnds(p, Unbind(mid, i, waits), i);
      } else {
        QueuesHalfClose(p, i);
        CloseEnds(p, mid, i);
      }
    }
  }

  lemma Channels(p: Pool, i: nat)
    requires Links(p) && i < |p.streams| && p.streams[i].bound
    ensures p.streams[i].download < |p.actors| && p.streams[i].upload < |p.actors|
  {
    assert StreamLink(p, i);
  }

  // ----- every step -----

  lemma LifeNext(p: Pool, step: Step)
    requires Memory(p) && Links(p) && Owned(p)
    requires !Lasting(step)
    ensures Owned(Next(p, step))
  {
    hide Memory, Links, Owned, SameLives, SameShape, TakenOn;
    hide DoConnect, DoNewGroup, DoNewActor, DoOpened, DoBind, DoMoveUpload, DoMoveDownload, DoStart, DoData,
        DoWindowUpdate, DoSettings, DoReset, DoGoaway, DoHeaders;
    hide DoCredit, DoSend, DoEndSend, DoRetire, DoExit, DoStop, DoCollectActor, DoCollectGroup, DoWrite, DoReserve,
        DoUnreserve, DoRead, DoClose, DoCloseWaited;
    var q := Next(p, step);
    match step {
      case Connect => ConnectOwned(p);
      case NewGroup(m) => NewGroupOwned(p, m);
      case NewActor(g) => NewActorOwned(p, g);
      case Bind(i, u, d) => BindOwned(p, i, u, d);
      case MoveUpload(i, v) => MoveUploadOwned(p, i, v);
      case MoveDownload(i, v) => MoveDownloadOwned(p, i, v);
      case Start(a, i, role, id, remaining, inHeader, pending) =>
        StartTakesOn(p, a, i, role, id, remaining, inHeader, pending);
        if q != p { TakenOnOwned(p, q, a, i); }
      case Retire(a, k, pending) => RetireOwned(p, a, k, pending);
      case Exit(a) => ExitOwned(p, a);
      case Stop(a) => StopOwned(p, a);
      case CollectActor(a) => CollectActorOwned(p, a);
      case CollectGroup(g) => CollectGroupOwned(p, g);
      case Close(i, waits) => CloseOwned(p, i, waits);
      case CloseWaited(a) => CollectActorOwned(p, a);
    }
  }

  lemma OwnedNext(p: Pool, step: Step)
    requires Memory(p) && Links(p) && Owned(p)
    ensures Owned(Next(p, step))
  {
    hide Memory, Links, Owned, SameLives, SameShape, TakenOn;
    hide DoConnect, DoNewGroup, DoNewActor, DoOpened, DoBind, DoMoveUpload, DoMoveDownload, DoStart, DoData,
        DoWindowUpdate, DoSettings, DoReset, DoGoaway, DoHeaders;
    hide DoCredit, DoSend, DoEndSend, DoRetire, DoExit, DoStop, DoCollectActor, DoCollectGroup, DoWrite, DoReserve,
        DoUnreserve, DoRead, DoClose, DoCloseWaited;
    var q := Next(p, step);
    if Lasting(step) {
      StepShape(p, step);
      LastingLives(p, step);
      OwnedSame(p, q);
    } else {
      LifeNext(p, step);
    }
  }

  /** Over every run, references and running counts are exact and nothing freed is still pointed to. */
  lemma {:induction false} OwnershipRun(p: Pool, steps: seq<Step>)
    requires Initial(p)
    ensures Links(Run(p, steps)) && GroupsExist(Run(p, steps)) && Owned(Run(p, steps))
    decreases |steps|
  {
    hide Memory, Links, GroupsExist, Owned, Initial, Next;
    if steps == [] {
      InitialOwned(p);
    } else {
      var before := steps[..|steps| - 1];
      OwnershipRun(p, before);
      LinksNext(Run(p, before), steps[|steps| - 1]);
      OwnedNext(Run(p, before), steps[|steps| - 1]);
    }
  }

  lemma InitialOwned(p: Pool)
    requires Initial(p)
    ensures Links(p) && GroupsExist(p) && Owned(p)
  {
  }
}
