/** Flow control of the download, told from the frames alone: the octets that crossed a connection are
    counted over the list of steps, whatever became of them. */
module Http2PoolArrivals {
  import opened Bytes
  import opened BufferBudget
  import opened Http2Queue
  import opened Http2Pool
  import opened Http2PoolRuns
  import opened Http2PoolLinks
  import opened Http2PoolReceive
  import opened Http2PoolFlow
  import opened Http2PoolSend

  /** All octets of a DATA frame count, its padding and a frame that is refused included. */
  function DataBy(p: Pool, step: Step, a: nat): nat {
    if step.Data? && step.actor == a && Working(p, a) && |step.body| <= step.length then step.length else 0
  }

  function Arrived(p: Pool, steps: seq<Step>, a: nat): nat
    requires Memory(p)
    decreases |steps|
  {
    if steps == [] then 0 else
      var before := steps[..|steps| - 1];
      Arrived(p, before, a) + DataBy(Run(p, before), steps[|steps| - 1], a)
  }

  // ----- steps that count nothing -----

  predicate SameCounts(p: Pool, q: Pool) {
    |q.actors| == |p.actors| && forall a :: 0 <= a < |p.actors| ==>
      q.actors[a].dataReceived == p.actors[a].dataReceived && (p.actors[a].failed ==> q.actors[a].failed)
  }

  lemma FrameCounts(p: Pool, a: nat, id: nat, n: nat, f: nat)
    ensures SameCounts(p, DoOpened(p, a, n, f)) && SameCounts(p, DoWindowUpdate(p, a, id, n))
    ensures SameCounts(p, DoGoaway(p, a, id))
  {
    hide Find;
  }

  lemma WorkCounts(p: Pool, a: nat, k: nat, n: nat)
    ensures SameCounts(p, DoCredit(p, a, n)) && SameCounts(p, DoEndSend(p, a, k, n))
        && SameCounts(p, DoRetire(p, a, k, n))
  {
    hide CreditDue, Finished;
  }

  lemma {:induction false} SettleCounts(x: Actor, entries: seq<(nat, nat)>)
    ensures Settle(x, entries).dataReceived == x.dataReceived && (x.failed ==> Settle(x, entries).failed)
    decreases |entries|
  {
    if entries != [] {
      var (id, value) := entries[0];
      SettleCounts(if id == 4 then x.(peerWindow := value, requests := Shifted(x.requests, value - x.peerWindow))
                   else if id == 5 then x.(peerFrame := value) else x, entries[1..]);
    }
  }

  lemma SettingsCounts(p: Pool, a: nat, entries: seq<(nat, nat)>)
    ensures SameCounts(p, DoSettings(p, a, entries))
  {
    hide Settle;
    if Working(p, a) { SettleCounts(p.actors[a], entries); }
  }

  lemma ResetCounts(p: Pool, a: nat, id: nat, code: nat)
    requires Memory(p)
    ensures SameCounts(p, DoReset(p, a, id, code))
  {
    hide Memory, Emptied, StreamMemory, Find;
  }

  lemma HeadersCounts(p: Pool, a: nat, id: nat, accepted: bool, success: bool, end: bool)
    ensures SameCounts(p, DoHeaders(p, a, id, accepted, success, end))
  {
    hide Find;
  }

  lemma ActorFlagsCount(p: Pool, a: nat, n: nat)
    ensures SameCounts(p, DoStop(p, a)) && SameCounts(p, DoCollectActor(p, a)) && SameCounts(p, DoCloseWaited(p, a))
    ensures a < |p.actors| ==>
        SameCounts(p, AccountOutput(p, a, n)) && SameCounts(p, SetActor(p, a, p.actors[a].(draining := true)))
            && SameCounts(p, FailActor(p, a))
  {
  }

  lemma CloseCounts(p: Pool, i: nat, waits: (bool, bool))
    requires Memory(p)
    ensures SameCounts(p, DoClose(p, i, waits))
  {
    hide Memory, StreamMemory, Emptied, AddRunning;
  }

  lemma StartCounts(p: Pool, a: nat, i: nat, role: Role, id: nat, remaining: nat, inHeader: nat, pending: nat)
    requires Memory(p)
    ensures SameCounts(p, DoStart(p, a, i, role, id, remaining, inHeader, pending))
  {
    hide Memory, UpdateUpload, Consume, StreamMemory, GrowWindow, InitialWindow, ManagerOf;
    if DoStart(p, a, i, role, id, remaining, inHeader, pending) != p {
      GrowCounts(AccountOutput(p, a, pending).actors[a], InitialWindow(ManagerOf(p, a)));
    }
  }

  lemma GrowCounts(x: Actor, w: nat)
    ensures GrowWindow(x, w).dataReceived == x.dataReceived && GrowWindow(x, w).failed == x.failed
  {
  }

  lemma SendCounts(p: Pool, a: nat, i: nat, k: nat, pending: nat)
    requires Memory(p)
    ensures SameCounts(p, DoSend(p, a, i, k, pending))
  {
    hide Memory, DropUpload, SendLength, FifoValid;
  }

  lemma ExitCounts(p: Pool, a: nat)
    ensures SameCounts(p, DoExit(p, a))
  {
    hide ReleaseAll;
    if LiveActor(p, a) && !p.actors[a].stopped {
      ReleaseAllActors(p.(streams := FailUsers(p.streams, a),
          actors := p.actors[a := p.actors[a].(failed := true, opening := false, requests := [])]),
              p.actors[a].requests);
    }
  }

  lemma FramesCount(p: Pool, step: Step)
    requires Memory(p) && OnFrame(step) && !step.Data?
    ensures SameCounts(p, Raw(p, step))
  {
    hide Memory, SameCounts, AccountOutput, FailActor, SetActor, Apply, CacheCleared;
    hide DoConnect, DoNewActor, DoOpened, DoBind, DoMoveUpload, DoMoveDownload, DoStart, DoData, DoWindowUpdate,
        DoSettings, DoReset, DoGoaway, DoHeaders;
    hide DoCredit, DoSend, DoEndSend, DoRetire, DoExit, DoStop, DoCollectActor, DoWrite, DoReserve, DoUnreserve,
        DoRead, DoClose, DoCloseWaited;
    NothingCounts(p);
    match step {
      case Opened(a, w, f) => FrameCounts(p, a, 0, w, f);
      case WindowUpdate(a, id, n) => FrameCounts(p, a, id, n, 0);
      case Settings(a, entries) => SettingsCounts(p, a, entries);
      case ResetStream(a, id, code) => ResetCounts(p, a, id, code);
      case Headers(a, id, accepted, success, end) => HeadersCounts(p, a, id, accepted, success, end);
      case Goaway(a, k) => FrameCounts(p, a, k, 0, 0);
      case Credit(a, i) => WorkCounts(p, a, 0, i);
      case Break(a) => ActorFlagsCount(p, a, 0);
    }
  }

  lemma ActorCounts(p: Pool, step: Step)
    requires Memory(p) && OnActor(step) && !OnFrame(step)
    ensures SameCounts(p, Raw(p, step))
  {
    hide Memory, SameCounts, AccountOutput, FailActor, SetActor, Apply, CacheCleared;
    hide DoConnect, DoNewActor, DoOpened, DoBind, DoMoveUpload, DoMoveDownload, DoStart, DoData, DoWindowUpdate,
        DoSettings, DoReset, DoGoaway, DoHeaders;
    hide DoCredit, DoSend, DoEndSend, DoRetire, DoExit, DoStop, DoCollectActor, DoWrite, DoReserve, DoUnreserve,
        DoRead, DoClose, DoCloseWaited;
    NothingCounts(p);
    match step {
      case Start(a, i, role, id, remaining, inHeader, pending) =>
        StartCounts(p, a, i, role, id, remaining, inHeader, pending);
      case Send(a, i, k, pending) => SendCounts(p, a, i, k, pending);
      case EndSend(a, k, n) => WorkCounts(p, a, k, n);
      case Retire(a, k, n) => WorkCounts(p, a, k, n);
      case Flushed(a, n) => ActorFlagsCount(p, a, n);
      case Drain(a) => ActorFlagsCount(p, a, 0);
      case Exit(a) => ExitCounts(p, a);
      case Stop(a) => ActorFlagsCount(p, a, 0);
      case CollectActor(a) => ActorFlagsCount(p, a, 0);
      case CloseWaited(a) => ActorFlagsCount(p, a, 0);
    }
  }

  lemma NothingCounts(p: Pool)
    ensures SameCounts(p, p)
  {
  }

  /** Steps on streams and groups; those that the send side does not notice leave the actors as they are. */
  lemma StreamCounts(p: Pool, step: Step)
    requires Memory(p) && !OnActor(step) && !step.NewActor?
    ensures SameCounts(p, Raw(p, step))
  {
    hide Memory, SameCounts, AccountOutput, FailActor, SetActor, Apply, CacheCleared;
    hide DoConnect, DoNewActor, DoOpened, DoBind, DoMoveUpload, DoMoveDownload, DoStart, DoData, DoWindowUpdate,
        DoSettings, DoReset, DoGoaway, DoHeaders;
    hide DoCredit, DoSend, DoEndSend, DoRetire, DoExit, DoStop, DoCollectActor, DoWrite, DoReserve, DoUnreserve,
        DoRead, DoClose, DoCloseWaited;
    match step {
      case Close(i, waits) => CloseCounts(p, i, waits);
      case Connect => StreamsCount(p, 0, 0, 0, [], x => true);
      case Bind(i, u, d) => StreamsCount(p, i, u, d, [], x => true);
      case MoveUpload(i, v) => StreamsCount(p, i, 0, v, [], x => true);
      case MoveDownload(i, v) => StreamsCount(p, i, 0, v, [], x => true);
      case Write(i, data, memory) => StreamsCount(p, i, 0, 0, data, memory);
      case Reserve(i, n) => StreamsCount(p, i, n, 0, [], x => true);
      case Unreserve(i) => StreamsCount(p, i, 0, 0, [], x => true);
      case Read(i, n) => StreamsCount(p, i, n, 0, [], x => true);
      case NewGroup(m) => SameActorsCount(p, Raw(p, step));
      case CollectGroup(g) => SameActorsCount(p, Raw(p, step));
      case Ready(i) => SameActorsCount(p, Raw(p, step));
      case Fail(i) => SameActorsCount(p, Raw(p, step));
      case FinishWrite(i) => SameActorsCount(p, Raw(p, step));
      case Ledger(_) => SameActorsCount(p, Raw(p, step));
      case ClearCache => SameActorsCount(p, Raw(p, step));
    }
  }

  lemma NewActorCounts(p: Pool, g: nat)
    ensures var q := DoNewActor(p, g);
            || q.actors == p.actors
            || (|q.actors| == |p.actors| + 1 && p.actors <= q.actors && q.actors[|p.actors|].dataReceived == 0)
  {
  }

  lemma SameActorsCount(p: Pool, q: Pool)
    requires q.actors == p.actors
    ensures SameCounts(p, q)
  {
  }

  lemma StreamsCount(p: Pool, i: nat, n: nat, v: nat, data: seq<Byte>, memory: nat -> bool)
    requires Memory(p)
    ensures SameCounts(p, DoWrite(p, i, data, memory)) && SameCounts(p, DoReserve(p, i, n))
        && SameCounts(p, DoUnreserve(p, i)) && SameCounts(p, DoRead(p, i, n))
    ensures SameCounts(p, DoMoveUpload(p, i, v)) && SameCounts(p, DoMoveDownload(p, i, v))
        && SameCounts(p, DoBind(p, i, n, v)) && SameCounts(p, DoConnect(p))
  {
    hide Memory, StreamMemory, Consume, UpdateUpload, WriteAppend, Trimmed, WriteCapacity, Succeeds, GoodAttempt,
        AddRunning, BindStore, SameCounts;
    SameActorsCount(p, DoWrite(p, i, data, memory));
    SameActorsCount(p, DoReserve(p, i, n));
    SameActorsCount(p, DoUnreserve(p, i));
    SameActorsCount(p, DoRead(p, i, n));
    SameActorsCount(p, DoMoveUpload(p, i, v));
    SameActorsCount(p, DoMoveDownload(p, i, v));
    SameActorsCount(p, DoBind(p, i, n, v));
    SameActorsCount(p, DoConnect(p));
  }

  // ----- DATA -----

  predicate Counted(p: Pool, q: Pool, a: nat, length: nat) {
    && |q.actors| == |p.actors| && a < |p.actors|
    && (forall b :: 0 <= b < |p.actors| && b != a ==> q.actors[b] == p.actors[b])
    && (p.actors[a].failed ==> q.actors[a].failed)
    && (!q.actors[a].failed ==> q.actors[a].dataReceived == p.actors[a].dataReceived + length)
  }

  lemma TakeCounts(p: Pool, a: nat, k: nat, length: nat, body: seq<Byte>, memory: nat -> bool)
    requires Memory(p) && a < |p.actors| && k < |p.actors[a].requests| && p.actors[a].requests[k].stream < |p.streams|
        && |body| <= length
    ensures Counted(p, TakeData(p, a, k, length, body, memory), a, length)
  {
    hide Memory, Enqueue, SpendWindows, FailActor, Counted;
    var q := Enqueue(p, p.actors[a].requests[k].stream, length, body, memory).1;
    SpendCounts(p, q, a, k, length);
    RefundCounts(p, a, length);
  }

  lemma SpendCounts(p: Pool, q: Pool, a: nat, k: nat, length: nat)
    requires q.actors == p.actors && a < |p.actors| && k < |p.actors[a].requests|
    ensures Counted(p, SpendWindows(q, a, k, length), a, length)
    ensures Counted(p, FailActor(SpendWindows(q, a, k, length), a), a, length)
  {
  }

  lemma RefundCounts(p: Pool, a: nat, length: nat)
    requires a < |p.actors|
    ensures Counted(p, SetActor(p, a, Refunded(p.actors[a], length)), a, length)
  {
  }

  lemma EndCounts(p: Pool, q: Pool, a: nat, k: nat, length: nat)
    requires Counted(p, q, a, length)
    requires k < |q.actors[a].requests| && q.actors[a].requests[k].stream < |q.streams|
    ensures Counted(p, EndData(q, a, k), a, length)
    ensures Counted(p, Reject(q, a, k), a, length)
  {
    hide ManagerOf;
  }

  lemma DataCounts(p: Pool, a: nat, id: nat, length: nat, body: seq<Byte>, valid: bool, end: bool, memory: nat -> bool)
    requires Memory(p) && Working(p, a) && |body| <= length
    ensures Counted(p, DoData(p, a, id, length, body, valid, end, memory), a, length)
  {
    hide Memory, Judge, TakeData, EndData, Reject;
    var v := Judge(p, a, id, length, valid);
    if v.Response? {
      TakeCounts(p, a, v.k, length, body, memory);
      var q := TakeData(p, a, v.k, length, body, memory);
      EndCounts(p, q, a, v.k, length);
    } else if v.Refused? {
      var q := SetActor(p, a, Refunded(p.actors[a], length));
      EndCounts(p, q, a, v.k, length);
    }
  }

  /** A step counts the octets of its DATA frame and nothing else. */
  lemma CountedNext(p: Pool, step: Step, a: nat)
    requires Memory(p) && a < |p.actors|
    ensures a < |Next(p, step).actors|
    ensures !Next(p, step).actors[a].failed ==>
              !p.actors[a].failed
                  && Next(p, step).actors[a].dataReceived == p.actors[a].dataReceived + DataBy(p, step, a)
  {
    hide Memory, DoData;
    if step.Data? {
      if Working(p, step.actor) && |step.body| <= step.length {
        DataCounts(p, step.actor, step.id, step.length, step.body, step.valid, step.end, step.memory);
      } else {
        DataIdle(p, step);
      }
    } else if step.NewActor? {
      NewActorCounts(p, step.group);
    } else {
      OtherCounts(p, step);
    }
  }

  lemma DataIdle(p: Pool, step: Step)
    requires Memory(p) && step.Data? && !(Working(p, step.actor) && |step.body| <= step.length)
    ensures Next(p, step) == p
  {
    hide Memory;
  }

  lemma OtherCounts(p: Pool, step: Step)
    requires Memory(p) && !step.Data? && !step.NewActor?
    ensures SameCounts(p, Next(p, step))
  {
    hide Memory, SameCounts;
    if OnFrame(step) { FramesCount(p, step); } else if OnActor(step) { ActorCounts(p, step);
        } else { StreamCounts(p, step); }
  }

  // ----- every run -----

  lemma {:induction false} ArrivedRun(p: Pool, steps: seq<Step>, a: nat)
    requires Initial(p)
    ensures var q := Run(p, steps);
            && (a >= |q.actors| ==> Arrived(p, steps, a) == 0)
            && (a < |q.actors| && !q.actors[a].failed ==> q.actors[a].dataReceived == Arrived(p, steps, a))
    decreases |steps|
  {
    hide Memory, Initial, Next, DataBy;
    if steps == [] {
      NoneArrived(p);
    } else {
      var before, last := steps[..|steps| - 1], steps[|steps| - 1];
      ArrivedRun(p, before, a);
      var q := Run(p, before);
      if a < |q.actors| {
        CountedNext(q, last, a);
      } else {
        StrangerCounts(q, last, a);
      }
    }
  }

  lemma NoneArrived(p: Pool)
    requires Initial(p)
    ensures p.actors == []
  {
    hide Memory;
  }

  /** An actor that is not there yet has counted nothing. */
  lemma StrangerCounts(p: Pool, step: Step, a: nat)
    requires Memory(p) && a >= |p.actors|
    ensures DataBy(p, step, a) == 0
    ensures a < |Next(p, step).actors| ==> Next(p, step).actors[a].dataReceived == 0
  {
    hide Memory, DoNewActor, DoData;
    if step.NewActor? {
      NewActorCounts(p, step.group);
    } else if !step.Data? {
      OtherCounts(p, step);
    } else if Working(p, step.actor) && |step.body| <= step.length {
      DataCounts(p, step.actor, step.id, step.length, step.body, step.valid, step.end, step.memory);
    } else {
      DataIdle(p, step);
    }
  }

  /** On every connection that has not failed the receive window is 65535 plus the credit sent minus the
      octets of all DATA frames that came while it worked. */
  lemma ReceiveWindowBalance(p: Pool, steps: seq<Step>, a: nat)
    requires Initial(p) && a < |Run(p, steps).actors| && !Run(p, steps).actors[a].failed
    ensures var x := Run(p, steps).actors[a];
            0 <= x.receiveWindow == BASE_WINDOW + x.creditSent - Arrived(p, steps, a)
  {
    hide Memory, Initial, Run, Arrived, Links, GroupsExist, Capacity;
    ArrivedRun(p, steps, a);
    ReceiveRun(p, steps);
    assert ActorReceives(Run(p, steps), a);
  }
}
