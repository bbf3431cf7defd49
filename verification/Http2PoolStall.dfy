/** Whether a connection whose receive queues are empty may receive after its worker's pass. */
module Http2PoolStall {
  import opened Bytes
  import opened Sums
  import opened BufferBudget
  import opened Http2Queue
  import opened Http2Pool
  import opened Http2PoolRuns
  import opened Http2PoolLinks
  import opened Http2PoolReceive
  import opened Http2PoolFlow
  import opened Http2PoolOwnership

  predicate Above(requests: seq<Request>, id: nat) {
    forall k :: 0 <= k < |requests| && requests[k].id == id ==> requests[k].receiveWindow > LOW_WATER
  }

  predicate StartedOn(p: Pool, a: nat, i: nat) {
    i < |p.streams| && p.streams[i].bound && p.streams[i].download == a && p.streams[i].downId != 0
  }

  /** A started download has returned its credit, or neither window is low. */
  predicate Returned(p: Pool, a: nat, i: nat) {
    a < |p.actors| &&
    (StartedOn(p, a, i) ==>
        p.streams[i].consumed == 0
            || (p.actors[a].receiveWindow > LOW_WATER && Above(p.actors[a].requests, p.streams[i].downId)))
  }

  predicate Cleared(p: Pool, a: nat) {
    a < |p.actors| && (p.actors[a].pendingCredit == 0 || p.actors[a].receiveWindow > LOW_WATER)
  }

  predicate KeepsStream(p: Pool, q: Pool, a: nat, i: nat)
    requires a < |p.actors| && a < |q.actors| && i < |p.streams| && i < |q.streams|
  {
    && q.streams[i].freed == p.streams[i].freed
    && (q.streams[i].consumed == p.streams[i].consumed || q.streams[i].consumed == 0)
    && (StartedOn(p, a, i) ==> StartedOn(q, a, i) && q.streams[i].downId == p.streams[i].downId)
    && (StartedOn(q, a, i) && !StartedOn(p, a, i) ==> q.streams[i].consumed == 0 && q.actors[a].receiveSlots >= 1)
    && (StartedOn(p, a, i) && Above(p.actors[a].requests, p.streams[i].downId) ==>
        Above(q.actors[a].requests, q.streams[i].downId))
  }

  /** What the rest of a pass does between two credits: it never lowers a window and never owes more. */
  predicate Keeps(p: Pool, q: Pool, a: nat) {
    && a < |p.actors| && a < |q.actors| && |q.streams| == |p.streams|
    && Working(q, a) == Working(p, a)
    && q.actors[a].receiveWindow >= p.actors[a].receiveWindow && q.actors[a].pendingCredit <= p.actors[a].pendingCredit
    && q.actors[a].receiveSlots >= p.actors[a].receiveSlots && SameManagers(p, q)
        && q.actors[a].group == p.actors[a].group
    && (forall i :: 0 <= i < |p.streams| ==> KeepsStream(p, q, a, i))
  }

  lemma KeepsReturned(p: Pool, q: Pool, a: nat, i: nat)
    requires Keeps(p, q, a) && i < |p.streams|
    ensures Returned(p, a, i) ==> Returned(q, a, i)
    ensures Cleared(p, a) ==> Cleared(q, a)
    ensures LiveStream(p, i) && StartedOn(p, a, i) ==> LiveStream(q, i) && StartedOn(q, a, i)
  {
    hide Above;
    assert KeepsStream(p, q, a, i);
  }

  lemma KeepsTwice(p: Pool, q: Pool, r: Pool, a: nat)
    requires Keeps(p, q, a) && Keeps(q, r, a)
    ensures Keeps(p, r, a)
  {
    hide Above, Working;
    forall i | 0 <= i < |p.streams| ensures KeepsStream(p, r, a, i) {
      assert KeepsStream(p, q, a, i) && KeepsStream(q, r, a, i);
    }
  }

  lemma CreditReturns(p: Pool, a: nat, i: nat)
    requires Working(p, a) && ActorLinks(p, a) && i < |p.streams| && Settled(p.streams[i])
        && (p.streams[i].freed ==> p.streams[i].closed)
    ensures var q := DoCredit(p, a, i);
            Returned(q, a, i) && (LiveStream(p, i) && StartedOn(p, a, i) ==> Cleared(q, a))
  {
    hide RequestLink;
    if StartedOn(p, a, i) && LiveStream(p, i) {
      var x := p.actors[a];
      var k := Find(x.requests, p.streams[i].downId);
      assert forall j :: 0 <= j < |x.requests| && x.requests[j].id == p.streams[i].downId ==> j == k;
    }
  }

  lemma CreditKeeps(p: Pool, a: nat, i: nat)
    requires Working(p, a)
    ensures Keeps(p, DoCredit(p, a, i), a)
  {
    hide CreditDue;
  }

  /** The other steps of advance_streams at stream `i`, and those it calls to find channels. */
  predicate PassStep(step: Step, i: nat) {
    (step.Start? && step.stream == i) || step.Send? || step.EndSend? || step.Flushed? || step.Fail? || step.MoveUpload?
        || step.MoveDownload? || step.NewGroup? ||
    step.NewActor? || step.CollectActor? || step.CollectGroup? || step.Ledger? || step.ClearCache?
  }

  /** No step of a pass ends an actor's work or frees a stream. */
  predicate SameLife(p: Pool, q: Pool) {
    && |q.streams| == |p.streams| && |q.actors| >= |p.actors|
    && (forall i :: 0 <= i < |p.streams| ==> q.streams[i].freed == p.streams[i].freed)
    && (forall b :: 0 <= b < |p.actors| ==> Working(q, b) == Working(p, b))
  }

  lemma StartLife(p: Pool, a: nat, i: nat, role: Role, id: nat, remaining: nat, inHeader: nat, pending: nat)
    requires Memory(p)
    ensures SameLife(p, DoStart(p, a, i, role, id, remaining, inHeader, pending))
  {
    hide Memory, UpdateUpload, Consume, StreamMemory, Capacity, CountDownloads, InitialWindow, ManagerOf;
  }

  lemma SendLife(p: Pool, a: nat, i: nat, k: nat, pending: nat)
    requires Memory(p)
    ensures SameLife(p, DoSend(p, a, i, k, pending))
  {
    hide Memory, UpdateUpload, Consume, StreamMemory, SendLength;
  }

  lemma ActorLife(p: Pool, a: nat, k: nat, n: nat)
    ensures SameLife(p, DoEndSend(p, a, k, n)) && SameLife(p, DoCollectActor(p, a))
        && (a < |p.actors| ==> SameLife(p, AccountOutput(p, a, n)))
  {
  }

  lemma MoveLife(p: Pool, i: nat, v: nat)
    ensures SameLife(p, DoMoveUpload(p, i, v)) && SameLife(p, DoMoveDownload(p, i, v))
        && (i < |p.streams| ==> SameLife(p, FailStream(p, i)))
  {
    hide AddRunning;
  }

  lemma OutsideLife(p: Pool, m: nat, g: nat, store: Store)
    ensures SameLife(p, DoNewGroup(p, m)) && SameLife(p, DoNewActor(p, g)) && SameLife(p, DoCollectGroup(p, g))
        && SameLife(p, p.(store := store))
    ensures SameLife(p, p)
  {
  }

  lemma ActorPassLife(p: Pool, step: Step, i: nat)
    requires Memory(p) && PassStep(step, i)
    requires OnActor(step)
    ensures SameLife(p, Raw(p, step))
  {
    hide Memory, SameLife, AccountOutput, FailStream, Apply, CacheCleared;
    hide DoConnect, DoNewGroup, DoNewActor, DoOpened, DoBind, DoMoveUpload, DoMoveDownload, DoStart, DoData,
        DoWindowUpdate, DoSettings, DoReset, DoGoaway, DoHeaders;
    hide DoCredit, DoSend, DoEndSend, DoRetire, DoExit, DoStop, DoCollectActor, DoCollectGroup, DoWrite, DoReserve,
        DoUnreserve, DoRead, DoClose, DoCloseWaited;
    OutsideLife(p, 0, 0, p.store);
    match step {
      case Start(a, j, role, id, remaining, inHeader, pending) =>
          StartLife(p, a, j, role, id, remaining, inHeader, pending);
      case Send(a, j, k, pending) => SendLife(p, a, j, k, pending);
      case EndSend(a, k, n) => ActorLife(p, a, k, n);
      case CollectActor(a) => ActorLife(p, a, 0, 0);
      case Flushed(a, n) => ActorLife(p, a, 0, n);
    }
  }

  lemma StreamPassLife(p: Pool, step: Step, i: nat)
    requires Memory(p) && PassStep(step, i)
    requires !OnActor(step)
    ensures SameLife(p, Raw(p, step))
  {
    hide Memory, SameLife, AccountOutput, FailStream, Apply, CacheCleared;
    hide DoConnect, DoNewGroup, DoNewActor, DoOpened, DoBind, DoMoveUpload, DoMoveDownload, DoStart, DoData,
        DoWindowUpdate, DoSettings, DoReset, DoGoaway, DoHeaders;
    hide DoCredit, DoSend, DoEndSend, DoRetire, DoExit, DoStop, DoCollectActor, DoCollectGroup, DoWrite, DoReserve,
        DoUnreserve, DoRead, DoClose, DoCloseWaited;
    OutsideLife(p, 0, 0, p.store);
    match step {
      case MoveUpload(j, v) => MoveLife(p, j, v);
      case MoveDownload(j, v) => MoveLife(p, j, v);
      case Fail(j) => MoveLife(p, j, 0);
      case NewGroup(m) => OutsideLife(p, m, 0, p.store);
      case NewActor(g) => OutsideLife(p, 0, g, p.store);
      case CollectGroup(g) => OutsideLife(p, 0, g, p.store);
      case Ledger(op) => OutsideLife(p, 0, 0, Raw(p, step).store);
      case ClearCache => OutsideLife(p, 0, 0, Raw(p, step).store);
    }
  }

  lemma PassLife(p: Pool, step: Step, i: nat)
    requires Memory(p) && PassStep(step, i)
    ensures SameLife(p, Raw(p, step))
  {
    hide *;
    if OnActor(step) { ActorPassLife(p, step, i); } else { StreamPassLife(p, step, i); }
  }

  lemma StartKeeps(p: Pool, q: Pool, b: nat, i: nat, r: Request, a: nat)
    requires Links(p) && Receives(p) && StartedReceive(p, q, b, i, r) && SameLife(p, q) && a < |p.actors|
    ensures Keeps(p, q, a)
  {
    assert ActorLinks(p, a) && Settled(p.streams[i]);
    hide Receives, Capacity, WindowOf, SameManagers;
    forall j | 0 <= j < |p.streams| ensures KeepsStream(p, q, a, j) {
      assert StreamLink(p, j);
      if StartedOn(p, a, j) && Above(p.actors[a].requests, p.streams[j].downId) {
        forall k | 0 <= k < |q.actors[a].requests| && q.actors[a].requests[k].id == q.streams[j].downId
          ensures q.actors[a].requests[k].receiveWindow > LOW_WATER
        {
          if a == b && k > 0 { assert q.actors[a].requests[k] == p.actors[a].requests[k - 1]; }
        }
      }
    }
  }

  lemma SameReceiveKeeps(p: Pool, q: Pool, a: nat)
    requires SameReceive(p, q) && SameLife(p, q) && Working(p, a)
    ensures Keeps(p, q, a)
  {
    assert SameCredit(p.actors[a], q.actors[a]) && SameActor(p.actors[a], q.actors[a]);
    forall i | 0 <= i < |p.streams| ensures KeepsStream(p, q, a, i) {
      assert SameDownload(p.streams[i], q.streams[i]) && SameBinding(p.streams[i], q.streams[i]);
      if StartedOn(p, a, i) && Above(p.actors[a].requests, p.streams[i].downId) {
        forall k | 0 <= k < |q.actors[a].requests| && q.actors[a].requests[k].id == q.streams[i].downId
          ensures q.actors[a].requests[k].receiveWindow > LOW_WATER
        {
          assert SameRequest(p.actors[a].requests[k], q.actors[a].requests[k]);
        }
      }
    }
  }

  lemma MoveKeeps(p: Pool, i: nat, v: nat, a: nat)
    requires Receives(p) && a < |p.actors|
    ensures Keeps(p, DoMoveUpload(p, i, v), a) && Keeps(p, DoMoveDownload(p, i, v), a)
  {
    if i < |p.streams| { assert Settled(p.streams[i]); }
    hide Receives, AddRunning, Above;
  }

  lemma StartStepKeeps(p: Pool, b: nat, i: nat, role: Role, id: nat, remaining: nat, inHeader: nat, pending: nat,
      a: nat)
    requires Memory(p) && Links(p) && Receives(p) && a < |p.actors|
    ensures Keeps(p, DoStart(p, b, i, role, id, remaining, inHeader, pending), a)
  {
    hide Memory, Links, Receives, Keeps, SameLife, DoStart;
    StartLife(p, b, i, role, id, remaining, inHeader, pending);
    StartReceive(p, b, i, role, id, remaining, inHeader, pending);
    var q := DoStart(p, b, i, role, id, remaining, inHeader, pending);
    if q == p { KeepsSelf(p, a); } else { StartKeeps(p, q, b, i, q.actors[b].requests[0], a); }
  }

  lemma PassKeeps(p: Pool, step: Step, i: nat, a: nat)
    requires Memory(p) && Links(p) && GroupsExist(p) && Receives(p) && a < |p.actors| && Working(p, a)
        && PassStep(step, i)
    ensures Keeps(p, Next(p, step), a)
  {
    hide Memory, Links, GroupsExist, Receives, SameReceive, SameLife, Keeps, StartedReceive, AccountOutput, FailStream,
        Apply, CacheCleared, Working;
    hide DoConnect, DoNewGroup, DoNewActor, DoOpened, DoBind, DoMoveUpload, DoMoveDownload, DoStart, DoData,
        DoWindowUpdate, DoSettings, DoReset, DoGoaway, DoHeaders;
    hide DoCredit, DoSend, DoEndSend, DoRetire, DoExit, DoStop, DoCollectActor, DoCollectGroup, DoWrite, DoReserve,
        DoUnreserve, DoRead, DoClose, DoCloseWaited;
    if step.Start? {
      StartStepKeeps(p, step.actor, step.stream, step.role, step.id, step.remaining, step.inHeader, step.pending, a);
    } else if step.MoveUpload? || step.MoveDownload? {
      MoveKeeps(p, step.stream, step.target, a);
    } else if step.NewActor? {
      NewActorKeeps(p, step.group, a);
    } else {
      PassLife(p, step, i);
      QuietReceive(p, step);
      SameReceiveKeeps(p, Raw(p, step), a);
    }
  }

  lemma KeepsSelf(p: Pool, a: nat)
    requires a < |p.actors|
    ensures Keeps(p, p, a)
  {
    hide Above;
  }

  lemma NewActorKeeps(p: Pool, g: nat, a: nat)
    requires a < |p.actors|
    ensures Keeps(p, DoNewActor(p, g), a)
  {
    hide Above;
  }

  lemma {:induction false} PassRunKeeps(p: Pool, steps: seq<Step>, i: nat, a: nat)
    requires Sound(p) && Working(p, a) && PassSteps(steps, i)
    ensures Keeps(p, Run(p, steps), a) && Sound(Run(p, steps))
    decreases |steps|
  {
    hide Memory, Links, GroupsExist, Receives, Next, Keeps, PassStep;
    if steps == [] {
      KeepsSelf(p, a);
    } else {
      var before := steps[..|steps| - 1];
      PassRunKeeps(p, before, i, a);
      var q := Run(p, before);
      assert Working(q, a) by { KeepsWorking(p, q, a); }
      PassKeeps(q, steps[|steps| - 1], i, a);
      LinksNext(q, steps[|steps| - 1]);
      ReceivesNext(q, steps[|steps| - 1]);
      KeepsTwice(p, q, Run(p, steps), a);
    }
  }

  lemma KeepsWorking(p: Pool, q: Pool, a: nat)
    requires Keeps(p, q, a)
    ensures Working(q, a) == Working(p, a) && |q.streams| == |p.streams|
  {
  }

  /** A pass over the first `n` streams, the newest first: credit, then whatever else the pass
      does at that stream. */
  function Pass(p: Pool, a: nat, n: nat, others: nat -> seq<Step>): (q: Pool)
    requires Memory(p)
    ensures Memory(q)
    decreases n
  {
    if n == 0 then p else Pass(Run(Next(p, Credit(a, n - 1)), others(n - 1)), a, n - 1, others)
  }

  predicate PassSteps(steps: seq<Step>, i: nat) {
    forall j :: 0 <= j < |steps| ==> PassStep(steps[j], i)
  }

  /** Where a pass stands once it has dealt with all streams from `n` on. */
  predicate PassAt(p: Pool, a: nat, n: nat, started: nat) {
    && Sound(p) && Working(p, a) && n <= |p.streams|
    && LiveStream(p, started) && StartedOn(p, a, started)
    && (forall i :: n <= i < |p.streams| ==> Returned(p, a, i))
    && (started >= n ==> Cleared(p, a))
  }

  lemma PassAdvances(p: Pool, a: nat, n: nat, steps: seq<Step>, started: nat)
    requires PassAt(p, a, n, started) && n > 0 && PassSteps(steps, n - 1)
    ensures PassAt(Run(Next(p, Credit(a, n - 1)), steps), a, n - 1, started)
  {
    hide Memory, Links, GroupsExist, Receives, Next, Keeps, Returned, Cleared, PassStep, StartedOn, Working, Run;
    var q := Next(p, Credit(a, n - 1));
    CreditStep(p, a, n - 1, started);
    var r := Run(q, steps);
    PassRunKeeps(q, steps, n - 1, a);
    KeepsWorking(q, r, a);
    forall i | n - 1 <= i < |r.streams| ensures Returned(r, a, i) {
      if i >= n { KeepsReturned(p, q, a, i); }
      KeepsReturned(q, r, a, i);
    }
    KeepsReturned(p, q, a, started);
    KeepsReturned(q, r, a, started);
  }

  lemma PassAtMemory(p: Pool, a: nat, n: nat, started: nat)
    requires PassAt(p, a, n, started)
    ensures Memory(p)
  {
    hide Memory;
  }

  lemma PassUnfolds(p: Pool, a: nat, n: nat, others: nat -> seq<Step>)
    requires Memory(p)
    ensures Pass(p, a, n, others) == if n == 0 then p
        else Pass(Run(Next(p, Credit(a, n - 1)), others(n - 1)), a, n - 1, others)
  {
    hide Memory, Next, Run;
  }

  lemma {:induction false} PassReturns(p: Pool, a: nat, n: nat, others: nat -> seq<Step>, started: nat)
    requires PassAt(p, a, n, started) && forall i :: PassSteps(others(i), i)
    ensures PassAt(Pass(p, a, n, others), a, 0, started)
    decreases n
  {
    hide *;
    PassAtMemory(p, a, n, started);
    PassUnfolds(p, a, n, others);
    if n > 0 {
      var q := Run(Next(p, Credit(a, n - 1)), others(n - 1));
      PassAdvances(p, a, n, others(n - 1), started);
      PassReturns(q, a, n - 1, others, started);
    }
  }

  lemma SoundFacts(p: Pool, a: nat, i: nat)
    requires Sound(p) && a < |p.actors| && i < |p.streams|
    ensures ActorLinks(p, a) && Settled(p.streams[i]) && (p.streams[i].freed ==> p.streams[i].closed)
  {
    assert StreamMemory(p.store, i, p.streams[i]);
  }

  lemma CreditStep(p: Pool, a: nat, i: nat, started: nat)
    requires Sound(p) && Working(p, a) && i < |p.streams| && LiveStream(p, started) && StartedOn(p, a, started)
    ensures var q := Next(p, Credit(a, i));
            Sound(q) && Keeps(p, q, a) && Working(q, a) && |q.streams| == |p.streams| && Returned(q, a, i)
                && (i == started ==> Cleared(q, a))
  {
    hide Memory, Links, GroupsExist, Receives, ActorLinks, Settled, KeepsStream, Returned, Cleared, StartedOn;
    hide DoConnect, DoNewGroup, DoNewActor, DoOpened, DoBind, DoMoveUpload, DoMoveDownload, DoStart, DoData,
        DoWindowUpdate, DoSettings, DoReset, DoGoaway, DoHeaders;
    hide DoCredit, DoSend, DoEndSend, DoRetire, DoExit, DoStop, DoCollectActor, DoCollectGroup, DoWrite, DoReserve,
        DoUnreserve, DoRead, DoClose, DoCloseWaited;
    SoundFacts(p, a, i);
    CreditReturns(p, a, i);
    CreditKeeps(p, a, i);
    LinksNext(p, Credit(a, i));
    ReceivesNext(p, Credit(a, i));
  }

  predicate QueuesEmpty(p: Pool, a: nat) {
    forall i :: 0 <= i < |p.streams| && p.streams[i].bound && p.streams[i].download == a ==>
        p.streams[i].rx.contents == []
  }

  /** The connection and each of its open downloads may receive: a window above the low-water
      mark, or all of the initial window. */
  predicate MayReceive(p: Pool, a: nat) {
    && a < |p.actors|
    && p.actors[a].receiveWindow > LOW_WATER
    && forall k :: 0 <= k < |p.actors[a].requests| ==> DownloadMayReceive(p, a, p.actors[a].requests[k])
  }

  predicate DownloadMayReceive(p: Pool, a: nat, r: Request)
    requires a < |p.actors|
  {
    r.role.Downloads() && r.stream < |p.streams| && !p.streams[r.stream].closed ==>
        r.receiveWindow > LOW_WATER || r.receiveWindow == WindowOf(p, a)
  }

  lemma Drained(q: Pool, a: nat)
    requires Sound(q) && Working(q, a) && Cleared(q, a) && QueuesEmpty(q, a) && forall i ::
        0 <= i < |q.streams| ==> Returned(q, a, i)
    ensures MayReceive(q, a)
  {
    hide Memory;
    assert ActorReceives(q, a) && ActorLinks(q, a);
    if q.actors[a].receiveWindow <= LOW_WATER {
      forall i | 0 <= i < |q.streams| ensures OwedTo(a)(q.streams[i]) == 0 {
        assert Settled(q.streams[i]) && Returned(q, a, i);
      }
      SumZero(q.streams, OwedTo(a));
      assert false;
    }
    hide WindowOf, Sum, Capacity;
    forall k | 0 <= k < |q.actors[a].requests| ensures DownloadMayReceive(q, a, q.actors[a].requests[k]) {
      var r := q.actors[a].requests[k];
      assert RequestLink(q, a, r) && RequestWindow(q, a, r) && Returned(q, a, r.stream);
    }
  }

  // ----- the end of a pass -----

  /** The last two loops of advance_streams: uploads end and requests that are over leave. */
  predicate RestSteps(steps: seq<Step>, a: nat) {
    forall j :: 0 <= j < |steps| ==> (steps[j].EndSend? || steps[j].Retire?) && steps[j].actor == a
  }

  predicate RestsStream(s: Stream, t: Stream) {
    && t.bound == s.bound && t.download == s.download && t.downId == s.downId && t.closed == s.closed && t.rx == s.rx
    && (s.freed ==> t.freed)
  }

  predicate RestsRequest(requests: seq<Request>, r: Request) {
    exists j :: 0 <= j < |requests| && requests[j].stream == r.stream && requests[j].role == r.role
        && requests[j].receiveWindow == r.receiveWindow
  }

  /** What they leave alone: windows, credit and queues, and the requests that stay. */
  predicate Rests(p: Pool, q: Pool, a: nat) {
    && a < |p.actors| && a < |q.actors| && |q.streams| == |p.streams|
    && q.actors[a].receiveWindow == p.actors[a].receiveWindow && q.actors[a].receiveSlots == p.actors[a].receiveSlots
    && q.managers == p.managers && q.groups == p.groups && q.actors[a].group == p.actors[a].group
    && (forall i :: 0 <= i < |p.streams| ==> RestsStream(p.streams[i], q.streams[i]))
    && (forall k :: 0 <= k < |q.actors[a].requests| ==> RestsRequest(p.actors[a].requests, q.actors[a].requests[k]))
  }

  lemma RestsSelf(p: Pool, a: nat)
    requires a < |p.actors|
    ensures Rests(p, p, a)
  {
  }

  lemma RestsTwice(p: Pool, q: Pool, r: Pool, a: nat)
    requires Rests(p, q, a) && Rests(q, r, a)
    ensures Rests(p, r, a)
  {
    forall i | 0 <= i < |p.streams| ensures RestsStream(p.streams[i], r.streams[i]) {
      assert RestsStream(p.streams[i], q.streams[i]) && RestsStream(q.streams[i], r.streams[i]);
    }
    forall k | 0 <= k < |r.actors[a].requests| ensures RestsRequest(p.actors[a].requests, r.actors[a].requests[k]) {
      assert RestsRequest(q.actors[a].requests, r.actors[a].requests[k]);
      var j :| 0 <= j < |q.actors[a].requests| && q.actors[a].requests[j].stream == r.actors[a].requests[k].stream &&
        q.actors[a].requests[j].role == r.actors[a].requests[k].role
            && q.actors[a].requests[j].receiveWindow == r.actors[a].requests[k].receiveWindow;
      assert RestsRequest(p.actors[a].requests, q.actors[a].requests[j]);
    }
  }

  lemma EndSendRests(p: Pool, a: nat, k: nat, pending: nat)
    requires a < |p.actors|
    ensures Rests(p, DoEndSend(p, a, k, pending), a)
  {
    var q := DoEndSend(p, a, k, pending);
    forall j | 0 <= j < |q.actors[a].requests| ensures RestsRequest(p.actors[a].requests, q.actors[a].requests[j]) {
      assert q.actors[a].requests[j].stream == p.actors[a].requests[j].stream;
    }
  }

  lemma RetireRests(p: Pool, a: nat, k: nat, pending: nat)
    requires a < |p.actors|
    ensures Rests(p, DoRetire(p, a, k, pending), a)
  {
    var q := DoRetire(p, a, k, pending);
    var x := p.actors[a];
    if q != p {
      assert q.actors[a].requests == x.requests[..k] + x.requests[k + 1..];
      forall j | 0 <= j < |q.actors[a].requests| ensures RestsRequest(x.requests, q.actors[a].requests[j]) {
        assert q.actors[a].requests[j] == x.requests[if j < k then j else j + 1];
      }
    }
  }

  lemma {:induction false} RestRun(p: Pool, steps: seq<Step>, a: nat)
    requires Memory(p) && a < |p.actors| && RestSteps(steps, a)
    ensures Rests(p, Run(p, steps), a)
    decreases |steps|
  {
    hide Memory, Rests, DoEndSend, DoRetire;
    if steps == [] {
      RestsSelf(p, a);
    } else {
      var before, last := steps[..|steps| - 1], steps[|steps| - 1];
      RestRun(p, before, a);
      var q := Run(p, before);
      RestsActor(p, q, a);
      if last.EndSend? { EndSendRests(q, a, last.request, last.pending);
          } else { RetireRests(q, a, last.request, last.pending); }
      RestsTwice(p, q, Run(p, steps), a);
    }
  }

  lemma RestsActor(p: Pool, q: Pool, a: nat)
    requires Rests(p, q, a)
    ensures a < |q.actors|
  {
  }

  /** A live stream whose download was started on the actor. */
  predicate LiveStarted(p: Pool, a: nat) {
    exists i :: 0 <= i < |p.streams| && LiveStream(p, i) && StartedOn(p, a, i)
  }

  lemma RestsReceive(p: Pool, q: Pool, a: nat)
    requires Rests(p, q, a)
    ensures QueuesEmpty(q, a) <==> QueuesEmpty(p, a)
    ensures MayReceive(p, a) ==> MayReceive(q, a)
    ensures LiveStarted(q, a) ==> LiveStarted(p, a)
    ensures WindowOf(q, a) == WindowOf(p, a)
  {
    forall i | 0 <= i < |p.streams| ensures RestsStream(p.streams[i], q.streams[i]) {}
    if LiveStarted(q, a) {
      var i :| 0 <= i < |q.streams| && LiveStream(q, i) && StartedOn(q, a, i);
      assert LiveStream(p, i) && StartedOn(p, a, i);
    }
    if MayReceive(p, a) {
      forall k | 0 <= k < |q.actors[a].requests| ensures DownloadMayReceive(q, a, q.actors[a].requests[k]) {
        var r := q.actors[a].requests[k];
        assert RestsRequest(p.actors[a].requests, r);
        var j :| 0 <= j < |p.actors[a].requests| && p.actors[a].requests[j].stream == r.stream &&
          p.actors[a].requests[j].role == r.role && p.actors[a].requests[j].receiveWindow == r.receiveWindow;
        assert DownloadMayReceive(p, a, p.actors[a].requests[j]);
      }
    }
  }

  // ----- a pass that finds nothing started -----

  /** At stream `i` nothing else is started, and no credit is returned. */
  predicate Idles(p: Pool, q: Pool, i: nat, a: nat) {
    && a < |p.actors| && a < |q.actors| && |q.streams| == |p.streams|
        && q.actors[a].pendingCredit == p.actors[a].pendingCredit
    && forall j :: 0 <= j < |p.streams| && j != i && StartedOn(q, a, j) ==> StartedOn(p, a, j)
  }

  lemma SameReceiveIdles(p: Pool, q: Pool, i: nat, a: nat)
    requires SameReceive(p, q) && SameLife(p, q) && Working(p, a)
    ensures Idles(p, q, i, a)
  {
    assert SameCredit(p.actors[a], q.actors[a]);
    forall j | 0 <= j < |p.streams| && StartedOn(q, a, j) ensures StartedOn(p, a, j) {
      assert SameBinding(p.streams[j], q.streams[j]);
    }
  }

  lemma StartIdles(p: Pool, b: nat, i: nat, role: Role, id: nat, remaining: nat, inHeader: nat, pending: nat, a: nat)
    requires Memory(p) && a < |p.actors|
    ensures Idles(p, DoStart(p, b, i, role, id, remaining, inHeader, pending), i, a)
  {
    hide Memory, DoStart, Capacity, WindowOf, SameManagers;
    StartReceive(p, b, i, role, id, remaining, inHeader, pending);
  }

  lemma MoveIdles(p: Pool, j: nat, v: nat, i: nat, a: nat)
    requires a < |p.actors|
    ensures Idles(p, DoMoveUpload(p, j, v), i, a) && Idles(p, DoMoveDownload(p, j, v), i, a)
  {
    hide AddRunning;
  }

  lemma PassIdles(p: Pool, step: Step, i: nat, a: nat)
    requires Memory(p) && Working(p, a) && PassStep(step, i)
    ensures Idles(p, Next(p, step), i, a)
  {
    hide Memory, SameReceive, SameLife, Idles, AccountOutput, FailStream, Apply, CacheCleared;
    hide DoConnect, DoNewGroup, DoOpened, DoBind, DoMoveUpload, DoMoveDownload, DoStart, DoData, DoWindowUpdate,
        DoSettings, DoReset, DoGoaway, DoHeaders;
    hide DoCredit, DoSend, DoEndSend, DoRetire, DoExit, DoStop, DoCollectActor, DoCollectGroup, DoWrite, DoReserve,
        DoUnreserve, DoRead, DoClose, DoCloseWaited;
    if step.Start? {
      StartIdles(p, step.actor, step.stream, step.role, step.id, step.remaining, step.inHeader, step.pending, a);
    } else if step.MoveUpload? || step.MoveDownload? {
      MoveIdles(p, step.stream, step.target, i, a);
    } else if step.NewActor? {
      NewActorIdles(p, step.group, i, a);
    } else {
      PassLife(p, step, i);
      QuietReceive(p, step);
      SameReceiveIdles(p, Raw(p, step), i, a);
    }
  }

  lemma NewActorIdles(p: Pool, g: nat, i: nat, a: nat)
    requires a < |p.actors|
    ensures Idles(p, DoNewActor(p, g), i, a)
  {
  }

  lemma {:induction false} PassRunIdles(p: Pool, steps: seq<Step>, i: nat, a: nat)
    requires Sound(p) && Working(p, a) && PassSteps(steps, i)
    ensures Idles(p, Run(p, steps), i, a)
    decreases |steps|
  {
    hide Memory, Links, GroupsExist, Receives, Next, Keeps, PassStep, Idles, Working;
    if steps == [] {
      IdlesSelf(p, i, a);
    } else {
      var before := steps[..|steps| - 1];
      PassRunIdles(p, before, i, a);
      var q := Run(p, before);
      PassRunKeeps(p, before, i, a);
      KeepsWorking(p, q, a);
      PassIdles(q, steps[|steps| - 1], i, a);
      IdlesTwice(p, q, Run(p, steps), i, a);
    }
  }

  lemma IdlesSelf(p: Pool, i: nat, a: nat)
    requires Working(p, a)
    ensures Idles(p, p, i, a)
  {
  }

  lemma IdlesTwice(p: Pool, q: Pool, r: Pool, i: nat, a: nat)
    requires Idles(p, q, i, a) && Idles(q, r, i, a)
    ensures Idles(p, r, i, a)
  {
  }

  /** Where such a pass stands: the streams still to come are not started. */
  predicate IdleAt(before: Pool, p: Pool, a: nat, n: nat) {
    && Sound(p) && Working(p, a) && n <= |p.streams| && Keeps(before, p, a)
    && p.actors[a].pendingCredit == before.actors[a].pendingCredit
    && forall i :: 0 <= i < n ==> !(LiveStream(p, i) && StartedOn(p, a, i))
  }

  lemma IdleAdvances(before: Pool, p: Pool, a: nat, n: nat, steps: seq<Step>)
    requires IdleAt(before, p, a, n) && n > 0 && PassSteps(steps, n - 1)
    ensures IdleAt(before, Run(Next(p, Credit(a, n - 1)), steps), a, n - 1)
  {
    hide Memory, Links, GroupsExist, Receives, Keeps, PassStep, Working, Run, Idles, StartedOn;
    IdleCredit(p, a, n - 1);
    hide Next;
    var r := Run(p, steps);
    PassRunKeeps(p, steps, n - 1, a);
    PassRunIdles(p, steps, n - 1, a);
    KeepsWorking(p, r, a);
    KeepsTwice(before, p, r, a);
    IdlesFacts(p, r, n - 1, a);
  }

  lemma IdleCredit(p: Pool, a: nat, i: nat)
    requires Memory(p) && i < |p.streams| && !(LiveStream(p, i) && StartedOn(p, a, i))
    ensures Next(p, Credit(a, i)) == p
  {
    hide Memory;
  }

  lemma IdlesFacts(p: Pool, r: Pool, i: nat, a: nat)
    requires Idles(p, r, i, a) && Keeps(p, r, a)
    requires forall j :: 0 <= j < i ==> !(LiveStream(p, j) && StartedOn(p, a, j))
    ensures r.actors[a].pendingCredit == p.actors[a].pendingCredit
    ensures forall j :: 0 <= j < i && j < |p.streams| ==> !(LiveStream(r, j) && StartedOn(r, a, j))
  {
    hide Working, Above;
    forall j | 0 <= j < i && j < |p.streams| ensures !(LiveStream(r, j) && StartedOn(r, a, j)) {
      assert KeepsStream(p, r, a, j);
    }
  }

  lemma {:induction false} IdlePass(before: Pool, p: Pool, a: nat, n: nat, others: nat -> seq<Step>)
    requires IdleAt(before, p, a, n) && forall i :: PassSteps(others(i), i)
    ensures Memory(p) && IdleAt(before, Pass(p, a, n, others), a, 0)
    decreases n
  {
    hide *;
    IdleMemory(before, p, a, n);
    PassUnfolds(p, a, n, others);
    if n > 0 {
      IdleAdvances(before, p, a, n, others(n - 1));
      IdlePass(before, Run(Next(p, Credit(a, n - 1)), others(n - 1)), a, n - 1, others);
    }
  }

  lemma IdleMemory(before: Pool, p: Pool, a: nat, n: nat)
    requires IdleAt(before, p, a, n)
    ensures Memory(p)
  {
    hide Memory;
  }

  /** Nothing is owed where no live stream is started. */
  lemma NothingOwed(p: Pool, a: nat)
    requires Sound(p) && Working(p, a) && !LiveStarted(p, a)
    ensures forall i ::
        0 <= i < |p.streams| && p.streams[i].bound && p.streams[i].download == a ==> Owed(p.streams[i]) == 0
    ensures p.actors[a].receiveWindow + p.actors[a].pendingCredit == Capacity(p.actors[a].receiveSlots, WindowOf(p, a))
  {
    assert ActorReceives(p, a);
    forall i | 0 <= i < |p.streams| ensures OwedTo(a)(p.streams[i]) == 0 {
      SoundFacts(p, a, i);
      assert !(LiveStream(p, i) && StartedOn(p, a, i));
    }
    SumZero(p.streams, OwedTo(a));
    hide Sum, Capacity, WindowOf, Memory;
  }

  /** After an idle pass, with the queues empty: all credit but the pending one is in the window,
      which grew with the number of downloads. */
  lemma IdleEnd(p: Pool, q: Pool, a: nat)
    requires Sound(p) && Working(p, a) && !LiveStarted(p, a) && IdleAt(p, q, a, 0) && QueuesEmpty(q, a)
    ensures forall i :: 0 <= i < |q.streams| ==> Returned(q, a, i)
    ensures WindowOf(q, a) == WindowOf(p, a)
    ensures q.actors[a].receiveWindow - p.actors[a].receiveWindow ==
            Capacity(q.actors[a].receiveSlots, WindowOf(p, a)) - Capacity(p.actors[a].receiveSlots, WindowOf(p, a))
  {
    NothingOwed(p, a);
    assert ActorReceives(q, a) && ActorReceives(p, a);
    IdleWindow(p, q, a);
    forall i | 0 <= i < |q.streams| ensures Returned(q, a, i) && OwedTo(a)(q.streams[i]) == 0 {
      IdleOwed(p, q, a, i);
    }
    SumZero(q.streams, OwedTo(a));
    hide *;
  }

  lemma IdleWindow(p: Pool, q: Pool, a: nat)
    requires Sound(p) && Keeps(p, q, a)
    ensures WindowOf(q, a) == WindowOf(p, a)
  {
    hide Memory, KeepsStream;
    SameWindow(p, q, a);
  }

  lemma IdleOwed(p: Pool, q: Pool, a: nat, i: nat)
    requires Sound(p) && Sound(q) && Working(q, a) && Keeps(p, q, a) && !LiveStarted(p, a) && QueuesEmpty(q, a)
        && i < |q.streams|
    ensures Returned(q, a, i) && OwedTo(a)(q.streams[i]) == 0
  {
    assert KeepsStream(p, q, a, i) && !(LiveStream(p, i) && StartedOn(p, a, i));
    SoundFacts(q, a, i);
    SoundFacts(p, a, i);
    hide Memory, Links, Receives, GroupsExist, Working, Above;
  }

  // ----- the theorems -----

  /** A whole advance_streams: credit and what else happens at each stream, then the rest. */
  function Advanced(p: Pool, a: nat, others: nat -> seq<Step>, rest: seq<Step>): (q: Pool)
    requires Memory(p)
    ensures Memory(q)
  {
    Run(Pass(p, a, |p.streams|, others), rest)
  }

  ghost predicate AdvanceSteps(a: nat, others: nat -> seq<Step>, rest: seq<Step>) {
    (forall i :: PassSteps(others(i), i)) && RestSteps(rest, a)
  }

  /** The queues are empty and a download is under way, yet the peer may not send. */
  predicate Stalled(q: Pool, a: nat) {
    QueuesEmpty(q, a) && LiveStarted(q, a) && !MayReceive(q, a)
  }

  /** After every pass with empty receive queues and a download under way: the peer may send exactly
      if a live stream had its download started before the pass, or the connection window, grown with
      the number of downloads, is above the low-water mark. */
  lemma NoReceiveStall(p: Pool, a: nat, others: nat -> seq<Step>, rest: seq<Step>)
    requires Sound(p) && Working(p, a) && AdvanceSteps(a, others, rest)
    ensures var q := Advanced(p, a, others, rest);
            && a < |q.actors|
            && (QueuesEmpty(q, a) && LiveStarted(q, a) ==>
                 (MayReceive(q, a) <==>
                    LiveStarted(p, a) ||
                    p.actors[a].receiveWindow + Capacity(q.actors[a].receiveSlots, WindowOf(p, a))
                      - Capacity(p.actors[a].receiveSlots, WindowOf(p, a)) > LOW_WATER))
            && (LiveStarted(q, a) && !LiveStarted(p, a) ==>
                  q.actors[a].receiveSlots >= 1 && q.actors[a].receiveSlots >= p.actors[a].receiveSlots)
  {
    hide Memory, Links, GroupsExist, Receives, Returned, PassStep, Pass, Run, Rests, Capacity, WindowOf, QueuesEmpty,
        MayReceive, LiveStarted;
    var m := Pass(p, a, |p.streams|, others);
    var q := Run(m, rest);
    if LiveStarted(p, a) {
      StartedPass(p, a, others);
      RestRun(m, rest, a);
      RestsActor(m, q, a);
      RestsReceive(m, q, a);
    } else {
      IdleStart(p, a);
      IdlePass(p, p, a, |p.streams|, others);
      IdleActor(p, m, a);
      RestRun(m, rest, a);
      RestsActor(m, q, a);
      RestsReceive(m, q, a);
      RestsSlots(m, q, a);
      if LiveStarted(m, a) { IdleSlots(p, m, a); }
      if QueuesEmpty(m, a) {
        IdleEnd(p, m, a);
        IdleDecides(m, q, a);
      }
    }
  }

  lemma RestsSlots(m: Pool, q: Pool, a: nat)
    requires Rests(m, q, a)
    ensures q.actors[a].receiveSlots == m.actors[a].receiveSlots
  {
  }

  lemma IdleSlots(p: Pool, m: Pool, a: nat)
    requires IdleAt(p, m, a, 0) && !LiveStarted(p, a) && LiveStarted(m, a)
    ensures m.actors[a].receiveSlots >= 1 && m.actors[a].receiveSlots >= p.actors[a].receiveSlots
  {
    hide Memory, Links, GroupsExist, Receives, Above, Working;
    var i :| 0 <= i < |m.streams| && LiveStream(m, i) && StartedOn(m, a, i);
    assert KeepsStream(p, m, a, i) && !(LiveStream(p, i) && StartedOn(p, a, i));
  }

  lemma IdleActor(p: Pool, m: Pool, a: nat)
    requires IdleAt(p, m, a, 0)
    ensures a < |m.actors|
  {
    hide Memory, Keeps;
  }

  lemma IdleStart(p: Pool, a: nat)
    requires Sound(p) && Working(p, a) && !LiveStarted(p, a)
    ensures IdleAt(p, p, a, |p.streams|)
  {
    hide Memory, Links, GroupsExist, Receives, Keeps;
    KeepsSelf(p, a);
  }

  lemma IdleDecides(m: Pool, q: Pool, a: nat)
    requires Sound(m) && Working(m, a) && QueuesEmpty(m, a) && (forall i :: 0 <= i < |m.streams| ==> Returned(m, a, i))
        && Rests(m, q, a)
    requires MayReceive(m, a) ==> MayReceive(q, a)
    ensures MayReceive(q, a) <==> m.actors[a].receiveWindow > LOW_WATER
    ensures q.actors[a].receiveWindow == m.actors[a].receiveWindow
        && q.actors[a].receiveSlots == m.actors[a].receiveSlots
  {
    hide Memory, Links, GroupsExist, Receives, Returned, QueuesEmpty;
    if m.actors[a].receiveWindow > LOW_WATER { Drained(m, a); }
  }

  lemma StartedPass(p: Pool, a: nat, others: nat -> seq<Step>)
    requires Sound(p) && Working(p, a) && LiveStarted(p, a) && forall i :: PassSteps(others(i), i)
    ensures var m := Pass(p, a, |p.streams|, others); a < |m.actors| && (QueuesEmpty(m, a) ==> MayReceive(m, a))
  {
    hide Memory, Links, GroupsExist, Receives, Returned, PassStep, Pass, StartedOn;
    var started :| 0 <= started < |p.streams| && LiveStream(p, started) && StartedOn(p, a, started);
    PassReturns(p, a, |p.streams|, others, started);
    var m := Pass(p, a, |p.streams|, others);
    if QueuesEmpty(m, a) { Drained(m, a); }
  }

  // ----- the exact condition before the pass -----

  ghost predicate NeverStalls(p: Pool, a: nat)
    requires Memory(p)
  {
    forall others: nat -> seq<Step>, rest: seq<Step> ::
        AdvanceSteps(a, others, rest) ==> !Stalled(Advanced(p, a, others, rest), a)
  }

  /** The connection window once one download has started where there is none: only the first ever
      makes it grow. */
  function WindowAfterStart(p: Pool, a: nat): int
    requires a < |p.actors|
  {
    var x := p.actors[a];
    x.receiveWindow + if x.receiveSlots >= 1 then 0 else Capacity(1, WindowOf(p, a)) - Capacity(0, WindowOf(p, a))
  }

  lemma {:induction false} CapacityGrows(m: nat, n: nat, w: nat)
    requires m <= n
    ensures Capacity(m, w) <= Capacity(n, w)
  {
    assert m * w <= n * w;
  }

  lemma NeverStallsIf(p: Pool, a: nat, others: nat -> seq<Step>, rest: seq<Step>)
    requires Sound(p) && Working(p, a) && AdvanceSteps(a, others, rest)
    requires LiveStarted(p, a) || WindowAfterStart(p, a) > LOW_WATER
    ensures !Stalled(Advanced(p, a, others, rest), a)
  {
    hide Memory, Links, GroupsExist, Receives, Advanced, Capacity, WindowOf, QueuesEmpty, MayReceive, LiveStarted,
        AdvanceSteps, Working;
    NoReceiveStall(p, a, others, rest);
    WorkingActor(p, a);
    var q := Advanced(p, a, others, rest);
    if LiveStarted(q, a) && !LiveStarted(p, a) {
      CapacityGrows(if p.actors[a].receiveSlots >= 1 then p.actors[a].receiveSlots
          else 1, q.actors[a].receiveSlots, WindowOf(p, a));
    }
  }

  lemma WorkingActor(p: Pool, a: nat)
    requires Working(p, a)
    ensures a < |p.actors|
  {
  }

  /** A pass that does nothing but start one download, at its stream. */
  function OneStart(a: nat, i: nat, role: Role, id: nat): nat -> seq<Step> {
    (j: nat) => if j == i then [Start(a, i, role, id, 0, 0, 0)] else []
  }

  predicate NoneStarted(p: Pool, a: nat, n: nat) {
    forall j :: 0 <= j < n && j < |p.streams| ==> !(LiveStream(p, j) && StartedOn(p, a, j))
  }

  lemma {:induction false} NothingPasses(p: Pool, a: nat, n: nat, others: nat -> seq<Step>)
    requires Memory(p) && n <= |p.streams| && NoneStarted(p, a, n) && forall j :: 0 <= j < n ==> others(j) == []
    ensures Pass(p, a, n, others) == p
    decreases n
  {
    hide Memory, Next, Run, StartedOn;
    if n > 0 {
      IdleCredit(p, a, n - 1);
      RunNone(p);
      NothingPasses(p, a, n - 1, others);
    }
  }

  lemma RunNone(p: Pool)
    requires Memory(p)
    ensures Run(p, []) == p
  {
  }

  lemma RunOne(p: Pool, step: Step)
    requires Memory(p)
    ensures Run(p, [step]) == Next(p, step)
  {
    assert [step][..0] == [];
    RunNone(p);
    hide Next;
  }

  lemma {:induction false} OneStartPasses(p: Pool, a: nat, n: nat, i: nat, role: Role, id: nat)
    requires Memory(p) && i < n <= |p.streams| && NoneStarted(p, a, n)
    ensures Pass(p, a, n, OneStart(a, i, role, id)) == DoStart(p, a, i, role, id, 0, 0, 0)
    decreases n
  {
    hide Memory, Next, Run, StartedOn, DoStart;
    var others := OneStart(a, i, role, id);
    PassUnfolds(p, a, n, others);
    IdleCredit(p, a, n - 1);
    if n - 1 > i {
      RunNone(p);
      OneStartPasses(p, a, n - 1, i, role, id);
    } else {
      var step := Start(a, i, role, id, 0, 0, 0);
      RunOne(p, step);
      NextStart(p, a, i, role, id);
      var q := Next(p, step);
      StartedElsewhere(p, a, i, role, id);
      NothingPasses(q, a, i, others);
    }
  }

  lemma NextStart(p: Pool, a: nat, i: nat, role: Role, id: nat)
    requires Memory(p)
    ensures Next(p, Start(a, i, role, id, 0, 0, 0)) == DoStart(p, a, i, role, id, 0, 0, 0)
  {
    hide Memory, DoStart;
  }

  lemma StartedElsewhere(p: Pool, a: nat, i: nat, role: Role, id: nat)
    requires Memory(p) && i < |p.streams| && NoneStarted(p, a, i + 1)
    ensures var q := DoStart(p, a, i, role, id, 0, 0, 0); |q.streams| == |p.streams| && NoneStarted(q, a, i)
  {
    hide Memory, GrowWindow, AccountOutput, ManagerOf, InitialWindow;
    var q := DoStart(p, a, i, role, id, 0, 0, 0);
    forall j | 0 <= j < i ensures !(LiveStream(q, j) && StartedOn(q, a, j)) {
      assert q.streams[j] == p.streams[j];
      assert !(LiveStream(p, j) && StartedOn(p, a, j));
    }
  }

  /** Without a live started stream an actor has no download. */
  lemma {:induction false} NoDownloads(p: Pool, a: nat, n: nat)
    requires Sound(p) && Owned(p) && Working(p, a) && !LiveStarted(p, a) && n <= |p.actors[a].requests|
    ensures CountDownloads(p.actors[a].requests[n..]) == 0
    decreases |p.actors[a].requests| - n
  {
    hide Memory, GroupsExist, Receives, Placed, Grouped;
    var requests := p.actors[a].requests;
    if n < |requests| {
      NoDownloads(p, a, n + 1);
      assert requests[n..][1..] == requests[n + 1..] && requests[n..][0] == requests[n];
      assert ActorLinks(p, a) && RequestLink(p, a, requests[n]);
      HeldStream(p, a, n);
      var i := requests[n].stream;
      assert !(LiveStream(p, i) && StartedOn(p, a, i));
    }
  }

  /** Where nothing is started, the pass that starts one download leaves the window as it is, but
      for the first download ever. */
  lemma OneStartEnds(p: Pool, a: nat, i: nat, role: Role, id: nat)
    requires Sound(p) && Owned(p) && !LiveStarted(p, a) && MayStart(p, a, i, role) && role.Downloads()
        && id > p.actors[a].latest
    ensures var q := DoStart(p, a, i, role, id, 0, 0, 0);
            QueuesEmpty(q, a) && LiveStarted(q, a) && a < |q.actors|
                && q.actors[a].receiveWindow == WindowAfterStart(p, a)
  {
    NothingOwed(p, a);
    NoDownloads(p, a, 0);
    assert p.actors[a].requests[0..] == p.actors[a].requests;
    hide Memory, Links, GroupsExist, Receives, Owned, WindowOf, ManagerOf;
    var q := DoStart(p, a, i, role, id, 0, 0, 0);
    assert LiveStream(q, i) && StartedOn(q, a, i);
    OneStartWindow(p, a);
    assert WindowOf(p, a) == InitialWindow(ManagerOf(p, a));
  }

  lemma OneStartWindow(p: Pool, a: nat)
    requires a < |p.actors| && CountDownloads(p.actors[a].requests) == 0
    ensures GrowWindow(p.actors[a].(netAccounted := 0), WindowOf(p, a)).receiveWindow == WindowAfterStart(p, a)
  {
    hide WindowOf;
  }

  /** Where a download may start, passes of this actor never end stalled if and only if a live stream
      has its download started already or the window leaves room. */
  lemma StallExact(p: Pool, a: nat, i: nat, role: Role)
    requires Sound(p) && Owned(p) && MayStart(p, a, i, role) && role.Downloads()
    ensures NeverStalls(p, a) <==> LiveStarted(p, a) || WindowAfterStart(p, a) > LOW_WATER
  {
    MayStartFacts(p, a, i, role);
    hide Memory, Links, GroupsExist, Receives, Owned, Working, MayStart, Advanced, AdvanceSteps, Stalled, LiveStarted,
        WindowAfterStart;
    if LiveStarted(p, a) || WindowAfterStart(p, a) > LOW_WATER {
      forall others: nat -> seq<Step>, rest: seq<Step> | AdvanceSteps(a, others, rest)
        ensures !Stalled(Advanced(p, a, others, rest), a)
      {
        NeverStallsIf(p, a, others, rest);
      }
    } else {
      StallPass(p, a, i, role, p.actors[a].latest + 1);
    }
  }

  lemma MayStartFacts(p: Pool, a: nat, i: nat, role: Role)
    requires MayStart(p, a, i, role)
    ensures Working(p, a) && a < |p.actors| && i < |p.streams|
  {
  }

  lemma StallPass(p: Pool, a: nat, i: nat, role: Role, id: nat)
    requires Sound(p) && Owned(p) && MayStart(p, a, i, role) && role.Downloads() && id > p.actors[a].latest
    requires !LiveStarted(p, a) && WindowAfterStart(p, a) <= LOW_WATER
    ensures var others := OneStart(a, i, role, id);
            AdvanceSteps(a, others, []) && Stalled(Advanced(p, a, others, []), a)
  {
    hide Memory, Links, GroupsExist, Receives, Owned, MayStart, StartedOn, Pass, DoStart, WindowAfterStart;
    MayStartFacts(p, a, i, role);
    OneStartPasses(p, a, |p.streams|, i, role, id);
    OneStartEnds(p, a, i, role, id);
    RunNone(DoStart(p, a, i, role, id, 0, 0, 0));
  }

  lemma {:induction false} SoundRun(p: Pool, steps: seq<Step>)
    requires Sound(p)
    ensures Sound(Run(p, steps))
    decreases |steps|
  {
    hide Memory, Links, GroupsExist, Receives, Next;
    if steps != [] {
      var before := steps[..|steps| - 1];
      SoundRun(p, before);
      LinksNext(Run(p, before), steps[|steps| - 1]);
      ReceivesNext(Run(p, before), steps[|steps| - 1]);
    }
  }

  lemma {:induction false} SoundPass(p: Pool, a: nat, n: nat, others: nat -> seq<Step>)
    requires Sound(p)
    ensures Sound(Pass(p, a, n, others))
    decreases n
  {
    hide Memory, Links, GroupsExist, Receives, Next, Run;
    if n > 0 {
      LinksNext(p, Credit(a, n - 1));
      ReceivesNext(p, Credit(a, n - 1));
      SoundRun(Next(p, Credit(a, n - 1)), others(n - 1));
      SoundPass(Run(Next(p, Credit(a, n - 1)), others(n - 1)), a, n - 1, others);
    }
  }

  /** A stall never lasts: the pass after one that leaves a download under way does not end stalled. */
  lemma SecondPass(p: Pool, a: nat, others: nat -> seq<Step>, rest: seq<Step>, others': nat -> seq<Step>,
      rest': seq<Step>)
    requires Sound(p) && AdvanceSteps(a, others', rest')
    ensures var q := Advanced(p, a, others, rest);
            Working(q, a) && LiveStarted(q, a) ==> !Stalled(Advanced(q, a, others', rest'), a)
  {
    hide Memory, Links, GroupsExist, Receives, Pass, Run, AdvanceSteps, Stalled, LiveStarted, Working;
    SoundPass(p, a, |p.streams|, others);
    SoundRun(Pass(p, a, |p.streams|, others), rest);
    var q := Advanced(p, a, others, rest);
    hide Advanced;
    if Working(q, a) && LiveStarted(q, a) { NeverStallsIf(q, a, others', rest'); }
  }
}
