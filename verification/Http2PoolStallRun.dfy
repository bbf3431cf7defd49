/** A run from the empty pool after which a pass ends stalled, so the condition of the stall theorem
    is not idle: a download ends with most of its octets unread, its stream is closed, and the
    credit it leaves waits for a download that the pass starts only after it looked for credit. */
module Http2PoolStallRun {
  import opened Bytes
  import opened BufferBudget
  import opened Http2Queue
  import opened Http2Pool
  import opened Http2PoolRuns
  import opened Http2PoolLinks
  import opened Http2PoolReceive
  import opened Http2PoolFlow
  import opened Http2PoolOwnership
  import opened Http2PoolStall

  const FRAME := 16384
  const FRAMES := 15

  function Octets(): (s: seq<Byte>)
    ensures |s| == FRAME
  {
    seq(FRAME, _ => 0)
  }

  function Always(): nat -> bool { (_: nat) => true }

  /** A full frame of the response, the last one with END_STREAM. */
  function Frame(last: bool): Step { Step.Data(0, 1, FRAME, Octets(), true, last, Always()) }

  function Opening(): seq<Step> {
    [NewGroup(0), NewActor(0), Opened(0, 65535, 16384), Connect, Connect]
  }

  function Binding(): seq<Step> { Opening() + [Bind(0, 0, 0)] + [Bind(1, 0, 0)] }

  function Starting(): seq<Step> { Binding() + [Start(0, 0, Download, 1, 0, 0, 0)] + [Headers(0, 1, true, true,
      false)] }

  function Receiving(n: nat): seq<Step> {
    if n == 0 then Starting() else Receiving(n - 1) + [Frame(n == FRAMES)]
  }

  function Drying(): seq<Step> { Receiving(FRAMES) + [Retire(0, 0, 0)] + [Step.Close(0, (false, false))] }

  lemma RunMore(p: Pool, steps: seq<Step>, step: Step)
    requires Memory(p)
    ensures Run(p, steps + [step]) == Next(Run(p, steps), step)
  {
    assert (steps + [step])[..|steps|] == steps;
    hide Next;
  }

  // ----- two streams share a connection -----

  const BOUND := FRESH.(bound := true, window := STREAM_LIMIT, permanent := Reservation(STREAM_LIMIT))
  const IDLE :=
      Actor(false, 0, [], 0, false, false, false, false, 0, 0, 0, BASE_WINDOW, BASE_WINDOW, BASE_WINDOW, 16384, 0, 0,
          0, 0, 0)

  predicate Unbound(p: Pool, n: nat) {
    && p.managers == [Manager(false, 0)] && p.groups == [Group(false, 0, n)] && p.actors == [IDLE] && p.uploadBytes == 0
    && |p.streams| == 2 && |p.store.budgets| == 10
    && (forall i :: 0 <= i < 2 ==> p.streams[i] == if i < n then BOUND else FRESH)
    && (forall i :: 6 + 2 * n <= i < 10 ==> p.store.budgets[i] == Budget(0, 0, UPLOAD))
    && Charged(p.store.budgets, UPLOAD) == n * Reservation(STREAM_LIMIT)
        && Charged(p.store.budgets, DOWNLOAD) == n * Reservation(STREAM_LIMIT)
    && Charged(p.store.budgets, 2) == 0
  }

  /** The actor is there, and nothing else has changed. */
  predicate Alone(p: Pool, q: Pool) {
    q == p.(groups := [Group(false, 0, 0)], actors := [IDLE])
  }

  lemma OpensActor(p: Pool)
    requires Initial(p) && p.managers == [Manager(false, 0)]
    ensures Alone(p, Next(Next(Next(p, NewGroup(0)), NewActor(0)), Opened(0, 65535, 16384)))
  {
    hide Memory;
  }

  lemma OpensStreams(p: Pool, q: Pool)
    requires Memory(q) && Initial(p) && p.managers == [Manager(false, 0)] && Alone(p, q)
    ensures Unbound(Next(Next(q, Connect), Connect), 0)
  {
    hide Memory, Reservation;
    var r := Next(Next(q, Connect), Connect);
    hide Charged;
    forall i | 0 <= i < |r.store.budgets| ensures r.store.budgets[i].Charge() == 0 {}
    InitialCharge(r.store.budgets, UPLOAD);
    InitialCharge(r.store.budgets, DOWNLOAD);
    InitialCharge(r.store.budgets, 2);
  }

  lemma Opens(p: Pool)
    requires Initial(p) && p.managers == [Manager(false, 0)]
    ensures Unbound(Run(p, Opening()), 0)
  {
    hide Memory, Initial, Run, Next, Unbound, Alone;
    var one := [NewGroup(0)];
    var two := one + [NewActor(0)];
    var three := two + [Opened(0, 65535, 16384)];
    var four := three + [Connect];
    RunOne(p, NewGroup(0));
    RunMore(p, one, NewActor(0));
    RunMore(p, two, Opened(0, 65535, 16384));
    RunMore(p, three, Connect);
    RunMore(p, four, Connect);
    assert Opening() == four + [Connect];
    OpensActor(p);
    OpensStreams(p, Run(p, three));
  }

  lemma SmallReservation()
    ensures 4 * Reservation(STREAM_LIMIT) <= TOTAL_LIMIT
  {
  }

  lemma Binds(p: Pool, n: nat)
    requires Memory(p) && n < 2 && Unbound(p, n)
    ensures Unbound(Next(p, Bind(n, 0, 0)), n + 1)
  {
    SmallReservation();
    hide Memory, Reservation, Charged;
    var window := STREAM_LIMIT;
    var budgets := p.store.budgets;
    var rx := Budget(Reservation(window), 0, DOWNLOAD);
    var tx := Budget(Reservation(window), 0, UPLOAD);
    var one := budgets[RxAccount(n) := rx];
    var two := one[TxAccount(n) := tx];
    forall d | 0 <= d < DIRECTIONS
      ensures Charged(one, d) == Charged(budgets, d) + (if d == DOWNLOAD then Reservation(window) else 0)
      ensures Charged(two, d) == Charged(one, d) + (if d == UPLOAD then Reservation(window) else 0)
    {
      ChargeUpdate(budgets, RxAccount(n), rx, d);
      ChargeUpdate(one, TxAccount(n), tx, d);
    }
    assert Asked(budgets, Init(RxAccount(n), DOWNLOAD, Reservation(window))) == one;
    assert Asked(one, Init(TxAccount(n), UPLOAD, Reservation(window))) == two;
    assert InitialWindow(ManagerOf(p, 0)) == window;
    assert BindStore(p, n, window) == (true, p.store.(budgets := two));
  }

  // ----- the first downloads -----

  /** `n` frames have come for the first stream, and the response has ended or not. */
  predicate Flowing(p: Pool, n: nat, ended: bool) {
    && p.managers == [Manager(false, 0)] && p.groups == [Group(false, 0, 2)] && |p.actors| == 1 && |p.streams| == 2
        && p.uploadBytes == 0
    && p.streams[1] == BOUND
    && var x := p.actors[0]; var s := p.streams[0];
       && Working(p, 0) && x.group == 0 && x.latest == 1 && x.netAccounted == 0 && x.pendingCredit == 0
           && x.receiveSlots == 1
       && x.receiveWindow == STREAM_LIMIT - FRAME * n && |x.requests| == 1
       && var r := x.requests[0];
          && r.stream == 0 && r.id == 1 && r.role == Download && !r.reset && r.sendEnded && r.headers
              && r.ended == ended
          && r.receiveWindow == STREAM_LIMIT - FRAME * n
          && !s.freed && !s.closed && !s.failed && s.bound && s.download == 0 && s.upload == 0 && s.downId == 1
              && s.references == 2
          && |s.rx.contents| == FRAME * n && s.consumed == 0 && s.tx == EMPTY && s.reserved == 0
  }

  lemma Starts(p: Pool)
    requires Memory(p) && Unbound(p, 2)
    ensures Flowing(Next(Next(p, Start(0, 0, Download, 1, 0, 0, 0)), Headers(0, 1, true, true, false)), 0, false)
  {
    hide Memory, Reservation, Charged;
    var q := Next(p, Start(0, 0, Download, 1, 0, 0, 0));
    assert p.streams[0] == BOUND;
    assert q.actors[0].receiveWindow == STREAM_LIMIT;
  }

  lemma Flows(p: Pool, n: nat, last: bool)
    requires Sound(p) && Flowing(p, n, false) && n < FRAMES
    ensures Flowing(Next(p, Frame(last)), n + 1, last)
  {
    hide Memory, Links, GroupsExist, Receives, Reservation, Enqueue, Octets;
    FrameJudged(p, n);
    DataAlwaysFits(p, 0, 1, FRAME, Octets(), true, Always());
    EnqueueGrows(p, Octets());
    hide Judge, KeepData;
    FrameKept(p, Octets());
  }

  lemma FrameJudged(p: Pool, n: nat)
    requires Flowing(p, n, false) && n < FRAMES
    ensures Judge(p, 0, 1, FRAME, true) == Response(0)
  {
  }

  /** A frame that is queued goes out of both windows. */
  lemma FrameKept(p: Pool, body: seq<Byte>)
    requires Memory(p) && |p.actors| == 1 && |p.actors[0].requests| == 1
        && p.actors[0].requests[0].stream == 0 < |p.streams| && |body| == FRAME
    requires Enqueue(p, 0, FRAME, body, Always()).0
    ensures var x := p.actors[0]; var r := x.requests[0]; var q := Enqueue(p, 0, FRAME, body, Always()).1;
            KeepData(p, 0, 0, FRAME, body, Always()) ==
            q.(actors := [x.(receiveWindow := x.receiveWindow - FRAME, dataReceived := x.dataReceived + FRAME,
                             requests := [r.(receiveWindow := r.receiveWindow - FRAME)])])
  {
    hide Memory, Enqueue;
    var x := p.actors[0];
    var r := x.requests[0].(receiveWindow := x.requests[0].receiveWindow - FRAME);
    assert x.requests[0 := r] == [r];
    var y := x.(receiveWindow := x.receiveWindow - FRAME, dataReceived := x.dataReceived + FRAME, requests := [r]);
    assert p.actors[0 := y] == [y];
  }

  lemma EnqueueGrows(p: Pool, body: seq<Byte>)
    requires Memory(p) && |p.streams| > 0 && |body| == FRAME
    ensures var (ok, q) := Enqueue(p, 0, FRAME, body, Always());
            ok ==>
              && |q.streams[0].rx.contents| == |p.streams[0].rx.contents| + FRAME && q.streams[1..] == p.streams[1..]
              && q.streams[0] == p.streams[0].(rx := q.streams[0].rx, received := q.streams[0].received)
              && q == p.(store := q.store, downloadBytes := q.downloadBytes, streams := q.streams)
  {
    assert StreamMemory(p.store, 0, p.streams[0]);
    AppendAdjusts(p.store, RxAccount(0), p.streams[0].rx, body, Always());
    hide Append, Memory;
  }

  lemma {:induction false} FramesFlow(p: Pool, n: nat)
    requires Initial(p) && p.managers == [Manager(false, 0)] && n <= FRAMES
    ensures Flowing(Run(p, Receiving(n)), n, n == FRAMES)
    decreases n
  {
    hide Memory, Run, Next, Flowing, Unbound;
    if n == 0 {
      Opens(p);
      var ready := Run(p, Opening());
      RunMore(p, Opening(), Bind(0, 0, 0));
      Binds(ready, 0);
      RunMore(p, Opening() + [Bind(0, 0, 0)], Bind(1, 0, 0));
      Binds(Next(ready, Bind(0, 0, 0)), 1);
      var bound := Run(p, Binding());
      RunMore(p, Binding(), Start(0, 0, Download, 1, 0, 0, 0));
      RunMore(p, Binding() + [Start(0, 0, Download, 1, 0, 0, 0)], Headers(0, 1, true, true, false));
      Starts(bound);
    } else {
      FramesFlow(p, n - 1);
      RunMore(p, Receiving(n - 1), Frame(n == FRAMES));
      ReachableSound(p, Receiving(n - 1));
      Flows(Run(p, Receiving(n - 1)), n - 1, n == FRAMES);
    }
  }

  // ----- the first stream goes -----

  /** The connection window is at the low-water mark, the rest is pending credit, and only a stream
      that has not started is left. */
  predicate Dry(p: Pool) {
    && |p.actors| == 1 && |p.streams| == 2 && p.uploadBytes == 0 && Working(p, 0)
    && p.actors[0].receiveWindow == LOW_WATER && p.actors[0].receiveSlots == 1 && p.actors[0].latest == 1
        && p.actors[0].netAccounted == 0
    && p.streams[0].freed && p.streams[1] == BOUND
  }

  lemma Retires(p: Pool)
    requires Memory(p) && Flowing(p, FRAMES, true)
    ensures var q := Next(p, Retire(0, 0, 0));
            && q.streams == p.streams[0 := p.streams[0].(references := 1)] && q.uploadBytes == 0 && q.groups == p.groups
            && q.actors == [p.actors[0].(requests := [])]
  {
    hide Memory;
    var x := p.actors[0];
    assert x.requests[..0] + x.requests[1..] == [];
    assert p.actors[0 := x.(requests := [])] == [x.(requests := [])];
  }

  lemma Closes(p: Pool, q: Pool)
    requires Memory(q) && Flowing(p, FRAMES, true)
    requires q.streams == p.streams[0 := p.streams[0].(references := 1)] && q.uploadBytes == 0 && q.groups == p.groups
    requires q.actors == [p.actors[0].(requests := [])]
    ensures Dry(Next(q, Step.Close(0, (false, false))))
  {
    hide Memory, CloseQueues, Reservation;
    CloseEmpties(q);
  }

  lemma CloseEmpties(q: Pool)
    requires Memory(q) && |q.streams| > 0
    ensures var r := CloseQueues(q, 0); var s := q.streams[0];
            && r.streams ==
                q.streams[0 :=
                    s.(closed := true, tx := EMPTY, rx := EMPTY, reserved := 0,
                        consumed := s.consumed + |s.rx.contents|)]
            && r.actors == q.actors && r.groups == q.groups
                && r.uploadBytes == q.uploadBytes - |s.tx.contents| - s.reserved
  {
    hide Memory, Emptied;
  }

  lemma Dries(p: Pool)
    requires Memory(p) && Flowing(p, FRAMES, true)
    ensures Dry(Next(Next(p, Retire(0, 0, 0)), Step.Close(0, (false, false))))
  {
    hide Memory, Flowing, Dry, Next;
    Retires(p);
    Closes(p, Next(p, Retire(0, 0, 0)));
  }

  lemma DryStalls(p: Pool)
    requires Sound(p) && Owned(p) && Dry(p)
    ensures AdvanceSteps(0, OneStart(0, 1, Download, 3), [])
        && Stalled(Advanced(p, 0, OneStart(0, 1, Download, 3), []), 0)
  {
    hide Memory, Links, GroupsExist, Receives, Owned, Advanced, Stalled, AdvanceSteps, OneStart;
    StallPass(p, 0, 1, Download, 3);
  }

  /** After this run a pass that starts the other download ends with the connection window at the
      low-water mark, though all queues are empty. */
  lemma StallHappens(p: Pool)
    requires Initial(p) && p.managers == [Manager(false, 0)]
    ensures var others := OneStart(0, 1, Download, 3);
            AdvanceSteps(0, others, []) && Stalled(Advanced(Run(p, Drying()), 0, others, []), 0)
  {
    hide Memory, Run, Next, Flowing, Dry, Sound, Owned, Advanced, Stalled, AdvanceSteps, OneStart;
    FramesFlow(p, FRAMES);
    RunMore(p, Receiving(FRAMES), Retire(0, 0, 0));
    RunMore(p, Receiving(FRAMES) + [Retire(0, 0, 0)], Step.Close(0, (false, false)));
    Dries(Run(p, Receiving(FRAMES)));
    ReachableSound(p, Drying());
    OwnershipRun(p, Drying());
    DryStalls(Run(p, Drying()));
  }
}
