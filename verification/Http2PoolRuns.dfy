/** Runs of the pool: every step keeps the memory layout, so steps can follow one another. */
module Http2PoolRuns {
  import opened Bytes
  import opened BufferBudget
  import opened Http2Queue
  import opened Http2Pool

  datatype Step =
    | Connect
    | NewGroup(manager: nat)
    | NewActor(group: nat)
    | Opened(actor: nat, peerWindow: nat, peerFrame: nat)
    | Bind(stream: nat, up: nat, down: nat)
    | MoveUpload(stream: nat, target: nat)
    | MoveDownload(stream: nat, target: nat)
    | Start(actor: nat, stream: nat, role: Role, id: nat, remaining: nat, inHeader: nat, pending: nat)
    | Data(actor: nat, id: nat, length: nat, body: seq<Byte>, valid: bool, end: bool, memory: nat -> bool)
    | WindowUpdate(actor: nat, id: nat, increment: nat)
    | Settings(actor: nat, entries: seq<(nat, nat)>)
    | ResetStream(actor: nat, id: nat, code: nat)
    | Goaway(actor: nat, request: nat)
    | Headers(actor: nat, id: nat, accepted: bool, success: bool, end: bool)
    | Credit(actor: nat, stream: nat)
    | Send(actor: nat, stream: nat, request: nat, pending: nat)
    | EndSend(actor: nat, request: nat, pending: nat)
    | Retire(actor: nat, request: nat, pending: nat)
    | Flushed(actor: nat, pending: nat)
    | Ready(stream: nat)
    | Drain(actor: nat)
    | Break(actor: nat)
    | Fail(stream: nat)
    | Exit(actor: nat)
    | Stop(actor: nat)
    | CollectActor(actor: nat)
    | CollectGroup(group: nat)
    | Write(stream: nat, data: seq<Byte>, memory: nat -> bool)
    | Reserve(stream: nat, size: nat)
    | Unreserve(stream: nat)
    | Read(stream: nat, size: nat)
    | FinishWrite(stream: nat)
    | Close(stream: nat, waits: (bool, bool))
    | CloseWaited(actor: nat)
    | Ledger(op: Op)
    | ClearCache

  /** Steps of an actor's worker, and those that end an actor. */
  predicate OnActor(step: Step) {
    step.Opened? || step.Start? || step.Data? || step.WindowUpdate? || step.Settings? || step.ResetStream?
        || step.Goaway? || step.Headers? || step.Credit? ||
    step.Send? || step.EndSend? || step.Retire? || step.Flushed? || step.Drain? || step.Break? || step.Exit?
        || step.Stop? || step.CollectActor? || step.CloseWaited?
  }

  predicate OnFrame(step: Step) {
    step.Opened? || step.Data? || step.WindowUpdate? || step.Settings? || step.ResetStream? || step.Goaway?
        || step.Headers? || step.Credit? || step.Break?
  }

  /** Operations of the other users of the budgets: connection buffers, header tables and the relay. */
  predicate ByOthers(op: Op) {
    match op
    case Hold(i, _) => 3 <= i < OTHERS
    case Drop(i, _) => 3 <= i < OTHERS
    case Init(i, _, _) => 3 <= i < OTHERS
    case Clear(i) => 3 <= i < OTHERS
    case Transfer(i, j, _) => 3 <= i < OTHERS && 3 <= j < OTHERS
  }

  function Raw(p: Pool, step: Step): Pool
    requires Memory(p)
  {
    match step
    case Connect => DoConnect(p)
    case NewGroup(m) => DoNewGroup(p, m)
    case NewActor(g) => DoNewActor(p, g)
    case Opened(a, w, f) => DoOpened(p, a, w, f)
    case Bind(i, u, d) => DoBind(p, i, u, d)
    case MoveUpload(i, v) => DoMoveUpload(p, i, v)
    case MoveDownload(i, v) => DoMoveDownload(p, i, v)
    case Start(a, i, role, id, remaining, inHeader, pending) => DoStart(p, a, i, role, id, remaining, inHeader, pending)
    case Data(a, id, length, body, valid, end, memory) => DoData(p, a, id, length, body, valid, end, memory)
    case WindowUpdate(a, id, n) => DoWindowUpdate(p, a, id, n)
    case Settings(a, entries) => DoSettings(p, a, entries)
    case ResetStream(a, id, code) => DoReset(p, a, id, code)
    case Goaway(a, k) => DoGoaway(p, a, k)
    case Headers(a, id, accepted, success, end) => DoHeaders(p, a, id, accepted, success, end)
    case Credit(a, i) => DoCredit(p, a, i)
    case Send(a, i, k, pending) => DoSend(p, a, i, k, pending)
    case EndSend(a, k, pending) => DoEndSend(p, a, k, pending)
    case Retire(a, k, pending) => DoRetire(p, a, k, pending)
    case Flushed(a, pending) => if Working(p, a) then AccountOutput(p, a, pending) else p
    case Ready(i) => if LiveStream(p, i) then SetStream(p, i, p.streams[i].(ready := true)) else p
    case Drain(a) => if LiveActor(p, a) then SetActor(p, a, p.actors[a].(draining := true)) else p
    case Break(a) => if LiveActor(p, a) then FailActor(p, a) else p
    case Fail(i) => if LiveStream(p, i) then FailStream(p, i) else p
    case Exit(a) => DoExit(p, a)
    case Stop(a) => DoStop(p, a)
    case CollectActor(a) => DoCollectActor(p, a)
    case CollectGroup(g) => DoCollectGroup(p, g)
    case Write(i, data, memory) => DoWrite(p, i, data, memory)
    case Reserve(i, n) => DoReserve(p, i, n)
    case Unreserve(i) => DoUnreserve(p, i)
    case Read(i, n) => DoRead(p, i, n)
    case FinishWrite(i) => if LiveStream(p, i) && !p.streams[i].failed
        && !p.streams[i].closed then SetStream(p, i, p.streams[i].(finishRequested := true)) else p
    case Close(i, waits) => DoClose(p, i, waits)
    case CloseWaited(a) => DoCloseWaited(p, a)
    case Ledger(op) => if ByOthers(op) then p.(store := p.store.(budgets := Apply(p.store.budgets, op))) else p
    case ClearCache => p.(store := CacheCleared(p.store))
  }

  // ----- memory is kept -----

  predicate SameQueues(s: Stream, t: Stream) {
    && (t.freed ==> t.closed || s.freed) && t.closed == s.closed && t.bound == s.bound && t.window == s.window
        && t.rx == s.rx && t.tx == s.tx
    && t.reserved == s.reserved && t.permanent == s.permanent
  }

  lemma MemorySame(p: Pool, q: Pool)
    requires Memory(p) && q.store == p.store && |q.streams| == |p.streams|
    requires forall i :: 0 <= i < |p.streams| ==> SameQueues(p.streams[i], q.streams[i])
    ensures Memory(q)
  {
    hide StoreValid, FifoValid, Blocks, Reservation;
    forall i | 0 <= i < |q.streams| ensures StreamMemory(q.store, i, q.streams[i]) {
      assert StreamMemory(p.store, i, p.streams[i]);
    }
  }

  lemma ConnectMemory(p: Pool)
    requires Memory(p)
    ensures Memory(DoConnect(p))
  {
    var q := DoConnect(p);
    hide Charged, Used, Blocks, Reservation, FifoValid;
    var one := p.store.budgets + [Budget(0, 0, UPLOAD)];
    assert q.store.budgets == one + [Budget(0, 0, UPLOAD)];
    forall d | 0 <= d < DIRECTIONS ensures Charged(q.store.budgets, d) == Charged(p.store.budgets, d) {
      ChargeAppend(p.store.budgets, Budget(0, 0, UPLOAD), d);
      ChargeAppend(one, Budget(0, 0, UPLOAD), d);
    }
    forall i | 0 <= i < |q.streams| ensures StreamMemory(q.store, i, q.streams[i]) {
      if i < |p.streams| {
        assert StreamMemory(p.store, i, p.streams[i]);
      } else {
        FreshMemory(q.store, i);
      }
    }
  }

  lemma FreshMemory(store: Store, i: nat)
    requires TxAccount(i) < |store.budgets|
        && store.budgets[RxAccount(i)] == Budget(0, 0, UPLOAD) == store.budgets[TxAccount(i)]
    ensures StreamMemory(store, i, FRESH)
  {
  }

  lemma BindMemory(p: Pool, i: nat, u: nat, d: nat)
    requires Memory(p)
    ensures Memory(DoBind(p, i, u, d))
  {
    hide Charged, Used, Blocks, Reservation, FifoValid, AddRunning;
    var q := DoBind(p, i, u, d);
    if q != p {
      assert StreamMemory(p.store, i, p.streams[i]);
      var window := InitialWindow(ManagerOf(p, u));
      var down := Init(RxAccount(i), DOWNLOAD, Reservation(window));
      ApplyWithin(p.store.budgets, down);
      ApplyWithin(Asked(p.store.budgets, down), Init(TxAccount(i), UPLOAD, Reservation(STREAM_LIMIT)));
      forall j | 0 <= j < |q.streams| ensures StreamMemory(q.store, j, q.streams[j]) {
        assert StreamMemory(p.store, j, p.streams[j]);
      }
    }
  }

  lemma StartMemory(p: Pool, a: nat, i: nat, role: Role, id: nat, remaining: nat, inHeader: nat, pending: nat)
    requires Memory(p)
    ensures Memory(DoStart(p, a, i, role, id, remaining, inHeader, pending))
  {
    var q := DoStart(p, a, i, role, id, remaining, inHeader, pending);
    if q != p {
      hide StoreValid, StreamMemory, UpdateUpload, Blocks, Reservation, GrowWindow;
      if inHeader > 0 {
        DropUploadMemory(p, i, inHeader);
        var (t, s) := DropUpload(p, i, inHeader);
        MemorySame(p.(streams := p.streams[i := s], store := t), q);
      } else {
        MemorySame(p, q);
      }
    }
  }

  lemma EnqueueMemory(p: Pool, i: nat, length: nat, body: seq<Byte>, memory: nat -> bool)
    requires Memory(p) && i < |p.streams| && |body| <= length && p.streams[i].bound && !p.streams[i].closed
    ensures Memory(Enqueue(p, i, length, body, memory).1)
  {
    var s := p.streams[i];
    assert StreamMemory(p.store, i, s);
    var (ok, t, f) := Append(p.store, RxAccount(i), s.rx, body, memory);
    AppendAdjusts(p.store, RxAccount(i), s.rx, body, memory);
    AdjustedTouches(p.store, t, RxAccount(i), Blocks(f) * BLOCK_SIZE);
    var q := Enqueue(p, i, length, body, memory).1;
    hide StoreValid, Append, Blocks, Reservation, FifoValid;
    if |body| <= TOTAL_LIMIT - p.downloadBytes {
      MemoryTouched(p, i, RxAccount(i), t, q.streams[i]);
      assert p.streams[i := q.streams[i]] == q.streams;
      MemorySame(p.(streams := p.streams[i := q.streams[i]], store := t), q);
    }
  }

  lemma KeepDataMemory(p: Pool, a: nat, k: nat, length: nat, body: seq<Byte>, memory: nat -> bool)
    requires Memory(p) && a < |p.actors| && k < |p.actors[a].requests| && p.actors[a].requests[k].stream < |p.streams|
        && |body| <= length
    requires !p.streams[p.actors[a].requests[k].stream].closed && p.streams[p.actors[a].requests[k].stream].bound
    ensures Memory(KeepData(p, a, k, length, body, memory))
  {
    hide Memory, Enqueue, SpendWindows;
    var i := p.actors[a].requests[k].stream;
    EnqueueMemory(p, i, length, body, memory);
    MemorySame(Enqueue(p, i, length, body, memory).1, KeepData(p, a, k, length, body, memory));
  }

  lemma StopUploadMemory(p: Pool, i: nat)
    requires Memory(p) && i < |p.streams|
    ensures Memory(StopUpload(p, i))
  {
    var s := p.streams[i];
    assert StreamMemory(p.store, i, s);
    EmptiedAccount(p.store, TxAccount(i), s.tx);
    hide StoreValid, Emptied, Reservation;
    if !s.sendStopped {
      var t := s.(sendStopped := true, tx := EMPTY, reserved := 0, permanent := 0);
      MemoryTouched(p, i, TxAccount(i), Emptied(p.store, TxAccount(i), s.tx), t);
      MemorySame(p.(streams := p.streams[i := t], store := Emptied(p.store, TxAccount(i), s.tx)), StopUpload(p, i));
    }
  }

  lemma SendMemory(p: Pool, a: nat, i: nat, k: nat, pending: nat)
    requires Memory(p)
    ensures Memory(DoSend(p, a, i, k, pending))
  {
    var q := DoSend(p, a, i, k, pending);
    if MaySend(p, a, i, k) && p.actors[a].peerFrame != 0 {
      assert FifoValid(p.streams[i].tx) by { assert StreamMemory(p.store, i, p.streams[i]); }
      hide StoreValid, StreamMemory, UpdateUpload, Blocks, Reservation, SendLength, MaySend;
      var n := SendLength(p, a, i, k);
      DropUploadMemory(p, i, n);
      var (t, s) := DropUpload(p, i, n);
      MemorySame(p.(streams := p.streams[i := s], store := t), q);
    }
  }

  lemma ReadMemory(p: Pool, i: nat, n: nat)
    requires Memory(p)
    ensures Memory(DoRead(p, i, n))
  {
    if LiveStream(p, i) && !p.streams[i].closed {
      var s := p.streams[i];
      var q := DoRead(p, i, n);
      assert StreamMemory(p.store, i, s);
      var take := if |s.rx.contents| < n then |s.rx.contents| else n;
      var (t, f) := Consume(p.store, RxAccount(i), s.rx, take);
      AdjustedTouches(p.store, t, RxAccount(i), Blocks(f) * BLOCK_SIZE);
      hide StoreValid, GiveMany, Blocks, Reservation;
      MemoryTouched(p, i, RxAccount(i), t, q.streams[i]);
      MemorySame(p.(streams := p.streams[i := q.streams[i]], store := t), q);
    }
  }

  /** The cache may have been emptied: nobody's account changes. */
  lemma MemoryTrimmed(p: Pool, store: Store)
    requires Memory(p) && StoreValid(store) && |store.budgets| == |p.store.budgets|
    requires forall i :: DIRECTIONS <= i < |store.budgets| ==> store.budgets[i] == p.store.budgets[i]
    ensures Memory(p.(store := store))
  {
    hide StoreValid, FifoValid, Blocks, Reservation;
    forall i | 0 <= i < |p.streams| ensures StreamMemory(store, i, p.streams[i]) {
      assert StreamMemory(p.store, i, p.streams[i]);
    }
  }

  lemma UpdateUploadMemory(p: Pool, i: nat, s: Stream, t: Store)
    requires Memory(p) && i < |p.streams| && Touched(p.store, t, TxAccount(i))
        && StreamMemory(t, i, s.(permanent := s.permanent))
    ensures Memory(p.(streams := p.streams[i := s], store := UpdateUpload(t, i, s)))
  {
    var u := UpdateUpload(t, i, s);
    hide StoreValid, Blocks, Reservation, FifoValid, Reserved;
    TouchedTwice(p.store, t, u, TxAccount(i));
    MemoryTouched(p, i, TxAccount(i), u, s);
  }

  lemma UnreserveMemory(p: Pool, i: nat)
    requires Memory(p)
    ensures Memory(DoUnreserve(p, i))
  {
    if LiveStream(p, i) {
      assert StreamMemory(p.store, i, p.streams[i]);
      var s := p.streams[i].(reserved := 0);
      hide StoreValid, Blocks, Reservation, FifoValid, UpdateUpload;
      assert Touched(p.store, p.store, TxAccount(i));
      UpdateUploadMemory(p, i, s, p.store);
      MemorySame(p.(streams := p.streams[i := s], store := UpdateUpload(p.store, i, s)), DoUnreserve(p, i));
    }
  }

  lemma WriteMemory(p: Pool, i: nat, data: seq<Byte>, memory: nat -> bool)
    requires Memory(p)
    ensures Memory(DoWrite(p, i, data, memory))
  {
    hide Memory, StoreValid, Blocks, WriteStore, WriteAppend, UpdateUpload, FifoValid, Adjusted;
    if MayWrite(p, i) {
      WriteAppendFacts(p, i, data, memory);
      var trimmed := WriteStore(p, i, |data|);
      var Attempt(block, ok, store, f) := WriteAppend(p, i, data, memory);
      AdjustedTouches(trimmed, store, TxAccount(i), Blocks(f) * BLOCK_SIZE);
      MemoryTrimmed(p, trimmed);
      var q := p.(store := trimmed);
      if ok {
        WriteMemoryEnd(q, i, store, f, data[..block]);
        var t := DoWrite(p, i, data, memory).streams[i];
        MemorySame(q.(streams := p.streams[i := t], store := UpdateUpload(store, i, t)), DoWrite(p, i, data, memory));
      } else {
        WriteRefusedMemory(q, i, store);
      }
    }
  }

  lemma WriteMemoryEnd(p: Pool, i: nat, store: Store, f: Fifo, data: seq<Byte>)
    requires Memory(p) && i < |p.streams| && p.streams[i].bound && !p.streams[i].closed
    requires Adjusted(p.store, store, TxAccount(i), Blocks(f) * BLOCK_SIZE) && Touched(p.store, store, TxAccount(i))
        && FifoValid(f)
    requires f.contents == p.streams[i].tx.contents + data && |f.contents| <= STREAM_LIMIT
    ensures var s := p.streams[i];
            var kept := if |data| < s.reserved then s.reserved - |data| else 0;
            var t := s.(tx := f, reserved := kept, accepted := s.accepted + data);
            Memory(p.(streams := p.streams[i := t], store := UpdateUpload(store, i, t)))
  {
    var s := p.streams[i];
    assert StreamMemory(p.store, i, s);
    hide Memory, StoreValid, Blocks, Reservation, FifoValid, UpdateUpload, Touched;
    var kept := if |data| < s.reserved then s.reserved - |data| else 0;
    UpdateUploadMemory(p, i, s.(tx := f, reserved := kept, accepted := s.accepted + data), store);
  }

  lemma WriteRefusedMemory(p: Pool, i: nat, store: Store)
    requires Memory(p) && i < |p.streams|
    requires Adjusted(p.store, store, TxAccount(i), Blocks(p.streams[i].tx) * BLOCK_SIZE)
        && Touched(p.store, store, TxAccount(i))
    ensures Memory(p.(store := store))
  {
    assert StreamMemory(p.store, i, p.streams[i]);
    assert p.streams[i := p.streams[i]] == p.streams;
    hide StoreValid, Blocks, Reservation, FifoValid;
    MemoryTouched(p, i, TxAccount(i), store, p.streams[i]);
  }

  lemma ReserveMemoryEnd(p: Pool, i: nat, n: nat)
    requires Memory(p) && i < |p.streams| && p.streams[i].bound && !p.streams[i].closed
        && n <= STREAM_LIMIT - |p.streams[i].tx.contents|
    requires var t := p.streams[i].(reserved := n);
             Account(p.store, TxAccount(i)) && p.store.budgets[TxAccount(i)].direction == UPLOAD
                 && Succeeds(p.store.budgets, Init(TxAccount(i), UPLOAD, UploadMinimum(t)))
    ensures var t := p.streams[i].(reserved := n);
            Memory(p.(streams := p.streams[i := t], store := UpdateUpload(p.store, i, t)))
  {
    var t := p.streams[i].(reserved := n);
    assert StreamMemory(p.store, i, p.streams[i]);
    hide StoreValid, Blocks, Reservation, Reserved, Succeeds, FifoValid;
    ReserveGranted(p.store, TxAccount(i), UploadMinimum(t));
    MemoryTouched(p, i, TxAccount(i), UpdateUpload(p.store, i, t), t);
  }

  lemma UploadAccount(p: Pool, i: nat)
    requires Memory(p) && i < |p.streams|
    ensures Account(p.store, TxAccount(i)) && p.store.budgets[TxAccount(i)].direction == UPLOAD
        && |p.streams[i].tx.contents| <= STREAM_LIMIT
    ensures StoreValid(p.store)
  {
    assert StreamMemory(p.store, i, p.streams[i]);
  }

  lemma ReserveMemory(p: Pool, i: nat, n: nat)
    requires Memory(p)
    ensures Memory(DoReserve(p, i, n))
  {
    hide Memory, StoreValid, Blocks, Reservation, Trimmed, WriteCapacity, UpdateUpload, Succeeds, UploadMinimum;
    if MayWrite(p, i) && p.streams[i].reserved == 0 && n <= STREAM_LIMIT - |p.streams[i].tx.contents|
        && n <= GlobalRoom(p) {
      UploadAccount(p, i);
      var store := Trimmed(p.store);
      MemoryTrimmed(p, store);
      var t := p.streams[i].(reserved := n);
      if n <= WriteCapacity(store, i, p.streams[i].tx)
          && Succeeds(store.budgets, Init(TxAccount(i), UPLOAD, UploadMinimum(t))) {
        ReserveMemoryEnd(p.(store := store), i, n);
        MemorySame(p.(streams := p.streams[i := t], store := UpdateUpload(store, i, t)), DoReserve(p, i, n));
      }
    }
  }

  lemma ReserveGranted(s: Store, a: nat, minimum: nat)
    requires StoreValid(s) && Account(s, a) && Succeeds(s.budgets, Init(a, s.budgets[a].direction, minimum))
    ensures Reserved(s, a, minimum).budgets[a].minimum == minimum
  {
    hide StoreValid, Succeeds;
  }

  lemma CloseUpload(p: Pool, i: nat)
    requires Memory(p) && i < |p.streams| && Account(p.store, TxAccount(i)) && FifoValid(p.streams[i].tx)
    requires p.store.budgets[TxAccount(i)].used == Blocks(p.streams[i].tx) * BLOCK_SIZE
    ensures var one := Emptied(p.store, TxAccount(i), p.streams[i].tx);
            Memory(p.(streams := p.streams[i := p.streams[i].(tx := EMPTY, reserved := 0)], store := one))
  {
    var s := p.streams[i];
    assert StreamMemory(p.store, i, s);
    EmptiedAccount(p.store, TxAccount(i), s.tx);
    hide StoreValid, Emptied, Reservation;
    MemoryTouched(p, i, TxAccount(i), Emptied(p.store, TxAccount(i), s.tx), s.(tx := EMPTY, reserved := 0));
  }

  lemma CloseDownload(p: Pool, i: nat, t: Stream)
    requires Memory(p) && i < |p.streams| && Account(p.store, RxAccount(i)) && FifoValid(p.streams[i].rx)
    requires p.store.budgets[RxAccount(i)].used == Blocks(p.streams[i].rx) * BLOCK_SIZE
    requires t.closed && t.tx == p.streams[i].tx == EMPTY && t.rx == EMPTY && t.reserved == 0
        && t.permanent == p.streams[i].permanent
    ensures Memory(p.(streams := p.streams[i := t], store := Emptied(p.store, RxAccount(i), p.streams[i].rx)))
  {
    assert StoreValid(p.store);
    hide Memory, StoreValid, Emptied, Reservation;
    EmptiedAccount(p.store, RxAccount(i), p.streams[i].rx);
    CloseQueuesEnd(p, i, Emptied(p.store, RxAccount(i), p.streams[i].rx), t);
  }

  lemma QueueAccounts(p: Pool, i: nat)
    requires Memory(p) && i < |p.streams|
    ensures var s := p.streams[i];
            && StoreValid(p.store) && Account(p.store, TxAccount(i)) && Account(p.store, RxAccount(i))
                && FifoValid(s.tx) && FifoValid(s.rx)
            && p.store.budgets[TxAccount(i)].used == Blocks(s.tx) * BLOCK_SIZE
                && p.store.budgets[RxAccount(i)].used == Blocks(s.rx) * BLOCK_SIZE
  {
    assert StreamMemory(p.store, i, p.streams[i]);
  }

  lemma CloseQueuesMemory(p: Pool, i: nat)
    requires Memory(p) && i < |p.streams|
    ensures Memory(CloseQueues(p, i))
  {
    hide Memory, StoreValid, Emptied, FifoValid, Blocks;
    QueueAccounts(p, i);
    CloseUpload(p, i);
    var s := p.streams[i];
    var half := s.(tx := EMPTY, reserved := 0);
    var mid := p.(streams := p.streams[i := half], store := Emptied(p.store, TxAccount(i), s.tx));
    QueueAccounts(mid, i);
    var q := CloseQueues(p, i);
    CloseDownload(mid, i, q.streams[i]);
    MemorySame(mid.(streams := mid.streams[i := q.streams[i]], store := q.store), q);
  }

  lemma CloseQueuesEnd(p: Pool, i: nat, store: Store, t: Stream)
    requires Memory(p) && i < |p.streams| && Touched(p.store, store, RxAccount(i))
    requires store.budgets[RxAccount(i)].minimum == 0 && store.budgets[RxAccount(i)].used == 0
    requires t.closed && t.tx == p.streams[i].tx == EMPTY && t.rx == EMPTY && t.reserved == 0
        && t.permanent == p.streams[i].permanent
    ensures Memory(p.(streams := p.streams[i := t], store := store))
  {
    assert StreamMemory(p.store, i, p.streams[i]);
    hide StoreValid, Reservation;
    MemoryTouched(p, i, RxAccount(i), store, t);
  }

  lemma ReleaseMemory(p: Pool, i: nat)
    requires Memory(p) && i < |p.streams|
    ensures Memory(ReleaseStream(p, i))
  {
    MemorySame(p, ReleaseStream(p, i));
  }

  lemma UnbindMemory(p: Pool, i: nat, waits: (bool, bool))
    requires Memory(p) && i < |p.streams| && p.streams[i].download < |p.actors| && p.streams[i].upload < |p.actors|
    ensures Memory(Unbind(p, i, waits))
  {
    hide Memory, AddRunning;
    MemorySame(p, Unbind(p, i, waits));
  }

  lemma CloseMemory(p: Pool, i: nat, waits: (bool, bool))
    requires Memory(p)
    ensures Memory(DoClose(p, i, waits))
  {
    hide Memory, CloseQueues, Unbind, ReleaseStream;
    if LiveStream(p, i) && !p.streams[i].closed {
      CloseQueuesMemory(p, i);
      CloseQueuesFrame(p, i);
      var s := p.streams[i];
      var q := CloseQueues(p, i);
      if s.bound && s.download < |p.actors| && s.upload < |p.actors| {
        UnbindMemory(q, i, waits);
        ReleaseMemory(Unbind(q, i, waits), i);
      } else {
        ReleaseMemory(q, i);
      }
    }
  }

  lemma CloseQueuesFrame(p: Pool, i: nat)
    requires Memory(p) && i < |p.streams|
    ensures var q := CloseQueues(p, i);
            q.actors == p.actors && q.groups == p.groups && q.streams[i].download == p.streams[i].download
                && q.streams[i].upload == p.streams[i].upload
  {
  }

  lemma {:induction false} ReleaseAllMemory(p: Pool, requests: seq<Request>)
    requires Memory(p)
    ensures Memory(ReleaseAll(p, requests))
    decreases |requests|
  {
    if requests != [] {
      var q := if requests[0].stream < |p.streams| then ReleaseStream(p, requests[0].stream) else p;
      if requests[0].stream < |p.streams| { ReleaseMemory(p, requests[0].stream); }
      ReleaseAllMemory(q, requests[1..]);
    }
  }

  lemma LedgerMemory(p: Pool, op: Op)
    requires Memory(p) && ByOthers(op)
    ensures Memory(p.(store := p.store.(budgets := Apply(p.store.budgets, op))))
  {
    var budgets := Apply(p.store.budgets, op);
    ApplyWithin(p.store.budgets, op);
    hide Charged, Within, FifoValid, Blocks, Reservation, Succeeds;
    forall i | 0 <= i < |p.streams| ensures StreamMemory(p.store.(budgets := budgets), i, p.streams[i]) {
      assert StreamMemory(p.store, i, p.streams[i]);
    }
  }

  lemma TakeDataMemory(p: Pool, a: nat, k: nat, length: nat, body: seq<Byte>, memory: nat -> bool)
    requires Memory(p) && a < |p.actors| && k < |p.actors[a].requests| && p.actors[a].requests[k].stream < |p.streams|
        && |body| <= length
    requires p.streams[p.actors[a].requests[k].stream].bound
    ensures Memory(TakeData(p, a, k, length, body, memory))
  {
    hide Memory, KeepData;
    var r := p.actors[a].requests[k];
    if r.role.Downloads() && !p.streams[r.stream].closed {
      KeepDataMemory(p, a, k, length, body, memory);
    } else {
      MemorySame(p, TakeData(p, a, k, length, body, memory));
    }
  }

  lemma EndDataMemory(p: Pool, a: nat, k: nat)
    requires Memory(p) && a < |p.actors| && k < |p.actors[a].requests| && p.actors[a].requests[k].stream < |p.streams|
    ensures Memory(EndData(p, a, k)) && Memory(Reject(p, a, k))
  {
    hide Memory, ManagerOf;
    MemorySame(p, EndData(p, a, k));
    MemorySame(p, Reject(p, a, k));
  }

  lemma DataMemory(p: Pool, a: nat, id: nat, length: nat, body: seq<Byte>, valid: bool, end: bool, memory: nat -> bool)
    requires Memory(p)
    ensures Memory(DoData(p, a, id, length, body, valid, end, memory))
  {
    hide Memory, TakeData, EndData, Reject, Judge;
    if Working(p, a) && |body| <= length {
      var v := Judge(p, a, id, length, valid);
      var refunded := SetActor(p, a, Refunded(p.actors[a], length));
      MemorySame(p, refunded);
      if v.Response? {
        TakeDataMemory(p, a, v.k, length, body, memory);
        EndDataMemory(TakeData(p, a, v.k, length, body, memory), a, v.k);
      } else if v.Refused? {
        EndDataMemory(refunded, a, v.k);
      } else if v.Broken? {
        MemorySame(p, FailActor(p, a));
      }
    }
  }

  lemma WindowUpdateMemory(p: Pool, a: nat, id: nat, n: nat)
    requires Memory(p)
    ensures Memory(DoWindowUpdate(p, a, id, n))
  {
    hide Memory;
    MemorySame(p, DoWindowUpdate(p, a, id, n));
  }

  lemma HeadersMemory(p: Pool, a: nat, id: nat, accepted: bool, success: bool, end: bool)
    requires Memory(p)
    ensures Memory(DoHeaders(p, a, id, accepted, success, end))
  {
    hide Memory;
    MemorySame(p, DoHeaders(p, a, id, accepted, success, end));
  }

  lemma RequestMemory(p: Pool, a: nat, k: nat, pending: nat)
    requires Memory(p)
    ensures Memory(DoGoaway(p, a, k)) && Memory(DoEndSend(p, a, k, pending))
  {
    hide Memory;
    MemorySame(p, DoGoaway(p, a, k));
    MemorySame(p, DoEndSend(p, a, k, pending));
  }

  lemma CreditMemory(p: Pool, a: nat, i: nat)
    requires Memory(p)
    ensures Memory(DoCredit(p, a, i))
  {
    hide Memory, CreditDue;
    MemorySame(p, DoCredit(p, a, i));
  }

  lemma SettingsMemory(p: Pool, a: nat, entries: seq<(nat, nat)>)
    requires Memory(p)
    ensures Memory(DoSettings(p, a, entries))
  {
    hide Memory, Settle;
    ActorMemory(p, DoSettings(p, a, entries));
  }

  lemma ResetMemory(p: Pool, a: nat, id: nat, code: nat)
    requires Memory(p)
    ensures Memory(DoReset(p, a, id, code))
  {
    hide Memory, StopUpload;
    if Working(p, a) {
      var k := Find(p.actors[a].requests, id);
      if k < |p.actors[a].requests| && p.actors[a].requests[k].stream < |p.streams| {
        var i := p.actors[a].requests[k].stream;
        StopUploadMemory(p, i);
        var s := p.streams[i];
        var r := p.actors[a].requests[k];
        if !(code != 0 || !r.ended) && !r.role.Packets() && s.bound && s.upload == a && r.id == s.upId {
          MemorySame(StopUpload(p, i), DoReset(p, a, id, code));
        } else {
          MemorySame(p, DoReset(p, a, id, code));
        }
      }
    }
  }

  lemma MoveMemory(p: Pool, i: nat, v: nat)
    requires Memory(p)
    ensures Memory(DoMoveUpload(p, i, v)) && Memory(DoMoveDownload(p, i, v))
  {
    hide Memory, AddRunning;
    MemorySame(p, DoMoveUpload(p, i, v));
    MemorySame(p, DoMoveDownload(p, i, v));
  }

  lemma ActorMemory(p: Pool, q: Pool)
    requires Memory(p) && q.store == p.store && q.streams == p.streams
    ensures Memory(q)
  {
    hide Memory;
    MemorySame(p, q);
  }

  lemma FlagMemory(p: Pool, i: nat)
    requires Memory(p) && i < |p.streams|
    ensures Memory(FailStream(p, i)) && Memory(SetStream(p, i, p.streams[i].(ready := true)))
        && Memory(SetStream(p, i, p.streams[i].(finishRequested := true)))
  {
    hide Memory;
    MemorySame(p, FailStream(p, i));
    MemorySame(p, SetStream(p, i, p.streams[i].(ready := true)));
    MemorySame(p, SetStream(p, i, p.streams[i].(finishRequested := true)));
  }

  lemma StoppedMemory(p: Pool, a: nat)
    requires Memory(p)
    ensures Memory(DoStop(p, a)) && Memory(DoCollectActor(p, a)) && Memory(DoCloseWaited(p, a))
  {
    hide Memory;
    ActorMemory(p, DoStop(p, a));
    ActorMemory(p, DoCollectActor(p, a));
    ActorMemory(p, DoCloseWaited(p, a));
  }

  lemma OpenedMemory(p: Pool, a: nat, w: nat, f: nat)
    requires Memory(p)
    ensures Memory(DoOpened(p, a, w, f))
  {
    hide Memory;
    ActorMemory(p, DoOpened(p, a, w, f));
  }

  lemma ActorFlagMemory(p: Pool, a: nat, n: nat)
    requires Memory(p) && a < |p.actors|
    ensures Memory(AccountOutput(p, a, n)) && Memory(SetActor(p, a, p.actors[a].(draining := true)))
        && Memory(FailActor(p, a))
  {
    hide Memory;
    ActorMemory(p, AccountOutput(p, a, n));
    ActorMemory(p, SetActor(p, a, p.actors[a].(draining := true)));
    ActorMemory(p, FailActor(p, a));
  }

  lemma GroupStepMemory(p: Pool, m: nat)
    requires Memory(p)
    ensures Memory(DoNewGroup(p, m)) && Memory(DoNewActor(p, m)) && Memory(DoCollectGroup(p, m))
  {
    hide Memory;
    ActorMemory(p, DoNewGroup(p, m));
    ActorMemory(p, DoNewActor(p, m));
    ActorMemory(p, DoCollectGroup(p, m));
  }

  lemma RetireMemory(p: Pool, a: nat, k: nat, pending: nat)
    requires Memory(p)
    ensures Memory(DoRetire(p, a, k, pending))
  {
    hide Memory;
    MemorySame(p, DoRetire(p, a, k, pending));
  }

  lemma ExitMemory(p: Pool, a: nat)
    requires Memory(p)
    ensures Memory(DoExit(p, a))
  {
    hide Memory, ReleaseAll;
    if LiveActor(p, a) && !p.actors[a].stopped {
      var q := p.(streams := FailUsers(p.streams, a),
          actors := p.actors[a := p.actors[a].(failed := true, opening := false, requests := [])]);
      MemorySame(p, q);
      ReleaseAllMemory(q, p.actors[a].requests);
    }
  }

  lemma ClearCacheMemory(p: Pool)
    requires Memory(p)
    ensures Memory(p.(store := CacheCleared(p.store)))
  {
    CacheClearedValid(p.store);
    hide Memory, StoreValid, CacheCleared;
    MemoryTrimmed(p, CacheCleared(p.store));
  }

  lemma FrameRawMemory(p: Pool, step: Step)
    requires Memory(p)
    requires OnActor(step) && OnFrame(step)
    ensures Memory(Raw(p, step))
  {
    hide Memory, FailStream, SetStream, AccountOutput, SetActor, FailActor, CacheCleared, Apply;
    hide DoConnect, DoNewGroup, DoNewActor, DoOpened, DoBind, DoMoveUpload, DoMoveDownload, DoStart, DoData,
        DoWindowUpdate, DoSettings, DoReset, DoGoaway, DoHeaders;
    hide DoCredit, DoSend, DoEndSend, DoRetire, DoExit, DoStop, DoCollectActor, DoCollectGroup, DoWrite, DoReserve,
        DoUnreserve, DoRead, DoClose, DoCloseWaited;
    match step {
      case Data(a, id, length, body, valid, end, memory) => DataMemory(p, a, id, length, body, valid, end, memory);
      case ResetStream(a, id, code) => ResetMemory(p, a, id, code);
      case WindowUpdate(a, id, n) => WindowUpdateMemory(p, a, id, n);
      case Headers(a, id, accepted, success, end) => HeadersMemory(p, a, id, accepted, success, end);
      case Settings(a, entries) => SettingsMemory(p, a, entries);
      case Goaway(a, k) => RequestMemory(p, a, k, 0);
      case Credit(a, i) => CreditMemory(p, a, i);
      case Opened(a, w, f) => OpenedMemory(p, a, w, f);
      case Break(a) => if LiveActor(p, a) { ActorFlagMemory(p, a, 0); }
    }
  }

  lemma WorkerRawMemory(p: Pool, step: Step)
    requires Memory(p)
    requires OnActor(step) && !OnFrame(step)
    ensures Memory(Raw(p, step))
  {
    hide Memory, FailStream, SetStream, AccountOutput, SetActor, FailActor, CacheCleared, Apply;
    hide DoConnect, DoNewGroup, DoNewActor, DoOpened, DoBind, DoMoveUpload, DoMoveDownload, DoStart, DoData,
        DoWindowUpdate, DoSettings, DoReset, DoGoaway, DoHeaders;
    hide DoCredit, DoSend, DoEndSend, DoRetire, DoExit, DoStop, DoCollectActor, DoCollectGroup, DoWrite, DoReserve,
        DoUnreserve, DoRead, DoClose, DoCloseWaited;
    match step {
      case Start(a, i, role, id, remaining, inHeader, pending) =>
          StartMemory(p, a, i, role, id, remaining, inHeader, pending);
      case Send(a, i, k, pending) => SendMemory(p, a, i, k, pending);
      case Retire(a, k, pending) => RetireMemory(p, a, k, pending);
      case Exit(a) => ExitMemory(p, a);
      case EndSend(a, k, pending) => RequestMemory(p, a, k, pending);
      case Flushed(a, n) => if Working(p, a) { ActorFlagMemory(p, a, n); }
      case Drain(a) => if LiveActor(p, a) { ActorFlagMemory(p, a, 0); }
      case Stop(a) => StoppedMemory(p, a);
      case CollectActor(a) => StoppedMemory(p, a);
      case CloseWaited(a) => StoppedMemory(p, a);
    }
  }

  lemma StreamRawMemory(p: Pool, step: Step)
    requires Memory(p)
    requires !OnActor(step)
    ensures Memory(Raw(p, step))
  {
    hide Memory, FailStream, SetStream, AccountOutput, SetActor, FailActor, CacheCleared, Apply;
    hide DoConnect, DoNewGroup, DoNewActor, DoOpened, DoBind, DoMoveUpload, DoMoveDownload, DoStart, DoData,
        DoWindowUpdate, DoSettings, DoReset, DoGoaway, DoHeaders;
    hide DoCredit, DoSend, DoEndSend, DoRetire, DoExit, DoStop, DoCollectActor, DoCollectGroup, DoWrite, DoReserve,
        DoUnreserve, DoRead, DoClose, DoCloseWaited;
    match step {
      case Connect => ConnectMemory(p);
      case Bind(i, u, d) => BindMemory(p, i, u, d);
      case Write(i, data, memory) => WriteMemory(p, i, data, memory);
      case Reserve(i, n) => ReserveMemory(p, i, n);
      case Unreserve(i) => UnreserveMemory(p, i);
      case Read(i, n) => ReadMemory(p, i, n);
      case Close(i, waits) => CloseMemory(p, i, waits);
      case Ledger(op) => if ByOthers(op) { LedgerMemory(p, op); }
      case ClearCache => ClearCacheMemory(p);
      case MoveUpload(i, v) => MoveMemory(p, i, v);
      case MoveDownload(i, v) => MoveMemory(p, i, v);
      case Ready(i) => if LiveStream(p, i) { FlagMemory(p, i); }
      case Fail(i) => if LiveStream(p, i) { FlagMemory(p, i); }
      case FinishWrite(i) => if LiveStream(p, i) { FlagMemory(p, i); }
      case NewGroup(m) => GroupStepMemory(p, m);
      case NewActor(g) => GroupStepMemory(p, g);
      case CollectGroup(g) => GroupStepMemory(p, g);
    }
  }

  lemma RawMemory(p: Pool, step: Step)
    requires Memory(p)
    ensures Memory(Raw(p, step))
  {
    hide *;
    if OnActor(step) {
      if OnFrame(step) { FrameRawMemory(p, step); } else { WorkerRawMemory(p, step); }
    } else {
      StreamRawMemory(p, step);
    }
  }

  /** One step. */
  function Next(p: Pool, step: Step): (q: Pool)
    requires Memory(p)
    ensures Memory(q)
  {
    RawMemory(p, step);
    Raw(p, step)
  }

  /** A pool before any stream: the managers are all known, nothing is queued, and the budgets
      are the cache's three and one per direction for everybody else. */
  predicate Blank(p: Pool) {
    && p.streams == [] && p.actors == [] && p.groups == [] && p.uploadBytes == 0 && p.downloadBytes == 0
    && p.store ==
        Store([Budget(0, 0, 0), Budget(0, 0, 1), Budget(0, 0, 0), Budget(0, 0, 0), Budget(0, 0, 1), Budget(0, 0, 2)],
            [0, 0, 0])
  }

  predicate Initial(p: Pool)
    ensures Initial(p) ==> Memory(p)
  {
    Blank(p) && (BlankMemory(p); true)
  }

  lemma BlankMemory(p: Pool)
    requires Blank(p)
    ensures Memory(p)
  {
    forall d | 0 <= d < DIRECTIONS ensures Charged(p.store.budgets, d) == 0 { InitialCharge(p.store.budgets, d); }
    hide Charged;
  }

  lemma {:induction false} InitialCharge(budgets: seq<Budget>, d: nat)
    requires forall i :: 0 <= i < |budgets| ==> budgets[i].Charge() == 0
    ensures Charged(budgets, d) == 0
  {
    if budgets != [] { InitialCharge(budgets[1..], d); }
  }

  function Run(p: Pool, steps: seq<Step>): (q: Pool)
    requires Memory(p)
    ensures Memory(q)
    decreases |steps|
  {
    if steps == [] then p else Next(Run(p, steps[..|steps| - 1]), steps[|steps| - 1])
  }
}
