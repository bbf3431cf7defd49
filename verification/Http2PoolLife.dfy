/** The life of a request over whole runs: what it has been through it never forgets, its identifier is
    never used again, and after its end nothing more is sent on it. */
module Http2PoolLife {
  import opened Bytes
  import opened BufferBudget
  import opened Http2Queue
  import opened Http2Pool
  import opened Http2PoolRuns
  import opened Http2PoolLinks
  import opened Http2PoolSend
  import opened Http2PoolLedger

  /** Nothing may be sent on it any more: it was reset, or its upload has ended. */
  predicate Over(r: Request) { r.reset || r.sendEnded }

  /** The same request at a later time. */
  predicate Later(r: Request, t: Request) {
    && t.id == r.id && t.stream == r.stream && t.role == r.role
    && (r.headers ==> t.headers) && (r.ended ==> t.ended) && (r.reset ==> t.reset) && (r.sendEnded ==> t.sendEnded)
    && (Over(r) ==> t.sent == r.sent)
  }

  predicate Ages(x: Actor, y: Actor) {
    && (x.failed ==> y.failed) && y.latest == x.latest && |y.requests| == |x.requests|
    && forall k :: 0 <= k < |x.requests| ==> Later(x.requests[k], y.requests[k])
  }

  predicate AllAge(p: Pool, q: Pool) {
    |q.actors| == |p.actors| && forall a :: 0 <= a < |p.actors| ==> Ages(p.actors[a], q.actors[a])
  }

  /** Every request is one of before, or its identifier is new. */
  predicate Lives(p: Pool, q: Pool, a: nat) {
    a < |p.actors| ==>
      && a < |q.actors|
      && var x := p.actors[a]; var y := q.actors[a];
         !y.failed ==>
           && !x.failed && y.latest >= x.latest
           && forall k :: 0 <= k < |y.requests| ==> Descends(x, y.requests[k])
  }

  predicate Descends(x: Actor, t: Request) {
    t.id > x.latest || exists j :: 0 <= j < |x.requests| && Later(x.requests[j], t)
  }

  // ----- steps that keep the list -----

  lemma SameActorsAge(p: Pool, q: Pool)
    requires q.actors == p.actors
    ensures AllAge(p, q)
  {
  }

  lemma ActorAges(p: Pool, a: nat, y: Actor)
    requires a < |p.actors| && Ages(p.actors[a], y)
    ensures AllAge(p, SetActor(p, a, y))
  {
  }

  lemma AllAgeTwice(p: Pool, q: Pool, r: Pool)
    requires AllAge(p, q) && AllAge(q, r)
    ensures AllAge(p, r)
  {
    forall a | 0 <= a < |p.actors| ensures Ages(p.actors[a], r.actors[a]) {
      AgesTwice(p.actors[a], q.actors[a], r.actors[a]);
    }
  }

  lemma AgesTwice(x: Actor, y: Actor, z: Actor)
    requires Ages(x, y) && Ages(y, z)
    ensures Ages(x, z)
  {
    forall k | 0 <= k < |x.requests| ensures Later(x.requests[k], z.requests[k]) {
      assert Later(x.requests[k], y.requests[k]) && Later(y.requests[k], z.requests[k]);
    }
  }

  lemma RejectAges(p: Pool, a: nat, k: nat)
    requires a < |p.actors| && k < |p.actors[a].requests| && p.actors[a].requests[k].stream < |p.streams|
    ensures AllAge(p, Reject(p, a, k)) && AllAge(p, EndData(p, a, k))
  {
    hide ManagerOf;
  }

  lemma SpendAges(p: Pool, a: nat, k: nat, length: nat)
    requires a < |p.actors| && k < |p.actors[a].requests|
    ensures AllAge(p, SpendWindows(p, a, k, length)) && AllAge(p, FailActor(SpendWindows(p, a, k, length), a))
    ensures AllAge(p, SetActor(p, a, Refunded(p.actors[a], length)))
  {
  }

  lemma TakeAges(p: Pool, a: nat, k: nat, length: nat, body: seq<Byte>, memory: nat -> bool)
    requires Memory(p) && a < |p.actors| && k < |p.actors[a].requests| && p.actors[a].requests[k].stream < |p.streams|
        && |body| <= length
    ensures AllAge(p, TakeData(p, a, k, length, body, memory))
  {
    hide Memory, Enqueue, SpendWindows, FailActor, AllAge;
    var q := Enqueue(p, p.actors[a].requests[k].stream, length, body, memory).1;
    SameActorsAge(p, q);
    SpendAges(q, a, k, length);
    SpendAges(p, a, k, length);
    AllAgeTwice(p, q, SpendWindows(q, a, k, length));
    AllAgeTwice(p, q, FailActor(SpendWindows(q, a, k, length), a));
  }

  lemma DataAges(p: Pool, a: nat, id: nat, length: nat, body: seq<Byte>, valid: bool, end: bool, memory: nat -> bool)
    requires Memory(p)
    ensures AllAge(p, DoData(p, a, id, length, body, valid, end, memory))
  {
    hide Memory, Judge, TakeData, EndData, Reject, AllAge;
    SameActorsAge(p, p);
    if Working(p, a) && |body| <= length {
      FlagsAge(p, a, 0);
      RefundAges(p, a, length);
      var v := Judge(p, a, id, length, valid);
      if v.Response? {
        TakeAges(p, a, v.k, length, body, memory);
        var q := TakeData(p, a, v.k, length, body, memory);
        RejectAges(q, a, v.k);
        AllAgeTwice(p, q, EndData(q, a, v.k));
      } else if v.Refused? {
        var q := SetActor(p, a, Refunded(p.actors[a], length));
        RejectAges(q, a, v.k);
        AllAgeTwice(p, q, Reject(q, a, v.k));
      }
    }
  }

  lemma RefundAges(p: Pool, a: nat, length: nat)
    requires a < |p.actors|
    ensures AllAge(p, SetActor(p, a, Refunded(p.actors[a], length)))
  {
  }

  lemma UpdateAges(p: Pool, a: nat, id: nat, n: nat)
    ensures AllAge(p, DoWindowUpdate(p, a, id, n))
  {
    hide Find;
  }

  lemma OpenedAges(p: Pool, a: nat, n: nat, f: nat)
    ensures AllAge(p, DoOpened(p, a, n, f))
  {
  }

  lemma {:induction false} SettleAges(x: Actor, entries: seq<(nat, nat)>)
    ensures Ages(x, Settle(x, entries))
    decreases |entries|
  {
    if entries != [] {
      var (id, value) := entries[0];
      var y := if id == 4 then x.(peerWindow := value, requests := Shifted(x.requests, value - x.peerWindow))
               else if id == 5 then x.(peerFrame := value) else x;
      SettleAges(y, entries[1..]);
      assert Ages(x, y);
      AgesTwice(x, y, Settle(y, entries[1..]));
    }
  }

  lemma SettingsAge(p: Pool, a: nat, entries: seq<(nat, nat)>)
    ensures AllAge(p, DoSettings(p, a, entries))
  {
    hide Settle, Ages;
    SameActorsAge(p, p);
    if Working(p, a) {
      SettleAges(p.actors[a], entries);
      ActorAges(p, a, Settle(p.actors[a], entries));
    }
  }

  lemma ResetAges(p: Pool, a: nat, id: nat, code: nat)
    requires Memory(p)
    ensures AllAge(p, DoReset(p, a, id, code))
  {
    hide Memory, Emptied, StreamMemory, Find;
  }

  lemma HeadersAge(p: Pool, a: nat, id: nat, accepted: bool, success: bool, end: bool)
    ensures AllAge(p, DoHeaders(p, a, id, accepted, success, end))
  {
    hide Find;
  }

  lemma GoawayAges(p: Pool, a: nat, k: nat)
    ensures AllAge(p, DoGoaway(p, a, k))
  {
  }

  lemma CreditAges(p: Pool, a: nat, i: nat)
    ensures AllAge(p, DoCredit(p, a, i))
  {
    hide CreditDue, Find;
  }

  lemma EndSendAges(p: Pool, a: nat, k: nat, n: nat)
    ensures AllAge(p, DoEndSend(p, a, k, n))
  {
  }

  lemma FlagsAge(p: Pool, a: nat, n: nat)
    ensures a < |p.actors| ==> AllAge(p, AccountOutput(p, a, n)) && AllAge(p, FailActor(p, a))
    ensures a < |p.actors| ==> AllAge(p, SetActor(p, a, p.actors[a].(draining := true)))
  {
  }

  lemma EndsAge(p: Pool, a: nat)
    ensures AllAge(p, DoStop(p, a)) && AllAge(p, DoCollectActor(p, a)) && AllAge(p, DoCloseWaited(p, a))
  {
  }

  lemma CloseAges(p: Pool, i: nat, waits: (bool, bool))
    requires Memory(p)
    ensures AllAge(p, DoClose(p, i, waits))
  {
    hide Memory, StreamMemory, Emptied, AddRunning;
  }

  /** What may be sent is not over. */
  lemma SendAges(p: Pool, a: nat, i: nat, k: nat, pending: nat)
    requires Memory(p)
    ensures AllAge(p, DoSend(p, a, i, k, pending))
  {
    hide Memory, DropUpload, SendLength, FifoValid;
  }

  lemma StreamsAge(p: Pool, i: nat, n: nat, v: nat, data: seq<Byte>, memory: nat -> bool)
    requires Memory(p)
    ensures AllAge(p, DoWrite(p, i, data, memory)) && AllAge(p, DoReserve(p, i, n))
        && AllAge(p, DoUnreserve(p, i)) && AllAge(p, DoRead(p, i, n))
    ensures AllAge(p, DoMoveUpload(p, i, v)) && AllAge(p, DoMoveDownload(p, i, v))
        && AllAge(p, DoBind(p, i, n, v)) && AllAge(p, DoConnect(p))
  {
    hide Memory, StreamMemory, Consume, UpdateUpload, WriteAppend, Trimmed, WriteCapacity, Succeeds, GoodAttempt,
        AddRunning, BindStore, AllAge;
    SameActorsAge(p, DoWrite(p, i, data, memory));
    SameActorsAge(p, DoReserve(p, i, n));
    SameActorsAge(p, DoUnreserve(p, i));
    SameActorsAge(p, DoRead(p, i, n));
    SameActorsAge(p, DoMoveUpload(p, i, v));
    SameActorsAge(p, DoMoveDownload(p, i, v));
    SameActorsAge(p, DoBind(p, i, n, v));
    SameActorsAge(p, DoConnect(p));
  }

  // ----- steps that change the list -----

  predicate Listing(step: Step) { step.NewActor? || step.Start? || step.Retire? || step.Exit? }

  lemma NewActorLives(p: Pool, g: nat, a: nat)
    ensures Lives(p, DoNewActor(p, g), a)
  {
    if a < |p.actors| { Alive(p.actors[a]); }
    hide Descends;
  }

  lemma Alive(x: Actor)
    ensures forall k :: 0 <= k < |x.requests| ==> Descends(x, x.requests[k])
  {
    forall k | 0 <= k < |x.requests| ensures Descends(x, x.requests[k]) {
      assert Later(x.requests[k], x.requests[k]);
    }
  }

  lemma StartLives(p: Pool, a: nat, i: nat, role: Role, id: nat, remaining: nat, inHeader: nat, pending: nat, b: nat)
    requires Memory(p)
    ensures Lives(p, DoStart(p, a, i, role, id, remaining, inHeader, pending), b)
  {
    hide Memory, UpdateUpload, Consume, StreamMemory, GrowWindow, InitialWindow, ManagerOf, Descends;
    var q := DoStart(p, a, i, role, id, remaining, inHeader, pending);
    if b < |p.actors| { Alive(p.actors[b]); }
    if q != p {
      GrowStays(AccountOutput(p, a, pending).actors[a], InitialWindow(ManagerOf(p, a)));
      if b == a { NewDescends(p.actors[a], q.actors[a].requests[0]); }
    }
  }

  lemma NewDescends(x: Actor, t: Request)
    requires t.id > x.latest
    ensures Descends(x, t)
  {
  }

  lemma GrowStays(x: Actor, w: nat)
    ensures var y := GrowWindow(x, w); y.requests == x.requests && y.latest == x.latest && y.failed == x.failed
  {
  }

  lemma RetireLives(p: Pool, a: nat, k: nat, pending: nat, b: nat)
    ensures Lives(p, DoRetire(p, a, k, pending), b)
  {
    hide Finished, Descends;
    if b < |p.actors| { Alive(p.actors[b]); }
  }

  lemma ExitLives(p: Pool, a: nat, b: nat)
    ensures Lives(p, DoExit(p, a), b)
  {
    hide ReleaseAll, Descends;
    if LiveActor(p, a) && !p.actors[a].stopped {
      ReleaseAllActors(p.(streams := FailUsers(p.streams, a),
          actors := p.actors[a := p.actors[a].(failed := true, opening := false, requests := [])]),
              p.actors[a].requests);
    }
    if b < |p.actors| { Alive(p.actors[b]); }
  }

  // ----- every step -----

  lemma FramesAge(p: Pool, step: Step)
    requires Memory(p) && OnFrame(step)
    ensures AllAge(p, Raw(p, step))
  {
    hide Memory, AllAge, AccountOutput, FailActor, SetActor, Apply, CacheCleared;
    hide DoConnect, DoNewActor, DoOpened, DoBind, DoMoveUpload, DoMoveDownload, DoStart, DoData, DoWindowUpdate,
        DoSettings, DoReset, DoGoaway, DoHeaders;
    hide DoCredit, DoSend, DoEndSend, DoRetire, DoExit, DoStop, DoCollectActor, DoWrite, DoReserve, DoUnreserve,
        DoRead, DoClose, DoCloseWaited;
    SameActorsAge(p, p);
    match step {
      case Opened(a, w, f) => OpenedAges(p, a, w, f);
      case Data(a, id, length, body, valid, end, memory) => DataAges(p, a, id, length, body, valid, end, memory);
      case WindowUpdate(a, id, n) => UpdateAges(p, a, id, n);
      case Settings(a, entries) => SettingsAge(p, a, entries);
      case ResetStream(a, id, code) => ResetAges(p, a, id, code);
      case Headers(a, id, accepted, success, end) => HeadersAge(p, a, id, accepted, success, end);
      case Goaway(a, k) => GoawayAges(p, a, k);
      case Credit(a, i) => CreditAges(p, a, i);
      case Break(a) => FlagsAge(p, a, 0);
    }
  }

  lemma ActorsAge(p: Pool, step: Step)
    requires Memory(p) && OnActor(step) && !OnFrame(step) && !Listing(step)
    ensures AllAge(p, Raw(p, step))
  {
    hide Memory, AllAge, AccountOutput, FailActor, SetActor, Apply, CacheCleared;
    hide DoConnect, DoNewActor, DoOpened, DoBind, DoMoveUpload, DoMoveDownload, DoStart, DoData, DoWindowUpdate,
        DoSettings, DoReset, DoGoaway, DoHeaders;
    hide DoCredit, DoSend, DoEndSend, DoRetire, DoExit, DoStop, DoCollectActor, DoWrite, DoReserve, DoUnreserve,
        DoRead, DoClose, DoCloseWaited;
    SameActorsAge(p, p);
    match step {
      case Send(a, i, k, pending) => SendAges(p, a, i, k, pending);
      case EndSend(a, k, n) => EndSendAges(p, a, k, n);
      case Flushed(a, n) => FlagsAge(p, a, n);
      case Drain(a) => FlagsAge(p, a, 0);
      case Stop(a) => EndsAge(p, a);
      case CollectActor(a) => EndsAge(p, a);
      case CloseWaited(a) => EndsAge(p, a);
    }
  }

  lemma OthersAge(p: Pool, step: Step)
    requires Memory(p) && !OnActor(step) && !Listing(step)
    ensures AllAge(p, Raw(p, step))
  {
    hide Memory, AllAge, AccountOutput, FailActor, SetActor, Apply, CacheCleared;
    hide DoConnect, DoNewActor, DoOpened, DoBind, DoMoveUpload, DoMoveDownload, DoStart, DoData, DoWindowUpdate,
        DoSettings, DoReset, DoGoaway, DoHeaders;
    hide DoCredit, DoSend, DoEndSend, DoRetire, DoExit, DoStop, DoCollectActor, DoWrite, DoReserve, DoUnreserve,
        DoRead, DoClose, DoCloseWaited;
    match step {
      case Close(i, waits) => CloseAges(p, i, waits);
      case Connect => StreamsAge(p, 0, 0, 0, [], x => true);
      case Bind(i, u, d) => StreamsAge(p, i, u, d, [], x => true);
      case MoveUpload(i, v) => StreamsAge(p, i, 0, v, [], x => true);
      case MoveDownload(i, v) => StreamsAge(p, i, 0, v, [], x => true);
      case Write(i, data, memory) => StreamsAge(p, i, 0, 0, data, memory);
      case Reserve(i, n) => StreamsAge(p, i, n, 0, [], x => true);
      case Unreserve(i) => StreamsAge(p, i, 0, 0, [], x => true);
      case Read(i, n) => StreamsAge(p, i, n, 0, [], x => true);
      case NewGroup(m) => SameActorsAge(p, Raw(p, step));
      case CollectGroup(g) => SameActorsAge(p, Raw(p, step));
      case Ready(i) => SameActorsAge(p, Raw(p, step));
      case Fail(i) => SameActorsAge(p, Raw(p, step));
      case FinishWrite(i) => SameActorsAge(p, Raw(p, step));
      case Ledger(_) => SameActorsAge(p, Raw(p, step));
      case ClearCache => SameActorsAge(p, Raw(p, step));
    }
  }

  lemma AgedLives(p: Pool, q: Pool, a: nat)
    requires AllAge(p, q)
    ensures Lives(p, q, a)
  {
    if a < |p.actors| {
      var x, y := p.actors[a], q.actors[a];
      assert Ages(x, y);
      forall k | 0 <= k < |y.requests| ensures Descends(x, y.requests[k]) {
        assert Later(x.requests[k], y.requests[k]);
      }
    }
  }

  lemma LivesNext(p: Pool, step: Step, a: nat)
    requires Memory(p)
    ensures Lives(p, Next(p, step), a)
  {
    hide Memory, AllAge, Lives, AccountOutput, FailActor, SetActor, Apply, CacheCleared;
    hide DoConnect, DoNewActor, DoOpened, DoBind, DoMoveUpload, DoMoveDownload, DoStart, DoData, DoWindowUpdate,
        DoSettings, DoReset, DoGoaway, DoHeaders;
    hide DoCredit, DoSend, DoEndSend, DoRetire, DoExit, DoStop, DoCollectActor, DoWrite, DoReserve, DoUnreserve,
        DoRead, DoClose, DoCloseWaited;
    if !Listing(step) {
      KeptAge(p, step);
      AgedLives(p, Next(p, step), a);
    } else {
      match step {
        case NewActor(g) => NewActorLives(p, g, a);
        case Start(b, i, role, id, remaining, inHeader, pending) =>
          StartLives(p, b, i, role, id, remaining, inHeader, pending, a);
        case Retire(b, k, pending) => RetireLives(p, b, k, pending, a);
        case Exit(b) => ExitLives(p, b, a);
      }
    }
  }

  lemma KeptAge(p: Pool, step: Step)
    requires Memory(p) && !Listing(step)
    ensures AllAge(p, Next(p, step))
  {
    hide Memory, AllAge;
    if OnFrame(step) { FramesAge(p, step); } else if OnActor(step) { ActorsAge(p, step); } else { OthersAge(p, step); }
  }

  // ----- every run -----

  lemma LivesTwice(p: Pool, q: Pool, r: Pool, a: nat)
    requires Lives(p, q, a) && Lives(q, r, a)
    ensures Lives(p, r, a)
  {
    if a < |p.actors| && !r.actors[a].failed {
      var x, y, z := p.actors[a], q.actors[a], r.actors[a];
      forall k | 0 <= k < |z.requests| ensures Descends(x, z.requests[k]) {
        assert Descends(y, z.requests[k]);
        if z.requests[k].id <= y.latest {
          var j :| 0 <= j < |y.requests| && Later(y.requests[j], z.requests[k]);
          assert Descends(x, y.requests[j]);
          if y.requests[j].id <= x.latest {
            var i :| 0 <= i < |x.requests| && Later(x.requests[i], y.requests[j]);
            assert Later(x.requests[i], z.requests[k]);
          }
        }
      }
    }
  }

  lemma {:induction false} LivesRun(p: Pool, before: seq<Step>, after: seq<Step>, a: nat)
    requires Memory(p)
    ensures Lives(Run(p, before), Run(p, before + after), a)
    decreases |after|
  {
    hide Memory, Next, Lives;
    if after == [] {
      assert before + after == before;
      SameActorsAge(Run(p, before), Run(p, before));
      AgedLives(Run(p, before), Run(p, before), a);
    } else {
      var front, last := after[..|after| - 1], after[|after| - 1];
      var all := before + after;
      assert all[..|all| - 1] == before + front && all[|all| - 1] == last;
      LivesRun(p, before, front, a);
      LivesNext(Run(p, before + front), last, a);
      LivesTwice(Run(p, before), Run(p, before + front), Run(p, all), a);
    }
  }

  /** Over every run: a request that is still there is the one that had its identifier before, it has
      forgotten nothing, and if it was reset or its upload had ended, the steps since then sent nothing on it. */
  lemma NothingAfterEnd(p: Pool, before: seq<Step>, after: seq<Step>, a: nat, j: nat, k: nat)
    requires Initial(p)
    requires a < |Run(p, before).actors| && a < |Run(p, before + after).actors|
    requires var x := Run(p, before).actors[a]; var y := Run(p, before + after).actors[a];
             !y.failed && j < |x.requests| && k < |y.requests| && y.requests[k].id == x.requests[j].id
    ensures var r := Run(p, before).actors[a].requests[j];
            && Later(r, Run(p, before + after).actors[a].requests[k])
            && (Over(r) ==> Uploaded(p, before + after, a, r.id) == Uploaded(p, before, a, r.id))
  {
    hide Memory, Initial, Run, Links, GroupsExist, Sends, SendsWithin, Uploaded, Granted, Announced, Later;
    LivesRun(p, before, after, a);
    SendRun(p, before);
    var x, y := Run(p, before).actors[a], Run(p, before + after).actors[a];
    var t := y.requests[k];
    OnlyOne(Run(p, before), a, j, t);
    PostedRun(p, before, a);
    PostedRun(p, before + after, a);
    assert RequestPosted(p, before, a, x.requests[j]) && RequestPosted(p, before + after, a, t);
    LaterSent(x.requests[j], t);
  }

  lemma LaterSent(r: Request, t: Request)
    requires Later(r, t)
    ensures Over(r) ==> t.sent == r.sent
  {
  }

  /** There is one request with an identifier. */
  lemma OnlyOne(p: Pool, a: nat, j: nat, t: Request)
    requires Links(p) && a < |p.actors| && j < |p.actors[a].requests| && Descends(p.actors[a], t)
    requires t.id == p.actors[a].requests[j].id
    ensures Later(p.actors[a].requests[j], t)
  {
    assert ActorLinks(p, a);
    var x := p.actors[a];
    assert RequestLink(p, a, x.requests[j]);
    hide Links, RequestLink;
    var i :| 0 <= i < |x.requests| && Later(x.requests[i], t);
    assert i == j;
  }

  // ----- frames that end requests -----

  predicate Names(x: Actor, id: nat, i: nat) {
    exists k :: 0 <= k < |x.requests| && x.requests[k].id == id && x.requests[k].stream == i
  }

  /** RST_STREAM ends exactly the request it names, for both directions; its stream fails unless the peer
      said NO_ERROR after its whole response. */
  predicate WasReset(p: Pool, q: Pool, a: nat, id: nat, code: nat) {
    && a < |p.actors| && |q.actors| == |p.actors| && |q.streams| == |p.streams|
    && (forall b :: 0 <= b < |p.actors| && b != a ==> q.actors[b] == p.actors[b])
    && var x := p.actors[a]; var y := q.actors[a];
       && |y.requests| == |x.requests| && y == x.(requests := y.requests)
       && (forall k :: 0 <= k < |x.requests| ==>
             var r := x.requests[k];
             y.requests[k] == if r.id == id then r.(ended := true, reset := true, sendEnded := true) else r)
       && (forall k :: 0 <= k < |x.requests| && x.requests[k].id == id ==>
             var r := x.requests[k];
             && r.stream < |p.streams|
             && q.streams[r.stream].failed == (p.streams[r.stream].failed || code != 0 || !r.ended))
       && (forall i :: 0 <= i < |p.streams| && !Names(x, id, i) ==> q.streams[i] == p.streams[i])
  }

  lemma ResetDoes(p: Pool, a: nat, id: nat, code: nat)
    requires Memory(p) && Links(p) && Working(p, a)
    ensures WasReset(p, DoReset(p, a, id, code), a, id, code)
  {
    var x := p.actors[a];
    assert ActorLinks(p, a);
    var k := Find(x.requests, id);
    forall j | 0 <= j < |x.requests| && x.requests[j].id == id ensures j == k {
      FindsIt(x.requests, id, j);
    }
    if k < |x.requests| {
      assert RequestLink(p, a, x.requests[k]);
      hide Links, Find, Memory, DoReset;
      ResetFound(p, a, id, code, k);
      assert Names(x, id, x.requests[k].stream);
    } else {
      hide Links, Find, Memory, Emptied, StreamMemory;
    }
  }

  lemma ResetFound(p: Pool, a: nat, id: nat, code: nat, k: nat)
    requires Memory(p) && Working(p, a) && k < |p.actors[a].requests| && p.actors[a].requests[k].stream < |p.streams|
    requires k == Find(p.actors[a].requests, id)
    ensures var q := DoReset(p, a, id, code); var x := p.actors[a]; var r := x.requests[k]; var i := r.stream;
            && q.actors == p.actors[a := SetRequest(x, k, r.(ended := true, reset := true, sendEnded := true))]
            && |q.streams| == |p.streams| && q.streams == p.streams[i := q.streams[i]]
            && q.streams[i].failed == (p.streams[i].failed || code != 0 || !r.ended)
  {
    hide Find, Memory, Emptied, StreamMemory;
  }

  /** The requests that GOAWAY refuses: all after an error, otherwise those the peer has not seen. */
  predicate Refuses(r: Request, last: nat, code: nat) { code != 0 || r.id > last }

  /** GOAWAY, as far as the first `n` requests: exactly the refused ones are over and their streams have
      failed, and the connection takes no new ones. */
  predicate GoneAway(p: Pool, q: Pool, a: nat, last: nat, code: nat, n: nat) {
    && a < |p.actors| && n <= |p.actors[a].requests| && |q.streams| == |p.streams|
    && var x := p.actors[a];
       && |q.actors| == |p.actors| && |q.actors[a].requests| == |x.requests|
       && q == p.(streams := q.streams,
                  actors := p.actors[a := x.(draining := true, requests := q.actors[a].requests)])
       && (forall k :: 0 <= k < |x.requests| ==>
             var r := x.requests[k];
             q.actors[a].requests[k] == if k < n && Refuses(r, last, code) then r.(ended := true) else r)
       && (forall i :: 0 <= i < |p.streams| ==>
             q.streams[i] == if RefusedOn(x, last, code, n, i) then p.streams[i].(failed := true) else p.streams[i])
  }

  predicate RefusedOn(x: Actor, last: nat, code: nat, n: nat, i: nat)
    requires n <= |x.requests|
  {
    exists k :: 0 <= k < n && x.requests[k].stream == i && Refuses(x.requests[k], last, code)
  }

  lemma GoneNone(p: Pool, a: nat, last: nat, code: nat)
    requires a < |p.actors|
    ensures GoneAway(p, SetActor(p, a, p.actors[a].(draining := true)), a, last, code, 0)
  {
  }

  lemma GoneMore(p: Pool, q: Pool, a: nat, last: nat, code: nat, n: nat)
    requires GoneAway(p, q, a, last, code, n) && n < |p.actors[a].requests|
        && p.actors[a].requests[n].stream < |p.streams|
    ensures Refuses(p.actors[a].requests[n], last, code) && Working(q, a) ==>
              GoneAway(p, DoGoaway(q, a, n), a, last, code, n + 1)
    ensures !Refuses(p.actors[a].requests[n], last, code) ==> GoneAway(p, q, a, last, code, n + 1)
  {
    var x := p.actors[a];
    forall i | 0 <= i < |p.streams|
      ensures RefusedOn(x, last, code, n + 1, i) <==>
              RefusedOn(x, last, code, n, i) || (x.requests[n].stream == i && Refuses(x.requests[n], last, code))
    {
    }
    hide Refuses, RefusedOn;
  }
}
