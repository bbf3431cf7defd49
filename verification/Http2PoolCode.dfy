/** The functions of src/http2_pool.c as code over the fields the pool's lock protects; each is
    proved to do what its step of the model does. */
module Http2PoolCode {
  import opened Bytes
  import opened Sums
  import opened BufferBudget
  import opened Http2Queue
  import opened Http2Pool
  import opened Http2PoolRuns
  import opened Http2PoolLinks
  import opened Http2PoolReceive
  import opened Http2PoolFlow
  import opened Http2PoolSend
  import opened Http2PoolOwnership
  import opened Http2PoolUpload
  import opened Http2PoolInvariant
  import opened Http2PoolStall
  import opened Http2PoolLedger
  import opened Http2PoolLife

  function NoSteps(i: nat): seq<Step> { [] }

  /** The requests that stay. */
  function Unfinished(p: Pool, requests: seq<Request>): seq<Request> {
    if requests == [] then [] else
      var last := requests[|requests| - 1];
      Unfinished(p, requests[..|requests| - 1]) + if Finished(p, last) then [] else [last]
  }

  /** As far as requests can tell, the streams are as they were. */
  predicate SameFates(p: Pool, q: Pool) {
    && |q.streams| == |p.streams|
    && forall i ::
        0 <= i < |p.streams| ==>
            q.streams[i].closed == p.streams[i].closed && q.streams[i].failed == p.streams[i].failed
  }

  lemma UnfinishedNext(p: Pool, requests: seq<Request>, n: nat)
    requires n < |requests|
    ensures Unfinished(p, requests[..n + 1]) == Unfinished(p, requests[..n]) + if Finished(p, requests[n]) then []
        else [requests[n]]
  {
    assert requests[..n + 1][..n] == requests[..n];
  }

  /** Of `requests`, the first `n` were examined: the `k` that stay are in front in `list`. */
  predicate Examined(p: Pool, requests: seq<Request>, n: nat, list: seq<Request>, k: nat) {
    n <= |requests| && k == |Unfinished(p, requests[..n])| && list == Unfinished(p, requests[..n]) + requests[n..]
  }

  lemma ExaminedStart(p: Pool, requests: seq<Request>)
    ensures Examined(p, requests, 0, requests, 0)
  {
  }

  lemma ExaminedNext(p: Pool, requests: seq<Request>, n: nat, list: seq<Request>, k: nat)
    requires Examined(p, requests, n, list, k) && k < |list|
    ensures Finished(p, list[k]) ==> Examined(p, requests, n + 1, list[..k] + list[k + 1..], k)
    ensures !Finished(p, list[k]) ==> Examined(p, requests, n + 1, list, k + 1)
  {
    hide Finished, Unfinished;
    UnfinishedNext(p, requests, n);
    assert list[k] == requests[n];
  }

  lemma ExaminedEnd(p: Pool, requests: seq<Request>, n: nat, list: seq<Request>, k: nat)
    requires Examined(p, requests, n, list, k) && k >= |list|
    ensures list == Unfinished(p, requests)
  {
    hide Unfinished;
    assert n == |requests| && requests[..n] == requests;
  }

  /** Between two requests of the loop: some Retire steps were taken. */
  ghost predicate Retiring(before: Pool, p: Pool, steps: seq<Step>, a: nat) {
    && Memory(before) && Memory(p) && p == Run(before, steps) && SameFates(before, p) && Working(p, a)
    && forall j :: 0 <= j < |steps| ==> steps[j].Retire? && steps[j].actor == a
  }

  lemma RetireStart(p: Pool, a: nat)
    requires Memory(p) && Working(p, a)
    ensures Retiring(p, p, [], a) && a < |p.actors|
  {
    hide Memory, Next;
  }

  lemma RetireDoes(p: Pool, a: nat, k: nat, pending: nat)
    requires Working(p, a) && k < |p.actors[a].requests| && Finished(p, p.actors[a].requests[k])
    ensures var q := DoRetire(p, a, k, pending);
            && Working(q, a) && SameFates(p, q) && |q.actors| == |p.actors|
            && q.actors[a].requests == p.actors[a].requests[..k] + p.actors[a].requests[k + 1..]
  {
  }

  lemma RetireIsStep(p: Pool, a: nat, k: nat, pending: nat)
    requires Memory(p)
    ensures Memory(DoRetire(p, a, k, pending)) && Next(p, Step.Retire(a, k, pending)) == DoRetire(p, a, k, pending)
  {
    hide Memory, DoRetire;
    RetireMemory(p, a, k, pending);
  }

  lemma FatesTwice(p: Pool, q: Pool, r: Pool)
    requires SameFates(p, q) && SameFates(q, r)
    ensures SameFates(p, r)
  {
  }

  lemma RetireNext(before: Pool, p: Pool, steps: seq<Step>, a: nat, k: nat, pending: nat)
    requires Retiring(before, p, steps, a) && a < |p.actors| && k < |p.actors[a].requests|
        && Finished(p, p.actors[a].requests[k])
    ensures var q := DoRetire(p, a, k, pending);
            && Retiring(before, q, steps + [Step.Retire(a, k, pending)], a) && |q.actors| == |p.actors|
            && q.actors[a].requests == p.actors[a].requests[..k] + p.actors[a].requests[k + 1..]
  {
    hide Memory, Working, Finished, DoRetire, Next, SameFates;
    RetireDoes(p, a, k, pending);
    RetireIsStep(p, a, k, pending);
    FatesTwice(before, p, DoRetire(p, a, k, pending));
    assert (steps + [Step.Retire(a, k, pending)])[..|steps|] == steps;
  }

  lemma RetiringFacts(before: Pool, p: Pool, steps: seq<Step>, a: nat, r: Request)
    requires Retiring(before, p, steps, a)
    ensures Working(p, a) && Finished(before, r) == Finished(p, r)
  {
    hide Memory, Run, Working;
  }

  class Mux {
    var managers: seq<Manager>
    var streams: seq<Stream>
    var actors: seq<Actor>
    var groups: seq<Group>
    var uploadBytes: int
    var downloadBytes: int
    var store: Store

    function State(): Pool
      reads this
    {
      Pool(managers, streams, actors, groups, uploadBytes, downloadBytes, store)
    }

    /** Every reachable state is valid, and every method below keeps it so. */
    ghost predicate Valid()
      reads this
    {
      Consistent(State())
    }

    /** find_request. */
    method FindRequest(a: nat, id: nat) returns (k: nat)
      requires a < |actors|
      ensures k == Find(actors[a].requests, id)
    {
      var requests := actors[a].requests;
      k := 0;
      while k < |requests| && requests[k].id != id
        invariant k <= |requests| && k + Find(requests[k..], id) == Find(requests, id)
      {
        assert requests[k..][1..] == requests[k + 1..];
        k := k + 1;
      }
    }

    /** The count of downloads in start_request. */
    method CountRequests(a: nat) returns (n: nat)
      requires a < |actors|
      ensures n == CountDownloads(actors[a].requests)
    {
      var requests := actors[a].requests;
      var k := |requests|;
      n := 0;
      while k > 0
        invariant 0 <= k <= |requests| && n == CountDownloads(requests[k..])
      {
        k := k - 1;
        assert requests[k..][1..] == requests[k + 1..];
        if requests[k].role.Downloads() { n := n + 1; }
      }
    }

    /** The connection window of start_request: it grows only when there are more downloads than ever
        before, and then by as much as the advertised total does. */
    method RaiseWindow(a: nat, window: nat)
      requires a < |actors|
      modifies this`actors
      ensures |actors| == |old(actors)|
      ensures var x := old(actors[a]); var y := actors[a]; var downloads := 1 + CountDownloads(x.requests);
              && actors == old(actors)[a := y]
              && y == x.(receiveWindow := y.receiveWindow, creditSent := y.creditSent, receiveSlots := y.receiveSlots)
              && y.receiveSlots == (if x.receiveSlots < downloads then downloads else x.receiveSlots)
              && y.receiveWindow - x.receiveWindow == y.creditSent - x.creditSent
                   == Capacity(y.receiveSlots, window) - Capacity(x.receiveSlots, window)
    {
      hide CountDownloads;
      var others := CountRequests(a);
      var downloads := 1 + others;
      var x := actors[a];
      if downloads > x.receiveSlots {
        MoreSlots(x.receiveSlots, downloads, window);
        var target := if downloads * window > TOTAL_LIMIT then TOTAL_LIMIT else downloads * window;
        var previous := x.receiveSlots * window;
        if previous < BASE_WINDOW { previous := BASE_WINDOW; }
        if previous > TOTAL_LIMIT { previous := TOTAL_LIMIT; }
        var increment := if target > previous then target - previous else 0;
        actors := actors[a := x.(receiveWindow := x.receiveWindow + increment, creditSent := x.creditSent + increment,
                                 receiveSlots := downloads)];
      }
    }

    /** Octets leave the front of an upload queue and its reservation follows. */
    method EmitFront(i: nat, n: nat)
      requires Memory(State()) && i < |streams| && n <= |streams[i].tx.contents|
      modifies this`store, this`streams, this`uploadBytes
      ensures |streams| == |old(streams)| && streams == old(streams)[i := streams[i]]
      ensures streams[i].emitted == old(streams[i].emitted) + old(streams[i].tx.contents)[..n]
      ensures streams[i].tx.contents == old(streams[i].tx.contents)[n..] && uploadBytes == old(uploadBytes) - n
      ensures (store, streams[i]) == DropUpload(old(State()), i, n)
    {
      hide Memory, Consume, Reserved, UploadMinimum, StoreValid, Blocks;
      UploadQueued(State(), i);
      DropUploadMemory(State(), i, n);
      Emits(State(), i, n);
      EmptyUploads(State(), i, n);
      var (t, f) := Consume(store, TxAccount(i), streams[i].tx, n);
      var s := streams[i].(tx := f, emitted := streams[i].emitted + streams[i].tx.contents[..n]);
      store := Reserved(t, TxAccount(i), UploadMinimum(s));
      streams := streams[i := s];
      uploadBytes := uploadBytes - n;
    }

    /** Whether a request of this role may start: what start_request and its callers ask first. */
    method CanStart(a: nat, i: nat, role: Role) returns (ok: bool)
      requires a < |actors| && i < |streams|
      ensures ok <==> MayStart(State(), a, i, role)
    {
      var x, s := actors[a], streams[i];
      ok := !x.freed && !x.failed && !x.stopped && !x.opening && !s.freed && uploadBytes <= UPLOAD_LIMIT
          && x.netAccounted < 65536 &&
        s.bound && !s.failed && !s.closed &&
        (role.Downloads() ==> s.download == a && s.downId == 0) &&
        (!role.Download? ==> s.upload == a && s.upId == 0) &&
        (role.Upload? ==> s.downId != 0) && (role.Packets() ==> s.ready && s.tx.contents != []);
    }

    /** start_request with the conditions of its callers; `id`, `inHeader` and `pending` are what the
        backend reports. */
    method StartRequest(a: nat, i: nat, role: Role, id: nat, remaining: nat, inHeader: nat, pending: nat)
        returns (started: bool)
      requires Valid() && a < |actors| && i < |streams| && id > actors[a].latest
      requires inHeader <= |streams[i].tx.contents| && (inHeader > 0 ==> role.Packet?)
      modifies this
      ensures Valid() && State() == Next(old(State()), Start(a, i, role, id, remaining, inHeader, pending))
      ensures started <==> MayStart(old(State()), a, i, role)
      ensures !started ==> State() == old(State())
      ensures started ==> StartedFor(old(State()), State(), a, i, role, id, inHeader)
    {
      hide Consistent, Memory, DoStart, DropUpload, StartedFor, CountDownloads, Capacity, GrowWindow, InitialWindow,
          MayStart, ManagerOf, Next;
      ghost var before := State();
      ConsistentNext(before, Start(a, i, role, id, remaining, inHeader, pending));
      StartIsNext(before, a, i, role, id, remaining, inHeader, pending);
      started := CanStart(a, i, role);
      if !started { return; }
      StartShows(before, a, i, role, id, remaining, inHeader, pending);
      StartSpelled(before, a, i, role, id, remaining, inHeader, pending);
      var window := InitialWindow(ManagerOf(State(), a));
      if inHeader > 0 { EmitFront(i, inHeader); }
      var s := streams[i];
      uploadBytes := uploadBytes - actors[a].netAccounted + pending;
      actors := actors[a := actors[a].(netAccounted := pending)];
      if role.Downloads() {
        ghost var y := actors[a];
        RaiseWindow(a, window);
        GrowUnique(y, actors[a], window);
      }
      var x := actors[a];
      var r := Request(i, id, role, false, false, role.Download?
          || inHeader > 0, false, x.peerWindow, window, remaining, 0, 0);
      actors := actors[a := x.(requests := [r] + x.requests, latest := id)];
      streams := streams[i := s.(references := s.references + 1, downId := if role.Downloads() then id else s.downId,
                                 upId := if role.Duplex? || role.Upload? then id else s.upId)];
      assert streams == DoStart(before, a, i, role, id, remaining, inHeader, pending).streams;
      assert actors == DoStart(before, a, i, role, id, remaining, inHeader, pending).actors;
    }

    /** The binary search of allocated_write_capacity. */
    static method Search(available: int, length: nat) returns (low: nat)
      requires length <= STREAM_LIMIT
      ensures low == LargestFit(available, length, STREAM_LIMIT - length)
    {
      hide Reservation;
      var high: nat := STREAM_LIMIT - length;
      if available >= Reservation(STREAM_LIMIT) {
        return high;
      }
      low := 0;
      while low < high
        invariant low <= high <= STREAM_LIMIT - length
        invariant low > 0 ==> Fits(available, length, low)
        invariant forall m :: high < m <= STREAM_LIMIT - length ==> !Fits(available, length, m)
      {
        var middle := low + (high - low + 1) / 2;
        if Reservation(length + middle) <= available {
          low := middle;
        } else {
          forall m | middle <= m <= STREAM_LIMIT - length ensures !Fits(available, length, m) {
            ReservationMonotone(length + middle, length + m);
          }
          high := middle - 1;
        }
      }
    }

    /** allocated_write_capacity. */
    method AllocatedWriteCapacity(i: nat) returns (n: nat)
      requires Memory(State()) && i < |streams|
      modifies this`store
      ensures store == Trimmed(old(store)) && TxAccount(i) < |store.budgets| && |streams[i].tx.contents| <= STREAM_LIMIT
      ensures n == WriteCapacity(store, i, streams[i].tx)
    {
      hide Memory, Charged, Reservation, LargestFit, StoreValid;
      UploadAccount(State(), i);
      if Available(store) < Reservation(128 * 1024) {
        store := CacheCleared(store);
      }
      n := Search(Available(store) + store.budgets[TxAccount(i)].Charge(), |streams[i].tx.contents|);
    }

    /** Every open stream with a channel on the actor fails, and no other. */
    method FailStreams(a: nat)
      modifies this`streams
      ensures streams == FailUsers(old(streams), a)
    {
      ghost var before := streams;
      var i := 0;
      while i < |streams|
        invariant i <= |streams| == |before|
        invariant forall j :: 0 <= j < |streams| ==> streams[j] == if j < i then FailUsers(before, a)[j] else before[j]
      {
        var s := streams[i];
        if !s.closed && s.bound && (s.download == a || s.upload == a) {
          streams := streams[i := s.(failed := true)];
        }
        i := i + 1;
      }
    }

    /** The worker's exit: open streams on the actor fail, then its requests are released one by one. */
    method WorkerExit(a: nat)
      requires LiveActor(State(), a) && !actors[a].stopped
      modifies this
      ensures State() == DoExit(old(State()), a)
    {
      hide ReleaseStream, FailUsers;
      ghost var before := State();
      FailStreams(a);
      var requests := actors[a].requests;
      actors := actors[a := actors[a].(failed := true, opening := false, requests := [])];
      ghost var start := State();
      while requests != []
        invariant actors == start.actors
            && ReleaseAll(State(), requests) == ReleaseAll(start, before.actors[a].requests)
        decreases |requests|
      {
        var i := requests[0].stream;
        if i < |streams| {
          ReleaseIs(State(), i);
          var s := streams[i].(references := streams[i].references - 1);
          if s.references == 0 && s.closed {
            uploadBytes := uploadBytes - |s.tx.contents| - s.reserved;
            downloadBytes := downloadBytes - |s.rx.contents|;
            s := s.(freed := true);
          }
          streams := streams[i := s];
        }
        requests := requests[1..];
      }
    }

    /** collect_stopped_actors for one actor: it is freed when no stream in the list uses it. */
    method CollectStopped(a: nat)
      requires LiveActor(State(), a)
      modifies this`actors
      ensures State() == DoCollectActor(old(State()), a)
    {
      var used := false;
      var i := 0;
      while i < |streams| && !used
        invariant i <= |streams|
        invariant used <==> exists j ::
            0 <= j < i && !streams[j].freed && streams[j].bound && (streams[j].download == a || streams[j].upload == a)
      {
        if !streams[i].freed && streams[i].bound
            && (streams[i].download == a || streams[i].upload == a) { used := true; }
        i := i + 1;
      }
      if actors[a].stopped && !used && actors[a].closeWaiters == 0 {
        actors := actors[a := actors[a].(freed := true)];
      }
    }

    /** One entry of SETTINGS that changes the initial window: all requests are examined before any is shifted. */
    method ShiftWindows(a: nat, value: nat) returns (ok: bool)
      requires a < |actors|
      modifies this`actors
      ensures var x := old(actors[a]); var delta := value - x.peerWindow;
              && (ok <==> value <= WINDOW_MAX && forall k ::
                  0 <= k < |x.requests| ==> x.requests[k].sendWindow + delta <= WINDOW_MAX)
              && actors == if ok then old(actors)[a := x.(peerWindow := value, requests := Shifted(x.requests, delta))]
                  else old(actors)
    {
      var x := actors[a];
      if value > WINDOW_MAX { return false; }
      var delta := value - x.peerWindow;
      var k := 0;
      while k < |x.requests|
        invariant k <= |x.requests| && forall j :: 0 <= j < k ==> x.requests[j].sendWindow + delta <= WINDOW_MAX
      {
        if x.requests[k].sendWindow + delta > WINDOW_MAX { return false; }
        k := k + 1;
      }
      var shifted := x.requests;
      k := 0;
      while k < |shifted|
        invariant k <= |shifted| == |x.requests|
        invariant forall j ::
            0 <= j < |shifted| ==> shifted[j] == if j < k then Shifted(x.requests, delta)[j] else x.requests[j]
      {
        shifted := shifted[k := shifted[k].(sendWindow := shifted[k].sendWindow + delta)];
        k := k + 1;
      }
      assert shifted == Shifted(x.requests, delta);
      actors := actors[a := x.(peerWindow := value, requests := shifted)];
      ok := true;
    }

    /** SETTINGS, lines 646-658: the entries are applied unless one of them ends the connection. */
    method ReceiveSettings(a: nat, entries: seq<(nat, nat)>)
      requires Valid() && Working(State(), a)
      modifies this`actors
      ensures Valid() && State() == Next(old(State()), Step.Settings(a, entries))
      ensures |actors| == |old(actors)| && actors == old(actors)[a := actors[a]]
      ensures actors[a].failed <==> exists j :: 0 <= j < |entries| && Unacceptable(old(actors[a]), entries[j])
      ensures !actors[a].failed ==> SettledAs(old(actors[a]), actors[a], entries)
    {
      hide Consistent, Next, Settle, Unacceptable, SettledAs;
      ghost var before := State();
      ConsistentNext(before, Step.Settings(a, entries));
      SettingsIsNext(before, a, entries);
      SettleExact(actors[a], entries);
      ApplySettings(a, entries);
    }

    /** The entries one by one until one ends the connection. */
    method ApplySettings(a: nat, entries: seq<(nat, nat)>)
      requires Working(State(), a)
      modifies this`actors
      ensures State() == DoSettings(old(State()), a, entries)
    {
      ghost var before := State();
      var i := 0;
      while i < |entries|
        invariant i <= |entries| && |actors| == |before.actors|
            && State() == before.(actors := before.actors[a := actors[a]])
        invariant Settle(actors[a], entries[i..]) == Settle(before.actors[a], entries)
      {
        var (id, value) := entries[i];
        assert entries[i..][1..] == entries[i + 1..];
        if id == 4 {
          var ok := ShiftWindows(a, value);
          if !ok {
            actors := actors[a := actors[a].(failed := true)];
            return;
          }
        } else if id == 5 {
          if value < 16384 || value > 16777215 {
            actors := actors[a := actors[a].(failed := true)];
            return;
          }
          actors := actors[a := actors[a].(peerFrame := value)];
        }
        i := i + 1;
      }
    }

    /** WINDOW_UPDATE, lines 660-668: exactly the named window grows, by exactly the increment. */
    method ReceiveWindowUpdate(a: nat, id: nat, n: nat)
      requires Valid() && Working(State(), a)
      modifies this`actors, this`streams
      ensures Valid() && State() == Next(old(State()), Step.WindowUpdate(a, id, n))
      ensures Updated(old(State()), State(), a, id, n)
    {
      hide Consistent, Next, Find, Updated;
      ghost var before := State();
      ConsistentNext(before, Step.WindowUpdate(a, id, n));
      UpdateIsNext(before, a, id, n);
      var x := actors[a];
      if n == 0 || n > WINDOW_MAX {
        actors := actors[a := x.(failed := true)];
      } else if id == 0 {
        if x.sendWindow > WINDOW_MAX - n {
          actors := actors[a := x.(failed := true)];
        } else {
          actors := actors[a := x.(sendWindow := x.sendWindow + n, granted := x.granted + n)];
        }
      } else {
        var k := FindRequest(a, id);
        if k < |x.requests| {
          RequestBound(before, a, k);
          var r := x.requests[k];
          if r.sendWindow > WINDOW_MAX - n {
            actors := actors[a := SetRequest(x, k, r.(ended := true, reset := true))];
            streams := streams[r.stream := streams[r.stream].(failed := true)];
          } else {
            actors := actors[a := SetRequest(x, k, r.(sendWindow := r.sendWindow + n, granted := r.granted + n))];
          }
        }
      }
    }

    /** stop_upload. */
    method StopSending(i: nat)
      requires Memory(State()) && i < |streams|
      modifies this`streams, this`store, this`uploadBytes
      ensures State() == StopUpload(old(State()), i) && |streams| == |old(streams)|
    {
      hide Memory, Emptied, StoreValid, FifoValid, Blocks;
      TxFacts(State(), i);
      var s := streams[i];
      if s.sendStopped { return; }
      uploadBytes := uploadBytes - |s.tx.contents| - s.reserved;
      store := Emptied(store, TxAccount(i), s.tx);
      streams := streams[i := s.(sendStopped := true, tx := EMPTY, reserved := 0, permanent := 0)];
    }

    /** RST_STREAM, lines 669-677. */
    method ReceiveReset(a: nat, id: nat, code: nat)
      requires Valid() && Working(State(), a)
      modifies this
      ensures Valid() && State() == Next(old(State()), ResetStream(a, id, code))
      ensures WasReset(old(State()), State(), a, id, code)
    {
      hide Consistent, Memory, Next, Find, WasReset, StopUpload;
      ghost var before := State();
      ConsistentNext(before, ResetStream(a, id, code));
      ResetIsNext(before, a, id, code);
      var x := actors[a];
      var k := FindRequest(a, id);
      if k < |x.requests| {
        RequestBound(before, a, k);
        var r := x.requests[k];
        var s := streams[r.stream];
        if code != 0 || !r.ended {
          streams := streams[r.stream := s.(failed := true)];
        } else if !r.role.Packets() && s.upload == a && r.id == s.upId {
          StopSending(r.stream);
        }
        actors := actors[a := SetRequest(x, k, r.(ended := true, reset := true, sendEnded := true))];
      }
    }

    /** GOAWAY, lines 678-684. */
    method ReceiveGoaway(a: nat, last: nat, code: nat) returns (ghost steps: seq<Step>)
      requires Valid() && Working(State(), a)
      modifies this`actors, this`streams
      ensures Valid() && State() == Run(old(State()), steps) && forall j :: 0 <= j < |steps| ==> OnActor(steps[j])
      ensures a < |old(actors)| && GoneAway(old(State()), State(), a, last, code, |old(actors[a].requests)|)
    {
      hide Consistent, Memory, Next, GoneAway, Run;
      ghost var before := State();
      DrainIsNext(before, a);
      GoneNone(before, a, last, code);
      actors := actors[a := actors[a].(draining := true)];
      steps := [Drain(a)];
      var k := 0;
      while k < |actors[a].requests|
        invariant a < |before.actors| == |actors| && |actors[a].requests| == |before.actors[a].requests|
        invariant k <= |actors[a].requests| && GoneAway(before, State(), a, last, code, k)
        invariant Valid() && Working(State(), a) && State() == Run(before, steps)
        invariant forall j :: 0 <= j < |steps| ==> OnActor(steps[j])
      {
        var r := actors[a].requests[k];
        GoneRequest(before, State(), a, last, code, k);
        RequestBound(before, a, k);
        GoneMore(before, State(), a, last, code, k);
        if code != 0 || r.id > last {
          GoawayIsNext(before, State(), steps, a, k);
          streams := streams[r.stream := streams[r.stream].(failed := true)];
          actors := actors[a := SetRequest(actors[a].(draining := true), k, r.(ended := true))];
          steps := steps + [Step.Goaway(a, k)];
        }
        k := k + 1;
      }
    }

    /** Lines 729-736 for one stream: credit that is returned goes to the window, and none is lost. */
    method ReturnCredit(a: nat, i: nat) returns (returned: bool)
      requires Working(State(), a) && i < |streams|
      modifies this`streams, this`actors
      ensures State() == DoCredit(old(State()), a, i) && a < |actors| && i < |streams|
      ensures actors[a].receiveWindow + actors[a].pendingCredit + streams[i].consumed ==
              old(actors[a].receiveWindow + actors[a].pendingCredit + streams[i].consumed)
      ensures if returned then streams[i].consumed == 0 && actors[a].pendingCredit == 0 else State() == old(State())
    {
      hide Find, ManagerOf;
      returned := false;
      var s := streams[i];
      var x := actors[a];
      if !s.freed && s.bound && s.download == a && (s.consumed > 0 || x.pendingCredit > 0) && s.downId != 0 {
        var k := FindRequest(a, s.downId);
        if ManagerOf(State(), a).grpc || s.consumed >= LOW_WATER || x.receiveWindow <= LOW_WATER || k == |x.requests| ||
           x.requests[k].receiveWindow <= LOW_WATER || x.requests[k].ended || s.closed || s.failed {
          var amount := s.consumed + x.pendingCredit;
          x := x.(receiveWindow := x.receiveWindow + amount, creditSent := x.creditSent + amount, pendingCredit := 0);
          if k < |x.requests| {
            x := SetRequest(x, k, x.requests[k].(receiveWindow := x.requests[k].receiveWindow + s.consumed));
          }
          actors := actors[a := x];
          streams := streams[i := s.(consumed := 0)];
          returned := true;
        }
      }
    }

    /** The credit of a whole pass, newest stream first. */
    method ReturnCredits(a: nat)
      requires Memory(State()) && Working(State(), a)
      modifies this`streams, this`actors
      ensures Memory(State()) && State() == Pass(old(State()), a, |old(streams)|, NoSteps)
    {
      hide Memory, Pass, DoCredit, Next, Run;
      ghost var before := State();
      var n := |streams|;
      while n > 0
        invariant Memory(State()) && Working(State(), a) && 0 <= n <= |streams|
        invariant Pass(State(), a, n, NoSteps) == Pass(before, a, |before.streams|, NoSteps)
      {
        ghost var p := State();
        PassUnfolds(p, a, n, NoSteps);
        CreditNext(p, a, n - 1);
        n := n - 1;
        var _ := ReturnCredit(a, n);
      }
      PassUnfolds(State(), a, 0, NoSteps);
    }

    /** The size of the next DATA frame: all that the head block, the request, the frame size and
        both windows allow. */
    method FrameLength(a: nat, i: nat, k: nat) returns (length: nat)
      requires Memory(State()) && MaySend(State(), a, i, k) && FifoValid(streams[i].tx)
      ensures length == SendLength(State(), a, i, k)
    {
      hide Memory;
      var x := actors[a];
      var r := x.requests[k];
      var n: int := |streams[i].tx.contents|;
      var span := BLOCK - streams[i].tx.start;
      if n > span { n := span; }
      if r.role.Packets() && n > r.remaining { n := r.remaining; }
      if n > x.peerFrame { n := x.peerFrame; }
      if n > 16384 { n := 16384; }
      if n > x.sendWindow { n := x.sendWindow; }
      if n > r.sendWindow { n := r.sendWindow; }
      length := n;
    }

    /** Lines 815-834 for one stream and its request; `pending` is what the backend has not yet written. */
    method SendData(a: nat, i: nat, k: nat, pending: nat) returns (n: nat)
      requires Valid() && MaySend(State(), a, i, k)
      modifies this
      ensures Valid() && State() == Next(old(State()), Send(a, i, k, pending))
      ensures SentFor(old(State()), State(), a, i, k, n)
    {
      hide Consistent, Memory, DoSend, DropUpload, SentFor, MaySend, Next, SendLength;
      ghost var before := State();
      ConsistentNext(before, Send(a, i, k, pending));
      SendIndices(before, a, i, k);
      SendShows(before, a, i, k, pending);
      n := FrameLength(a, i, k);
      SendSpelled(before, a, i, k, pending, n);
      EmitFront(i, n);
      var x := actors[a];
      var r := x.requests[k];
      r := r.(sendWindow := r.sendWindow - n, sent := r.sent + n, sendEnded := r.role.Packets() && n == r.remaining,
              remaining := if r.role.Packets() then r.remaining - n else r.remaining);
      uploadBytes := uploadBytes - x.netAccounted + pending;
      actors := actors[a :=
          SetRequest(x.(sendWindow := x.sendWindow - n, sent := x.sent + n, netAccounted := pending), k, r)];
      assert streams == DoSend(before, a, i, k, pending).streams;
      assert actors == DoSend(before, a, i, k, pending).actors;
    }

    /** Lines 853-864: the requests that are over leave the list one by one, and no other does. */
    method RetireRequests(a: nat, pending: nat) returns (ghost steps: seq<Step>)
      requires Memory(State()) && Working(State(), a)
      modifies this
      ensures Retiring(old(State()), State(), steps, a)
      ensures a < |actors| && actors[a].requests == Unfinished(old(State()), old(actors[a].requests))
    {
      hide Memory, Working, Finished, DoRetire, Retiring, Unfinished, Examined;
      ghost var before := State();
      RetireStart(before, a);
      ghost var requests := actors[a].requests;
      ghost var n := 0;
      steps := [];
      var k := 0;
      ExaminedStart(before, requests);
      while k < |actors[a].requests|
        invariant a < |actors| && Retiring(before, State(), steps, a)
            && Examined(before, requests, n, actors[a].requests, k)
        decreases |actors[a].requests| - k
      {
        ExaminedNext(before, requests, n, actors[a].requests, k);
        RetiringFacts(before, State(), steps, a, actors[a].requests[k]);
        n := n + 1;
        if Finished(State(), actors[a].requests[k]) {
          RetireNext(before, State(), steps, a, k, pending);
          steps := steps + [Step.Retire(a, k, pending)];
          RetireSpelled(State(), a, k, pending);
          var x := actors[a];
          var i := x.requests[k].stream;
          uploadBytes := uploadBytes - x.netAccounted + pending;
          actors := actors[a := x.(requests := x.requests[..k] + x.requests[k + 1..], netAccounted := pending)];
          var s := streams[i].(references := streams[i].references - 1);
          if s.references == 0 && s.closed {
            uploadBytes := uploadBytes - |s.tx.contents| - s.reserved;
            downloadBytes := downloadBytes - |s.rx.contents|;
            s := s.(freed := true);
          }
          streams := streams[i := s];
        } else {
          k := k + 1;
        }
      }
      ExaminedEnd(before, requests, n, actors[a].requests, k);
    }

    /** DATA, lines 597-622. */
    method ReceiveData(a: nat, id: nat, length: nat, body: seq<Byte>, valid: bool, end: bool, memory: nat -> bool)
      requires Valid() && Working(State(), a) && |body| <= length
      modifies this
      ensures Valid() && State() == Next(old(State()), Step.Data(a, id, length, body, valid, end, memory))
      ensures ReceivedFor(old(State()), State(), a, id, length, body, valid)
      ensures (forall n :: memory(n)) ==>
                (actors[a].failed <==>
                    id % 2 == 0 || id > old(actors[a].latest) || length > old(actors[a].receiveWindow))
    {
      hide Consistent, Memory, ReceivedFor, Next, Append, Find, TakesData, Judge, TakeData, EndData, Reject;
      ghost var before := State();
      ConsistentNext(before, Step.Data(a, id, length, body, valid, end, memory));
      DataShows(before, a, id, length, body, valid, end, memory);
      JudgedAs(before, a, id, length, valid);
      var x := actors[a];
      if id % 2 == 0 || id > x.latest || length > x.receiveWindow {
        actors := actors[a := x.(failed := true)];
        return;
      }
      var k := FindRequest(a, id);
      if k == |x.requests| || x.requests[k].reset {
        actors := actors[a := x.(dataReceived := x.dataReceived + length, creditSent := x.creditSent + length)];
        return;
      }
      var r := x.requests[k];
      var i := r.stream;
      RequestBound(before, a, k);
      if !r.headers || r.ended || !valid || length > r.receiveWindow {
        RefuseSpelled(before, a, k, length);
        x := x.(dataReceived := x.dataReceived + length, creditSent := x.creditSent + length);
        actors := actors[a := SetRequest(x, k, r.(ended := true, reset := true))];
        streams := streams[i := streams[i].(failed := true)];
        return;
      }
      TakeOctets(a, k, length, body, memory);
      if end && !actors[a].failed { EndResponse(a, k); }
    }

    /** The octets join the receive queue of their stream, or nothing of it changes. */
    method Queue(i: nat, length: nat, body: seq<Byte>, memory: nat -> bool) returns (ok: bool)
      requires Memory(State()) && i < |streams| && |body| <= length
      modifies this`streams, this`store, this`downloadBytes
      ensures (ok, State()) == Enqueue(old(State()), i, length, body, memory) && |streams| == |old(streams)|
      ensures streams[i].received == old(streams[i].received) + if ok then body else []
    {
      hide Memory, Append, StoreValid, Enqueue, Blocks, FifoValid;
      EnqueueSpelled(State(), i, length, body, memory);
      var s := streams[i];
      assert s.received + [] == s.received;
      ok := |body| <= TOTAL_LIMIT - downloadBytes;
      if ok {
        var (done, t, f) := Append(store, RxAccount(i), s.rx, body, memory);
        store, ok := t, done;
        if ok {
          downloadBytes := downloadBytes + |body|;
          streams := streams[i :=
              s.(rx := f, consumed := s.consumed + (length - |body|), received := s.received + body)];
        }
      }
    }

    /** The octets of a response go out of both windows into the queue of their stream, or their
        credit goes straight back. */
    method TakeOctets(a: nat, k: nat, length: nat, body: seq<Byte>, memory: nat -> bool)
      requires Memory(State()) && a < |actors| && k < |actors[a].requests| && actors[a].requests[k].stream < |streams|
          && |body| <= length
      modifies this
      ensures State() == TakeData(old(State()), a, k, length, body, memory) && |actors| == |old(actors)|
      ensures actors[a].receiveWindow + actors[a].dataReceived - actors[a].creditSent ==
              old(actors[a].receiveWindow + actors[a].dataReceived - actors[a].creditSent)
    {
      hide Memory, Enqueue;
      var x := actors[a];
      var r := x.requests[k];
      if r.role.Downloads() && !streams[r.stream].closed {
        var ok := Queue(r.stream, length, body, memory);
        x := SetRequest(x.(receiveWindow := x.receiveWindow - length, dataReceived := x.dataReceived + length),
                        k, r.(receiveWindow := r.receiveWindow - length));
        actors := actors[a := x];
        if !ok { actors := actors[a := x.(failed := true)]; }
      } else {
        actors := actors[a := x.(dataReceived := x.dataReceived + length, creditSent := x.creditSent + length)];
      }
    }

    /** The response ends: that is an error of a gRPC stream, and the end of a download otherwise. */
    method EndResponse(a: nat, k: nat)
      requires a < |actors| && k < |actors[a].requests| && actors[a].requests[k].stream < |streams|
      modifies this`actors, this`streams
      ensures State() == EndData(old(State()), a, k)
    {
      hide ManagerOf;
      var r := actors[a].requests[k];
      var s := streams[r.stream];
      var grpc := ManagerOf(State(), a).grpc;
      actors := actors[a := SetRequest(actors[a], k, r.(ended := true, reset := r.reset || grpc))];
      if grpc || r.role.Downloads() {
        streams := streams[r.stream := if grpc then s.(failed := true) else s.(eof := true)];
      }
    }

    /** core_http2_read: the front of the receive queue is handed out. */
    method Read(i: nat, capacity: nat) returns (data: seq<Byte>)
      requires Memory(State()) && LiveStream(State(), i) && !streams[i].closed
      modifies this
      ensures State() == DoRead(old(State()), i, capacity)
      ensures |data| == if old(|streams[i].rx.contents|) < capacity then old(|streams[i].rx.contents|) else capacity
      ensures data == old(streams[i].rx.contents)[..|data|]
      ensures streams[i].delivered == old(streams[i].delivered) + data
    {
      QueueAccounts(State(), i);
      var s := streams[i];
      var take := if |s.rx.contents| < capacity then |s.rx.contents| else capacity;
      data := s.rx.contents[..take];
      var (t, f) := Consume(store, RxAccount(i), s.rx, take);
      hide Memory, Consume;
      store := t;
      downloadBytes := downloadBytes - take;
      streams := streams[i := s.(rx := f, consumed := s.consumed + take, delivered := s.delivered + data)];
    }

    /** core_http2_reserve_write. */
    method ReserveWrite(i: nat, capacity: nat) returns (ok: bool)
      requires Memory(State()) && LiveStream(State(), i) && streams[i].bound
      modifies this
      ensures State() == DoReserve(old(State()), i, capacity)
      ensures ok ==>
          streams[i].reserved == capacity && uploadBytes == old(uploadBytes) + capacity
              && (capacity > 0 ==> uploadBytes <= UPLOAD_LIMIT)
    {
      hide Memory, Trimmed, WriteCapacity, Reserved, Succeeds, StoreValid, UploadMinimum;
      ok := false;
      var s := streams[i];
      var global := GlobalRoom(State());
      var available := !s.closed && !s.failed && !s.finishRequested && !s.sendStopped && s.reserved == 0
          && capacity <= STREAM_LIMIT - |s.tx.contents| && capacity <= global;
      if available {
        UploadAccount(State(), i);
        var most := AllocatedWriteCapacity(i);
        if capacity <= most {
          var t := s.(reserved := capacity);
          if Succeeds(store.budgets, Init(TxAccount(i), UPLOAD, UploadMinimum(t))) {
            streams := streams[i := t];
            store := Reserved(store, TxAccount(i), UploadMinimum(t));
            uploadBytes := uploadBytes + capacity;
            ok := true;
          }
        }
      }
    }

    /** One pass of core_http2_write_parts, with `data` what is left of prefix and data. */
    method WritePass(i: nat, data: seq<Byte>, memory: nat -> bool) returns (ok: bool, block: nat)
      requires Memory(State()) && MayWrite(State(), i)
      modifies this
      ensures State() == DoWrite(old(State()), i, data, memory)
      ensures ok ==> block <= |data| && streams[i].accepted == old(streams[i].accepted) + data[..block]
    {
      hide Memory, Reserved, UploadMinimum, StoreValid, Append, WriteCapacity, Trimmed;
      ghost var before := State();
      UploadAccount(before, i);
      UploadAccounted(before, i);
      WriteAppendFacts(before, i, data, memory);
      var s := streams[i];
      block := |data|;
      if s.reserved < block {
        var capacity := AllocatedWriteCapacity(i);
        var available := Min(STREAM_LIMIT - |s.tx.contents|, GlobalRoom(State()) + s.reserved);
        if available > capacity { available := capacity; }
        if block > available { block := available; }
      }
      assert store == WriteStore(before, i, |data|) && block == WriteBlock(before, i, store, |data|);
      var (done, t, f) := Append(store, TxAccount(i), s.tx, data[..block], memory);
      assert WriteAppend(before, i, data, memory) == Attempt(block, done, t, f);
      store := t;
      ok := done;
      if ok {
        var reserved := if block < s.reserved then block else s.reserved;
        var u := s.(tx := f, reserved := s.reserved - reserved, accepted := s.accepted + data[..block]);
        streams := streams[i := u];
        uploadBytes := uploadBytes + block - reserved;
        store := Reserved(store, TxAccount(i), UploadMinimum(u));
      }
    }

    /** The queues of a closing stream are emptied: octets and memory go back, and what was not read
        is still to be returned as credit. */
    method GiveBack(i: nat)
      requires Memory(State()) && i < |streams|
      modifies this
      ensures State() == CloseQueues(old(State()), i) && |streams| == |old(streams)| && TxAccount(i) < |store.budgets|
      ensures store.budgets[RxAccount(i)].Charge() == 0 && store.budgets[TxAccount(i)].Charge() == 0
      ensures streams[i].consumed == old(streams[i].consumed + |streams[i].rx.contents|)
    {
      hide Memory, Emptied, StoreValid, FifoValid, Blocks;
      QueuesReturn(State(), i);
      QueueAccounts(State(), i);
      var s := streams[i];
      uploadBytes := uploadBytes - |s.tx.contents| - s.reserved;
      EmptiedAccount(store, TxAccount(i), s.tx);
      store := Emptied(store, TxAccount(i), s.tx);
      downloadBytes := downloadBytes - |s.rx.contents|;
      store := Emptied(store, RxAccount(i), s.rx);
      streams := streams[i :=
          s.(closed := true, tx := EMPTY, rx := EMPTY, reserved := 0, consumed := s.consumed + |s.rx.contents|)];
    }

    /** The actors and groups of a closing stream learn of it: its credit is pending on the download
        actor, and every group with a channel of it counts one stream less. */
    method Detach(i: nat, waits: (bool, bool))
      requires i < |streams| && streams[i].download < |actors| && streams[i].upload < |actors|
      modifies this`streams, this`actors, this`groups
      ensures State() == Unbind(old(State()), i, waits) && |groups| == |old(groups)|
      ensures forall g :: 0 <= g < |groups| ==>
                groups[g].running == old(groups)[g].running - if OnGroup(old(State()), i, g) then 1 else 0
    {
      UnbindCounts(State(), i, waits);
      hide AddRunning, OnGroup;
      var s := streams[i];
      var x := actors[s.download];
      actors := actors[s.download := x.(pendingCredit := x.pendingCredit + s.consumed,
                                        closeWaiters := x.closeWaiters + if waits.0 then 1 else 0)];
      var y := actors[s.upload];
      if s.upload != s.download { actors :=
          actors[s.upload := y.(closeWaiters := y.closeWaiters + if waits.1 then 1 else 0)]; }
      streams := streams[i := s.(consumed := 0)];
      groups := AddRunning(groups, x.group, -1);
      if y.group != x.group { groups := AddRunning(groups, y.group, -1); }
    }

    /** core_http2_close up to the wait for private actors. */
    method Close(i: nat, waits: (bool, bool))
      requires Valid() && LiveStream(State(), i) && !streams[i].closed
      modifies this
      ensures Valid() && State() == Next(old(State()), Step.Close(i, waits))
      ensures ClosedFor(old(State()), State(), i)
    {
      hide Consistent, Memory, ClosedFor, Next, CloseQueues, Unbind, ReleaseStream, OnGroup;
      ghost var before := State();
      ConsistentNext(before, Step.Close(i, waits));
      CloseShows(before, i, waits);
      CloseEmpty(before, i);
      var bound := streams[i].bound;
      GiveBack(i);
      if bound {
        UnbindEmpty(State(), i, waits);
        Detach(i, waits);
      }
      ReleaseSpelled(State(), i);
      var s := streams[i].(references := streams[i].references - 1);
      streams := streams[i := if s.references == 0 then s.(freed := true) else s];
    }
  }

  lemma CreditNext(p: Pool, a: nat, i: nat)
    requires Memory(p) && Working(p, a) && i < |p.streams|
    ensures Run(Next(p, Credit(a, i)), []) == DoCredit(p, a, i)
    ensures Memory(DoCredit(p, a, i)) && Working(DoCredit(p, a, i), a) && |DoCredit(p, a, i).streams| == |p.streams|
  {
    CreditKeeps(p, a, i);
    hide Memory, DoCredit, KeepsStream;
    CreditMemory(p, a, i);
  }

  lemma UploadAccounted(p: Pool, i: nat)
    requires Memory(p) && i < |p.streams|
    ensures FifoValid(p.streams[i].tx) && p.store.budgets[TxAccount(i)].used == Blocks(p.streams[i].tx) * BLOCK_SIZE
  {
    assert StreamMemory(p.store, i, p.streams[i]);
  }

  // ----- what callers see -----

  /** The request heads the list of its actor with the whole initial window, the connection is ready
      for one download more, and what went into the header block was emitted. */
  predicate StartedFor(p: Pool, q: Pool, a: nat, i: nat, role: Role, id: nat, inHeader: nat) {
    && a < |p.actors| && a < |q.actors| && i < |p.streams| && i < |q.streams| && inHeader <= |p.streams[i].tx.contents|
    && |q.actors[a].requests| == |p.actors[a].requests| + 1 && q.actors[a].requests[1..] == p.actors[a].requests
    && var r := q.actors[a].requests[0];
       && r.stream == i && r.role == role && r.id == id == q.actors[a].latest && r.receiveWindow == WindowOf(p, a)
           && !r.ended
       && (role.Downloads() ==>
           q.streams[i].downId == id && q.actors[a].receiveSlots >= CountDownloads(q.actors[a].requests))
       && q.streams[i].references == p.streams[i].references + 1
       && q.streams[i].emitted == p.streams[i].emitted + p.streams[i].tx.contents[..inHeader]
       && q.streams[i].tx.contents == p.streams[i].tx.contents[inHeader..]
  }

  lemma StartShows(p: Pool, a: nat, i: nat, role: Role, id: nat, remaining: nat, inHeader: nat, pending: nat)
    requires Memory(p) && MayStart(p, a, i, role) && id > p.actors[a].latest && inHeader <= |p.streams[i].tx.contents|
        && (inHeader > 0 ==> role.Packet?)
    ensures StartedFor(p, DoStart(p, a, i, role, id, remaining, inHeader, pending), a, i, role, id, inHeader)
  {
    DropUploadMemory(p, i, inHeader);
    Emits(p, i, inHeader);
    hide Memory, DropUpload, Capacity;
    var q := DoStart(p, a, i, role, id, remaining, inHeader, pending);
    assert q.actors[a].requests[1..] == p.actors[a].requests;
  }

  lemma Emits(p: Pool, i: nat, n: nat)
    requires Memory(p) && i < |p.streams| && n <= |p.streams[i].tx.contents|
    ensures DropUpload(p, i, n).1.emitted == p.streams[i].emitted + p.streams[i].tx.contents[..n]
  {
    hide Memory, StreamMemory, Consume, UpdateUpload;
  }

  lemma StartIsNext(p: Pool, a: nat, i: nat, role: Role, id: nat, remaining: nat, inHeader: nat, pending: nat)
    requires Memory(p)
    ensures Next(p, Start(a, i, role, id, remaining, inHeader, pending)) ==
        DoStart(p, a, i, role, id, remaining, inHeader, pending)
    ensures !MayStart(p, a, i, role) ==> DoStart(p, a, i, role, id, remaining, inHeader, pending) == p
  {
    hide Memory, MayStart;
  }

  lemma StartSpelled(p: Pool, a: nat, i: nat, role: Role, id: nat, remaining: nat, inHeader: nat, pending: nat)
    requires Memory(p) && MayStart(p, a, i, role) && id > p.actors[a].latest && inHeader <= |p.streams[i].tx.contents|
        && (inHeader > 0 ==> role.Packet?)
    ensures var (t, s) := if inHeader > 0 then DropUpload(p, i, inHeader) else (p.store, p.streams[i]);
            var window := InitialWindow(ManagerOf(p, a));
            var y := p.actors[a].(netAccounted := pending);
            var x := if role.Downloads() then GrowWindow(y, window) else y;
            var r := Request(i, id, role, false, false, role.Download?
                || inHeader > 0, false, x.peerWindow, window, remaining, 0, 0);
            DoStart(p, a, i, role, id, remaining, inHeader, pending) ==
            p.(store := t, uploadBytes := p.uploadBytes - inHeader - p.actors[a].netAccounted + pending,
               actors := p.actors[a := x.(requests := [r] + x.requests, latest := id)],
               streams := p.streams[i := s.(references := s.references + 1,
                                            downId := if role.Downloads() then id else s.downId,
                                            upId := if role.Duplex? || role.Upload? then id else s.upId)])
  {
    hide Memory, DropUpload, GrowWindow;
  }

  /** The raised window is determined by what is said about it. */
  lemma GrowUnique(x: Actor, y: Actor, w: nat)
    requires y == x.(receiveWindow := y.receiveWindow, creditSent := y.creditSent, receiveSlots := y.receiveSlots)
    requires y.receiveSlots == (if x.receiveSlots < 1 + CountDownloads(x.requests) then 1 + CountDownloads(x.requests)
        else x.receiveSlots)
    requires y.receiveWindow - x.receiveWindow == y.creditSent - x.creditSent ==
        Capacity(y.receiveSlots, w) - Capacity(x.receiveSlots, w)
    ensures y == GrowWindow(x, w)
  {
    GrowWindowBalance(x, w);
    hide CountDownloads, Capacity;
  }

  lemma UploadQueued(p: Pool, i: nat)
    requires Memory(p) && i < |p.streams|
    ensures StoreValid(p.store) && Account(p.store, TxAccount(i)) && FifoValid(p.streams[i].tx)
    ensures p.store.budgets[TxAccount(i)].used == Blocks(p.streams[i].tx) * BLOCK_SIZE
  {
    UploadAccount(p, i);
    assert StreamMemory(p.store, i, p.streams[i]);
  }

  /** The queue may be consumed and its account adjusted. */
  lemma EmptyUploads(p: Pool, i: nat, n: nat)
    requires Memory(p) && i < |p.streams| && n <= |p.streams[i].tx.contents|
    ensures FifoValid(p.streams[i].tx) && StoreValid(p.store) && Account(p.store, TxAccount(i))
    ensures p.store.budgets[TxAccount(i)].used == Blocks(p.streams[i].tx) * BLOCK_SIZE
    ensures var t := Consume(p.store, TxAccount(i), p.streams[i].tx, n).0; StoreValid(t) && Account(t, TxAccount(i))
  {
    UploadQueued(p, i);
    hide Memory, Blocks;
  }

  /** A DATA frame left: the front of the queue was emitted, within both windows and every limit. */
  predicate SentFor(p: Pool, q: Pool, a: nat, i: nat, k: nat, n: nat) {
    && a < |p.actors| && |q.actors| == |p.actors| && i < |p.streams| && |q.streams| == |p.streams|
    && k < |p.actors[a].requests| && |q.actors[a].requests| == |p.actors[a].requests|
    && 0 < n <= |p.streams[i].tx.contents| && n <= 16384 && n <= p.actors[a].peerFrame
    && q.streams[i].emitted == p.streams[i].emitted + p.streams[i].tx.contents[..n]
    && q.streams[i].tx.contents == p.streams[i].tx.contents[n..]
    && 0 <= q.actors[a].sendWindow == p.actors[a].sendWindow - n
    && 0 <= q.actors[a].requests[k].sendWindow == p.actors[a].requests[k].sendWindow - n
    && (forall j :: 0 <= j < |p.streams| && j != i ==> q.streams[j] == p.streams[j])
  }

  lemma SendSpelled(p: Pool, a: nat, i: nat, k: nat, pending: nat, n: nat)
    requires Memory(p) && MaySend(p, a, i, k) && FifoValid(p.streams[i].tx) && p.actors[a].peerFrame > 0
        && n == SendLength(p, a, i, k)
    ensures Next(p, Send(a, i, k, pending)) == DoSend(p, a, i, k, pending)
    ensures var x := p.actors[a]; var r := x.requests[k]; var (t, s) := DropUpload(p, i, n);
            DoSend(p, a, i, k, pending) ==
            p.(store := t, uploadBytes := p.uploadBytes - n - x.netAccounted + pending, streams := p.streams[i := s],
               actors := p.actors[a :=
                   SetRequest(x.(sendWindow := x.sendWindow - n, sent := x.sent + n, netAccounted := pending), k,
                                                  r.(sendWindow := r.sendWindow - n, sent := r.sent + n,
                                                     sendEnded := r.role.Packets() && n == r.remaining,
                                                     remaining := if r.role.Packets() then r.remaining - n
                                                         else r.remaining))])
  {
    hide Memory, DropUpload, SendLength, MaySend;
    SendIndices(p, a, i, k);
    var x := p.actors[a];
    var y := DoSend(p, a, i, k, pending).actors[a];
    assert p.actors[a := y.(netAccounted := x.netAccounted)][a := y] == p.actors[a := y];
  }

  lemma SendShows(p: Pool, a: nat, i: nat, k: nat, pending: nat)
    requires Consistent(p) && MaySend(p, a, i, k)
    ensures FifoValid(p.streams[i].tx) && p.actors[a].peerFrame > 0
    ensures var n := SendLength(p, a, i, k); n > 0 && SentFor(p, DoSend(p, a, i, k, pending), a, i, k, n)
  {
    PeerFrame(p, a);
    SendIndices(p, a, i, k);
    var n := SendLength(p, a, i, k);
    DropUploadMemory(p, i, n);
    Emits(p, i, n);
    SendLimits(p, a, i, k);
    SendSpelled(p, a, i, k, pending, n);
    hide Consistent, Memory, DropUpload, SendLength, MaySend, DoSend, Next;
  }

  lemma SendLimits(p: Pool, a: nat, i: nat, k: nat)
    requires MaySend(p, a, i, k) && FifoValid(p.streams[i].tx)
    ensures SendLength(p, a, i, k) <= 16384
  {
  }

  lemma PeerFrame(p: Pool, a: nat)
    requires Consistent(p) && Working(p, a)
    ensures p.actors[a].peerFrame > 0
  {
    assert SendOk(p.actors[a]);
  }

  lemma SendIndices(p: Pool, a: nat, i: nat, k: nat)
    requires Memory(p) && MaySend(p, a, i, k)
    ensures a < |p.actors| && k < |p.actors[a].requests| && i < |p.streams| && FifoValid(p.streams[i].tx)
        && !p.actors[a].requests[k].sendEnded
  {
    UploadQueued(p, i);
  }

  /** A frame of the response to an open download, in order and within both windows. */
  predicate TakesData(p: Pool, a: nat, id: nat, length: nat, valid: bool)
    requires a < |p.actors|
  {
    var x := p.actors[a];
    var k := Find(x.requests, id);
    && id % 2 == 1 && id <= x.latest && length <= x.receiveWindow && k < |x.requests| && valid
    && var r := x.requests[k];
       && !r.reset && r.headers && !r.ended && length <= r.receiveWindow && r.role.Downloads()
       && r.stream < |p.streams| && p.streams[r.stream].bound && !p.streams[r.stream].closed
  }

  /** Unless the connection ends: the octets of such a frame reach its stream and leave both windows;
      of any other frame no stream gets anything, and the connection window stays as it was. */
  predicate ReceivedFor(p: Pool, q: Pool, a: nat, id: nat, length: nat, body: seq<Byte>, valid: bool) {
    && a < |p.actors| && |q.actors| == |p.actors| && |q.streams| == |p.streams|
    && (!q.actors[a].failed && TakesData(p, a, id, length, valid) ==>
          var k := Find(p.actors[a].requests, id);
          var i := p.actors[a].requests[k].stream;
          && q.streams[i].received == p.streams[i].received + body && k < |q.actors[a].requests|
          && q.actors[a].receiveWindow == p.actors[a].receiveWindow - length
          && q.actors[a].requests[k].receiveWindow == p.actors[a].requests[k].receiveWindow - length
          && forall j :: 0 <= j < |p.streams| && j != i ==> q.streams[j].received == p.streams[j].received)
    && (!TakesData(p, a, id, length, valid) ==>
          && q.actors[a].receiveWindow == p.actors[a].receiveWindow
          && forall j :: 0 <= j < |p.streams| ==> q.streams[j].received == p.streams[j].received)
  }

  lemma SettingsIsNext(p: Pool, a: nat, entries: seq<(nat, nat)>)
    requires Memory(p)
    ensures Next(p, Step.Settings(a, entries)) == DoSettings(p, a, entries)
  {
    hide Memory, DoSettings;
  }

  lemma TxFacts(p: Pool, i: nat)
    requires Memory(p) && i < |p.streams|
    ensures StoreValid(p.store) && Account(p.store, TxAccount(i)) && FifoValid(p.streams[i].tx)
    ensures p.store.budgets[TxAccount(i)].used == Blocks(p.streams[i].tx) * BLOCK_SIZE
  {
    assert StreamMemory(p.store, i, p.streams[i]);
    hide StoreValid, FifoValid, Blocks;
  }

  lemma ResetIsNext(p: Pool, a: nat, id: nat, code: nat)
    requires Consistent(p) && Working(p, a)
    ensures Next(p, ResetStream(a, id, code)) == DoReset(p, a, id, code)
    ensures WasReset(p, DoReset(p, a, id, code), a, id, code)
  {
    hide Memory, DoReset, WasReset, Links, Receives, Sends, Owned, Carried, GroupsExist;
    ResetDoes(p, a, id, code);
  }

  lemma DrainIsNext(p: Pool, a: nat)
    requires Consistent(p) && Working(p, a)
    ensures var q := SetActor(p, a, p.actors[a].(draining := true));
            Consistent(q) && Working(q, a) && q == Run(p, [Drain(a)])
  {
    hide Consistent, Memory;
    ConsistentNext(p, Drain(a));
    assert [Drain(a)][..0] == [];
  }

  lemma GoawayIsNext(before: Pool, p: Pool, steps: seq<Step>, a: nat, k: nat)
    requires Memory(before) && Consistent(p) && Working(p, a) && p == Run(before, steps) && k < |p.actors[a].requests|
    ensures var q := DoGoaway(p, a, k);
            Consistent(q) && Working(q, a) && q == Run(before, steps + [Step.Goaway(a, k)])
  {
    hide Consistent, Memory, DoGoaway, Next, Run;
    ConsistentNext(p, Step.Goaway(a, k));
    GoawayStep(p, a, k);
    RunMore(before, steps, Step.Goaway(a, k));
  }

  lemma GoawayStep(p: Pool, a: nat, k: nat)
    requires Memory(p) && Working(p, a)
    ensures Next(p, Step.Goaway(a, k)) == DoGoaway(p, a, k) && Working(DoGoaway(p, a, k), a)
  {
    hide Memory;
  }

  lemma RunMore(p: Pool, steps: seq<Step>, step: Step)
    requires Memory(p)
    ensures Run(p, steps + [step]) == Next(Run(p, steps), step)
  {
    hide Memory, Next;
    assert (steps + [step])[..|steps|] == steps;
  }

  lemma GoneRequest(p: Pool, q: Pool, a: nat, last: nat, code: nat, n: nat)
    requires GoneAway(p, q, a, last, code, n) && n < |p.actors[a].requests|
    ensures q.actors[a].requests[n] == p.actors[a].requests[n] && q.actors[a].draining && |q.streams| == |p.streams|
  {
    hide RefusedOn;
  }

  lemma UpdateIsNext(p: Pool, a: nat, id: nat, n: nat)
    requires Consistent(p) && Working(p, a)
    ensures Next(p, Step.WindowUpdate(a, id, n)) == DoWindowUpdate(p, a, id, n)
    ensures Updated(p, DoWindowUpdate(p, a, id, n), a, id, n)
  {
    hide Memory, DoWindowUpdate, Updated, Links, Receives, Sends, Owned, Carried, GroupsExist;
    UpdateExact(p, a, id, n);
  }

  /** A request of a valid pool has a stream with channels. */
  lemma RequestBound(p: Pool, a: nat, k: nat)
    requires Consistent(p) && a < |p.actors| && k < |p.actors[a].requests|
    ensures p.actors[a].requests[k].stream < |p.streams| && p.streams[p.actors[a].requests[k].stream].bound
  {
    assert ActorLinks(p, a) && RequestLink(p, a, p.actors[a].requests[k]);
  }

  /** The verdict on a frame: the streams of requests are always there. */
  lemma JudgedAs(p: Pool, a: nat, id: nat, length: nat, valid: bool)
    requires Consistent(p) && a < |p.actors|
    ensures var x := p.actors[a]; var k := Find(x.requests, id);
            Judge(p, a, id, length, valid) ==
            if id % 2 == 0 || id > x.latest || length > x.receiveWindow then Broken
            else if k == |x.requests| || x.requests[k].reset then Stray
            else if !x.requests[k].headers || x.requests[k].ended || !valid
                || length > x.requests[k].receiveWindow then Refused(k)
            else Response(k)
  {
    var k := Find(p.actors[a].requests, id);
    if k < |p.actors[a].requests| { RequestBound(p, a, k); }
    hide Consistent, Find;
  }

  lemma EnqueueSpelled(p: Pool, i: nat, length: nat, body: seq<Byte>, memory: nat -> bool)
    requires Memory(p) && i < |p.streams| && |body| <= length
    ensures var s := p.streams[i];
            && StoreValid(p.store) && Account(p.store, RxAccount(i)) && FifoValid(s.rx)
            && p.store.budgets[RxAccount(i)].used == Blocks(s.rx) * BLOCK_SIZE
            && var (ok, t, f) := Append(p.store, RxAccount(i), s.rx, body, memory);
               Enqueue(p, i, length, body, memory) ==
               if |body| > TOTAL_LIMIT - p.downloadBytes then (false, p)
               else if !ok then (false, p.(store := t))
               else (true, p.(store := t, downloadBytes := p.downloadBytes + |body|,
                              streams := p.streams[i :=
                                  s.(rx := f, consumed := s.consumed + (length - |body|),
                                      received := s.received + body)]))
  {
    QueueAccounts(p, i);
    hide Memory, Append, StoreValid, Blocks, FifoValid;
  }

  lemma EnqueueTakes(p: Pool, i: nat, length: nat, body: seq<Byte>, memory: nat -> bool)
    requires Memory(p) && i < |p.streams| && |body| <= length
    ensures var (ok, q) := Enqueue(p, i, length, body, memory);
            && q.actors == p.actors && |q.streams| == |p.streams|
            && q.streams[i].received == p.streams[i].received + (if ok then body else [])
            && forall j :: 0 <= j < |p.streams| && j != i ==> q.streams[j] == p.streams[j]
  {
    EnqueueSpelled(p, i, length, body, memory);
    hide Memory, Append, StoreValid, Blocks, FifoValid, Enqueue;
    assert p.streams[i].received + [] == p.streams[i].received;
  }

  lemma RefuseSpelled(p: Pool, a: nat, k: nat, length: nat)
    requires a < |p.actors| && k < |p.actors[a].requests| && p.actors[a].requests[k].stream < |p.streams|
    ensures var x := p.actors[a]; var r := x.requests[k]; var i := r.stream;
            var y := x.(dataReceived := x.dataReceived + length, creditSent := x.creditSent + length);
            Reject(SetActor(p, a, Refunded(x, length)), a, k) ==
            p.(actors := p.actors[a := SetRequest(y, k, r.(ended := true, reset := true))],
               streams := p.streams[i := p.streams[i].(failed := true)])
  {
    var y := Refunded(p.actors[a], length);
    var z := Reject(SetActor(p, a, y), a, k).actors[a];
    assert p.actors[a := y][a := z] == p.actors[a := z];
  }

  /** Ending a response changes neither windows nor octets. */
  lemma EndShows(p: Pool, a: nat, k: nat)
    requires a < |p.actors| && k < |p.actors[a].requests| && p.actors[a].requests[k].stream < |p.streams|
    ensures var q := EndData(p, a, k);
            && |q.actors| == |p.actors| && |q.streams| == |p.streams|
                && |q.actors[a].requests| == |p.actors[a].requests|
            && q.actors[a].failed == p.actors[a].failed && q.actors[a].receiveWindow == p.actors[a].receiveWindow
            && (forall m ::
                0 <= m < |p.actors[a].requests| ==>
                    q.actors[a].requests[m].receiveWindow == p.actors[a].requests[m].receiveWindow)
            && forall j :: 0 <= j < |p.streams| ==> q.streams[j].received == p.streams[j].received
  {
    hide ManagerOf;
  }

  lemma TakesExactly(p: Pool, a: nat, id: nat, length: nat, valid: bool)
    requires Consistent(p) && a < |p.actors|
    ensures var v := Judge(p, a, id, length, valid); var x := p.actors[a];
            TakesData(p, a, id, length, valid) <==>
              v.Response? && v.k == Find(x.requests, id) && x.requests[v.k].role.Downloads()
                  && !p.streams[x.requests[v.k].stream].closed
    ensures Judge(p, a, id, length, valid).Response? ==>
        Judge(p, a, id, length, valid).k == Find(p.actors[a].requests, id)
  {
    var f := Find(p.actors[a].requests, id);
    JudgedAs(p, a, id, length, valid);
    if f < |p.actors[a].requests| { RequestBound(p, a, f); }
    hide Consistent, Find, Judge;
  }

  lemma TakeShows(p: Pool, a: nat, id: nat, k: nat, length: nat, body: seq<Byte>, valid: bool, memory: nat -> bool)
    requires Consistent(p) && Working(p, a) && |body| <= length && Judge(p, a, id, length, valid) == Response(k)
    ensures var q := TakeData(p, a, k, length, body, memory);
            ReceivedFor(p, q, a, id, length, body, valid) && ((forall n :: memory(n)) ==> !q.actors[a].failed)
  {
    TakesExactly(p, a, id, length, valid);
    if (forall n :: memory(n))
        && TakesData(p, a, id, length, valid) { DataFits(p, a, id, length, body, valid, memory); }
    hide Consistent, Memory, Find, Judge, KeepData, TakesData;
    RequestBound(p, a, k);
    KeepShows(p, a, k, length, body, memory);
  }

  lemma KeepShows(p: Pool, a: nat, k: nat, length: nat, body: seq<Byte>, memory: nat -> bool)
    requires Memory(p) && a < |p.actors| && k < |p.actors[a].requests| && |body| <= length
    requires p.actors[a].requests[k].stream < |p.streams|
    ensures var q := KeepData(p, a, k, length, body, memory); var i := p.actors[a].requests[k].stream;
            && |q.actors| == |p.actors| && |q.streams| == |p.streams|
            && |q.actors[a].requests| == |p.actors[a].requests|
            && q.actors[a].receiveWindow == p.actors[a].receiveWindow - length
            && q.actors[a].requests[k].receiveWindow == p.actors[a].requests[k].receiveWindow - length
            && (!q.actors[a].failed ==> q.streams[i].received == p.streams[i].received + body)
            && forall j :: 0 <= j < |p.streams| && j != i ==> q.streams[j].received == p.streams[j].received
  {
    hide Memory, Enqueue;
    EnqueueTakes(p, p.actors[a].requests[k].stream, length, body, memory);
  }

  lemma ReceivedNothing(p: Pool, q: Pool, a: nat, id: nat, length: nat, body: seq<Byte>, valid: bool)
    requires a < |p.actors| && |q.actors| == |p.actors| && |q.streams| == |p.streams|
        && !TakesData(p, a, id, length, valid)
    requires q.actors[a].receiveWindow == p.actors[a].receiveWindow
    requires forall j :: 0 <= j < |p.streams| ==> q.streams[j].received == p.streams[j].received
    ensures ReceivedFor(p, q, a, id, length, body, valid)
  {
    hide TakesData;
  }

  lemma ReceivedEnd(p: Pool, q: Pool, r: Pool, a: nat, id: nat, length: nat, body: seq<Byte>, valid: bool)
    requires ReceivedFor(p, q, a, id, length, body, valid) && |r.actors| == |q.actors| && |r.streams| == |q.streams|
    requires r.actors[a].failed == q.actors[a].failed && r.actors[a].receiveWindow == q.actors[a].receiveWindow
    requires |r.actors[a].requests| == |q.actors[a].requests|
    requires forall k ::
        0 <= k < |q.actors[a].requests| ==>
            r.actors[a].requests[k].receiveWindow == q.actors[a].requests[k].receiveWindow
    requires forall j :: 0 <= j < |q.streams| ==> r.streams[j].received == q.streams[j].received
    ensures ReceivedFor(p, r, a, id, length, body, valid)
  {
    hide Find;
  }

  lemma DataShows(p: Pool, a: nat, id: nat, length: nat, body: seq<Byte>, valid: bool, end: bool, memory: nat -> bool)
    requires Consistent(p) && Working(p, a) && |body| <= length
    ensures var q := DoData(p, a, id, length, body, valid, end, memory);
            && Next(p, Step.Data(a, id, length, body, valid, end, memory)) == q
            && ReceivedFor(p, q, a, id, length, body, valid)
            && ((forall n :: memory(n)) ==>
                  (q.actors[a].failed <==>
                      id % 2 == 0 || id > p.actors[a].latest || length > p.actors[a].receiveWindow))
  {
    JudgedAs(p, a, id, length, valid);
    DataIsNext(p, a, id, length, body, valid, end, memory);
    var v := Judge(p, a, id, length, valid);
    TakesExactly(p, a, id, length, valid);
    hide Consistent, Memory, Find, Judge, TakeData, EndData, Next, TakesData, ReceivedFor;
    var q := DoData(p, a, id, length, body, valid, end, memory);
    if v.Response? {
      TakeShows(p, a, id, v.k, length, body, valid, memory);
      var m := TakeData(p, a, v.k, length, body, memory);
      EndShows(m, a, v.k);
      if q != m { ReceivedEnd(p, m, q, a, id, length, body, valid); }
    } else {
      if v.Refused? { RequestBound(p, a, v.k); }
      ReceivedNothing(p, q, a, id, length, body, valid);
    }
  }

  lemma DataIsNext(p: Pool, a: nat, id: nat, length: nat, body: seq<Byte>, valid: bool, end: bool, memory: nat -> bool)
    requires Memory(p)
    ensures Next(p, Step.Data(a, id, length, body, valid, end, memory)) ==
        DoData(p, a, id, length, body, valid, end, memory)
  {
    hide Memory, DoData;
  }

  lemma DataFits(p: Pool, a: nat, id: nat, length: nat, body: seq<Byte>, valid: bool, memory: nat -> bool)
    requires Consistent(p) && Working(p, a) && |body| <= length && (forall n :: memory(n))
        && TakesData(p, a, id, length, valid)
    ensures !TakeData(p, a, Find(p.actors[a].requests, id), length, body, memory).actors[a].failed
  {
    hide Memory, Links, GroupsExist, Receives, Sends, Owned, Carried, Enqueue, TakeData;
    DataAlwaysFits(p, a, id, length, body, valid, memory);
  }

  /** A closed stream has given everything back: queues, memory, and the credit for octets nobody
      read; it is freed exactly if no request points to it. */
  predicate ClosedFor(p: Pool, q: Pool, i: nat) {
    && i < |p.streams| && |q.streams| == |p.streams| && TxAccount(i) < |q.store.budgets| && |q.actors| == |p.actors|
    && var s := p.streams[i]; var t := q.streams[i];
       && t.closed && t.rx == EMPTY && t.tx == EMPTY && t.reserved == 0 && t.delivered == s.delivered
           && t.emitted == s.emitted
       && q.store.budgets[RxAccount(i)].Charge() == 0 && q.store.budgets[TxAccount(i)].Charge() == 0
       && (s.bound && s.download < |p.actors| ==>
             q.actors[s.download].pendingCredit == p.actors[s.download].pendingCredit + |s.rx.contents| + s.consumed)
       && (t.freed <==> Sum(q.actors, RequestsTo(i)) == 0)
       && (forall j :: 0 <= j < |p.streams| && j != i ==> q.streams[j] == p.streams[j])
  }

  lemma CloseShows(p: Pool, i: nat, waits: (bool, bool))
    requires Consistent(p) && LiveStream(p, i) && !p.streams[i].closed
    ensures p.streams[i].bound ==> p.streams[i].download < |p.actors| && p.streams[i].upload < |p.actors|
    ensures Next(p, Step.Close(i, waits)) == DoClose(p, i, waits)
    ensures ClosedFor(p, DoClose(p, i, waits), i)
  {
    hide Consistent, Memory, DoClose, Next;
    BoundActors(p, i);
    ConsistentNext(p, Step.Close(i, waits));
    CloseNext(p, i, waits);
    CloseReturns(p, i, waits);
    CloseFrees(DoClose(p, i, waits), i);
  }

  lemma BoundActors(p: Pool, i: nat)
    requires Consistent(p) && i < |p.streams|
    ensures p.streams[i].bound ==> p.streams[i].download < |p.actors| && p.streams[i].upload < |p.actors|
  {
    hide Memory, GroupsExist, Receives, Sends, Owned, Carried;
    assert StreamLink(p, i);
  }

  lemma CloseNext(p: Pool, i: nat, waits: (bool, bool))
    requires Memory(p)
    ensures Next(p, Step.Close(i, waits)) == DoClose(p, i, waits)
  {
    hide Memory, DoClose;
  }

  lemma CloseFrees(q: Pool, i: nat)
    requires Consistent(q) && i < |q.streams| && q.streams[i].closed
    ensures q.streams[i].freed <==> Sum(q.actors, RequestsTo(i)) == 0
  {
    hide Sound, Sends, Carried, Placed, Grouped;
    assert StreamCounted(q, i, []);
  }

  lemma QueuesReturn(p: Pool, i: nat)
    requires Memory(p) && i < |p.streams|
    ensures var q := CloseQueues(p, i);
            TxAccount(i) < |q.store.budgets| && q.store.budgets[RxAccount(i)].Charge() == 0
                && q.store.budgets[TxAccount(i)].Charge() == 0
  {
    QueueAccounts(p, i);
    EmptiedAccount(p.store, TxAccount(i), p.streams[i].tx);
    var store := Emptied(p.store, TxAccount(i), p.streams[i].tx);
    EmptiedAccount(store, RxAccount(i), p.streams[i].rx);
    hide Memory, Emptied, StoreValid, Blocks, FifoValid;
  }

  predicate OnGroup(p: Pool, i: nat, g: nat)
    requires i < |p.streams| && p.streams[i].download < |p.actors| && p.streams[i].upload < |p.actors|
  {
    p.actors[p.streams[i].download].group == g || p.actors[p.streams[i].upload].group == g
  }

  lemma UnbindCounts(p: Pool, i: nat, waits: (bool, bool))
    requires i < |p.streams| && p.streams[i].download < |p.actors| && p.streams[i].upload < |p.actors|
    ensures var q := Unbind(p, i, waits);
            |q.groups| == |p.groups| && forall g :: 0 <= g < |p.groups| ==>
              q.groups[g].running == p.groups[g].running - if OnGroup(p, i, g) then 1 else 0
  {
  }

  lemma CloseEmpty(p: Pool, i: nat)
    requires Memory(p) && i < |p.streams|
    ensures var q := CloseQueues(p, i); var s := p.streams[i];
            q.actors == p.actors &&
            q.streams ==
                p.streams[i :=
                    s.(closed := true, tx := EMPTY, rx := EMPTY, reserved := 0,
                        consumed := s.consumed + |s.rx.contents|)]
  {
    hide Memory, Emptied;
  }

  lemma UnbindEmpty(p: Pool, i: nat, waits: (bool, bool))
    requires i < |p.streams| && p.streams[i].download < |p.actors| && p.streams[i].upload < |p.actors|
    ensures var q := Unbind(p, i, waits);
            && q.streams == p.streams[i := p.streams[i].(consumed := 0)] && |q.actors| == |p.actors|
            && q.actors[p.streams[i].download].pendingCredit ==
                p.actors[p.streams[i].download].pendingCredit + p.streams[i].consumed
            && q.store == p.store
  {
    hide AddRunning;
  }

  /** The last reference of a closed stream frees it; its queues are already empty. */
  lemma ReleaseSpelled(p: Pool, i: nat)
    requires i < |p.streams| && p.streams[i].closed && p.streams[i].tx == EMPTY && p.streams[i].rx == EMPTY
        && p.streams[i].reserved == 0
    ensures var s := p.streams[i].(references := p.streams[i].references - 1);
            ReleaseStream(p, i) == p.(streams := p.streams[i := if s.references == 0 then s.(freed := true) else s])
  {
  }

  lemma CloseReturns(p: Pool, i: nat, waits: (bool, bool))
    requires Memory(p) && LiveStream(p, i) && !p.streams[i].closed
    requires p.streams[i].bound ==> p.streams[i].download < |p.actors| && p.streams[i].upload < |p.actors|
    ensures var q := DoClose(p, i, waits); var s := p.streams[i];
            && |q.streams| == |p.streams| && TxAccount(i) < |q.store.budgets| && |q.actors| == |p.actors|
            && var t := q.streams[i];
               && t.closed && t.rx == EMPTY && t.tx == EMPTY && t.reserved == 0 && t.delivered == s.delivered
                   && t.emitted == s.emitted
               && q.store.budgets[RxAccount(i)].Charge() == 0 && q.store.budgets[TxAccount(i)].Charge() == 0
               && (s.bound ==>
                   q.actors[s.download].pendingCredit ==
                       p.actors[s.download].pendingCredit + |s.rx.contents| + s.consumed)
               && (forall j :: 0 <= j < |p.streams| && j != i ==> q.streams[j] == p.streams[j])
  {
    hide Memory, Emptied, AddRunning, StoreValid, Blocks, FifoValid, CloseQueues, Unbind, ReleaseStream;
    CloseEmpty(p, i);
    QueuesReturn(p, i);
    var q := CloseQueues(p, i);
    if p.streams[i].bound {
      UnbindEmpty(q, i, waits);
      ReleaseSpelled(Unbind(q, i, waits), i);
    } else {
      ReleaseSpelled(q, i);
    }
  }

  lemma ReleaseIs(p: Pool, i: nat)
    requires i < |p.streams|
    ensures var s := p.streams[i].(references := p.streams[i].references - 1);
        var gone := s.references == 0 && s.closed;
            ReleaseStream(p, i) ==
            p.(uploadBytes := if gone then p.uploadBytes - |s.tx.contents| - s.reserved else p.uploadBytes,
               downloadBytes := if gone then p.downloadBytes - |s.rx.contents| else p.downloadBytes,
               streams := p.streams[i := if gone then s.(freed := true) else s])
  {
  }

  lemma RetireSpelled(p: Pool, a: nat, k: nat, pending: nat)
    requires Working(p, a) && k < |p.actors[a].requests| && Finished(p, p.actors[a].requests[k])
    ensures p.actors[a].requests[k].stream < |p.streams|
    ensures var x := p.actors[a];
            var i := x.requests[k].stream;
            var s := p.streams[i].(references := p.streams[i].references - 1);
            var gone := s.references == 0 && s.closed;
            DoRetire(p, a, k, pending) ==
            p.(uploadBytes := p.uploadBytes - x.netAccounted + pending - if gone then |s.tx.contents| + s.reserved
                else 0,
               downloadBytes := p.downloadBytes - if gone then |s.rx.contents| else 0,
               actors := p.actors[a := x.(requests := x.requests[..k] + x.requests[k + 1..], netAccounted := pending)],
               streams := p.streams[i := if gone then s.(freed := true) else s])
  {
  }
}
