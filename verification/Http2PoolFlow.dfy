/** What follows from the receive balance in every reachable state: the identities over runs,
    and DATA within the windows is always kept. */
module Http2PoolFlow {
  import opened Bytes
  import opened Sums
  import opened BufferBudget
  import opened Http2Queue
  import opened Http2Pool
  import opened Http2PoolRuns
  import opened Http2PoolLinks
  import opened Http2PoolReceive

  lemma InitialReceives(p: Pool)
    requires Initial(p)
    ensures Links(p) && GroupsExist(p) && Receives(p)
  {
  }

  /** Over every run: on every connection that has not failed, the receive window is 65535 plus
      the credit sent minus the DATA octets received, and window, owed octets and pending
      credit add up to the advertised total; an open download's window, queue and unreturned
      octets add up to its initial window; downloadBytes is what is queued. */
  lemma {:induction false} ReceiveRun(p: Pool, steps: seq<Step>)
    requires Initial(p)
    ensures Links(Run(p, steps)) && GroupsExist(Run(p, steps)) && Receives(Run(p, steps))
    decreases |steps|
  {
    hide Memory, Links, GroupsExist, Receives, Initial, Next;
    if steps == [] {
      InitialReceives(p);
    } else {
      var before := steps[..|steps| - 1];
      ReceiveRun(p, before);
      LinksNext(Run(p, before), steps[|steps| - 1]);
      ReceivesNext(Run(p, before), steps[|steps| - 1]);
    }
  }

  // ----- DATA within the windows is always kept -----

  lemma QueuedWithinUse(f: Fifo)
    requires FifoValid(f)
    ensures |f.contents| <= Blocks(f) * BLOCK_SIZE
  {
  }

  /** A stream's queue, and `extra` octets more for stream `i`, are covered by its account's charge. */
  lemma QueueCharged(p: Pool, i: nat, extra: nat, j: nat)
    requires Memory(p) && j < |p.streams|
    requires i < |p.streams| && p.streams[i].bound && !p.streams[i].closed
        && |p.streams[i].rx.contents| + extra <= p.streams[i].window
    ensures var rx := p.store.budgets[RxAccount(j)];
            |p.streams[j].rx.contents| + (if j == i then extra else 0) <= if rx.direction == DOWNLOAD then rx.Charge()
                else 0
  {
    assert StreamMemory(p.store, j, p.streams[j]);
    QueuedWithinUse(p.streams[j].rx);
    hide Blocks;
  }

  /** Room for `extra` octets more of the stream is charged to its account. */
  predicate Covered(s: Stream, rx: Budget, extra: nat) {
    |s.rx.contents| + extra <= if rx.direction == DOWNLOAD then rx.Charge() else 0
  }

  lemma {:induction false} QueuesCharged(streams: seq<Stream>, budgets: seq<Budget>, i: nat, extra: nat)
    requires |budgets| == OTHERS + 2 * |streams|
    requires forall j :: 0 <= j < |streams| ==> Covered(streams[j], budgets[RxAccount(j)], if j == i then extra else 0)
    ensures Sum(streams, Queued()) + (if i < |streams| then extra else 0) <= Charged(budgets, DOWNLOAD)
  {
    if streams != [] {
      var n := |streams| - 1;
      var one := budgets[..RxAccount(n)];
      QueuesCharged(streams[..n], one, i, extra);
      assert Covered(streams[n], budgets[RxAccount(n)], if n == i then extra else 0);
      assert budgets == one + [budgets[RxAccount(n)]] + [budgets[TxAccount(n)]];
      ChargeAppend(one, budgets[RxAccount(n)], DOWNLOAD);
      ChargeAppend(one + [budgets[RxAccount(n)]], budgets[TxAccount(n)], DOWNLOAD);
      hide Charged;
    }
  }

  lemma RoomFor(p: Pool, i: nat, extra: nat)
    requires Memory(p) && p.downloadBytes == Sum(p.streams, Queued())
    requires i < |p.streams| && p.streams[i].bound && !p.streams[i].closed
        && |p.streams[i].rx.contents| + extra <= p.streams[i].window
    ensures p.downloadBytes + extra <= TOTAL_LIMIT
  {
    assert Charged(p.store.budgets, DOWNLOAD) <= TOTAL_LIMIT && |p.store.budgets| == OTHERS + 2 * |p.streams|;
    hide Charged, Sum, Memory;
    forall j | 0 <= j < |p.streams| ensures Covered(p.streams[j], p.store.budgets[RxAccount(j)], if j == i then extra
        else 0) {
      QueueCharged(p, i, extra, j);
    }
    QueuesCharged(p.streams, p.store.budgets, i, extra);
  }

  /** In every reachable state, DATA that the checks of its response accept and that fits the
      two advertised windows is queued: neither the stream limit, nor the download total, nor
      any budget can refuse it, only malloc. */
  lemma DataAlwaysFits(p: Pool, a: nat, id: nat, length: nat, body: seq<Byte>, valid: bool, memory: nat -> bool)
    requires Memory(p) && Links(p) && Receives(p)
    requires Working(p, a) && |body| <= length && (forall i :: memory(i))
    requires Judge(p, a, id, length, valid).Response?
    requires var r := p.actors[a].requests[Judge(p, a, id, length, valid).k];
        r.role.Downloads() && !p.streams[r.stream].closed
    ensures var k := Judge(p, a, id, length, valid).k;
            Enqueue(p, p.actors[a].requests[k].stream, length, body, memory).0
                && !TakeData(p, a, k, length, body, memory).actors[a].failed
  {
    JudgeFacts(p, a, id, length, valid);
    var k := Judge(p, a, id, length, valid).k;
    var r := p.actors[a].requests[k];
    var i := r.stream;
    var s := p.streams[i];
    assert ActorReceives(p, a) && RequestWindow(p, a, r) && ActorLinks(p, a) && RequestLink(p, a, r)
        && StreamLink(p, i);
    assert StreamMemory(p.store, i, s);
    assert |s.rx.contents| + |body| <= s.window;
    hide Charged, Sum, Links, Reservation, Judge, WindowOf, Capacity;
    RoomFor(p, i, |body|);
    ReservationMonotone(|s.rx.contents| + |body|, s.window);
    AppendFits(p.store, RxAccount(i), s.rx, body, memory);
  }

  // ----- every reachable state -----

  predicate Sound(p: Pool) {
    Memory(p) && Links(p) && GroupsExist(p) && Receives(p)
  }

  /** The credit one WINDOW_UPDATE returns is within the advertised total, so the 32-bit sums of the code cannot wrap.
      */
  lemma CreditFits(p: Pool, a: nat, i: nat)
    requires Sound(p) && Working(p, a) && i < |p.streams| && p.streams[i].bound && p.streams[i].download == a
    ensures p.streams[i].consumed + p.actors[a].pendingCredit <= TOTAL_LIMIT
  {
    hide Memory;
    assert ActorReceives(p, a);
    SumMember(p.streams, i, OwedTo(a));
    hide Sum, Links;
  }

  /** Every reachable state is sound, so what is proved of sound states holds of all runs. */
  lemma ReachableSound(p: Pool, steps: seq<Step>)
    requires Initial(p)
    ensures Sound(Run(p, steps))
  {
    hide Memory, Links, GroupsExist, Receives, Initial, Run;
    ReceiveRun(p, steps);
  }
}
