/** Flow control of the upload, told from the frames alone: what a run of steps granted, announced and
    sent is computed from the list of steps, and every send window of the pool is that balance. */
module Http2PoolLedger {
  import opened Bytes
  import opened BufferBudget
  import opened Http2Queue
  import opened Http2Pool
  import opened Http2PoolRuns
  import opened Http2PoolLinks
  import opened Http2PoolSend

  // ----- what one frame grants, sends and announces -----

  /** The credit a step gives to a stream of the actor, or with identifier 0 to its connection: all of a
      WINDOW_UPDATE, unless it overflows the window of a stream. */
  function GrantedBy(p: Pool, step: Step, a: nat, id: nat): nat {
    if step.WindowUpdate? && step.actor == a && step.id == id && Working(p, a) &&
       (id == 0 || exists k :: 0 <= k < |p.actors[a].requests| && p.actors[a].requests[k].id == id &&
                               p.actors[a].requests[k].sendWindow + step.increment <= WINDOW_MAX)
    then step.increment else 0
  }

  /** The octets of DATA a step sends on a stream of the actor, or with identifier 0 on all of them:
      those that its stream has emitted. */
  function UploadedBy(p: Pool, step: Step, a: nat, id: nat): int
    requires Memory(p)
  {
    if step.Send? && step.actor == a && a < |p.actors| && step.stream < |p.streams| &&
       step.stream < |Next(p, step).streams| &&
       (id == 0 || (step.request < |p.actors[a].requests| && p.actors[a].requests[step.request].id == id))
    then |Next(p, step).streams[step.stream].emitted| - |p.streams[step.stream].emitted| else 0
  }

  /** The last value of a parameter among SETTINGS entries. */
  function LastOf(entries: seq<(nat, nat)>, id: nat, w: int): int {
    if entries == [] then w
    else if entries[|entries| - 1].0 == id then entries[|entries| - 1].1
    else LastOf(entries[..|entries| - 1], id, w)
  }

  predicate Opens(p: Pool, step: Step, a: nat) {
    && step.Opened? && step.actor == a && LiveActor(p, a) && p.actors[a].opening && !p.actors[a].stopped
    && step.peerWindow <= WINDOW_MAX && 16384 <= step.peerFrame <= 16777215
  }

  /** The initial window that is announced after a step, if it was `w` before. */
  function AnnouncedBy(p: Pool, step: Step, a: nat, w: int): int {
    if Opens(p, step, a) then step.peerWindow
    else if step.Settings? && step.actor == a && Working(p, a) then LastOf(step.entries, 4, w)
    else w
  }

  /** A request with a new identifier is started. */
  predicate Begins(p: Pool, step: Step, a: nat, id: nat) {
    step.Start? && step.actor == a && step.id == id && a < |p.actors| && id > p.actors[a].latest
  }

  // ----- what a run grants, sends and announces -----

  /** All credit since the request was started; since ever for the connection. */
  function Granted(p: Pool, steps: seq<Step>, a: nat, id: nat): nat
    requires Memory(p)
    decreases |steps|
  {
    if steps == [] then 0 else
      var before, last := steps[..|steps| - 1], steps[|steps| - 1];
      if Begins(Run(p, before), last, a, id) then 0
      else Granted(p, before, a, id) + GrantedBy(Run(p, before), last, a, id)
  }

  function Uploaded(p: Pool, steps: seq<Step>, a: nat, id: nat): int
    requires Memory(p)
    decreases |steps|
  {
    if steps == [] then 0 else
      var before, last := steps[..|steps| - 1], steps[|steps| - 1];
      if Begins(Run(p, before), last, a, id) then 0
      else Uploaded(p, before, a, id) + UploadedBy(Run(p, before), last, a, id)
  }

  function Announced(p: Pool, steps: seq<Step>, a: nat): int
    requires Memory(p)
    decreases |steps|
  {
    if steps == [] then BASE_WINDOW else
      var before, last := steps[..|steps| - 1], steps[|steps| - 1];
      AnnouncedBy(Run(p, before), last, a, Announced(p, before, a))
  }

  // ----- one step -----

  /** A request after a step is new, or what it was before with this credit and these octets. */
  predicate Entry(p: Pool, step: Step, a: nat, t: Request)
    requires Memory(p) && a < |p.actors|
  {
    if Begins(p, step, a, t.id) then t.granted == 0 && t.sent == 0
    else exists j :: 0 <= j < |p.actors[a].requests| && Continues(p, step, a, p.actors[a].requests[j], t)
  }

  predicate Continues(p: Pool, step: Step, a: nat, r: Request, t: Request)
    requires Memory(p)
  {
    t.id == r.id && t.granted == r.granted + GrantedBy(p, step, a, t.id)
        && t.sent == r.sent + UploadedBy(p, step, a, t.id)
  }

  predicate Entered(p: Pool, q: Pool, step: Step, a: nat)
    requires Memory(p)
  {
    a < |p.actors| ==>
      && a < |q.actors|
      && var x := p.actors[a]; var y := q.actors[a];
      !y.failed ==>
        && !x.failed && y.granted == x.granted + GrantedBy(p, step, a, 0)
            && y.sent == x.sent + UploadedBy(p, step, a, 0)
        && y.peerWindow == AnnouncedBy(p, step, a, x.peerWindow)
        && forall k :: 0 <= k < |y.requests| ==> Entry(p, step, a, y.requests[k])
  }

  /** A step that grants, sends, announces and starts nothing on this actor. */
  lemma NothingEntered(p: Pool, q: Pool, step: Step, a: nat)
    requires Memory(p) && a < |p.actors| && a < |q.actors| && SameSend(p.actors[a], q.actors[a])
    requires AnnouncedBy(p, step, a, p.actors[a].peerWindow) == p.actors[a].peerWindow
    requires forall id :: GrantedBy(p, step, a, id) == 0 && UploadedBy(p, step, a, id) == 0
    requires forall k :: 0 <= k < |p.actors[a].requests| ==> !Begins(p, step, a, p.actors[a].requests[k].id)
    ensures Entered(p, q, step, a)
  {
    hide Memory, GrantedBy, UploadedBy, AnnouncedBy, Begins;
    var x, y := p.actors[a], q.actors[a];
    forall k | 0 <= k < |y.requests| ensures Entry(p, step, a, y.requests[k]) {
      assert SameSending(x.requests[k], y.requests[k]) && Continues(p, step, a, x.requests[k], y.requests[k]);
    }
  }

  lemma ActorUnchanged(p: Pool, q: Pool, a: nat)
    requires a < |p.actors| && a < |q.actors| && q.actors[a] == p.actors[a]
    ensures SameSend(p.actors[a], q.actors[a])
  {
  }

  /** Other actors, and steps without effect. */
  lemma ElsewhereEntered(p: Pool, q: Pool, step: Step, a: nat)
    requires Memory(p) && a < |p.actors| && a < |q.actors| && q.actors[a] == p.actors[a] && OnActor(step)
        && step.actor != a
    ensures Entered(p, q, step, a)
  {
    ActorUnchanged(p, q, a);
    hide Memory, Next;
    NothingEntered(p, q, step, a);
  }

  // ----- the steps that matter -----

  /** The request with an identifier is found. */
  lemma FindsIt(requests: seq<Request>, id: nat, j: nat)
    requires j < |requests| && requests[j].id == id && forall i, k ::
        0 <= i < k < |requests| ==> requests[i].id != requests[k].id
    ensures Find(requests, id) == j
  {
  }

  /** What a WINDOW_UPDATE does, and to whom: the named window grows by the increment and no other
      window changes; a zero or oversized one ends the connection; one that overflows ends the
      connection or rejects exactly the request it names. */
  predicate Updated(p: Pool, q: Pool, a: nat, id: nat, n: nat) {
    && a < |p.actors| && |q.actors| == |p.actors| && |q.streams| == |p.streams|
    && (forall b :: 0 <= b < |p.actors| && b != a ==> q.actors[b] == p.actors[b])
    && var x := p.actors[a]; var y := q.actors[a];
       var bad := n == 0 || n > WINDOW_MAX || (id == 0 && x.sendWindow + n > WINDOW_MAX);
       && y.failed == bad
       && y.sendWindow == x.sendWindow + (if id == 0 && !bad then n else 0)
       && |y.requests| == |x.requests|
       && (forall k :: 0 <= k < |x.requests| ==>
             var r := x.requests[k]; var named := id != 0 && !bad && r.id == id;
             var over := r.sendWindow + n > WINDOW_MAX;
             && y.requests[k].sendWindow == r.sendWindow + (if named && !over then n else 0)
             && y.requests[k].reset == (r.reset || (named && over))
                 && y.requests[k].ended == (r.ended || (named && over)))
       && (forall i :: 0 <= i < |p.streams| ==>
             q.streams[i].failed == (p.streams[i].failed || (id != 0 && !bad && Overflows(x.requests, i, id, n))))
  }

  /** The request that is named is one of this stream, and its window would overflow. */
  predicate Overflows(requests: seq<Request>, i: nat, id: nat, n: nat) {
    exists k :: 0 <= k < |requests| && requests[k].id == id && requests[k].stream == i
        && requests[k].sendWindow + n > WINDOW_MAX
  }

  lemma UpdateExact(p: Pool, a: nat, id: nat, n: nat)
    requires Links(p) && Working(p, a)
    ensures Updated(p, DoWindowUpdate(p, a, id, n), a, id, n)
  {
    var x := p.actors[a];
    assert ActorLinks(p, a);
    var k := Find(x.requests, id);
    forall j | 0 <= j < |x.requests| && x.requests[j].id == id ensures j == k {
      FindsIt(x.requests, id, j);
    }
    if k < |x.requests| { assert RequestLink(p, a, x.requests[k]); }
    hide Links, Find;
    var q := DoWindowUpdate(p, a, id, n);
    forall i | 0 <= i < |p.streams|
      ensures Overflows(x.requests, i, id, n) <==>
                k < |x.requests| && x.requests[k].stream == i && x.requests[k].sendWindow + n > WINDOW_MAX
    {
    }
  }

  lemma UpdateGrants(p: Pool, a: nat, id: nat, n: nat)
    requires Memory(p) && Links(p) && Working(p, a) && !DoWindowUpdate(p, a, id, n).actors[a].failed
    ensures var x := p.actors[a]; var y := DoWindowUpdate(p, a, id, n).actors[a]; var step := WindowUpdate(a, id, n);
            && y.granted == x.granted + GrantedBy(p, step, a, 0) && y.sent == x.sent && y.peerWindow == x.peerWindow
            && |y.requests| == |x.requests|
            && forall j :: 0 <= j < |x.requests| ==>
                 && y.requests[j].id == x.requests[j].id && y.requests[j].sent == x.requests[j].sent
                 && y.requests[j].granted == x.requests[j].granted + GrantedBy(p, step, a, x.requests[j].id)
  {
    var x := p.actors[a];
    assert ActorLinks(p, a);
    var k := Find(x.requests, id);
    forall j | 0 <= j < |x.requests| ensures RequestLink(p, a, x.requests[j]) && (x.requests[j].id == id ==> j == k) {
      if x.requests[j].id == id { FindsIt(x.requests, id, j); }
    }
    hide Links, Find, Memory;
  }

  lemma UpdateElsewhere(p: Pool, a: nat, id: nat, n: nat, b: nat)
    requires Links(p) && b < |p.actors| && (!Working(p, a) || a != b)
    ensures var q := DoWindowUpdate(p, a, id, n); b < |q.actors| && q.actors[b] == p.actors[b]
  {
    hide Links, DoWindowUpdate;
    if Working(p, a) { UpdateExact(p, a, id, n); } else { UpdateIdle(p, a, id, n); }
  }

  lemma UpdateIdle(p: Pool, a: nat, id: nat, n: nat)
    requires !Working(p, a)
    ensures DoWindowUpdate(p, a, id, n) == p
  {
  }

  lemma UpdateEntered(p: Pool, a: nat, id: nat, n: nat, b: nat)
    requires Memory(p) && Links(p) && b < |p.actors|
    ensures Entered(p, DoWindowUpdate(p, a, id, n), WindowUpdate(a, id, n), b)
  {
    hide Memory, Links, DoWindowUpdate, Next, GrantedBy, LiveActor, SameSend;
    var step := WindowUpdate(a, id, n);
    var q := DoWindowUpdate(p, a, id, n);
    if !Working(p, a) || a != b {
      UpdateElsewhere(p, a, id, n, b);
      ActorUnchanged(p, q, b);
      NoCredit(p, step, b);
      NothingEntered(p, q, step, b);
    } else {
      UpdateExact(p, a, id, n);
      if !q.actors[a].failed { UpdateCarries(p, a, id, n); }
    }
  }

  lemma UpdateCarries(p: Pool, a: nat, id: nat, n: nat)
    requires Memory(p) && Links(p) && Working(p, a) && a < |p.actors| == |DoWindowUpdate(p, a, id, n).actors|
    requires !DoWindowUpdate(p, a, id, n).actors[a].failed
    ensures Entered(p, DoWindowUpdate(p, a, id, n), WindowUpdate(a, id, n), a)
  {
    hide Memory, Links, DoWindowUpdate, Next, GrantedBy, LiveActor, SameSend;
    var step := WindowUpdate(a, id, n);
    var q := DoWindowUpdate(p, a, id, n);
    UpdateGrants(p, a, id, n);
    forall k | 0 <= k < |q.actors[a].requests| ensures Entry(p, step, a, q.actors[a].requests[k]) {
      assert Continues(p, step, a, p.actors[a].requests[k], q.actors[a].requests[k]);
    }
  }

  lemma NoCredit(p: Pool, step: Step, b: nat)
    requires step.WindowUpdate? && (!Working(p, step.actor) || step.actor != b)
    ensures forall id :: GrantedBy(p, step, b, id) == 0
  {
  }

  lemma {:induction false} LastPrepend(e: (nat, nat), entries: seq<(nat, nat)>, id: nat, w: int)
    ensures LastOf([e] + entries, id, w) == LastOf(entries, id, if e.0 == id then e.1 else w)
  {
    if entries == [] {
      assert [e] + entries == [e] && [e][..0] == [];
    } else {
      LastPrepend(e, entries[..|entries| - 1], id, w);
      assert ([e] + entries)[..|entries|] == [e] + entries[..|entries| - 1];
    }
  }

  /** An entry of SETTINGS that ends the connection. Which one comes first does not matter: the windows of
      the requests all shift with the initial window. */
  predicate Unacceptable(x: Actor, e: (nat, nat)) {
    || (e.0 == 4 && (e.1 > WINDOW_MAX ||
          exists k :: 0 <= k < |x.requests| && x.requests[k].sendWindow + e.1 - x.peerWindow > WINDOW_MAX))
    || (e.0 == 5 && !(16384 <= e.1 <= 16777215))
  }

  /** SETTINGS grant and send nothing; they announce their last initial window, by which every request's
      window shifts, and their last frame size. */
  predicate SettledAs(x: Actor, y: Actor, entries: seq<(nat, nat)>) {
    && y == x.(peerWindow := y.peerWindow, peerFrame := y.peerFrame, requests := y.requests)
    && y.peerWindow == LastOf(entries, 4, x.peerWindow) && y.peerFrame == LastOf(entries, 5, x.peerFrame)
    && |y.requests| == |x.requests|
    && forall k :: 0 <= k < |x.requests| ==>
         y.requests[k] == x.requests[k].(sendWindow := x.requests[k].sendWindow + y.peerWindow - x.peerWindow)
  }

  function EntryApplied(x: Actor, e: (nat, nat)): Actor {
    if e.0 == 4 then x.(peerWindow := e.1, requests := Shifted(x.requests, e.1 - x.peerWindow))
    else if e.0 == 5 then x.(peerFrame := e.1) else x
  }

  lemma SettleFirst(x: Actor, entries: seq<(nat, nat)>)
    requires entries != []
    ensures Settle(x, entries) == if Unacceptable(x, entries[0]) then x.(failed := true)
                                  else Settle(EntryApplied(x, entries[0]), entries[1..])
  {
    hide Shifted;
    var e := entries[0];
    if e.0 == 4 {
      assert Unacceptable(x, e) <==>
             e.1 > WINDOW_MAX || exists k ::
                 0 <= k < |x.requests| && x.requests[k].sendWindow + (e.1 - x.peerWindow) > WINDOW_MAX;
    }
  }

  lemma AppliedJudges(x: Actor, d: (nat, nat), e: (nat, nat))
    ensures Unacceptable(EntryApplied(x, d), e) == Unacceptable(x, e)
  {
    if d.0 == 4 {
      var y := EntryApplied(x, d);
      forall k | 0 <= k < |x.requests|
        ensures y.requests[k].sendWindow + e.1 - y.peerWindow == x.requests[k].sendWindow + e.1 - x.peerWindow
      {
      }
    }
  }

  lemma {:induction false} SettleExact(x: Actor, entries: seq<(nat, nat)>)
    requires !x.failed
    ensures Settle(x, entries).failed <==> exists j :: 0 <= j < |entries| && Unacceptable(x, entries[j])
    ensures !Settle(x, entries).failed ==> SettledAs(x, Settle(x, entries), entries)
    decreases |entries|
  {
    hide Settle, Unacceptable, EntryApplied, SettledAs;
    if entries == [] {
      SettledNone(x);
    } else {
      SettleFirst(x, entries);
      var e, rest := entries[0], entries[1..];
      if !Unacceptable(x, e) {
        var y := EntryApplied(x, e);
        AppliedLives(x, e);
        SettleExact(y, rest);
        forall j | 0 <= j < |rest| ensures Unacceptable(y, rest[j]) == Unacceptable(x, entries[j + 1]) {
          AppliedJudges(x, e, rest[j]);
        }
        if !Settle(y, rest).failed { SettledMore(x, Settle(y, rest), e, rest); assert entries == [e] + rest; }
      }
    }
  }

  lemma AppliedLives(x: Actor, e: (nat, nat))
    ensures EntryApplied(x, e).failed == x.failed
  {
  }

  lemma SettledNone(x: Actor)
    ensures Settle(x, []) == x && SettledAs(x, x, [])
  {
  }

  lemma SettledMore(x: Actor, z: Actor, e: (nat, nat), entries: seq<(nat, nat)>)
    requires SettledAs(EntryApplied(x, e), z, entries)
    ensures SettledAs(x, z, [e] + entries)
  {
    LastPrepend(e, entries, 4, x.peerWindow);
    LastPrepend(e, entries, 5, x.peerFrame);
    hide LastOf;
  }

  lemma SettingsEntered(p: Pool, a: nat, entries: seq<(nat, nat)>, b: nat)
    requires Memory(p) && b < |p.actors|
    ensures Entered(p, DoSettings(p, a, entries), Settings(a, entries), b)
  {
    var step := Settings(a, entries);
    var q := DoSettings(p, a, entries);
    hide Memory, Next, Settle, LastOf, Unacceptable;
    if !Working(p, a) || a != b {
      ActorUnchanged(p, q, b);
      NothingEntered(p, q, step, b);
    } else if !q.actors[a].failed {
      SettleExact(p.actors[a], entries);
      forall k | 0 <= k < |q.actors[a].requests| ensures Entry(p, step, a, q.actors[a].requests[k]) {
        assert Continues(p, step, a, p.actors[a].requests[k], q.actors[a].requests[k]);
      }
    }
  }

  lemma OpenedEntered(p: Pool, a: nat, w: nat, f: nat, b: nat)
    requires Memory(p) && Links(p) && b < |p.actors|
    ensures Entered(p, DoOpened(p, a, w, f), Opened(a, w, f), b)
  {
    var step := Opened(a, w, f);
    var q := DoOpened(p, a, w, f);
    if a < |p.actors| { assert ActorLinks(p, a); }
    hide Memory, Links, Next;
    if !Opens(p, step, b) {
      ActorUnchanged(p, q, b);
      NothingEntered(p, q, step, b);
    }
  }

  lemma StartEntered(p: Pool, q: Pool, step: Step, b: nat)
    requires Memory(p) && Links(p) && step.Start? && b < |p.actors|
    requires q == p || (exists r: Request :: r.id == step.id && StartedSend(p, q, step.actor, r))
    ensures Entered(p, q, step, b)
  {
    assert ActorLinks(p, b);
    var x := p.actors[b];
    forall k | 0 <= k < |x.requests| ensures !Begins(p, step, b,
        x.requests[k].id) { assert RequestLink(p, b, x.requests[k]); }
    hide Memory, Links, Next, RequestLink, ActorLinks;
    if q == p || b != step.actor {
      ActorUnchanged(p, q, b);
      NothingEntered(p, q, step, b);
    } else {
      var y := q.actors[b];
      forall k | 0 <= k < |y.requests| ensures Entry(p, step, b, y.requests[k]) {
        if k > 0 {
          assert y.requests[k] == x.requests[k - 1];
          assert Continues(p, step, b, x.requests[k - 1], y.requests[k]);
        }
      }
    }
  }

  lemma StartIs(p: Pool, a: nat, i: nat, role: Role, id: nat, remaining: nat, inHeader: nat, pending: nat)
    requires Memory(p)
    ensures var q := DoStart(p, a, i, role, id, remaining, inHeader, pending);
            q == p || (exists r: Request :: r.id == id && StartedSend(p, q, a, r))
  {
    hide Memory, UpdateUpload, Consume, StreamMemory, GrowWindow, InitialWindow, ManagerOf;
    var q := DoStart(p, a, i, role, id, remaining, inHeader, pending);
    if q != p {
      GrowKeeps(AccountOutput(p, a, pending).actors[a], InitialWindow(ManagerOf(p, a)));
      assert StartedSend(p, q, a, q.actors[a].requests[0]);
    }
  }

  /** The octets that leave the windows are those that leave the queue. */
  lemma SendIs(p: Pool, a: nat, i: nat, k: nat, pending: nat) returns (n: nat)
    requires Memory(p) && DoSend(p, a, i, k, pending) != p
    ensures var q := DoSend(p, a, i, k, pending);
            && i < |p.streams| && i < |q.streams| && Sent(p, q, a, k, n)
            && |q.streams[i].emitted| == |p.streams[i].emitted| + n
  {
    hide Memory, DropUpload, SendLength, FifoValid;
    TxValid(p, i);
    n := SendLength(p, a, i, k);
    DropStream(p, i, n);
    DropEmits(p, i, n);
  }

  lemma DropEmits(p: Pool, i: nat, n: nat)
    requires Memory(p) && i < |p.streams| && n <= |p.streams[i].tx.contents|
    ensures |DropUpload(p, i, n).1.emitted| == |p.streams[i].emitted| + n
  {
    hide Memory, StreamMemory, Consume, UpdateUpload;
  }

  lemma SendIsNext(p: Pool, a: nat, i: nat, k: nat, pending: nat)
    requires Memory(p)
    ensures Next(p, Send(a, i, k, pending)) == DoSend(p, a, i, k, pending)
  {
    hide Memory, DoSend;
  }

  /** The octets go to the request and to the connection. */
  lemma SendCounts(p: Pool, step: Step, n: nat, j: nat)
    requires Memory(p) && step.Send? && step.stream < |p.streams| && step.stream < |Next(p, step).streams|
    requires ActorLinks(p, step.actor) && step.request < |p.actors[step.actor].requests|
    requires |Next(p, step).streams[step.stream].emitted| == |p.streams[step.stream].emitted| + n
    requires j < |p.actors[step.actor].requests|
    ensures UploadedBy(p, step, step.actor, 0) == n
    ensures UploadedBy(p, step, step.actor, p.actors[step.actor].requests[j].id) == if j == step.request then n else 0
  {
    hide Memory, Next;
    var x := p.actors[step.actor];
    assert RequestLink(p, step.actor, x.requests[j]);
    assert j < step.request ==> x.requests[j].id != x.requests[step.request].id;
    assert j > step.request ==> x.requests[step.request].id != x.requests[j].id;
  }

  lemma SendEntered(p: Pool, a: nat, i: nat, k: nat, pending: nat, b: nat)
    requires Memory(p) && Links(p) && b < |p.actors|
    ensures Entered(p, DoSend(p, a, i, k, pending), Send(a, i, k, pending), b)
  {
    hide Memory, Links, DoSend, Next, ActorLinks, UploadedBy, SameSend;
    var step := Send(a, i, k, pending);
    var q := DoSend(p, a, i, k, pending);
    SendIsNext(p, a, i, k, pending);
    if q == p {
      ActorUnchanged(p, q, b);
      NoOctets(p, step, b);
      NothingEntered(p, q, step, b);
    } else {
      var n := SendIs(p, a, i, k, pending);
      if a != b {
        ElsewhereEntered(p, q, step, b);
      } else {
        LinksActor(p, a);
        var x, y := p.actors[a], q.actors[a];
        SendCounts(p, step, n, k);
        forall j | 0 <= j < |y.requests| ensures Entry(p, step, a, y.requests[j]) {
          SendCounts(p, step, n, j);
          assert Continues(p, step, a, x.requests[j], y.requests[j]);
        }
      }
    }
  }

  lemma NoOctets(p: Pool, step: Step, b: nat)
    requires Memory(p) && Next(p, step) == p
    ensures forall id :: UploadedBy(p, step, b, id) == 0
  {
    hide Memory, Next;
  }

  lemma LinksActor(p: Pool, a: nat)
    requires Links(p) && a < |p.actors|
    ensures ActorLinks(p, a)
  {
  }

  /** Requests leave, and the others stay as they were. */
  lemma FewerEntered(p: Pool, q: Pool, step: Step, a: nat)
    requires Memory(p) && a < |p.actors| && a < |q.actors|
    requires var x, y := p.actors[a], q.actors[a];
             !y.failed ==> !x.failed && y.granted == x.granted && y.sent == x.sent && y.peerWindow == x.peerWindow &&
                           forall k :: 0 <= k < |y.requests| ==> y.requests[k] in x.requests
    requires step.Retire? || step.Exit?
    ensures Entered(p, q, step, a)
  {
    hide Memory, Next;
    var x, y := p.actors[a], q.actors[a];
    if !y.failed {
      forall k | 0 <= k < |y.requests| ensures Entry(p, step, a, y.requests[k]) {
        var j :| 0 <= j < |x.requests| && x.requests[j] == y.requests[k];
        assert Continues(p, step, a, x.requests[j], y.requests[k]);
      }
    }
  }

  lemma RetireEntered(p: Pool, a: nat, k: nat, pending: nat, b: nat)
    requires Memory(p) && b < |p.actors|
    ensures Entered(p, DoRetire(p, a, k, pending), Retire(a, k, pending), b)
  {
    hide Memory, Finished;
    FewerEntered(p, DoRetire(p, a, k, pending), Retire(a, k, pending), b);
  }

  lemma ExitEntered(p: Pool, a: nat, b: nat)
    requires Memory(p) && b < |p.actors|
    ensures Entered(p, DoExit(p, a), Exit(a), b)
  {
    hide Memory, ReleaseAll;
    if LiveActor(p, a) && !p.actors[a].stopped {
      ReleaseAllActors(p.(streams := FailUsers(p.streams, a),
          actors := p.actors[a := p.actors[a].(failed := true, opening := false, requests := [])]),
              p.actors[a].requests);
    }
    FewerEntered(p, DoExit(p, a), Exit(a), b);
  }

  lemma SilentEntered(p: Pool, step: Step, b: nat)
    requires Memory(p) && Silent(step) && b < |p.actors|
    ensures Entered(p, Next(p, step), step, b)
  {
    SilentSends(p, step);
    hide Memory, Raw;
    assert SameSend(p.actors[b], Next(p, step).actors[b]);
    NothingEntered(p, Next(p, step), step, b);
  }

  /** Every step enters what it grants, sends and announces, and nothing else. */
  lemma EveryStepEntered(p: Pool, step: Step, b: nat)
    requires Memory(p) && Links(p) && b < |p.actors|
    ensures Entered(p, Next(p, step), step, b)
  {
    hide Memory, Links, Entered, Sends, SendsWithin;
    hide DoConnect, DoNewGroup, DoNewActor, DoOpened, DoBind, DoMoveUpload, DoMoveDownload, DoStart, DoData,
        DoWindowUpdate, DoSettings, DoReset, DoGoaway, DoHeaders;
    hide DoCredit, DoSend, DoEndSend, DoRetire, DoExit, DoStop, DoCollectActor, DoCollectGroup, DoWrite, DoReserve,
        DoUnreserve, DoRead, DoClose, DoCloseWaited;
    if Silent(step) {
      SilentEntered(p, step, b);
    } else {
      match step {
        case NewActor(g) => NewActorEntered(p, g, b);
        case Opened(a, w, f) => OpenedEntered(p, a, w, f, b);
        case Start(a, i, role, id, remaining, inHeader, pending) =>
          StartIs(p, a, i, role, id, remaining, inHeader, pending);
          StartEntered(p, Next(p, step), step, b);
        case WindowUpdate(a, id, n) => UpdateEntered(p, a, id, n, b);
        case Settings(a, entries) => SettingsEntered(p, a, entries, b);
        case Send(a, i, k, pending) => SendEntered(p, a, i, k, pending, b);
        case Retire(a, k, pending) => RetireEntered(p, a, k, pending, b);
        case Exit(a) => ExitEntered(p, a, b);
      }
    }
  }

  lemma NewActorEntered(p: Pool, g: nat, b: nat)
    requires Memory(p) && b < |p.actors|
    ensures Entered(p, DoNewActor(p, g), NewActor(g), b)
  {
    ActorUnchanged(p, DoNewActor(p, g), b);
    hide Memory, Next;
    NothingEntered(p, DoNewActor(p, g), NewActor(g), b);
  }

  // ----- every run -----

  predicate RequestPosted(p: Pool, steps: seq<Step>, a: nat, r: Request)
    requires Memory(p)
  {
    r.granted == Granted(p, steps, a, r.id) && r.sent == Uploaded(p, steps, a, r.id)
  }

  /** The books of an actor that has not failed say what the steps did. */
  predicate Posted(p: Pool, steps: seq<Step>, a: nat)
    requires Memory(p)
  {
    var q := Run(p, steps);
    && (a >= |q.actors| ==>
          Granted(p, steps, a, 0) == 0 && Uploaded(p, steps, a, 0) == 0 && Announced(p, steps, a) == BASE_WINDOW)
    && (a < |q.actors| && !q.actors[a].failed ==>
          var x := q.actors[a];
          && x.granted == Granted(p, steps, a, 0) && x.sent == Uploaded(p, steps, a, 0)
          && x.peerWindow == Announced(p, steps, a)
          && forall k :: 0 <= k < |x.requests| ==> RequestPosted(p, steps, a, x.requests[k]))
  }

  lemma EntryPosted(p: Pool, steps: seq<Step>, a: nat, t: Request)
    requires Memory(p) && steps != []
    requires var q := Run(p, steps[..|steps| - 1]);
             && a < |q.actors| && Entry(q, steps[|steps| - 1], a, t)
             && forall j :: 0 <= j < |q.actors[a].requests| ==>
                  RequestPosted(p, steps[..|steps| - 1], a, q.actors[a].requests[j])
    ensures RequestPosted(p, steps, a, t)
  {
    hide Memory, Run, GrantedBy, UploadedBy, Begins;
    var q := Run(p, steps[..|steps| - 1]);
    if !Begins(q, steps[|steps| - 1], a, t.id) {
      var j :| 0 <= j < |q.actors[a].requests| && Continues(q, steps[|steps| - 1], a, q.actors[a].requests[j], t);
      assert RequestPosted(p, steps[..|steps| - 1], a, q.actors[a].requests[j]);
    }
  }

  /** The connection is never begun anew. */
  lemma ConnectionNext(p: Pool, steps: seq<Step>, a: nat)
    requires Memory(p) && steps != []
    ensures var before, last := steps[..|steps| - 1], steps[|steps| - 1]; var q := Run(p, before);
            && Granted(p, steps, a, 0) == Granted(p, before, a, 0) + GrantedBy(q, last, a, 0)
            && Uploaded(p, steps, a, 0) == Uploaded(p, before, a, 0) + UploadedBy(q, last, a, 0)
            && Announced(p, steps, a) == AnnouncedBy(q, last, a, Announced(p, before, a))
  {
    hide Memory, Run, GrantedBy, UploadedBy, AnnouncedBy;
  }

  /** What happens to an actor that is not there yet. */
  lemma Newcomer(p: Pool, step: Step, a: nat)
    requires Memory(p) && a >= |p.actors|
    ensures GrantedBy(p, step, a, 0) == 0 && UploadedBy(p, step, a, 0) == 0
        && AnnouncedBy(p, step, a, BASE_WINDOW) == BASE_WINDOW
  {
    hide Memory, Next;
  }

  lemma NewcomerBlank(p: Pool, step: Step, a: nat)
    requires Memory(p) && Links(p) && |p.actors| <= a < |Next(p, step).actors|
    ensures var x := Next(p, step).actors[a];
            x.granted == 0 && x.sent == 0 && x.peerWindow == BASE_WINDOW && x.requests == []
  {
    if step.NewActor? {
      hide Memory, Links;
    } else {
      hide Memory, Links, Next, SendsWithin;
      ActorsStay(p, step);
      assert false;
    }
  }

  /** Only NewActor adds one. */
  lemma ActorsStay(p: Pool, step: Step)
    requires Memory(p) && Links(p) && !step.NewActor?
    ensures |Next(p, step).actors| == |p.actors|
  {
    hide Memory, Links, SendsWithin, Sends, StartedSend, Sent;
    hide DoConnect, DoNewGroup, DoNewActor, DoOpened, DoBind, DoMoveUpload, DoMoveDownload, DoStart, DoData,
        DoWindowUpdate, DoSettings, DoReset, DoGoaway, DoHeaders;
    hide DoCredit, DoSend, DoEndSend, DoRetire, DoExit, DoStop, DoCollectActor, DoCollectGroup, DoWrite, DoReserve,
        DoUnreserve, DoRead, DoClose, DoCloseWaited;
    if Silent(step) {
      SilentSends(p, step);
    } else {
      match step {
        case Opened(a, w, f) => LoudStay(p, a, 0, w, f, []);
        case Start(a, i, role, id, remaining, inHeader, pending) =>
            StartStays(p, a, i, role, id, remaining, inHeader, pending);
        case WindowUpdate(a, id, n) => LoudStay(p, a, id, n, 0, []);
        case Settings(a, entries) => LoudStay(p, a, 0, 0, 0, entries);
        case Send(a, i, k, pending) => SendStays(p, a, i, k, pending);
        case Retire(a, k, pending) => LoudStay(p, a, k, pending, 0, []);
        case Exit(a) => ExitStays(p, a);
      }
    }
  }

  lemma LoudStay(p: Pool, a: nat, k: nat, n: nat, f: nat, entries: seq<(nat, nat)>)
    ensures |DoOpened(p, a, n, f).actors| == |p.actors| && |DoWindowUpdate(p, a, k, n).actors| == |p.actors|
    ensures |DoSettings(p, a, entries).actors| == |p.actors| && |DoRetire(p, a, k, n).actors| == |p.actors|
  {
    hide Find, Settle;
  }

  lemma StartStays(p: Pool, a: nat, i: nat, role: Role, id: nat, remaining: nat, inHeader: nat, pending: nat)
    requires Memory(p)
    ensures |DoStart(p, a, i, role, id, remaining, inHeader, pending).actors| == |p.actors|
  {
    hide Memory, DoStart;
    StartIs(p, a, i, role, id, remaining, inHeader, pending);
  }

  lemma SendStays(p: Pool, a: nat, i: nat, k: nat, pending: nat)
    requires Memory(p)
    ensures |DoSend(p, a, i, k, pending).actors| == |p.actors|
  {
    hide Memory, DoSend;
    SendDoes(p, a, i, k, pending);
  }

  lemma ExitStays(p: Pool, a: nat)
    ensures |DoExit(p, a).actors| == |p.actors|
  {
    hide ReleaseAll;
    if LiveActor(p, a) && !p.actors[a].stopped {
      ReleaseAllActors(p.(streams := FailUsers(p.streams, a),
          actors := p.actors[a := p.actors[a].(failed := true, opening := false, requests := [])]),
              p.actors[a].requests);
    }
  }

  lemma PostedNext(p: Pool, steps: seq<Step>, a: nat)
    requires Memory(p) && steps != [] && Links(Run(p, steps[..|steps| - 1])) && Posted(p, steps[..|steps| - 1], a)
    requires |Run(p, steps).actors| >= |Run(p, steps[..|steps| - 1]).actors|
    ensures Posted(p, steps, a)
  {
    hide Memory, Links, Granted, Uploaded, Announced, Next, GrantedBy, UploadedBy, AnnouncedBy, RequestPosted, Entry;
    var before, last := steps[..|steps| - 1], steps[|steps| - 1];
    var q := Run(p, before);
    ConnectionNext(p, steps, a);
    if a < |q.actors| {
      EveryStepEntered(q, last, a);
      var y := Next(q, last).actors[a];
      if !y.failed {
        forall k | 0 <= k < |y.requests| ensures RequestPosted(p, steps, a, y.requests[k]) {
          EntryPosted(p, steps, a, y.requests[k]);
        }
      }
    } else {
      Newcomer(q, last, a);
      if a < |Next(q, last).actors| { NewcomerBlank(q, last, a); }
    }
  }

  lemma {:induction false} PostedRun(p: Pool, steps: seq<Step>, a: nat)
    requires Initial(p)
    ensures Posted(p, steps, a)
    decreases |steps|
  {
    hide Memory, Links, GroupsExist, Sends, Initial, Next, SendsWithin, Posted;
    if steps == [] {
      PostedStart(p, a);
    } else {
      PostedRun(p, steps[..|steps| - 1], a);
      SendRun(p, steps[..|steps| - 1]);
      SendRun(p, steps);
      MoreActors(Run(p, steps[..|steps| - 1]), Run(p, steps));
      PostedNext(p, steps, a);
    }
  }

  lemma MoreActors(p: Pool, q: Pool)
    requires SendsWithin(p, q)
    ensures |q.actors| >= |p.actors|
  {
  }

  lemma PostedStart(p: Pool, a: nat)
    requires Initial(p)
    ensures Posted(p, [], a)
  {
    hide Memory;
  }

  /** Over every run, on every connection that has not failed: the connection's send window is 65535 plus
      what WINDOW_UPDATE frames granted it minus the octets of DATA sent, that of each request is the
      announced initial window plus what was granted to it since it started minus its octets, and all
      this is computed from the frames. */
  lemma WindowsAreBalances(p: Pool, steps: seq<Step>, a: nat)
    requires Initial(p) && a < |Run(p, steps).actors| && !Run(p, steps).actors[a].failed
    ensures var x := Run(p, steps).actors[a];
            && 0 <= x.sendWindow == BASE_WINDOW + Granted(p, steps, a, 0) - Uploaded(p, steps, a, 0) <= WINDOW_MAX
            && forall k :: 0 <= k < |x.requests| ==> Balance(p, steps, a, x.requests[k])
  {
    hide Memory, Links, GroupsExist, Initial, Run, SendsWithin, Granted, Uploaded, Announced;
    PostedRun(p, steps, a);
    SendRun(p, steps);
    var x := Run(p, steps).actors[a];
    assert SendOk(x);
    forall k | 0 <= k < |x.requests| ensures Balance(p, steps, a, x.requests[k]) {
      assert RequestPosted(p, steps, a, x.requests[k]) && RequestSends(x, x.requests[k]);
    }
  }

  predicate Balance(p: Pool, steps: seq<Step>, a: nat, r: Request)
    requires Memory(p)
  {
    r.sendWindow == Announced(p, steps, a) + Granted(p, steps, a, r.id) - Uploaded(p, steps, a, r.id) <= WINDOW_MAX
  }
}
