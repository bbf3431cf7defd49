/** src/http2_pool.c: many streams share physical HTTP/2 connections ("actors") under one
    lock.  The state below is what the lock protects.  Every step is one lock-held section
    of the code or a part of one; a step whose guard does not hold changes nothing.

    Streams, actors and groups are named by their position and never leave their sequence:
    `freed` marks one whose memory has been returned.  Connections that fall back to
    HTTP/1.1 are not part of this model.
 */
module Http2Pool {
  import opened Bytes
  import opened BufferBudget
  import opened Http2Queue

  const WINDOW_MAX := 0x7FFF_FFFF
  const BASE_WINDOW := 65535
  const LOW_WATER := 16384
  const TX_RESERVE := 65536
  const UPLOAD_LIMIT := TOTAL_LIMIT - TX_RESERVE
  const OTHERS := 6

  // ----- entities -----

  datatype Role = Download | Duplex | Upload | Packet | StreamedPacket
  {
    predicate Downloads() { Download? || Duplex? }
    predicate Packets() { Packet? || StreamedPacket? }
  }

  /** `granted` and `sent` record the credit the peer gave this stream and the DATA octets sent on it. */
  datatype Request = Request(stream: nat, id: nat, role: Role, ended: bool, reset: bool, sendEnded: bool, headers: bool,
                             sendWindow: int, receiveWindow: int, remaining: nat, granted: nat, sent: nat)

  /** `received` and `delivered` record the octets taken from DATA frames and given to the
      reader, `accepted` and `emitted` those taken from the writer and handed to the backend. */
  datatype Stream = Stream(freed: bool, closed: bool, failed: bool, eof: bool, ready: bool,
                           bound: bool, download: nat, upload: nat, downId: nat, upId: nat, window: nat,
                           rx: Fifo, tx: Fifo, consumed: nat, reserved: nat, permanent: nat, references: int,
                           sendStopped: bool, finishRequested: bool,
                           received: seq<Byte>, delivered: seq<Byte>, accepted: seq<Byte>, emitted: seq<Byte>)

  /** `creditSent`, `dataReceived`, `granted` and `sent` record what has crossed the connection
      at connection level. */
  datatype Actor = Actor(freed: bool, group: nat, requests: seq<Request>, latest: nat,
                         opening: bool, failed: bool, draining: bool, stopped: bool, closeWaiters: nat,
                         pendingCredit: nat, receiveSlots: nat, receiveWindow: int,
                         sendWindow: int, peerWindow: int, peerFrame: nat, netAccounted: nat,
                         creditSent: nat, dataReceived: nat, granted: nat, sent: nat)

  datatype Group = Group(freed: bool, manager: nat, running: int)

  /** What of the configuration matters here: gRPC or XHTTP, and gRPC's configured window, 0 when absent. */
  datatype Manager = Manager(grpc: bool, grpcWindow: nat)

  datatype Pool = Pool(managers: seq<Manager>, streams: seq<Stream>, actors: seq<Actor>, groups: seq<Group>,
                       uploadBytes: int, downloadBytes: int, store: Store)

  /** Receive window of a new request; core_grpc_parameter accepts windows up to the stream limit. */
  function InitialWindow(m: Manager): (w: nat)
    ensures 1 <= w <= STREAM_LIMIT
  {
    if m.grpc && 1 <= m.grpcWindow <= STREAM_LIMIT then m.grpcWindow else STREAM_LIMIT
  }

  function RxAccount(i: nat): nat { OTHERS + 2 * i }
  function TxAccount(i: nat): nat { OTHERS + 2 * i + 1 }

  // ----- pointers -----

  predicate LiveStream(p: Pool, i: nat) { i < |p.streams| && !p.streams[i].freed }
  predicate LiveActor(p: Pool, a: nat) { a < |p.actors| && !p.actors[a].freed }

  /** The worker of the actor is running: it is in neither of its closing sections. */
  predicate Working(p: Pool, a: nat) { LiveActor(p, a) && !p.actors[a].failed && !p.actors[a].stopped
      && !p.actors[a].opening }

  predicate Usable(p: Pool, a: nat) {
    LiveActor(p, a) && !p.actors[a].failed && !p.actors[a].stopped && !p.actors[a].draining
  }

  /** The manager an actor belongs to, through its group. */
  function ManagerOf(p: Pool, a: nat): (m: Manager)
    requires a < |p.actors|
  {
    var g := p.actors[a].group;
    if g < |p.groups| && p.groups[g].manager < |p.managers| then p.managers[p.groups[g].manager] else Manager(false, 0)
  }

  function SetStream(p: Pool, i: nat, s: Stream): Pool
    requires i < |p.streams|
  {
    p.(streams := p.streams[i := s])
  }

  function SetActor(p: Pool, a: nat, x: Actor): Pool
    requires a < |p.actors|
  {
    p.(actors := p.actors[a := x])
  }

  function SetRequest(x: Actor, k: nat, r: Request): Actor
    requires k < |x.requests|
  {
    x.(requests := x.requests[k := r])
  }

  /** find_request: position of the first request with this id, or the length of the list. */
  function Find(requests: seq<Request>, id: nat): (k: nat)
    ensures k <= |requests|
    ensures k < |requests| ==> requests[k].id == id
    ensures forall j :: 0 <= j < k ==> requests[j].id != id
  {
    if requests == [] then 0 else if requests[0].id == id then 0 else 1 + Find(requests[1..], id)
  }

  // ----- memory -----

  /** Each open bound stream holds back, out of the download total, room for everything its
      window lets the peer send; each queue's account is charged for its blocks. */
  predicate StreamMemory(store: Store, i: nat, s: Stream)
    requires TxAccount(i) < |store.budgets|
  {
    var rx := store.budgets[RxAccount(i)];
    var tx := store.budgets[TxAccount(i)];
    && FifoValid(s.rx) && FifoValid(s.tx)
    && rx.used == Blocks(s.rx) * BLOCK_SIZE && tx.used == Blocks(s.tx) * BLOCK_SIZE
    && rx.direction < DIRECTIONS && tx.direction == UPLOAD
    && (s.freed ==> s.closed)
    && (s.bound && !s.closed ==>
        rx.direction == DOWNLOAD && 1 <= s.window <= STREAM_LIMIT && rx.minimum == Reservation(s.window))
    && (!s.bound || s.closed ==> rx.minimum == 0 && s.rx == EMPTY && s.tx == EMPTY && s.reserved == 0)
    && s.permanent <= Reservation(STREAM_LIMIT)
    && |s.tx.contents| + s.reserved <= STREAM_LIMIT
    && (s.reserved > 0 ==> tx.minimum >= Reservation(|s.tx.contents| + s.reserved))
  }

  predicate Memory(p: Pool) {
    && StoreValid(p.store)
    && |p.store.budgets| == OTHERS + 2 * |p.streams|
    && (forall i :: 3 <= i < OTHERS ==> p.store.budgets[i].direction < DIRECTIONS)
    && (forall i :: 0 <= i < |p.streams| ==> StreamMemory(p.store, i, p.streams[i]))
  }

  lemma MemoryTouched(p: Pool, i: nat, a: nat, store: Store, s: Stream)
    requires Memory(p) && i < |p.streams| && (a == RxAccount(i) || a == TxAccount(i))
    requires Touched(p.store, store, a) && StreamMemory(store, i, s)
    ensures Memory(p.(streams := p.streams[i := s], store := store))
  {
    hide StoreValid, FifoValid, Blocks, Reservation;
    forall j | 0 <= j < |p.streams| && j != i ensures StreamMemory(store, j, p.streams[j]) {
      assert StreamMemory(p.store, j, p.streams[j]);
    }
  }

  // ----- release of memory -----

  /** update_upload_budget. */
  function UploadMinimum(s: Stream): (m: nat) {
    var wanted := if s.reserved > 0 then Reservation(|s.tx.contents| + s.reserved) else 0;
    if wanted < s.permanent && !s.closed then s.permanent else wanted
  }

  function UpdateUpload(store: Store, i: nat, s: Stream): Store
    requires StoreValid(store) && Account(store, TxAccount(i))
  {
    Reserved(store, TxAccount(i), UploadMinimum(s))
  }

  /** `n` bytes leave the upload queue and its reservation is adjusted. */
  function DropUpload(p: Pool, i: nat, n: nat): (r: (Store, Stream))
    requires Memory(p) && i < |p.streams|
    requires n <= |p.streams[i].tx.contents|
  {
    assert StreamMemory(p.store, i, p.streams[i]);
    var (t, f) := Consume(p.store, TxAccount(i), p.streams[i].tx, n);
    var s := p.streams[i].(tx := f, emitted := p.streams[i].emitted + p.streams[i].tx.contents[..n]);
    (UpdateUpload(t, i, s), s)
  }

  lemma DropUploadMemory(p: Pool, i: nat, n: nat)
    requires Memory(p) && i < |p.streams| && n <= |p.streams[i].tx.contents|
    ensures var (t, s) := DropUpload(p, i, n);
            && Memory(p.(streams := p.streams[i := s], store := t))
            && s == p.streams[i].(tx := s.tx, emitted := s.emitted) && s.tx.contents == p.streams[i].tx.contents[n..]
  {
    assert StreamMemory(p.store, i, p.streams[i]);
    var a := TxAccount(i);
    var (t, f) := Consume(p.store, a, p.streams[i].tx, n);
    var s := p.streams[i].(tx := f, emitted := p.streams[i].emitted + p.streams[i].tx.contents[..n]);
    var u := UpdateUpload(t, i, s);
    hide StoreValid, Blocks, GiveMany, Reserved;
    AdjustedTouches(p.store, t, a, Blocks(f) * BLOCK_SIZE);
    TouchedTwice(p.store, t, u, a);
    if s.reserved > 0 {
      ReservationMonotone(|s.tx.contents| + s.reserved, |p.streams[i].tx.contents| + s.reserved);
    }
    hide Reservation;
    MemoryTouched(p, i, a, u, s);
  }

  // ----- parts of steps -----

  /** account_output: what the backend holds unsent replaces what was accounted for it before. */
  function AccountOutput(p: Pool, a: nat, pending: nat): Pool
    requires a < |p.actors|
  {
    p.(uploadBytes := p.uploadBytes - p.actors[a].netAccounted + pending,
       actors := p.actors[a := p.actors[a].(netAccounted := pending)])
  }

  function FailActor(p: Pool, a: nat): Pool
    requires a < |p.actors|
  {
    SetActor(p, a, p.actors[a].(failed := true))
  }

  function FailStream(p: Pool, i: nat): Pool
    requires i < |p.streams|
  {
    SetStream(p, i, p.streams[i].(failed := true))
  }

  /** reject_stream: the stream fails and the request is over. */
  function Reject(p: Pool, a: nat, k: nat): Pool
    requires a < |p.actors| && k < |p.actors[a].requests| && p.actors[a].requests[k].stream < |p.streams|
  {
    var r := p.actors[a].requests[k];
    SetActor(FailStream(p, r.stream), a, SetRequest(p.actors[a], k, r.(ended := true, reset := true)))
  }

  /** DATA that is not kept: the connection credit goes straight back. */
  function Refunded(x: Actor, length: nat): Actor {
    x.(dataReceived := x.dataReceived + length, creditSent := x.creditSent + length)
  }

  /** release_stream.  The queues of a closed stream are already empty. */
  function ReleaseStream(p: Pool, i: nat): Pool
    requires i < |p.streams|
  {
    var s := p.streams[i].(references := p.streams[i].references - 1);
    if s.references != 0 || !s.closed then SetStream(p, i, s) else
      SetStream(p.(uploadBytes := p.uploadBytes - |s.tx.contents| - s.reserved,
          downloadBytes := p.downloadBytes - |s.rx.contents|),
                i, s.(freed := true))
  }

  /** stop_upload. */
  function StopUpload(p: Pool, i: nat): Pool
    requires Memory(p) && i < |p.streams|
  {
    var s := p.streams[i];
    assert StreamMemory(p.store, i, s);
    if s.sendStopped then p else
      p.(uploadBytes := p.uploadBytes - |s.tx.contents| - s.reserved,
         store := Emptied(p.store, TxAccount(i), s.tx),
         streams := p.streams[i := s.(sendStopped := true, tx := EMPTY, reserved := 0, permanent := 0)])
  }

  // ----- lifetimes -----

  const FRESH :=
      Stream(false, false, false, false, false, false, 0, 0, 0, 0, 0, EMPTY, EMPTY, 0, 0, 0, 1, false, false, [], [],
          [], [])

  function DoConnect(p: Pool): Pool {
    p.(streams := p.streams + [FRESH],
        store := p.store.(budgets := p.store.budgets + [Budget(0, 0, UPLOAD), Budget(0, 0, UPLOAD)]))
  }

  function DoNewGroup(p: Pool, manager: nat): Pool {
    if manager >= |p.managers| then p else p.(groups := p.groups + [Group(false, manager, 0)])
  }

  function DoNewActor(p: Pool, group: nat): Pool {
    if group >= |p.groups| || p.groups[group].freed then p else
      p.(actors :=
          p.actors + [Actor(false, group, [], 0, true, false, false, false, 0, 0, 0, BASE_WINDOW, BASE_WINDOW,
              BASE_WINDOW, 16384, 0, 0, 0, 0, 0)])
  }

  /** The worker has connected; settings that arrived with the handshake apply. */
  function DoOpened(p: Pool, a: nat, peerWindow: nat, peerFrame: nat): Pool {
    if !LiveActor(p, a) || !p.actors[a].opening || p.actors[a].stopped || peerWindow > WINDOW_MAX
        || !(16384 <= peerFrame <= 16777215) then p
    else SetActor(p, a, p.actors[a].(opening := false, peerWindow := peerWindow, peerFrame := peerFrame))
  }

  function AddRunning(groups: seq<Group>, g: nat, n: int): seq<Group> {
    if g < |groups| then groups[g := groups[g].(running := groups[g].running + n)] else groups
  }

  /** The budgets allocate_channels asks for: the receive window and a full upload queue, held back in advance. */
  function BindStore(p: Pool, i: nat, window: nat): (r: (bool, Store))
    requires Memory(p) && i < |p.streams|
  {
    var down := Init(RxAccount(i), DOWNLOAD, Reservation(window));
    var up := Init(TxAccount(i), UPLOAD, Reservation(STREAM_LIMIT));
    if Succeeds(p.store.budgets, down) && Succeeds(Asked(p.store.budgets, down), up) then
      (true, p.store.(budgets := Asked(Asked(p.store.budgets, down), up)))
    else (false, p.store)
  }

  /** allocate_channels with the actors it chose. Both managers are XHTTP when they differ. */
  function DoBind(p: Pool, i: nat, u: nat, d: nat): Pool
    requires Memory(p)
  {
    if !LiveStream(p, i) || p.streams[i].bound || p.streams[i].closed || !Usable(p, u) || !Usable(p, d) ||
       InitialWindow(ManagerOf(p, u)) != InitialWindow(ManagerOf(p, d)) then p else
      var window := InitialWindow(ManagerOf(p, u));
      var (ok, store) := BindStore(p, i, window);
      if !ok then p else
        var gu := p.actors[u].group;
        var gd := p.actors[d].group;
        var groups := AddRunning(p.groups, gu, 1);
        p.(store := store,
           streams := p.streams[i :=
               p.streams[i].(bound := true, download := d, upload := u, window := window,
                   permanent := Reservation(STREAM_LIMIT))],
           groups := if gd != gu then AddRunning(groups, gd, 1) else groups)
  }

  /** A stream whose channel cannot serve it moves within the group (`sameGroup`), or, for
      packet uploads of a retired group, to another group of the manager. */
  function DoMoveUpload(p: Pool, i: nat, v: nat): Pool {
    if !LiveStream(p, i) || !p.streams[i].bound || p.streams[i].closed || p.streams[i].upId != 0 || !Usable(p, v) ||
       !(p.streams[i].upload < |p.actors| && p.streams[i].download < |p.actors|) then p else
      var s := p.streams[i];
      var old_ := p.actors[s.upload].group;
      var new_ := p.actors[v].group;
      var down := p.actors[s.download].group;
      var groups := if old_ != down then AddRunning(p.groups, old_, -1) else p.groups;
      p.(streams := p.streams[i := s.(upload := v)],
         groups := if new_ != down then AddRunning(groups, new_, 1) else groups)
  }

  /** A stream whose download has not started moves to another channel of the same group,
      with its upload if that shared the channel. */
  function DoMoveDownload(p: Pool, i: nat, v: nat): Pool {
    if !LiveStream(p, i) || !p.streams[i].bound || p.streams[i].closed || p.streams[i].downId != 0
        || p.streams[i].upId != 0 || !Usable(p, v) ||
       !(p.streams[i].upload < |p.actors| && p.streams[i].download < |p.actors|) ||
       p.actors[v].group != p.actors[p.streams[i].download].group then p else
      var s := p.streams[i];
      SetStream(p, i, s.(download := v, upload := if s.upload == s.download then v else s.upload))
  }

  /** The worker leaves its loop: open streams on this actor fail and its requests are released. */
  function ReleaseAll(p: Pool, requests: seq<Request>): Pool
    decreases |requests|
  {
    if requests == [] then p else
      ReleaseAll(if requests[0].stream < |p.streams| then ReleaseStream(p, requests[0].stream) else p, requests[1..])
  }

  function FailUsers(streams: seq<Stream>, a: nat): (r: seq<Stream>)
    ensures |r| == |streams|
    ensures forall i :: 0 <= i < |streams| ==>
      r[i] == if !streams[i].closed && streams[i].bound
          && (streams[i].download == a || streams[i].upload == a) then streams[i].(failed := true) else streams[i]
  {
    seq(|streams|, i requires 0 <= i < |streams| =>
      if !streams[i].closed && streams[i].bound
          && (streams[i].download == a || streams[i].upload == a) then streams[i].(failed := true) else streams[i])
  }

  function DoExit(p: Pool, a: nat): Pool {
    if !LiveActor(p, a) || p.actors[a].stopped then p else
      ReleaseAll(p.(streams := FailUsers(p.streams, a),
                    actors := p.actors[a := p.actors[a].(failed := true, opening := false, requests := [])]),
                 p.actors[a].requests)
  }

  /** The worker's last section: its output no longer counts and it is stopped. */
  function DoStop(p: Pool, a: nat): Pool {
    if !LiveActor(p, a) || p.actors[a].stopped || !p.actors[a].failed || p.actors[a].requests != [] then p else
      var q := AccountOutput(p, a, 0);
      SetActor(q, a, q.actors[a].(stopped := true))
  }

  /** collect_stopped_actors, one actor: a stopped actor nobody points to is freed. */
  function DoCollectActor(p: Pool, a: nat): Pool {
    if !LiveActor(p, a) || !p.actors[a].stopped || p.actors[a].closeWaiters != 0 ||
       (exists i ::
           0 <= i < |p.streams| && !p.streams[i].freed && p.streams[i].bound
               && (p.streams[i].download == a || p.streams[i].upload == a)) then p
    else SetActor(p, a, p.actors[a].(freed := true))
  }

  /** collect_stopped_actors, one group: a group without actors and running streams is freed. */
  function DoCollectGroup(p: Pool, g: nat): Pool {
    if g >= |p.groups| || p.groups[g].freed || p.groups[g].running != 0 ||
       (exists a :: 0 <= a < |p.actors| && !p.actors[a].freed && p.actors[a].group == g) then p
    else p.(groups := p.groups[g := p.groups[g].(freed := true)])
  }

  /** The queues of a closing stream are emptied and what it had not read or returned is due as credit. */
  function CloseQueues(p: Pool, i: nat): (q: Pool)
    requires Memory(p) && i < |p.streams|
    ensures |q.streams| == |p.streams|
  {
    var s := p.streams[i];
    assert StreamMemory(p.store, i, s);
    EmptiedAccount(p.store, TxAccount(i), s.tx);
    var store := Emptied(p.store, TxAccount(i), s.tx);
    p.(uploadBytes := p.uploadBytes - |s.tx.contents| - s.reserved, downloadBytes := p.downloadBytes - |s.rx.contents|,
       store := Emptied(store, RxAccount(i), s.rx),
       streams := p.streams[i :=
           s.(closed := true, tx := EMPTY, rx := EMPTY, reserved := 0, consumed := s.consumed + |s.rx.contents|)])
  }

  /** core_http2_close; `waits` says of the download and of the upload actor whether it is private to
      the stream, so that the caller goes on waiting for it. */
  function DoClose(p: Pool, i: nat, waits: (bool, bool)): Pool
    requires Memory(p)
  {
    if !LiveStream(p, i) || p.streams[i].closed then p else
      var s := p.streams[i];
      var q := CloseQueues(p, i);
      ReleaseStream(if s.bound && s.download < |p.actors| && s.upload < |p.actors| then Unbind(q, i, waits) else q, i)
  }

  /** The connection credit a closing stream still holds goes to its download actor. */
  function Unbind(p: Pool, i: nat, waits: (bool, bool)): (q: Pool)
    requires i < |p.streams| && p.streams[i].download < |p.actors| && p.streams[i].upload < |p.actors|
    ensures |q.streams| == |p.streams|
  {
    var s := p.streams[i];
    var x := p.actors[s.download];
    var actors := p.actors[s.download := x.(pendingCredit := x.pendingCredit + s.consumed,
                                               closeWaiters := x.closeWaiters + if waits.0 then 1 else 0)];
    var y := actors[s.upload];
    var groups := AddRunning(p.groups, x.group, -1);
    p.(streams := p.streams[i := s.(consumed := 0)],
       actors := if s.upload != s.download
           then actors[s.upload := y.(closeWaiters := y.closeWaiters + if waits.1 then 1 else 0)] else actors,
       groups := if y.group != x.group then AddRunning(groups, y.group, -1) else groups)
  }

  function DoCloseWaited(p: Pool, a: nat): Pool {
    if !LiveActor(p, a) || !p.actors[a].stopped || p.actors[a].closeWaiters == 0 then p
    else SetActor(p, a, p.actors[a].(closeWaiters := p.actors[a].closeWaiters - 1))
  }

  // ----- requests and frames -----

  function CountDownloads(requests: seq<Request>): nat {
    if requests == [] then 0 else CountDownloads(requests[1..]) + if requests[0].role.Downloads() then 1 else 0
  }

  /** Connection receive credit advertised in all for `slots` downloads. */
  function Capacity(slots: nat, window: nat): (c: nat)
    ensures c >= BASE_WINDOW
  {
    var wanted := if slots * window > TOTAL_LIMIT then TOTAL_LIMIT else slots * window;
    if wanted < BASE_WINDOW then BASE_WINDOW else wanted
  }

  /** The connection window grows when a request makes more downloads than ever before. */
  function GrowWindow(x: Actor, window: nat): Actor {
    var downloads := 1 + CountDownloads(x.requests);
    if downloads <= x.receiveSlots then x else
      var target := if downloads * window > TOTAL_LIMIT then TOTAL_LIMIT else downloads * window;
      var previous := Capacity(x.receiveSlots, window);
      var increment := if target > previous then target - previous else 0;
      x.(receiveWindow := x.receiveWindow + increment, creditSent := x.creditSent + increment,
          receiveSlots := downloads)
  }

  /** Which stream may start which request on this actor: lines 747-775 and 776-813. */
  predicate MayStart(p: Pool, a: nat, i: nat, role: Role) {
    && Working(p, a) && LiveStream(p, i)
    && p.uploadBytes <= UPLOAD_LIMIT && p.actors[a].netAccounted < 65536
    && var s := p.streams[i];
       && s.bound && !s.failed && !s.closed
       && match role
          case Download => s.download == a && s.downId == 0
          case Duplex => s.download == a && s.upload == a && s.downId == 0 && s.upId == 0
          case Upload => s.upload == a && s.downId != 0 && s.upId == 0
          case Packet => s.upload == a && s.ready && s.upId == 0 && s.tx.contents != []
          case StreamedPacket => s.upload == a && s.ready && s.upId == 0 && s.tx.contents != []
  }

  /** start_request: the backend gave it `id` and left `pending` octets unsent.  A packet whose
      data travels in its header takes `inHeader` octets of the upload queue at once. */
  function DoStart(p: Pool, a: nat, i: nat, role: Role, id: nat, remaining: nat, inHeader: nat, pending: nat): Pool
    requires Memory(p)
  {
    if !MayStart(p, a, i, role) || id <= p.actors[a].latest || (inHeader > 0 && !role.Packet?)
        || inHeader > |p.streams[i].tx.contents| then p else
      var (store, s) := if inHeader > 0 then DropUpload(p, i, inHeader) else (p.store, p.streams[i]);
      var q := AccountOutput(p.(store := store, uploadBytes := p.uploadBytes - inHeader), a, pending);
      var window := InitialWindow(ManagerOf(p, a));
      var x := if role.Downloads() then GrowWindow(q.actors[a], window) else q.actors[a];
      var r := Request(i, id, role, false, false, role.Download?
          || inHeader > 0, false, x.peerWindow, window, remaining, 0, 0);
      q.(actors := q.actors[a := x.(requests := [r] + x.requests, latest := id)],
         streams := p.streams[i := s.(references := s.references + 1,
                                      downId := if role.Downloads() then id else s.downId,
                                      upId := if role.Duplex? || role.Upload? then id else s.upId)])
  }

  /** The end of a response: a gRPC stream must not end with DATA. */
  function EndData(p: Pool, a: nat, k: nat): Pool
    requires a < |p.actors| && k < |p.actors[a].requests| && p.actors[a].requests[k].stream < |p.streams|
  {
    var r := p.actors[a].requests[k];
    if ManagerOf(p, a).grpc then Reject(p, a, k) else
      var q := SetActor(p, a, SetRequest(p.actors[a], k, r.(ended := true)));
      if r.role.Downloads() then SetStream(q, r.stream, q.streams[r.stream].(eof := true)) else q
  }

  /** What process_frame decides about a DATA frame: the connection is over, the octets are of
      no request, they break the rules of their request `k`, or they are its response. */
  datatype Verdict = Broken | Stray | Refused(k: nat) | Response(k: nat)

  function Judge(p: Pool, a: nat, id: nat, length: nat, valid: bool): (v: Verdict)
    requires a < |p.actors|
    ensures v.Refused? || v.Response? ==>
              v.k < |p.actors[a].requests| && p.actors[a].requests[v.k].stream < |p.streams|
                  && p.streams[p.actors[a].requests[v.k].stream].bound
  {
    var x := p.actors[a];
    if id % 2 == 0 || id > x.latest || length > x.receiveWindow then Broken else
      var k := Find(x.requests, id);
      if k == |x.requests| || x.requests[k].reset then Stray
      else if x.requests[k].stream >= |p.streams| || !p.streams[x.requests[k].stream].bound then Broken
      else if !x.requests[k].headers || x.requests[k].ended || !valid
          || length > x.requests[k].receiveWindow then Refused(k)
      else Response(k)
  }

  /** A DATA frame of `length` octets, of which `body` is not padding; `valid` is the verdict of
      core_http2_response_data.  Lines 597-622. */
  function DoData(p: Pool, a: nat, id: nat, length: nat, body: seq<Byte>, valid: bool, end: bool,
      memory: nat -> bool): Pool
    requires Memory(p)
  {
    if !Working(p, a) || |body| > length then p else
      match Judge(p, a, id, length, valid)
      case Broken => FailActor(p, a)
      case Stray => SetActor(p, a, Refunded(p.actors[a], length))
      case Refused(k) => Reject(SetActor(p, a, Refunded(p.actors[a], length)), a, k)
      case Response(k) =>
        var q := TakeData(p, a, k, length, body, memory);
        if end && !q.actors[a].failed then EndData(q, a, k) else q
  }

  /** Only an open download keeps its octets. */
  function TakeData(p: Pool, a: nat, k: nat, length: nat, body: seq<Byte>, memory: nat -> bool): (q: Pool)
    requires Memory(p) && a < |p.actors| && k < |p.actors[a].requests| && p.actors[a].requests[k].stream < |p.streams|
    requires |body| <= length
    ensures |q.actors| == |p.actors| && |q.streams| == |p.streams| && |q.actors[a].requests| == |p.actors[a].requests|
    ensures q.actors[a].requests[k].stream == p.actors[a].requests[k].stream
  {
    var r := p.actors[a].requests[k];
    if r.role.Downloads() && !p.streams[r.stream].closed then KeepData(p, a, k, length, body, memory)
    else SetActor(p, a, Refunded(p.actors[a], length))
  }

  /** The octets leave both windows. */
  function SpendWindows(p: Pool, a: nat, k: nat, length: nat): (q: Pool)
    requires a < |p.actors| && k < |p.actors[a].requests|
    ensures |q.actors| == |p.actors| && q.streams == p.streams && q.store == p.store
        && q.downloadBytes == p.downloadBytes
    ensures |q.actors[a].requests| == |p.actors[a].requests|
        && q.actors[a].requests[k].stream == p.actors[a].requests[k].stream
    ensures q.actors[a].failed == p.actors[a].failed
  {
    var x := p.actors[a];
    var r := x.requests[k];
    SetActor(p, a, SetRequest(x.(receiveWindow := x.receiveWindow - length, dataReceived := x.dataReceived + length),
                              k, r.(receiveWindow := r.receiveWindow - length)))
  }

  /** Line 613: the total, the stream limit and the stream's account must all have room. */
  function Enqueue(p: Pool, i: nat, length: nat, body: seq<Byte>, memory: nat -> bool): (r: (bool, Pool))
    requires Memory(p) && i < |p.streams| && |body| <= length
    ensures r.1.actors == p.actors && |r.1.streams| == |p.streams|
  {
    var s := p.streams[i];
    assert StreamMemory(p.store, i, s);
    if |body| > TOTAL_LIMIT - p.downloadBytes then (false, p) else
      var (ok, store, f) := Append(p.store, RxAccount(i), s.rx, body, memory);
      if !ok then (false, p.(store := store)) else
        (true, p.(store := store, downloadBytes := p.downloadBytes + |body|,
                  streams := p.streams[i :=
                      s.(rx := f, consumed := s.consumed + (length - |body|), received := s.received + body)]))
  }

  /** The octets go to the stream's receive queue and out of both windows. */
  function KeepData(p: Pool, a: nat, k: nat, length: nat, body: seq<Byte>, memory: nat -> bool): (q: Pool)
    requires Memory(p) && a < |p.actors| && k < |p.actors[a].requests| && p.actors[a].requests[k].stream < |p.streams|
    requires |body| <= length
    ensures |q.actors| == |p.actors| && |q.streams| == |p.streams| && |q.actors[a].requests| == |p.actors[a].requests|
    ensures q.actors[a].requests[k].stream == p.actors[a].requests[k].stream
  {
    var (ok, q) := Enqueue(p, p.actors[a].requests[k].stream, length, body, memory);
    var taken := SpendWindows(q, a, k, length);
    if ok then taken else FailActor(taken, a)
  }

  /** WINDOW_UPDATE. Lines 660-668. */
  function DoWindowUpdate(p: Pool, a: nat, id: nat, increment: nat): Pool {
    if !Working(p, a) then p else
      var x := p.actors[a];
      if !(1 <= increment <= WINDOW_MAX) then FailActor(p, a)
      else if id == 0 then
        if x.sendWindow > WINDOW_MAX - increment then FailActor(p, a)
        else SetActor(p, a, x.(sendWindow := x.sendWindow + increment, granted := x.granted + increment))
      else
        var k := Find(x.requests, id);
        if k == |x.requests| || x.requests[k].stream >= |p.streams| then p
        else if x.requests[k].sendWindow > WINDOW_MAX - increment then Reject(p, a, k)
        else SetActor(p, a,
            SetRequest(x, k,
                x.requests[k].(sendWindow := x.requests[k].sendWindow + increment,
                    granted := x.requests[k].granted + increment)))
  }

  function Shifted(requests: seq<Request>, delta: int): (r: seq<Request>)
    ensures |r| == |requests|
    ensures forall k :: 0 <= k < |r| ==> r[k] == requests[k].(sendWindow := requests[k].sendWindow + delta)
  {
    seq(|requests|, k requires 0 <= k < |requests| => requests[k].(sendWindow := requests[k].sendWindow + delta))
  }

  /** The entries of a SETTINGS frame in order; one that is out of range ends the connection. Lines 646-658. */
  function Settle(x: Actor, entries: seq<(nat, nat)>): Actor
    decreases |entries|
  {
    if entries == [] then x else
      var (id, value) := entries[0];
      if id == 4 then
        var delta := value - x.peerWindow;
        if value > WINDOW_MAX || exists k ::
            0 <= k < |x.requests| && x.requests[k].sendWindow + delta > WINDOW_MAX then x.(failed := true)
        else Settle(x.(peerWindow := value, requests := Shifted(x.requests, delta)), entries[1..])
      else if id == 5 then
        if value < 16384 || value > 16777215 then x.(failed := true) else Settle(x.(peerFrame := value), entries[1..])
      else Settle(x, entries[1..])
  }

  function DoSettings(p: Pool, a: nat, entries: seq<(nat, nat)>): Pool {
    if !Working(p, a) then p else SetActor(p, a, Settle(p.actors[a], entries))
  }

  /** RST_STREAM. Lines 669-677. */
  function DoReset(p: Pool, a: nat, id: nat, code: nat): Pool
    requires Memory(p)
  {
    if !Working(p, a) then p else
      var k := Find(p.actors[a].requests, id);
      if k == |p.actors[a].requests| || p.actors[a].requests[k].stream >= |p.streams| then p else
        var r := p.actors[a].requests[k];
        var s := p.streams[r.stream];
        var q := if code != 0 || !r.ended then FailStream(p, r.stream)
                 else if !r.role.Packets() && s.bound && s.upload == a && r.id == s.upId then StopUpload(p, r.stream)
                 else p;
        SetActor(q, a, SetRequest(q.actors[a], k, r.(ended := true, reset := true, sendEnded := true)))
  }

  /** GOAWAY, one request: those the peer did not accept fail. Lines 678-684. */
  function DoGoaway(p: Pool, a: nat, k: nat): Pool {
    if !Working(p, a) || k >= |p.actors[a].requests| || p.actors[a].requests[k].stream >= |p.streams| then p else
      var x := p.actors[a];
      SetActor(FailStream(p, x.requests[k].stream), a,
          SetRequest(x.(draining := true), k, x.requests[k].(ended := true)))
  }

  /** A header block for a request: accepted, or answered with a stream error. Lines 536-557. */
  function DoHeaders(p: Pool, a: nat, id: nat, accepted: bool, success: bool, end: bool): Pool {
    if !Working(p, a) then p else
      var k := Find(p.actors[a].requests, id);
      if k == |p.actors[a].requests| || p.actors[a].requests[k].reset
          || p.actors[a].requests[k].stream >= |p.streams| then p else
        var r := p.actors[a].requests[k];
        if !accepted then Reject(p, a, k)
        else if !success
            then SetActor(FailStream(p, r.stream), a, SetRequest(p.actors[a], k, r.(headers := true, ended := true)))
        else
          var q := SetActor(p, a, SetRequest(p.actors[a], k, r.(headers := true, ended := r.ended || end)));
          if end && r.role.Downloads() then SetStream(q, r.stream, q.streams[r.stream].(eof := true)) else q
  }

  // ----- the worker's pass over the streams -----

  /** receive_credit_due. */
  predicate CreditDue(p: Pool, a: nat, i: nat)
    requires a < |p.actors| && i < |p.streams|
  {
    var x := p.actors[a];
    var s := p.streams[i];
    var k := Find(x.requests, s.downId);
    || ManagerOf(p, a).grpc
    || s.consumed >= LOW_WATER
    || x.receiveWindow <= LOW_WATER
    || k == |x.requests| || x.requests[k].receiveWindow <= LOW_WATER || x.requests[k].ended
    || s.closed || s.failed
  }

  /** Lines 728-736: credit for what the reader has consumed goes back to the peer. */
  function DoCredit(p: Pool, a: nat, i: nat): Pool {
    if !Working(p, a) || !LiveStream(p, i) || !p.streams[i].bound || p.streams[i].download != a
        || p.streams[i].downId == 0 ||
       (p.streams[i].consumed == 0 && p.actors[a].pendingCredit == 0) || !CreditDue(p, a, i) then p else
      var x := p.actors[a];
      var s := p.streams[i];
      var amount := s.consumed + x.pendingCredit;
      var k := Find(x.requests, s.downId);
      var y := x.(receiveWindow := x.receiveWindow + amount, creditSent := x.creditSent + amount, pendingCredit := 0);
      var z := if k == |x.requests| then y
          else SetRequest(y, k, x.requests[k].(receiveWindow := x.requests[k].receiveWindow + s.consumed));
      SetStream(SetActor(p, a, z), i, s.(consumed := 0))
  }

  function Min(a: int, b: int): int { if a < b then a else b }

  /** core_http2_queue_span: what lies in the first block. */
  function Span(f: Fifo): nat
    requires FifoValid(f)
  {
    Min(|f.contents|, BLOCK - f.start)
  }

  predicate MaySend(p: Pool, a: nat, i: nat, k: nat) {
    && Working(p, a) && LiveStream(p, i) && k < |p.actors[a].requests|
    && var s := p.streams[i];
       var r := p.actors[a].requests[k];
       && s.bound && s.upload == a && s.ready && !s.failed && !s.closed && s.tx.contents != []
       && (if r.role.Packets() then r.stream == i && !r.ended && r.remaining > 0 else s.upId != 0 && r.id == s.upId)
       && !r.reset && !r.sendEnded
       && p.actors[a].sendWindow > 0 && r.sendWindow > 0 && p.actors[a].netAccounted < 65536
  }

  /** Size of the next DATA frame. Lines 816-823. */
  function SendLength(p: Pool, a: nat, i: nat, k: nat): (n: int)
    requires MaySend(p, a, i, k) && FifoValid(p.streams[i].tx)
    ensures n <= |p.streams[i].tx.contents| && n <= p.actors[a].sendWindow && n <= p.actors[a].requests[k].sendWindow
    ensures n <= p.actors[a].peerFrame
        && (p.actors[a].requests[k].role.Packets() ==> n <= p.actors[a].requests[k].remaining)
    ensures p.actors[a].peerFrame > 0 ==> n > 0
  {
    var r := p.actors[a].requests[k];
    var span := Span(p.streams[i].tx);
    var bounded := if r.role.Packets() then Min(span, r.remaining) else span;
    Min(Min(Min(Min(bounded, p.actors[a].peerFrame), 16384), p.actors[a].sendWindow), r.sendWindow)
  }

  /** Lines 815-834: one DATA frame of the upload. */
  function DoSend(p: Pool, a: nat, i: nat, k: nat, pending: nat): Pool
    requires Memory(p)
  {
    if !MaySend(p, a, i, k) || p.actors[a].peerFrame == 0 then p else
      assert StreamMemory(p.store, i, p.streams[i]);
      var n := SendLength(p, a, i, k);
      var x := p.actors[a];
      var r := x.requests[k];
      var (store, s) := DropUpload(p, i, n);
      var last := r.role.Packets() && n == r.remaining;
      var y := SetRequest(x.(sendWindow := x.sendWindow - n, sent := x.sent + n), k,
                          r.(sendWindow := r.sendWindow - n, sent := r.sent + n, sendEnded := last,
                             remaining := if r.role.Packets() then r.remaining - n else r.remaining));
      AccountOutput(p.(store := store, uploadBytes := p.uploadBytes - n, streams := p.streams[i := s],
          actors := p.actors[a := y]), a, pending)
  }

  /** The upload half of a request ends without data: lines 739-745 and 847-848. */
  function DoEndSend(p: Pool, a: nat, k: nat, pending: nat): Pool {
    if !Working(p, a) || k >= |p.actors[a].requests| then p else
      AccountOutput(SetActor(p, a, SetRequest(p.actors[a], k, p.actors[a].requests[k].(sendEnded := true))), a, pending)
  }

  predicate Finished(p: Pool, r: Request) {
    && r.stream < |p.streams|
    && var s := p.streams[r.stream];
       s.closed || s.failed || (r.ended && (r.role.Packets() || r.sendEnded))
  }

  /** Lines 853-864: a request that is over leaves the list and lets go of its stream. */
  function DoRetire(p: Pool, a: nat, k: nat, pending: nat): Pool {
    if !Working(p, a) || k >= |p.actors[a].requests| || !Finished(p, p.actors[a].requests[k]) then p else
      var x := p.actors[a];
      ReleaseStream(AccountOutput(SetActor(p, a, x.(requests := x.requests[..k] + x.requests[k + 1..])), a, pending),
          x.requests[k].stream)
  }

  // ----- the application -----

  function Available(store: Store): int { TOTAL_LIMIT - Charged(store.budgets, UPLOAD) }

  /** allocated_write_capacity first empties the block cache when memory is short. */
  function Trimmed(store: Store): (r: Store)
    requires StoreValid(store)
    ensures StoreValid(r) && |r.budgets| == |store.budgets|
    ensures forall i :: DIRECTIONS <= i < |store.budgets| ==> r.budgets[i] == store.budgets[i]
  {
    CacheClearedValid(store);
    if Available(store) < Reservation(128 * 1024) then CacheCleared(store) else store
  }

  /** Largest amount, at most `n`, whose reservation on top of `length` octets fits. */
  function LargestFit(available: int, length: nat, n: nat): (r: nat)
    ensures r <= n
    ensures r > 0 ==> Fits(available, length, r)
    ensures forall m :: r < m <= n ==> !Fits(available, length, m)
  {
    if n == 0 || Fits(available, length, n) then n else LargestFit(available, length, n - 1)
  }

  predicate Fits(available: int, length: nat, n: nat) {
    Reservation(length + n) <= available
  }

  function WriteCapacity(store: Store, i: nat, tx: Fifo): nat
    requires TxAccount(i) < |store.budgets| && |tx.contents| <= STREAM_LIMIT
  {
    LargestFit(Available(store) + store.budgets[TxAccount(i)].Charge(), |tx.contents|, STREAM_LIMIT - |tx.contents|)
  }

  function GlobalRoom(p: Pool): nat {
    if p.uploadBytes < UPLOAD_LIMIT then UPLOAD_LIMIT - p.uploadBytes else 0
  }

  predicate MayWrite(p: Pool, i: nat) {
    LiveStream(p, i) && var s := p.streams[i]; s.bound && !s.closed && !s.failed && !s.finishRequested && !s.sendStopped
  }

  /** How many octets one pass of core_http2_write_parts takes: lines 1261-1263 with output_room. */
  function WriteBlock(p: Pool, i: nat, store: Store, wanted: nat): nat
    requires i < |p.streams| && TxAccount(i) < |store.budgets| && |p.streams[i].tx.contents| <= STREAM_LIMIT
  {
    var s := p.streams[i];
    if s.reserved >= wanted then wanted else
      Min(wanted, Min(Min(STREAM_LIMIT - |s.tx.contents|, GlobalRoom(p) + s.reserved), WriteCapacity(store, i, s.tx)))
  }

  /** The store once output_room has been asked, which it is when the reservation does not cover `data`. */
  function WriteStore(p: Pool, i: nat, size: nat): (r: Store)
    requires Memory(p) && i < |p.streams|
    ensures StoreValid(r) && |r.budgets| == |p.store.budgets|
    ensures forall j :: DIRECTIONS <= j < |r.budgets| ==> r.budgets[j] == p.store.budgets[j]
  {
    if p.streams[i].reserved >= size then p.store else Trimmed(p.store)
  }

  datatype Attempt = Attempt(block: nat, ok: bool, store: Store, fifo: Fifo)

  /** The octets one pass takes, and the append itself. */
  function WriteAppend(p: Pool, i: nat, data: seq<Byte>, memory: nat -> bool): Attempt
    requires Memory(p) && i < |p.streams|
  {
    assert StreamMemory(p.store, i, p.streams[i]);
    var store := WriteStore(p, i, |data|);
    var block := WriteBlock(p, i, store, |data|);
    var (ok, after, f) := Append(store, TxAccount(i), p.streams[i].tx, data[..block], memory);
    Attempt(block, ok, after, f)
  }

  predicate GoodAttempt(p: Pool, i: nat, store: Store, data: seq<Byte>, w: Attempt)
    requires i < |p.streams|
  {
    var s := p.streams[i];
    && w.block <= |data|
    && FifoValid(w.fifo) && w.fifo == (if w.ok then Appended(s.tx, data[..w.block]) else s.tx)
    && Adjusted(store, w.store, TxAccount(i), Blocks(w.fifo) * BLOCK_SIZE)
    && |s.tx.contents| + w.block <= STREAM_LIMIT
    && (w.block > s.reserved ==> p.uploadBytes + w.block - s.reserved <= UPLOAD_LIMIT)
  }

  lemma WriteAppendFacts(p: Pool, i: nat, data: seq<Byte>, memory: nat -> bool)
    requires Memory(p) && i < |p.streams|
    ensures GoodAttempt(p, i, WriteStore(p, i, |data|), data, WriteAppend(p, i, data, memory))
  {
    assert StreamMemory(p.store, i, p.streams[i]);
    var store := WriteStore(p, i, |data|);
    hide StoreValid, Blocks, Append, WriteStore, WriteCapacity;
    AppendAdjusts(store, TxAccount(i), p.streams[i].tx, data[..WriteBlock(p, i, store, |data|)], memory);
  }

  /** One pass of the write loop with `data` still to be written. Lines 1254-1273. */
  function DoWrite(p: Pool, i: nat, data: seq<Byte>, memory: nat -> bool): Pool
    requires Memory(p)
  {
    if !MayWrite(p, i) then p else
      var s := p.streams[i];
      var w := WriteAppend(p, i, data, memory);
      WriteAppendFacts(p, i, data, memory);
      if !w.ok then p.(store := w.store) else
        var kept := if w.block < s.reserved then s.reserved - w.block else 0;
        var t := s.(tx := w.fifo, reserved := kept, accepted := s.accepted + data[..w.block]);
        p.(store := UpdateUpload(w.store, i, t), uploadBytes := p.uploadBytes + w.block - (s.reserved - kept),
            streams := p.streams[i := t])
  }

  /** core_http2_reserve_write. */
  function DoReserve(p: Pool, i: nat, n: nat): Pool
    requires Memory(p)
  {
    if !MayWrite(p, i) || p.streams[i].reserved != 0 || n > STREAM_LIMIT - |p.streams[i].tx.contents|
        || n > GlobalRoom(p) then p else
      var s := p.streams[i];
      assert StreamMemory(p.store, i, s);
      var store := Trimmed(p.store);
      var t := s.(reserved := n);
      if n > WriteCapacity(store, i, s.tx)
          || !Succeeds(store.budgets, Init(TxAccount(i), UPLOAD, UploadMinimum(t))) then p.(store := store) else
        p.(store := UpdateUpload(store, i, t), uploadBytes := p.uploadBytes + n, streams := p.streams[i := t])
  }

  /** core_http2_release_write. */
  function DoUnreserve(p: Pool, i: nat): Pool
    requires Memory(p)
  {
    if !LiveStream(p, i) then p else
      var s := p.streams[i].(reserved := 0);
      assert StreamMemory(p.store, i, p.streams[i]);
      p.(store := UpdateUpload(p.store, i, s), uploadBytes := p.uploadBytes - p.streams[i].reserved,
          streams := p.streams[i := s])
  }

  /** core_http2_read. */
  function DoRead(p: Pool, i: nat, n: nat): Pool
    requires Memory(p)
  {
    if !LiveStream(p, i) || p.streams[i].closed then p else
      var s := p.streams[i];
      assert StreamMemory(p.store, i, s);
      var take := if |s.rx.contents| < n then |s.rx.contents| else n;
      var (store, f) := Consume(p.store, RxAccount(i), s.rx, take);
      p.(store := store, downloadBytes := p.downloadBytes - take,
         streams := p.streams[i :=
             s.(rx := f, consumed := s.consumed + take, delivered := s.delivered + s.rx.contents[..take])])
  }
}
