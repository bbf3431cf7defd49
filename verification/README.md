# Proofs about the transport core

This project models the parts of the proxy core in which several pieces of code have to agree with
each other, and proves that they do.

- **The multiplexing pool** (`Http2Pool*.dfy`, `Http2Queue*.dfy`, `BufferBudget.dfy`,
  `BufferLedger.dfy`). Many streams share HTTP/2 connections, called actors. Each section that the
  pool executes under its lock is one step; `Http2PoolRuns.Step` lists them. A run is any sequence of steps, with any frames from
  the peer, any choice of actor and group, and malloc failing at will. The theorems are about all
  runs from the empty pool: flow control in both directions, memory, ownership, and the bytes
  themselves.
- **HTTP/2 frames and responses** (`Http2Frames.dfy`, `Http2Response.dfy`): which sequences of
  frames and of response events are accepted, in both directions.
- **HPACK** (`Hpack*.dfy`): integers, the Huffman code, the client's encoder, and the dynamic table
  against the history of all insertions.
- **BLAKE3** (`MergeTree.dfy`, `Blake3.dfy`): the stack of chaining values against the recursive tree.
- **Shadowsocks streams** (`Shadowsocks*.dfy`): writer and reader of SIP004 and SIP022 chunks.
- **gRPC messages** (`Grpc*.dfy`): the incremental decoder against the encoding of any protobuf
  message, the writer, and whole streams through both.
- **TLS 1.2 CBC records** (`Tls12*.dfy`): the branch-free opening against RFC 5246.

Files whose names end in `Code`, and the classes and methods elsewhere, have the form of the C
code: fields updated in place, arrays and loops. The methods are proved against functions of the
old state, and the theorems are about these functions and over whole runs. `Bytes`, `Arithmetic`, `Bits` and `Sums` hold what the
others share.

What is fixed outside the code is a parameter: the BLAKE3 compression function, the hash functions
of TLS (`Tls12Hmac.Hash`), the AEAD of Shadowsocks (`Shadowsocks.Ideal` asks only that opening
undoes sealing and that a seal adds sixteen octets), malloc (`memory`), what a backend has not yet
written (`pending`), and the rules for header fields (`emit`).

Some fields of the pool model are not in the C code; they record history and decide nothing: the
octets a stream has `received`, `delivered`, `accepted` and `emitted`, the totals `creditSent` and
`dataReceived` of an actor, and the totals `granted` and `sent` of an actor or request.
`Http2PoolLedger.WindowsAreBalances` and `Http2PoolArrivals.ReceiveWindowBalance` do without the
totals of what the peer sent: they count over the list of steps.

Where the code does not do what one might expect, the code is modelled as it is:

- The BLAKE3 chunk count is computed in 64 bits and wraps for the last 1023 lengths
  (`Blake3.HashInternal`, `Blake3.WrappedDigestDiffers`). No object of C has such a length, so this
  is about the function and not about its use.
- The gRPC writer accepts messages that the decoder refuses (`Grpc.HunkAccepted`).
- A pass of the worker over its streams can end with empty receive queues, a download under way and
  a connection window at the low-water mark (`Http2PoolStallRun.StallHappens`); exactly when is
  `Http2PoolStall.StallExact`, and the next pass puts it right (`Http2PoolStall.SecondPass`).

`dafny verify dfyconfig.toml` checks all files.

## Model

| member | source | states |
|---|---|---|
| `Http2PoolFlow.ReceiveRun` | src/http2_pool.c:597-622 | After any sequence of steps from the empty pool: on every connection that has not failed the receive window is 65535 plus the credit sent minus the DATA octets received; window, queued octets, unreturned octets and pending credit add up to the advertised total; an open download has request window + queue + unreturned octets = initial window; `download_bytes` is the sum of the receive queues |
| `Http2PoolReceive.ReceivesNext` | src/http2_pool.c:715-736 | Every kind of step keeps that receive-side balance |
| `Http2PoolFlow.DataAlwaysFits` | src/http2_pool.c:597-618 | DATA that the response checks accept and that fits both advertised windows is always queued: the stream limit, the 16 MiB download check and the pre-charged budgets cannot refuse it, only malloc can |
| `Http2PoolFlow.RoomFor` | src/http2_pool.c:1041-1057 | Because every open stream has pre-charged the reservation of its window out of the same 16 MiB, octets within a window never take `download_bytes` over the limit |
| `Http2PoolFlow.CreditFits` | src/http2_pool.c:729-734 | The credit one update returns is at most 16 MiB, so the 32-bit additions of the code do not wrap |
| `Http2PoolStall.NoReceiveStall` | src/http2_pool.c:721-866 | After a whole pass over the streams and the loops that end it, whatever else the pass does: if the receive queues are empty and a live stream has its download started, then the connection window is above 16384 and every live open download has a window above 16384 or its full initial one, if and only if some live stream had its download started before the pass or the window before it, plus the growth of the advertised total, is above 16384 |
| `Http2PoolStall.StallExact` | src/http2_pool.c:727-764 | Where a download may start: no pass ever ends stalled if and only if a live stream has its download started already or the window after one start is above 16384, both of which can be looked up before the pass |
| `Http2PoolStall.StallPass` | src/http2_pool.c:727-764 | If neither holds, the pass that starts just that download ends stalled, because credit is looked for only where a download is started already |
| `Http2PoolStallRun.StallHappens` | src/http2_pool.c:728-736 | A run from the empty pool that leads there: a download of fifteen full frames ends unread, its stream is closed, and the pass starts the other download with the connection window at 16384 and the rest as pending credit |
| `Http2PoolStall.SecondPass` | src/http2_pool.c:728-736 | The stall never outlasts one pass: the pass after one that leaves a download under way does not end stalled |
| `Http2PoolStall.PassReturns` | src/http2_pool.c:727-736 | By induction over the streams of the pass: what it has returned is not taken away by its later steps |
| `Http2PoolStall.IdlePass` | src/http2_pool.c:727-764 | A pass that finds no download started returns no credit at all |
| `Http2PoolFlow.ReachableSound` | src/http2_pool.c:721-866 | Every reachable state satisfies the conditions that NoReceiveStall, StallExact and CreditFits ask for |
| `Http2PoolSend.SendRun` | src/http2_pool.c:643-668 | After any sequence of steps: each send window is the credit recorded as granted minus the DATA recorded as sent, none is above 2^31 - 1, and no step sends DATA beyond the windows before it, so nothing is sent on a window that is not positive; WindowsAreBalances says what the records are |
| `Http2PoolSend.SendsNext` | src/http2_pool.c:815-834 | Every kind of step keeps this and sends within the windows; EveryStepEntered says which step records what |
| `Http2PoolLedger.WindowsAreBalances` | src/http2_pool.c:646-668 | The same told from the frames alone: over every run, on every connection that has not failed, the connection's send window is 65535 plus all WINDOW_UPDATE increments for identifier 0 that came while it worked minus the octets of DATA emitted, and lies between 0 and 2^31 - 1; that of each request is the last initial window that SETTINGS announced plus the increments for its identifier since it started minus the octets emitted for it. Sums over the list of steps, not fields |
| `Http2PoolLedger.EveryStepEntered` | src/http2_pool.c:559-866 | Every kind of step: what is recorded as granted, sent and announced grows by exactly what that frame says, for the connection and for every request, and a request is carried over from before or has just started |
| `Http2PoolLedger.UpdateExact` | src/http2_pool.c:660-668 | A WINDOW_UPDATE raises exactly the window it names by exactly its increment and no other; a zero or oversized one, or an overflow for identifier 0, ends the connection; an overflow for a stream rejects exactly that request and fails exactly its stream; an identifier without a request changes nothing |
| `Http2PoolLedger.SettleExact` | src/http2_pool.c:646-658 | A SETTINGS frame ends the connection if and only if one of its entries is out of range or would take the window of a request beyond 2^31 - 1, judged from the state before the frame, whatever their order; otherwise the last initial window and the last frame size hold and every request's window shifts with the initial one |
| `Http2PoolArrivals.ReceiveWindowBalance` | src/http2_pool.c:597-622 | The receive side told from the frames: on every connection that has not failed the window is 65535 plus the credit sent minus the octets of all DATA frames that came while it worked, kept or not |
| `Http2PoolArrivals.CountedNext` | src/http2_pool.c:597-622 | Every kind of step counts the octets of its DATA frame and nothing else |
| `Http2PoolLife.NothingAfterEnd` | src/http2_pool.c:815 | Over every run: a request with an identifier is the one that had it before, its headers, ended, reset and send_ended never go back, and once it was reset or its upload has ended no later step sends DATA on it |
| `Http2PoolLife.LivesNext` | src/http2_pool.c:559-866 | Every kind of step keeps each request's past, and new identifiers are above all old ones |
| `Http2PoolSend.SettleShifts` | src/http2_pool.c:646-658 | A SETTINGS frame that does not end the connection shifts the send window of every request by the same amount, the change of the announced initial window, possibly below zero |
| `Http2PoolSend.SettleOk` | src/http2_pool.c:646-658 | Any list of SETTINGS entries keeps the send-side equations and limits |
| `Http2PoolOwnership.OwnershipRun` | src/http2_pool.c:259-269 | After any sequence of steps: `references` of a stream is one while it is open plus the requests that point to it, it is freed exactly when the last reference of a closed stream goes, `running` of a group is the number of open streams with a channel in it, and what is live points only to live things |
| `Http2PoolOwnership.OwnedNext` | src/http2_pool.c:693-713 | Allocation, rotation, migration, retirement, worker exit, collection and close all keep these counts |
| `Http2PoolOwnership.NothingDangles` | src/http2_pool.c:157-175 | Then no stream, actor or group is freed while a request, a stream or an actor still points to it |
| `Http2PoolUpload.UploadRun` | src/http2_pool.c:239-248 | After any sequence of steps: `upload_bytes` is the sum of queued and reserved octets over all streams plus what the actors have not yet written; each stream delivers a beginning of what it received and emits a beginning of what it accepted, and the rest is in its queues |
| `Http2PoolUpload.CarriedNext` | src/http2_pool.c:825-829 | Every step keeps the count exact and the octets in order |
| `Http2PoolUpload.UploadBounded` | src/http2_pool.c:1208-1273 | No write and no reservation raises `upload_bytes` above 16 MiB - 64 KiB |
| `Http2PoolUpload.WriteNeverRefused` | src/http2_pool.c:1261-1270 | The amount a write takes, by its reservation or by the capacity it computes, is refused by nothing but malloc |
| `Http2PoolUpload.AppendHasRoom` | src/http2_pool.c:1177-1191 | Whenever the reservation for the new length fits beside what everybody else is charged, the append succeeds, malloc aside |
| `Http2PoolInvariant.ConsistentRun` | src/http2_pool.c:559-866 | All these invariants hold together after every run from the empty pool |
| `Http2PoolInvariant.ConsistentNext` | src/http2_pool.c:559-866 | Every kind of step keeps them together, so they are an invariant of the code below |
| `Http2PoolLinks.LinksNext` | src/http2_pool.c:311-372 | Every step keeps: the identifiers of the requests of an actor are distinct and not above its latest, every request belongs to a stream with channels, and the download a stream names is on its download actor under that identifier and nobody else's |
| `Http2PoolRuns.RawMemory` | src/http2_pool.c:1193-1197 | Every step keeps the ledger of budgets valid and the accounts of each stream charged for exactly the blocks of its queues and its reservation |
| `Http2PoolCode.Mux.FindRequest` | src/http2_pool.c:297-300 | The list walk finds the first request with the identifier |
| `Http2PoolCode.Mux.CountRequests` | src/http2_pool.c:348-349 | The loop counts the downloads of the actor |
| `Http2PoolCode.Mux.RaiseWindow` | src/http2_pool.c:347-361 | The connection window, and the credit sent, grow by exactly the growth of the advertised total, which is for as many downloads as there ever were at once |
| `Http2PoolCode.Mux.StartRequest` | src/http2_pool.c:311-372 | Keeps all invariants; the request starts exactly if its role may, heads the list with its identifier and the whole initial window, the connection is advertised for all downloads in the list, and the octets of the header block are emitted |
| `Http2PoolCode.Mux.EmitFront` | src/http2_pool.c:333-336 | The front of an upload queue becomes emitted, `upload_bytes` falls by as much, and no other stream changes |
| `Http2PoolCode.Mux.Search` | src/http2_pool.c:1184-1190 | The binary search returns the largest amount whose reservation fits |
| `Http2PoolCode.Mux.AllocatedWriteCapacity` | src/http2_pool.c:1177-1191 | The capacity is that amount, after the block cache was emptied if memory is short |
| `Http2PoolCode.Mux.WorkerExit` | src/http2_pool.c:1020-1036 | Fails the open streams of the actor, then releases its requests one by one: the step Exit |
| `Http2PoolCode.Mux.CollectStopped` | src/http2_pool.c:157-175 | A stopped actor is freed exactly when nobody waits for it and no stream in the list uses it |
| `Http2PoolCode.Mux.ShiftWindows` | src/http2_pool.c:651-656 | The two loops over the requests: all are shifted if and only if none would exceed 2^31 - 1, otherwise nothing changes |
| `Http2PoolCode.Mux.ReceiveSettings` | src/http2_pool.c:643-658 | Keeps all invariants; the loop over the entries ends the connection exactly if one of them is unacceptable to the state before, and otherwise announces their last values and shifts the windows |
| `Http2PoolCode.Mux.ReceiveWindowUpdate` | src/http2_pool.c:660-668 | Keeps all invariants; exactly the named window grows, by exactly the increment, or the connection ends, or the request is rejected, as in UpdateExact |
| `Http2PoolCode.Mux.ReceiveReset` | src/http2_pool.c:669-677 | Keeps all invariants; exactly the named request is over in both directions, its stream fails unless NO_ERROR came after the whole response, and no other stream changes |
| `Http2PoolCode.Mux.ReceiveGoaway` | src/http2_pool.c:678-684 | Keeps all invariants; the loop ends exactly the requests above the last identifier, or all after an error, fails exactly their streams, and the actor takes no new ones |
| `Http2PoolCode.Mux.ReturnCredits` | src/http2_pool.c:727-736 | The loop over all streams is the pass that NoReceiveStall is about |
| `Http2PoolCode.Mux.FrameLength` | src/http2_pool.c:816-823 | The chain of limits gives the minimum of head block, request, frame size and both windows |
| `Http2PoolCode.Mux.SendData` | src/http2_pool.c:815-834 | Keeps all invariants; at least one octet, and no more than frame size, queue and both windows allow, moves from the front of the queue to what was emitted, and out of both windows, which stay non-negative |
| `Http2PoolCode.Mux.RetireRequests` | src/http2_pool.c:853-864 | The loop is a sequence of Retire steps, and the requests that stay are exactly those that were not over, in order |
| `Http2PoolCode.Mux.Read` | src/http2_pool.c:1307-1316 | Hands out the front of the receive queue and appends it to what the stream delivered: the step Read |
| `Http2PoolCode.Mux.ReserveWrite` | src/http2_pool.c:1208-1220 | Grants all or nothing: the step Reserve, within the upload limit |
| `Http2PoolCode.Mux.WritePass` | src/http2_pool.c:1254-1273 | One pass of the write loop appends the first part of what is left to what the stream accepted: the step Write |
| `Http2PoolCode.Mux.Detach` | src/http2_pool.c:1360-1368 | The unread octets are pending credit of the download actor, and every group with a channel of the stream counts one stream less, once even if both channels are in it |
| `Http2PoolCode.Mux.Close` | src/http2_pool.c:1347-1369 | Keeps all invariants; queues are empty and their budgets uncharged, the credit for what nobody read is pending on the download actor, and the stream is freed exactly if no request points to it |
| `Http2PoolCode.Mux.GiveBack` | src/http2_pool.c:1355-1359 | Both accounts of the closing stream are left uncharged, and what was not read counts as consumed |
| `Http2PoolCode.Mux.FailStreams` | src/http2_pool.c:1020-1022 | The loop fails every open stream with a channel on the actor, and no other |
| `Http2PoolCode.Mux.ReceiveData` | src/http2_pool.c:597-622 | Keeps all invariants; with memory at hand the connection ends exactly for a wrong identifier or a frame beyond its window; a frame of an open download in order and within both windows reaches its stream and leaves both windows, any other gives no stream anything and leaves the connection window as it was |
| `Http2PoolCode.Mux.Queue` | src/http2_pool.c:613-614 | The octets are appended to what the stream received, or nothing of the stream changes |
| `Http2Queue.BlocksReserved` | src/http2_queue.c:55-59 | A queue of L bytes holds at most ceil(L / 16384) + 1 blocks, and they cost at most the reservation for L |
| `Http2Queue.ReservationMonotone` | src/http2_queue.c:55-59 | A longer queue never has a smaller reservation |
| `Http2Queue.AppendFits` | src/http2_queue.c:61-108 | An append to a length whose reservation is within the minimum of the account is refused by nothing but malloc |
| `Http2Queue.AppendAdjusts` | src/http2_queue.c:61-108 | An append adds the data or changes nothing, and in both cases the account is charged for exactly the blocks of the queue and no total is lost |
| `Http2Queue.TakeAdjusts` | src/http2_queue.c:26-37 | A block comes from the cache or from malloc and is charged to the account; a failure leaves no trace, and within the minimum the budget does not fail |
| `Http2Queue.ConsumeTwice` | src/http2_queue.c:114-138 | Consuming m and then n bytes is consuming m + n, for the bytes and for the memory |
| `Http2Queue.EmptiedAccount` | src/http2_queue.c:140-144 | A cleared queue leaves its account with nothing used and nothing reserved |
| `Http2Queue.CacheClearedValid` | src/http2_queue.c:159-169 | Emptying the cache keeps the ledger valid and every other account as it was |
| `Http2QueueCode.BlockCache.New` | src/http2_queue.c:26-37 | Takes a cached block or allocates one, as the model of the ledger does |
| `Http2QueueCode.BlockCache.Free` | src/http2_queue.c:39-48 | Keeps blocks up to the limit of the cache, charged to the cache, and frees the others |
| `Http2QueueCode.LayoutBlocks` | src/http2_queue.c:82-83 | A list of blocks of which only the first is partly consumed and only the last partly filled has as many blocks as its bytes and its start need |
| `Http2QueueCode.BlockQueue.Span` | src/http2_queue.c:146-148 | The bytes that lie together in front: all, or up to the end of the head block, and none only if the queue is empty |
| `Http2QueueCode.BlockQueue.AcquireBlocks` | src/http2_queue.c:85-93 | All the blocks are allocated, or those that were are given back |
| `Http2QueueCode.Fill` | src/http2_queue.c:94-107 | The copy loop over tail and new blocks appends prefix and then data |
| `Http2QueueCode.BlockQueue.AppendParts` | src/http2_queue.c:61-108 | The block list refines the byte queue: prefix then data are appended, or nothing changes |
| `Http2QueueCode.BlockQueue.ConsumeHead` | src/http2_queue.c:127-134 | One pass of the loop: the head block shrinks, or leaves the list when it is spent |
| `Http2QueueCode.BlockQueue.Consume` | src/http2_queue.c:114-138 | The loop drops bytes from the front and gives the spent blocks back; more than there is empties the queue |
| `Http2QueueCode.BlockQueue.Copy` | src/http2_queue.c:150-157 | The loop over the blocks copies the front |
| `Http2QueueCode.FlatQueue.MakeRoom` | src/http2_queue.c:68-77 | Bytes move to the front before the buffer grows; the content stays, and exactly malloc and the budget can refuse |
| `Http2QueueCode.FlatQueue.AppendParts` | src/http2_queue.c:61-81 | The growing buffer is a byte queue too: data are appended, or nothing changes; more than the limit is refused, and what fits the buffer is not |
| `Http2QueueCode.FlatQueue.Consume` | src/http2_queue.c:114-125 | Bytes leave the front, and the buffer is freed exactly when it is empty |
| `Http2QueueCode.FlatQueue.Copy` | src/http2_queue.c:150-157 | The front is copied |
| `BufferBudget.HoldThenDrop` | src/buffer_budget.c:84-89 | Giving back what was just held restores all budgets, so an allocation that fails leaves no trace |
| `BufferBudget.DropSucceeds` | src/buffer_budget.c:50-58 | Dropping what is held never fails, so no subtraction underflows |
| `BufferBudget.HoldWithinMinimum` | src/buffer_budget.c:38-48 | A reserved minimum is a promise: holding within it never fails, whatever the others hold |
| `BufferBudget.TransferTotals` | src/buffer_budget.c:105-124 | A transfer changes only the charge of its own direction, and not what is used in any |
| `BufferBudget.TransferDecides` | src/buffer_budget.c:105-124 | It succeeds if and only if its arguments are accepted and the direction stays within the limit; otherwise nothing changes |
| `BufferBudget.ClearIsInit` | src/buffer_budget.c:76-79 | Clearing an unused budget is initialising it with nothing |
| `BufferBudget.Accounts.Claim` | src/buffer_budget.c:38-48 | The global totals stay the sums over all budgets, each charged the larger of minimum and used; success is as the model says |
| `BufferBudget.Accounts.Release` | src/buffer_budget.c:50-58 | The same for giving back |
| `BufferBudget.Accounts.Initialize` | src/buffer_budget.c:60-74 | The same for a new direction or minimum; a used budget keeps its direction |
| `BufferBudget.Accounts.Reset` | src/buffer_budget.c:76-79 | The same for clearing |
| `BufferBudget.Accounts.Alloc` | src/buffer_budget.c:84-89 | Claims, and gives back if malloc fails |
| `BufferBudget.Accounts.Realloc` | src/buffer_budget.c:91-98 | Claims the new size in full before the old one is released; a failure leaves the budgets as they were |
| `BufferBudget.Accounts.Move` | src/buffer_budget.c:105-124 | The transfer on the fields and totals |
| `BufferLedger.ExecuteAll` | src/buffer_budget.c:38-124 | Any sequence of hold, drop, alloc, realloc, free, init, clear and transfer on the running totals of the code: at every point the totals are the sums over all budgets, each budget is charged the larger of minimum and allocation, no direction is beyond 16 MiB and nothing falls below zero; exactly the calls with room are granted, and one that is not leaves every total as it was |
| `BufferLedger.Execute` | src/buffer_budget.c:38-124 | The same for one call, with the test `increase > limit - charged` of the code against the sum over all budgets |
| `BufferLedger.BalancedUnique` | src/buffer_budget.c:38-124 | The totals are determined by the budgets |
| `Http2Frames.RunExact` | src/http2.c:50-120 | From the zero state, a run of frames is not refused as a connection error if and only if each frame has an acceptable shape (ShapeExact) and they are in order: SETTINGS that is no ACK first, an open header block followed only by CONTINUATION of its stream until END_HEADERS, even after a HEADERS that is a stream error, and at most one ACK |
| `Http2Frames.ShapeExact` | src/http2.c:50-120 | What section 6 of RFC 9113 asks of one frame: streams and no stream, fixed lengths, room for padding and priority, values of SETTINGS entries as they are encoded; connection error, stream error and FRAME_SIZE_ERROR exactly when these are violated |
| `Http2Frames.Validation.CheckEntries` | src/http2.c:89-93 | The loop over the entries finds the first that is out of range |
| `Http2Frames.StepExact` | src/http2.c:50-120 | One frame: the state of the validator after a run is what the run says |
| `Http2Frames.Validation.Validate` | src/http2.c:50-120 | The fields follow that machine, and the verdict is the shape of the frame |
| `Http2Response.RunExact` | src/http2.c:122-145 | Events are accepted if and only if they are so far a response: informational headers, one final header, body within the declared length and equal to it at the end unless there is no body, trailers |
| `Http2Response.LengthKept` | src/http2.c:128-145 | In every accepted run the octets up to any point are at most the declared length, and at the end exactly as many unless the response has no body |
| `Http2Response.StepExact` | src/http2.c:128-145 | One event, in both directions |
| `Http2Response.Response.ReceiveHeaders` | src/http2.c:122-138 | A header block is accepted if and only if the events so far and this one are the beginning of a response |
| `Http2Response.Response.ReceiveData` | src/http2.c:122-145 | Octets are accepted if and only if the events so far and this one are the beginning of a response |
| `HpackInteger.GuardExact` | src/hpack.c:214-217 | The guard refuses exactly the digits that would overflow 32 bits |
| `HpackInteger.DecodeExact` | src/hpack.c:194-224 | A value is decoded from a number of octets if and only if these octets represent it (section 5.1 of RFC 7541), there are at most five continuation octets and it fits 32 bits |
| `HpackInteger.RoundTrip` | src/tls_http2.c:335-356 | Every 32-bit value with every prefix width from 1 to 8 decodes to itself, whatever follows |
| `HpackInteger.DecodeInt` | src/hpack.c:194-224 | The loop decodes as the specification does and advances the offset over the octets it read |
| `HpackInteger.AppendInt` | src/tls_http2.c:335-356 | The loop appends the encoding |
| `HpackTables.TableComplete` | src/hpack.c:226-247 | The tables of counts and symbols are a complete canonical code over 0 to 256 with widths 5 to 30 |
| `HpackSymbols.Listed` | src/hpack.c:229-247 | Every symbol is in the table |
| `HpackSymbols.Places` | src/hpack.c:229-247 | No symbol is there twice |
| `HpackHuffman.DecodeExact` | src/hpack.c:263-300 | For every complete code: a bit string decodes to a text if and only if it is the codes of the text followed by at most seven ones |
| `HpackHuffman.DecodeCodes` | src/hpack.c:263-300 | The encoding of any text with padding decodes to the text |
| `HpackHuffman.DecodedCodes` | src/hpack.c:263-300 | Whatever decodes is an encoding of its result |
| `HpackHuffman.NextBit` | src/hpack.c:283-289 | The number held is never below the first code of its width, and with 30 bits it is a code: the branch that gives up at 30 bits is never taken |
| `HpackHuffman.NotFull` | src/hpack.c:263-300 | All ones is not a code below width 30, so padding is never taken for a symbol |
| `HpackHuffman.DecodeHuffman` | src/hpack.c:263-300 | The loop with its running first code and base decodes as the canonical code does, its test for 30 bits never holds, and the buffer gets as much of the text as it has room for while the whole text is measured |
| `HpackHuffman.FindWidth` | src/hpack.c:253-256 | The search over the counts finds the width of the code |
| `HpackHuffman.HuffmanBits` | src/hpack.c:249-261 | The result is the length of the encoding, or SIZE_MAX when it does not fit |
| `Hpack.Fit` | src/hpack.c:48-54 | Eviction leaves the longest run of most recent entries that fits |
| `Hpack.FitUnique` | src/hpack.c:48-54 | There is only one such run |
| `Hpack.InsertKeepsMost` | src/hpack.c:68-80 | After an insertion the table is the longest run of most recent entries, the new one included, that fits; an entry that is too large empties it |
| `Hpack.InsertAllKeepsMost` | src/hpack.c:68-80 | While the maximum stands, the table is the longest fitting run of all entries ever inserted |
| `Hpack.SlotFree` | src/hpack.c:68-80 | One of the 128 slots is always free for an entry that fits |
| `Hpack.BlockKeepsBounded` | src/hpack.c:148-185 | Every block keeps the sum of entry sizes at most the maximum and that at most 4096 |
| `Hpack.BlocksKeepBounded` | src/hpack.c:148-185 | So does every sequence of blocks |
| `Hpack.StringRoundTrip` | src/tls_http2.c:358-367 | A string literal of at most 65536 octets is read back, whatever follows |
| `Hpack.ItemRoundTrip` | src/tls_http2.c:369-382 | So is an indexed static field and a literal with a new name |
| `Hpack.ClientRoundTrip` | src/tls_http2.c:369-382 | Every block the client writes decodes to the same list of fields and leaves the dynamic table as it was |
| `HpackCode.Decoder.EvictTo` | src/hpack.c:48-54 | The loop removes the oldest entries until the size fits |
| `HpackCode.Decoder.Insert` | src/hpack.c:68-80 | The entries move up and the new one comes first; size stays the sum, and the table is still what the sender of the whole history so far has |
| `HpackCode.Decoder.Find` | src/hpack.c:56-66 | Index 1 to 61 is the static table; index 62 + k is the k-th most recent insertion of the whole history that has not been evicted, and there is none beyond |
| `HpackHistory.BlockExact` | src/hpack.c:148-185 | For a decoder in step with the history of its sender: a block decodes to a list of fields if and only if its octets spell forms (size updates, indexed fields, literals) whose meaning in that history is that list |
| `HpackHistory.BlockRead` | src/hpack.c:148-185 | What the forms mean is what is decoded, and the decoder stays in step |
| `HpackHistory.BlockFound` | src/hpack.c:148-185 | Whatever decodes is spelled by such forms |
| `HpackHistory.FormRead` | src/hpack.c:156-183 | One form, whatever follows it |
| `HpackHistory.FormFound` | src/hpack.c:156-183 | One representation that is read is a form, with any spelling of its integers and strings |
| `HpackHistory.LookupAgrees` | src/hpack.c:56-66 | The lookup finds the insertion that the history has at that index |
| `HpackHistory.RecentIndex` | src/hpack.c:56-80 | After any insertions into an empty table, index 62 + k names the k-th last of them exactly as long as that is in the table |
| `HpackHistory.BlocksAgree` | src/hpack.c:148-185 | Over any sequence of blocks decoder and sender stay in step |
| `HpackCode.Decoder.TakeString` | src/hpack.c:302-325 | Length, Huffman bit and text as the specification reads them |
| `HpackCode.Decoder.Next` | src/hpack.c:156-183 | One representation at the offset |
| `HpackCode.Decoder.NextLiteral` | src/hpack.c:170-183 | Literals, with an indexed or a new name |
| `HpackCode.Decoder.DecodeHeaders` | src/hpack.c:148-185 | The table after a block depends only on the representations, whatever the rules for header fields say, which decide only between valid and invalid; with memory at hand the block fails exactly if it is malformed, and the table is valid after a failure, too |
| `HpackCode.Decoder.SetMaximum` | src/hpack.c:158-161 | A size update evicts down to the new maximum |
| `MergeTree.CloseIsTree` | src/blake3.c:168-209 | For any leaves and any way to join two nodes: closing the stack of the first n onto leaf n gives the tree in which the left part is the largest power of two below the number of leaves |
| `MergeTree.StackLength` | src/blake3.c:175-192 | The stack holds as many values as the number of pushed chunks has one bits |
| `MergeTree.OnesBound` | src/blake3.c:171 | A number below 2^k has at most k one bits, so 54 entries are enough |
| `MergeTree.Push` | src/blake3.c:180-188 | Merging once per trailing zero bit turns the stack of n chunks into that of n + 1, without underflow and within the array |
| `MergeTree.PopAll` | src/blake3.c:200-205 | The loop closes the stack onto the last node |
| `Blake3.ComputeChunkOutput` | src/blake3.c:124-153 | The loop over the blocks of a chunk computes its chaining value, with the start and end flags |
| `Blake3.ParentExact` | src/blake3.c:155-166 | The block of a parent is the left chaining value and then the right one, with counter 0, length 64 and the parent flag |
| `Blake3.LoadExact` | src/blake3.c:36-46 | Words are read as they are written, the least significant byte first |
| `Blake3.BlockExact` | src/blake3.c:112-122 | A short block is padded with zeros |
| `Blake3.HashInternal` | src/blake3.c:168-209 | For every length up to 2^64 - 1024 the digest is that of the recursive tree of section 2.1 of the BLAKE3 paper, with the root flag only at the top; for the 1023 lengths above, where the chunk count wraps, it is the digest of the tail alone |
| `Blake3.WrappedDigestDiffers` | src/blake3.c:173 | That bound is exact: for every longer input and some compression function the wrapped digest is not the tree's |
| `Shadowsocks.WriterToReader` | src/shadowsocks.c:140-224 | Whatever is written and however octets and reads are cut: the reader does not fail and returns a beginning of what was written; when all is fed and read, it has returned everything and its nonce is the writer's; and at every point the stream may end if and only if the octets fed so far end between two chunks and everything was read |
| `Shadowsocks.EndExact` | src/shadowsocks.c:218-224 | The test for the end holds exactly at the offsets between two chunks |
| `ShadowsocksCode.Body.EndOfFile` | src/shadowsocks.c:218-224 | The code of that test |
| `Shadowsocks.WritesFaithful` | src/shadowsocks.c:140-152 | Over any sequence of writes the output is the stream of the chunks, the nonces are consecutive and below 256^n, and a length is never sealed without its payload |
| `Shadowsocks.EventsFollow` | src/shadowsocks.c:166-201 | After any cuts and reads the reader is at the place of the stream that the octets fed so far determine |
| `ShadowsocksNonce.Increment` | src/shadowsocks.c:59-61 | The carry loop adds one to the little-endian value, and tells exactly when it wraps |
| `ShadowsocksNonce.Counter.Available` | src/shadowsocks.c:44-54 | That many operations are available if and only if each has a nonce of its own |
| `ShadowsocksNonce.Counter.Advance` | src/shadowsocks.c:56-63 | One nonce more is used; after the last one the counter is exhausted |
| `ShadowsocksCode.Writer.SealNext` | src/shadowsocks.c:56-63 | Seals with the current nonce and advances it |
| `ShadowsocksCode.Writer.Encode` | src/shadowsocks.c:140-152 | One call writes as many chunks as fit, as the model of writes does; a failure puts nothing out |
| `ShadowsocksCode.Body.OpenNext` | src/shadowsocks.c:56-63 | Opens with the current nonce, which advances only if the octets are genuine |
| `ShadowsocksCode.Body.CommitOctets` | src/shadowsocks.c:166-201 | The length and payload stages, and their errors |
| `ShadowsocksCode.Body.ReadOctets` | src/shadowsocks.c:203-216 | What is handed out and what is left are together what was opened, and when all is read the next length is awaited |
| `Grpc.RoundTripHunks` | src/tls_http2.c:771-788 | Any sequence of messages from the writer, of at most 16 MiB each, decodes to the concatenated payloads, in single and multi mode |
| `Grpc.HunkRun` | src/tls_http2.c:771-788 | One message, whatever the decoder held of the last one |
| `Grpc.HunkAccepted` | src/grpc.c:181-182 | The writer may send up to 2^32 - 1 octets: its message is accepted if and only if it has at most 16 MiB |
| `Grpc.StepSound` | src/grpc.c:198-241 | Every octet keeps the remaining length, the field length, the depth of groups and the kept payload within the message |
| `GrpcMessage.MessageExact` | src/grpc.c:169-247 | A message of at most 16 MiB is accepted if and only if it is the encoding of some list of protobuf fields (varints, fixed64, fixed32, length-delimited, groups nested up to 64 deep, any spelling of a varint in ten octets); what is delivered is the concatenation of its length-delimited fields 1 outside groups in multi mode and the last of them in single mode |
| `GrpcMessage.MessageRead` | src/grpc.c:169-247 | Every encoding is accepted and delivers that |
| `GrpcMessage.MessageFound` | src/grpc.c:169-247 | Whatever is accepted is such an encoding |
| `GrpcMessage.StreamExact` | src/grpc.c:165-247 | A stream ends between messages with no rule broken if and only if it is a concatenation of such messages with their prefixes, and delivers what they deliver one after another |
| `GrpcMessage.TokenInner` | src/grpc.c:207-234 | Each wire type: a varint is skipped, fixed64 takes eight octets, fixed32 four, a length-delimited field as many as it says, and groups open and close |
| `GrpcMessage.TokenFound` | src/grpc.c:207-234 | Octets that are not refused begin with such a token |
| `GrpcMessage.ItemsFound` | src/grpc.c:223-229 | Tags that open and close groups without a mismatch are properly nested groups |
| `GrpcCode.Decoding.Decode` | src/grpc.c:169-247 | For the part of the input it consumes, the loop does what decoding octet by octet does; it consumes all unless a message is ready or the input is refused. MessageExact and StreamExact say what decoding octet by octet accepts and delivers |
| `GrpcCode.Decoding.Read` | src/grpc.c:37-54 | Nothing of a ready message is lost or repeated, and the message is released when it is all read |
| `GrpcCode.Decoding.TakeHeader` | src/grpc.c:175-197 | The prefix collected over any number of feeds, with flag, length limit and the shared reservation: the same as octet by octet |
| `GrpcCode.Decoding.TakeContent` | src/grpc.c:198-206 | As much content as there is at once: delivered in multi mode, kept in single mode, the same as octet by octet |
| `GrpcCode.Decoding.TakeOctet` | src/grpc.c:207-241 | One octet of a varint, and if it is the last one the tag, length or value it completes: the same as the run over that octet, which TokenInner and TokenFound describe for every wire type |
| `GrpcCode.VarintSize` | src/tls_http2.c:702-709 | The size is the number of octets written |
| `GrpcCode.WriteVarint` | src/tls_http2.c:711-722 | The loop writes the base 128 digits with continuation bits |
| `GrpcCode.WriteHunk` | src/tls_http2.c:771-788 | Prefix, tag, length and payload, or a refusal exactly when the length does not fit 32 bits |
| `GrpcReader.Receive` | src/tls_http2.c:724-769 | A whole stream through the caches of the connection, in any pieces, with bulk decoding, early returns and reads of any capacities in between: it is accepted if and only if it is a list of encoded messages, each at most 16 MiB, and what is delivered is their fields 1; only the shared reservation can refuse more, and never in multi mode |
| `GrpcReader.TwoDivisions` | src/tls_http2.c:744-769 | For two divisions of one stream, and any reads, delivery and outcome agree |
| `GrpcReader.Transmit` | src/tls_http2.c:771-788 | Messages written by the writer, of at most 16 MiB each, cut anywhere and read anyhow, arrive as the concatenated payloads, in both modes |
| `GrpcReader.Reader.Fill` | src/tls_http2.c:724-742 | The loop moves what is decoded on, and stops with octets, with an error, or with nothing left to decode |
| `GrpcReader.Reader.Read` | src/tls_http2.c:750-769 | What is handed out follows what was handed out before, nothing is lost between the caches, and the end is reported only when everything was handed out |
| `Tls12Record.OpenDecrypted` | src/tls12.c:217-226 | For every decrypted buffer the branch-free decision accepts if and only if padding and MAC fit, the last p + 1 octets all equal p, the content is at most 16384 octets, and the octets after the content are the HMAC of the thirteen octets that hold sequence number, type, version and length, and of the content (section 6.2.3.2 of RFC 5246) |
| `Tls12Record.BuildHeader` | src/tls12.c:70-73 | The loop and the five octets after it: sequence number in eight octets, the most significant first, type, version 3.3, length in two |
| `Tls12Record.HeaderInjective` | src/tls12.c:70-73 | Records that differ in sequence number, type or length have different headers |
| `Tls12Record.ReplayCollides` | src/tls12.c:217-226 | So the same octets accepted under another sequence number or type are two different messages with one HMAC |
| `Tls12Record.SealedOpens` | src/tls12.c:162-179 | What sealing builds before encryption is accepted and gives back the content, for every content of at most 16384 octets |
| `Tls12Record.CbcMac` | src/tls12.c:94-125 | Hashing as many blocks as the whole buffer needs, with masks, gives the HMAC of header and content, for 64 and 128 octet blocks |
| `Tls12Record.Octet` | src/tls12.c:107-112 | The masks build the octet that standard hash padding has at that place |
| `Tls12Record.BuildBlock` | src/tls12.c:106-113 | So every block up to the last one that counts is a block of the padded message |
| `Tls12Record.Keep` | src/tls12.c:116-117 | Only the digest after the last block that counts is kept |
| `Tls12Hmac.DigestAfterBlock` | src/tls12.c:101-118 | Hashing after the key block is hashing key block and message |
| `Tls12Hmac.Padded` | src/tls12.c:103-104 | The padded message has as many blocks as the code computes |
| `Tls12Cbc.CheckPadding` | src/tls12.c:126-133 | Looking at 256 octets whatever they are, the result is whether the padding is right and fits, and the length of the content if so |
| `Tls12Cbc.RotateIf` | src/tls12.c:137-141 | One masked step rotates the ring, or leaves it |
| `Tls12Cbc.ExtractMac` | src/tls12.c:134-143 | Nine such steps bring the slice at any offset within the last 512 octets to the front |

## Left out

- HTTP/1.1 connections of the pool (events of `src/http2_pool.c:560-584`, `src/http1.c`): every actor of the model speaks HTTP/2.
- Sockets, threads, condition variables, notifications, logging, cleansing of memory: they do not change the modelled fields.
- Clocks: deadlines, pings, idle actors, packet intervals and expiry of groups appear as steps that may happen at any time.
- The choice of group and actor (`src/http2_pool.c:417-472`) and the limits on numbers of streams and actors: the model allows every choice of a usable actor, so its theorems hold for that one.
- The room for protocol buffers that `allocate_channels` asks for before it reserves: the model binds a stream whenever both reservations succeed; other users of the budgets are the step Ledger.
- Fences (`write_fence`, `finish_fence`, `enqueued`, `flushed`): they only delay steps.
- Frames that are refused before they reach their own code (`src/http2_pool.c:585-594`) and failures of the backend are the step Break; PING and the collection of header blocks over CONTINUATION frames are not steps.
- Lists of streams, actors and groups are sequences indexed by number, with a mark for what is freed, instead of pointers; blocks of a queue are values in a sequence, so aliasing of blocks is not captured.
- Http2QueueCode.BlockQueue.AppendParts: is for the stream limit, with which alone blocks are used.
- HpackCode.Decoder.DecodeHeaders: after a failure only the bounds of the table are stated, not its entries, because the connection ends.
- Sections of `src/http2_pool.c` without a loop that are not methods of `Mux` (header blocks, moving of streams, release of a reservation) are functions on values only, so their update in place is not captured.
- GrpcCode.Decoding.Decode: the chunks of 8 KiB that hold a kept payload are one sequence of bytes.
- Rules for single header fields (`src/hpack.c:94-146`), mapping of gRPC response headers, configuration: string handling.
- Shadowsocks salts, identity headers and the fixed request and response headers (`src/shadowsocks.c:65-137`): the reader starts at the length stage.
- ShadowsocksCode.Body.CommitOctets: takes the octets together with the room that `core_ss_body_prepare` offers; more than that is an error in the model as in the code.
- TLS 1.2 AEAD suites, encrypt-then-MAC, the block cipher and the sequence limit; TLS handshakes and certificates.
- Concrete cryptography: compression rounds, AEAD and HKDF.
- The synchronous HTTP/2 path of `src/tls_http2.c`, dialing, DNS, routing, command line, URIs, JSON.
