# Verified model of the ControlLogix backplane client

This project models the concurrent connection layer of the C SDK, and the encoders and caches around
it, and proves what every interleaving of threads and every input keeps.

| file | models |
|---|---|
| `ConnLayer.dfy`, `ConnTable.dfy`, `ConnCodec.dfy` | the class-3 connection table of `c/src/conn.c`: an account of every connection the PLC has open, the 16 rows updated in place, the Large Forward Open and Forward_Close bodies |
| `PoolVars.dfy`, `PoolState.dfy` | one `bp_pool`: the value of its fields and the class whose methods are its critical sections |
| `PoolMachine.dfy`, `PoolInvariant.dfy`, `PoolSystem.dfy`, `PoolTheorems.dfy` | callers, keepalive thread, opener and closer of 20 pools, the connections the application manages itself and the PLC as one step system; its invariant; what the invariant promises a client |
| `PoolWaiters.dfy`, `PoolShutdown.dfy`, `PoolAbsorbedSignal.dfy` | who sleeps on a pool's condvar and who is woken; closing a pool; the signal that the keepalive thread can absorb |
| `PoolBackoff.dfy`, `PoolBatch.dfy`, `GoPool.dfy` | the reopen backoff over any history; `bp_client_pool_batch`; the Go pool's tokens |
| `TagCache.dfy`, `CacheRebuild.dfy` | the lazily filled symbol cache, which drops its lock around every fetch; what becomes of calls in flight when a build resets it |
| `SlotDispatch.dfy`, `SlotReplies.dfy` | the 16 shared-memory slots, their owner and error words and their semaphores; whose reply a call parses |
| `BatchLayout.dfy`, `BoolArray.dfy` | the two layouts of a tag batch in a slot; BOOL[] packing |
| `Route.dfy` | Unconnected_Send and port segments |
| `Scalars.dfy`, `Multitag.dfy`, `TagsOverSlot.dfy` | Go's typed scalars, `ReadTags` and `WriteTags`, and their calls through the bytes of a slot |
| `Bytes.dfy`, `Common.dfy` | bytes, little-endian words, blocks stored into a buffer |

How the models are built:

- A step of a concurrent model is one critical section or one message exchange with the PLC or the
  engine; between steps any thread may go next, and a run is any sequence of enabled steps from the
  initial state. Results about runs hold for every run.
- The same specification functions (`PoolVars.AfterPing`, `TagCache.ResumeLookup`,
  `SlotDispatch.Taken`, …) are the effect of the steps and the postconditions of the class methods that
  update the fields in place, so the theorems about runs are about those methods.
- The PLC of the connection layer grants any well-formed triad it does not have open and refuses or
  answers as it likes; replies and Forward_Closes may be lost. A connection touched by such a loss, or
  dropped by the PLC, enters the history set `faults`, and conservation is stated for the others.
- A condvar signal wakes one sleeper, whichever it likes, and none only if nobody sleeps; a broadcast
  wakes all; a wait may also end by itself. Signals are part of the step system; the class of one pool
  has the fields.
- Clocks, serials, the round-robin start, thread creation and every reply are arbitrary inputs.

Six promises one might expect are false of the code. Each has an input or a run from the initial state
on which it fails, and a condition that says for all inputs when it holds:

- the reply a call parses is the answer to its own request. A run from the start breaks it after a
  timeout (`SlotReplies.ReplyCanBeAnothers`). It holds if and only if the engine was not working on an
  earlier request of the slot at the reserve (`SlotReplies.ReplyIsOwnExactly`), which is so whenever no
  earlier call on the slot ended with -201 or -301 (`SlotReplies.AnsweredSlotsAreSafe`);
- the symbol cache agrees with the rebuilt table. A run from the empty cache breaks it
  (`CacheRebuild.RebuildPoisons`). It holds if and only if no call holds a fetched symbol that the new
  table contradicts (`CacheRebuild.BuildSafeExactly`);
- a lookup in flight across a build answers as a search of the new table. A run from the empty cache breaks
  it without any stale symbol (`CacheRebuild.BuildCanMislead`). Without stale symbols it holds if and only
  if no entry the lookup may skip matters, which without duplicate names means that its name is not among
  the entries below its index, or its fetch is bound to fail (`CacheRebuild.InFlightExact`,
  `CacheRebuild.SameFromIsAbsent`);
- a batch that passes the size check lies inside the slot. It does if and only if its size is below 2^32
  (`BatchLayout.WrappedTotalPasses`, `BatchLayout.CheckedBatchFits`);
- Go's "all entries are dead" error is true. When the last dead token is put back and the error is decided
  on, it is in all runs if and only if the pool was opened with one entry or without keepalive; when it is
  returned, if and only if it was opened without keepalive (`GoPool.AllDeadErrorCanBeWrong`,
  `GoPool.OneEntryRevives`, `GoPool.AllDeadErrorExact`);
- no caller sleeps in `pool_txrx` beside a free live entry that no woken caller is on its way to. In all
  runs that is so if and only if the pool has no keepalive thread
  (`PoolAbsorbedSignal.KeepaliveAbsorbsSignal`, `PoolAbsorbedSignal.WaitersServedExactly`); with one, only
  as many entries can be left lying as signals went to it and are not made good by a ping it began
  (`PoolWaiters.SleepersAreServed`).

The header of `c/include/bpclient.h` says `bp_tagdb_read_tags` chunks its names; the C code does not.
Chunking is modelled as Go does it.

## Model

| member | source | states |
|---|---|---|
| ConnLayer.HolderMoves | c/src/conn.c:217-258 | a connection is held after a step only by who held it before, or by the thread, row or dropped set the step hands it to |
| ConnLayer.OpConserves | c/src/conn.c:165-370 | every critical section or message exchange keeps the account: outside the faults the PLC has open exactly what rows, in-flight calls and dropped rows hold, each in one place, with at most 16 rows |
| ConnLayer.CloseNamesAGrant | c/src/conn.c:226-248 | whatever goes wrong, each Forward_Close goes to a connection the PLC granted to this client, and unless a fault touched it the PLC still has it open |
| ConnLayer.BalanceOutsideFaults | c/src/conn.c:307-370 | with nothing in flight, outside the connections a fault touched, the PLC's connections are the rows plus those force_close_local dropped, no connection in both or in two rows, and counted once |
| ConnLayer.QuiescentBalance | c/src/conn.c:307-370 | without faults that is all of them |
| ConnTable.OneRowEach | c/src/conn.c:116-122 | a handle is open exactly when one and only one in_use row carries it |
| ConnTable.RowMapSize | c/src/conn.c:125-130 | never more connections than rows, and as many exactly when every row is in use |
| ConnTable.TxRxTable.FindConn | c/src/conn.c:116-122 | finds the in_use row of a handle, and nothing exactly when the handle is not open |
| ConnTable.TxRxTable.AllocConn | c/src/conn.c:125-130 | finds an unused row, and none exactly when 16 connections are open |
| ConnTable.TxRxTable.CacheConnection | c/src/conn.c:217-258 | refused as already open or for want of a row exactly in those cases, with the table untouched; otherwise the table gains exactly this connection |
| ConnTable.TxRxTable.BeginMessage | c/src/conn.c:279-287 | NOT_OPEN exactly for a handle that is not open; otherwise its slot, with only that row's sequence counted up |
| ConnTable.TxRxTable.TakeRow | c/src/conn.c:324-341 | hands out the connection of the handle and removes that handle alone |
| ConnCodec.LfoReadsBack | c/src/conn.c:62-87 | the target reads out of every Large Forward Open the triad, both connection id hints, the path and the capped size in both directions |
| ConnCodec.CloseNamesWhatOpenNamed | c/src/conn.c:92-110 | the Forward_Close built from a row carries the triad and the path that the row's own open carried |
| ConnCodec.BuildLfo | c/src/conn.c:62-87 | writes that body with a moving offset, 50 bytes, nothing beyond |
| ConnCodec.BuildFc | c/src/conn.c:92-110 | writes the Forward_Close body with a moving offset, 22 bytes, nothing beyond |
| PoolVars.HandleBits | c/src/pool.c:54-56 | the bit pattern is 0x8000 plus slot and index, and gives both back |
| PoolVars.HandleInjective | c/src/pool.c:54-56 | two entries share a handle only if slot and index agree |
| PoolVars.AcquireExact | c/src/pool.c:180-192 | from any round-robin start, acquiring fails exactly when no entry is free and live |
| PoolState.BpPool.AcquireLocked | c/src/pool.c:180-192 | marks one free live entry and changes nothing else; -1 exactly when there is none |
| PoolState.BpPool.Enter | c/src/pool.c:206-220 | NOT_OPEN exactly when uninitialized, wait exactly when nothing is free and live, otherwise the acquired entry is marked |
| PoolState.BpPool.ReturnEntry | c/src/pool.c:233-237 | the entry is free again, with its time of use, and nothing else changed |
| PoolState.BpPool.ClaimForPing | c/src/pool.c:271-281 | claims an entry exactly when the loop is not told to stop and the entry is free, live and idle long enough |
| PoolState.BpPool.FinishPing | c/src/pool.c:298-311 | the whole new state after a ping: free, and after a failure dead with its backoff started |
| PoolState.BpPool.ClaimDead | c/src/pool.c:319-337 | claims an entry exactly when the loop is not told to stop and the entry is dead, unclaimed and past its backoff |
| PoolState.BpPool.FinishReopen | c/src/pool.c:354-372 | the whole new state after a reopen: live with the first backoff, or still dead with the doubled, capped one |
| PoolState.BpPool.Prepare | c/src/pool.c:89-107 | a pool being opened has blank entries, its size and its interval, and is not initialized |
| PoolState.BpPool.RecordOpened | c/src/pool.c:129-131 | the opened entry gets its handle and its time |
| PoolState.BpPool.Publish | c/src/pool.c:153-164 | initialized, with a keepalive thread unless none was asked for or it could not start |
| PoolState.BpPool.BeginClose | c/src/pool.c:489-494 | not initialized, and the keepalive loop told to stop |
| PoolState.BpPool.AnyBusy | c/src/pool.c:501-510 | true exactly when some entry is in use |
| PoolInvariant.InvKept | c/src/pool.c:75-531 | every step of callers, keepalive thread, opener and closer keeps the pool invariant: phases, exclusive borrowing, a row for each live entry, in-flight connections, backoffs, answered callers |
| PoolSystem.EventKept | c/src/pool.c:75-531 | every step of any of the 20 pools, of an application's own connections or of the PLC keeps the invariant of all pools, the account of connections and the rule of who owns which handle |
| PoolSystem.EveryRun | c/src/pool.c:75-531 | so all of it holds in every state of every run |
| PoolTheorems.BorrowedConnectionIsOpen | c/src/pool.c:206-239 | in every state of every run each live entry of an initialized pool has its in_use row, to the pool's slot, and the txrx_msg of a caller that borrowed an entry finds its row: it is never NOT_OPEN |
| PoolTheorems.ExclusiveBorrow | c/src/pool.c:270-337 | an entry is in_use exactly while a caller, a ping or a reopen has it, and never two of them |
| PoolTheorems.ConnectionsConserved | c/src/conn.c:165-370 | at every quiescent point of every run, outside the connections a fault touched, the PLC holds exactly the table rows and the connections auto-reopen abandoned, each once; without faults that is all of them; at most 16 rows |
| PoolTheorems.ClosesWhatWasOpened | c/src/conn.c:321-369 | in every run each Forward_Close names a connection an earlier open was granted |
| PoolTheorems.UnopenedSlotHasNoRows | c/src/pool.c:134-151 | a slot with no pool and no open or close running has no row anywhere in its handle range |
| PoolTheorems.OpenAllOrNothing | c/src/pool.c:114-153 | a successful open leaves in the slot's handle range exactly as many rows as the `size` its own pool_open was given, all entries free and live; a failed open leaves none |
| PoolTheorems.OwnHandleIsVacant | c/src/conn.c:217-248 | when the pool's own open or reopen inserts its row the handle is never in use already, so the insertion only fails on a full table |
| PoolShutdown.CloseIsSafe | c/src/pool.c:487-523 | once `initialized` is cleared nothing is newly borrowed, nobody but the closer begins a wait, each return lowers the busy count by one, and Forward_Closes are sent only when it is 0 |
| PoolShutdown.NobodyOversleepsClose | c/src/pool.c:489-510 | in every run, from the broadcast of pool_close on no caller and no keepalive thread is asleep, and the closer sleeps only while some caller still has an entry |
| PoolShutdown.LastReturnWakesCloser | c/src/pool.c:233-237 | in every run, the return after which no entry is in use leaves a sleeping closer awake |
| PoolShutdown.CloseProgress | c/src/pool.c:487-530 | during a close every step on the pool lowers one measure, except a caller that arrives, is refused and leaves everything as it was, and a wait that ends without a signal, which raises it by at most one |
| PoolShutdown.CloseNotStuck | c/src/pool.c:495-523 | in every run an unfinished close has an enabled step that is neither a timeout nor a wait ending by itself: the keepalive thread's while it is joined, a borrowing caller's while the closer is asleep in its condvar wait, otherwise the closer's |
| PoolShutdown.CloseEnds | c/src/pool.c:487-530 | in any run, the steps taken on the pool while its close lasts number at most the measure at its beginning plus the waits that ended without a signal; refused arrivals, which change nothing, are not counted |
| PoolWaiters.SleepersInEveryRun | c/src/pool.c:206-262 | in every run a sleeping caller's pool is open, a sleeping keepalive thread is not told to stop, and a sleeping closer has a borrower to wait for |
| PoolWaiters.SleepersAreServed | c/src/pool.c:212-362 | in every run of any pool, while a caller sleeps the free live entries number at most the woken callers plus the signals owed: those that went to the keepalive thread, each made good by a ping it begins |
| PoolWaiters.NoEntryIdlesBesideASleeper | c/src/pool.c:212-237 | without a keepalive thread nothing is owed: while a caller sleeps there are at least as many woken callers as free live entries |
| PoolAbsorbedSignal.KeepaliveAbsorbsSignal | c/src/pool.c:256-260 | for a pool of each size a run from the start in which the keepalive thread takes the signal of a return and sleeps again, leaving a caller asleep, nobody woken and one entry free and live |
| PoolAbsorbedSignal.WaitersServedExactly | c/src/pool.c:212-260 | for each pool size, in all runs a sleeping caller has as many woken ones beside it as entries are free and live if and only if the pool has no keepalive thread |
| PoolBackoff.DelayIsCappedDoubling | c/src/pool.c:365-367 | the k-th delay of the model is min(1000 * 2^k, 30000) ms |
| PoolBackoff.AttemptsAreSpaced | c/src/pool.c:301-371 | over any history of an entry, the k-th reopen attempt after a death is no earlier than the sum of the first k+1 delays after it |
| PoolBackoff.RunFollowsLog | c/src/pool.c:269-373 | in every run an entry of a live pool goes through exactly the history its events spell |
| PoolBackoff.ReopensAreSpacedInEveryRun | c/src/pool.c:301-371 | so the spacing holds in every run, from a failed ping on, while no reopen succeeds and the pool stays open |
| PoolBatch.ExactlyOnce | c/src/pool.c:390-464 | under any scheduling, if a worker started every item was run by exactly one worker exactly once and keeps its code; if none did, every item is GENERIC |
| PoolBatch.Summarise | c/src/pool.c:458-471 | items past next_idx are GENERIC, the others kept; OK is returned exactly when every code is OK |
| PoolBatch.Conclude | c/src/pool.c:451-471 | after any run whose workers were joined the call returns OK exactly when every item was run, once, and its own code was OK |
| GoPool.TokensConserved | go/ocxbp/pool.go:134-199 | in every run, until stop is closed each index is in exactly one place: the channel, one call or the loop; afterwards never in two |
| GoPool.PuttingBackNeverBlocks | go/ocxbp/pool.go:183-199 | whoever holds a token finds room in the channel |
| GoPool.ReopenIsAlone | go/ocxbp/pool.go:443-503 | a reopen never overlaps a message on the same entry |
| GoPool.ScanIsTheCall | go/ocxbp/pool.go:172-191 | the search an undisturbed call makes is what its own steps do, one by one |
| GoPool.ScanExact | go/ocxbp/pool.go:172-191 | that search fails exactly when every token in the channel is dead, else takes the first live one |
| GoPool.AllDeadErrorCanBeWrong | go/ocxbp/pool.go:183-190 | for every pool of two entries or more, a run from PoolOpen in which the error is decided on and returned while all entries but one are live and in the middle of a message |
| GoPool.OneEntryRevives | go/ocxbp/pool.go:183-190 | a run of a pool of one entry in which the loop reopens the entry between the put-back of its token and the return of the error |
| GoPool.AllDeadErrorExact | go/ocxbp/pool.go:172-191 | over all runs, all entries are dead each time a call puts the last dead token back and so decides for the error if and only if the pool was opened with one entry or without keepalive; and each time the error is returned if and only if it was opened without keepalive |
| TagCache.LookupRefinesSearch | c/src/tagcache.c:115-200 | in every interleaving of lookups and preloads the cache is a prefix of the PLC's table, and a lookup answers the first match of a plain search, or PARAM_RANGE exactly when no name matches |
| TagCache.LoopsAdvance | c/src/tagcache.c:144-197 | each round of a lookup or preload asks for a later index below total_count, even when another thread did the append |
| TagCache.SequentialFetches | c/src/tagcache.c:144-197 | with one call at a time, the successful fetches since a build are at most total_count |
| CacheRebuild.StalePoisons | c/src/tagcache.c:149-159 | a call that holds a symbol the rebuilt table contradicts can append it to the new cache |
| CacheRebuild.RebuildPoisons | c/src/tagcache.c:144-168 | a run from the empty cache, with a build during a fetch, after which lookups find a symbol the table does not have |
| CacheRebuild.BuildSafeExactly | c/src/tagcache.c:207-228 | a build leaves the cache a prefix of the table whatever follows if and only if no call holds such a symbol |
| CacheRebuild.BuildCanMislead | c/src/tagcache.c:144-172 | a run from the empty cache with a build under a waiting lookup after which, with no stale symbol about, the lookup can answer that a name of the new table is not there |
| CacheRebuild.InFlightExact | c/src/tagcache.c:144-172 | with no stale symbol about, a lookup that was waiting for a fetch during a build answers as a plain search of the new table whatever follows if and only if searches that skip up to its index find the same, or the new table has no symbol at the index it asks for |
| CacheRebuild.SameFromIsAbsent | c/src/tagcache.c:162-168 | in a table without duplicate names, that is so exactly when the name is not among the entries below the index |
| TagCache.SymbolCache.Reset | c/src/tagcache.c:212-227 | nothing known, room for exactly total_count symbols |
| TagCache.SymbolCache.Scan | c/src/tagcache.c:132-139 | the loop finds what the scan of the known prefix finds |
| TagCache.SymbolCache.Resume | c/src/tagcache.c:152-168 | appends the symbol only at its own index, then answers or asks for the next, in one critical section |
| TagCache.SymbolCache.Lookup | c/src/tagcache.c:115-173 | terminates, answers a plain search of the PLC's table, and fetches only what is not cached; it fails only if a fetch failed |
| SlotDispatch.SharedSlots.Drain | c/src/client.c:154-156 | one semaphore is at zero, no other changed |
| SlotDispatch.SharedSlots.Reserve | c/src/client.c:159-182 | takes the first free slot and drains its semaphores; refused, with nothing changed, exactly when every owner word is nonzero |
| SlotDispatch.SharedSlots.Release | c/src/client.c:184-191 | the slot is free with drained semaphores, the others untouched |
| SlotDispatch.SharedSlots.Judge | c/src/client.c:275-280 | the reply is parsed exactly when the error word is 0; otherwise the code is that word as a signed number |
| SlotDispatch.SlotsExclusive | c/src/client.c:196-284 | in every run of any number of threads and processes an owner word is nonzero exactly while one call in flight holds the slot, never two: so every exit path releases |
| SlotDispatch.RefusedWhenFull | c/src/client.c:159-182 | a reserve is refused exactly when calls in flight hold all 16 slots |
| SlotDispatch.ParseNeedsServerZero | c/src/client.c:217-280 | a call parses only if the server wrote 0 after this call set PENDING and before it released |
| SlotDispatch.StrayWakeIsPending | c/src/client.c:249-276 | a wake-up with no server write ends in -301 and no parse, and no wake-up predates the reserve |
| SlotReplies.ReplyCanBeAnothers | c/src/client.c:236-284 | a run from the start, with a server that answers each request once, in which a call times out with -201 and the next call on the slot parses the answer to its request |
| SlotReplies.ReplyIsOwnExactly | c/src/client.c:193-285 | a call is certain to parse only its own reply if and only if the server was not working on an earlier request of that slot at the reserve |
| SlotReplies.AnsweredSlotsAreSafe | c/src/client.c:249-284 | in every run, a call parses only its own reply if no earlier call on its slot ended with -201 or -301 |
| BatchLayout.Check | c/src/access.c:80-91 | NULL_ARG, PARAM_RANGE and SLOT_TOO_LARGE exactly as the 32-bit sum decides; otherwise the payload size |
| BatchLayout.CheckedBatchFits | c/src/access.c:83-91 | a batch that passes lies inside the slot if and only if its true size is below 2^32 |
| BatchLayout.WrappedTotalPasses | c/src/access.c:85-91 | a batch of three requests that passes and does not fit |
| BatchLayout.RegionsApart | c/src/access.c:33-60 | header, descriptors and data areas are pairwise disjoint and, for a batch that fits, inside the slot |
| BatchLayout.FillOne | c/src/access.c:35-60 | one round of the loop: exactly the descriptor and, for a write with a buffer, the data area change |
| BatchLayout.Fill | c/src/accessdb.c:34-77 | the whole slot after either fill function, from any slot before |
| BatchLayout.RegionAfter | c/src/access.c:33-60 | what each region of the slot holds once any number of requests is in |
| BatchLayout.ExpectedIs | c/src/access.c:33-60 | later requests do not undo an earlier one: each descriptor and each write's bytes stand at the end |
| BatchLayout.DescriptorReads | c/src/accessdb.c:58-67 | the server reads back every field of a descriptor and the name up to 254 bytes, in both layouts |
| BatchLayout.DatabaseReads | c/src/access.c:23-27 | the server reads back the path, as far as it is sent, or the handle |
| BatchLayout.BatchRoundTrip | c/src/access.c:20-106 | a server that reads the count, walks the descriptors and adds up the announced sizes recovers the request list and each write's bytes |
| BatchLayout.LayoutsAgree | c/src/accessdb.c:34-126 | both layouts decode to the same batch |
| BatchLayout.ServedSlotIsAnswered | c/src/access.c:63-77 | replies written request by request all stand in the slot at the end, each in its own regions |
| BatchLayout.Read | c/src/accessdb.c:79-93 | the readers give each request its own result and each read its own data, and change nothing else of it |
| BoolArray.DwordsExact | c/src/access.c:228-230 | for every 16-bit count the DWORD count is the ceiling of count / 32 |
| BoolArray.OrBitSets | c/src/access.c:269 | or-ing in `1 << k` sets bit k and no other |
| BoolArray.Pack | c/src/access.c:263-270 | bit i of the DWORDs is set exactly when i < count and the i-th BOOL is nonzero |
| BoolArray.Unpack | c/src/access.c:250-253 | the first count bytes are the bits as 0 or 1, later bytes untouched |
| BoolArray.WriteBoolArray | c/src/access.c:258-281 | no request exactly for a missing array or count 0; otherwise the packed DWORDs, and the status of the call |
| BoolArray.ReadBoolArray | c/src/access.c:232-256 | on success the unpacked bits, on any failure the array untouched; the status of the call |
| BoolArray.WriteThenRead | c/src/access.c:232-281 | reading back what was written gives the array normalised to 0 and 1 |
| BoolArray.PacksUnique | c/src/access.c:266-270 | two arrays give the same DWORDs, padding included, if and only if they agree as BOOLs |
| BoolArray.ReadThenWrite | c/src/access.c:232-281 | writing back what was read restores the DWORDs if and only if their bits past count were zero |
| Route.TicksAreLeast | c/src/route.c:31-35 | the ticks cover min(timeout, 8160) ms, overshoot a nonzero timeout by less than 32 ms, and no smaller positive number covers it |
| Route.BuildUnconnectedSend | c/src/route.c:23-59 | 0, -EINVAL and -ENOSPC exactly in their cases with nothing written; otherwise the body, its length, and nothing beyond |
| Route.UnconnectedSendInverts | c/src/route.c:41-58 | a byte string parses to (message, route, ticks) if and only if these are allowed and it is the body built for them |
| Route.AppendPort | c/src/route.c:61-69 | two bytes appended and the offset moved, or a refusal with nothing changed, exactly by the arguments |
| Route.RouteOfHops | c/src/route.c:61-69 | a route of appended segments reads back hop by hop and is accepted exactly with 1 to 255 hops |
| Scalars.KindFitsSize | go/ocxbp/multitag.go:37-85 | a symbol gets a kind only with that kind's own width |
| Scalars.EncodedDecodes | go/ocxbp/multitag.go:216-299 | every accepted value fills its tag exactly and decodes to itself, floats of the other width to their conversion |
| Scalars.DecodedEncodes | go/ocxbp/multitag.go:87-113 | every decoded value encodes to the bytes it came from, a true BOOL to 1 |
| Multitag.ChunksPartition | go/ocxbp/multitag.go:162-166 | laid end to end the Access calls hold each name's request once and in order, 1 to 16 to a call, in ceil(n / 16) calls |
| Multitag.BatchedRead | go/ocxbp/multitag.go:181-197 | each read of a batch is answered as a read of its own would be |
| Multitag.ReadTags | go/ocxbp/multitag.go:135-205 | every call is within the limits; an unreadable name means no Access call and an empty map; otherwise the map holds exactly the names reached, each with the result of its own single-tag read, and the error lists exactly the nonzero statuses in order |
| Multitag.ScalarChunksAreAccepted | go/ocxbp/multitag.go:162-183 | calls made of scalar requests are within the count and size limits in both layouts; ReadTags and WriteTags ensure it of every call they make |
| Multitag.CheckAccepts | go/ocxbp/access.go:43-53 | so the size check accepts each of those calls |
| TagsOverSlot.AccessThroughSlot | c/src/access.c:20-106 | for a call whose requests fit their tags, filling the slot, decoding it, serving what was decoded, writing the replies and reading them back leaves the PLC and every request as the Access of the chunked calls says, in both layouts |
| TagsOverSlot.ReadCallsAreReady | go/ocxbp/multitag.go:162-186 | that covers every call ReadTags makes with names of at most 254 bytes |
| TagsOverSlot.WriteCallsAreReady | go/ocxbp/multitag.go:349-366 | and every call WriteTags makes with such names, from what the names before it left in the PLC |
| Multitag.AfterWritesIs | go/ocxbp/multitag.go:352-366 | after any prefix of distinct names each served tag holds its own new bytes, every other tag what it held |
| Multitag.WriteTags | go/ocxbp/multitag.go:312-381 | every call is within the limits; any value that cannot be encoded means no Access call and an unchanged PLC; otherwise exactly the served tags hold their new bytes, whatever order the map was walked in; a lost call leaves a prefix written |
| Multitag.WriteThenRead | go/ocxbp/multitag.go:135-381 | after WriteTags each served tag reads back the value it was given, every other tag reads as before |

## Left out

- The order in which the keepalive thread visits entries: the model lets it look at any entry next, which covers the source's order.
- Whether and when the scheduler runs a woken thread: the close theorems bound steps and show that one is enabled.
- Publishing a pool: setting `initialized` and creating the keepalive thread are one step.
- Mutex and condvar destruction at the end of `pool_close`, and the unsynchronised `rr_seed`: the model ends at the `memset` and takes any round-robin start.
- Application connections of handles 0x8000 and above: the header file reserves those for pools.
- Go's and Python's close: between the `initialized` check and the in-flight count another thread may close (`go/ocxbp/pool.go:161-165`); close is stated about C.
- The Go pool is modelled on values, its channel as a sequence: creation, rollback and PoolBatch are not part of it.
- The C pool's `pool_txrx` argument checks, `extract_slot`, CIP error recording and reply parsing of opens and closes: an exchange ends as granted, refused, lost or applied.
- Finding, allocating and invalidating the cache of a path (`c/src/tagcache.c:34-111`): one cache is modelled, since two caches share nothing but the array they sit in; `calloc` succeeds, and a build with its cache reset is one step.
- `strcmp` on symbols: names are compared as wholes, and the rest of a descriptor is one opaque value.
- The slot dispatcher takes the writing of the header and payload as one step, the engine's payload and error word as one write, and leaves out `EINTR`, semaphore failures other than that of the kick, and reconnects.
- Access: tag names and paths beyond 254 bytes are sent truncated, as the code does; a server that reads longer names is not part of this model. The engine's decoding is the layout read backwards.
- BatchLayout.Read: takes the slot as a sequence, since the readers only load from it, and asks for a batch that fits it; for one whose size wrapped the readers load beyond the slot.
- BatchLayout.Fill: asks for a batch that fits the slot and buffers of at least the announced size. `bp_tagdb_access` cannot check the buffers, and a batch whose size wrapped passes it; filling either reads or writes outside the memory the model has.
- BatchLayout.FillOne: asks for the same, for the same reason.
- Route.AppendPort: offsets are unbounded numbers; a `size_t` that wraps is not modelled.
- The C `read_tags`/`write_tags`, which make one unchunked call, STRING tags, identity, LED and switch, path and clock opcodes, status strings and error texts: fixed-offset copies and tables without state or loops that interact.
- Float meaning: REAL and LREAL are bit patterns, and Go's conversions between them are arbitrary functions.
- Multitag.ReadTags: PLC memory and symbols are fixed for the duration of a call, so a tag another client writes meanwhile is not covered; LookupSymbol errors other than an unknown name count as an unreadable name.
- Opening of shared memory, semaphores and mappings, and the Python and Go mirrors of files modelled from C.
