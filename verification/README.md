# A verified model of lcompat

lcompat lets Linux drivers run on another kernel. Most of it is thin, but seven files hold protocols, heap structures, codecs and
wrap-around arithmetic. This project models those files in Dafny and proves what they guarantee. `dafny verify dfyconfig.toml`
checks all of it.

The model keeps the form of the code. Shared-memory protocols are step systems: every atomic access and every block under a lock is
one step, and any number of actors interleave. Structures that the code changes in place are classes with the same fields, and
their methods have the loops of the code. Codecs are functions on bytes, with methods that fill or convert buffers in place.

| part | files of the model | what they model |
|---|---|---|
| work queue | WorkqueueProtocol, WorkLedger, WorkLedgerToken, WorkLedgerTickets, WorkLedgerAccounts, WorkqueueRefinement, WorkqueueTheorems, WorkqueueTimers, WorkList | workqueue.c: queue, delayed queue, delay timer, worker, flush and cancel (lines 34-136, 172-216, 256-373) |
| tasklet | Tasklet | include/linux/interrupt.h lines 43-156 |
| USB request blocks | UrbEngine, UrbInvariant, UrbSteps, UrbTheorems, UrbProgress, UrbPending | usb.c: submission, completion, queueing and reference counts (lines 223-257, 323-480, 988-1109) |
| pages and socket buffers | PacketMemory, PageOrder, PageRefs, SkbWindow, PacketHeap, ScatterGather, SkbList | page_pool.c, include/linux/skbuff.h, usb.c lines 106-221 |
| 802.11 station layer | WifiFrames, WifiTx, WifiElements, WifiAssoc, WifiConnection, WifiRx, WifiRxHeap | mac80211.c: data frames, elements, association request, connection machine, receive path |
| kfifo | Kfifo | include/linux/kfifo.h |

Basics holds what all parts share.

How the parts are proved:

- **Work queue.** `WorkqueueProtocol.Perform` is the step relation of the code. `WorkqueueRefinement` shows that each of its steps is one
  move of a small ledger that only knows who holds which item, where each link is, and which events were logged. The invariants are proved
  on the ledger and read back in `WorkqueueTheorems`; `WorkqueueTimers` follows one delayed item along a run.
- **URB engine.** A thread works for one submission at a time, so program counters are kept with submissions. Flags of the code are kept together
  with the submission they were set for (`outstanding.Some?` is `urb->submitted`, `pipe.Some?` is `pipe_busy`); no step looks at more than the flag.
- **Pages and buffers.** Memory is one sequence of bytes and pointers are indices into it, so aliasing is the real one. Pages and buffers are
  named by numbers. The value of a buffer is its linear bytes followed by the first `data_len` bytes of its fragments.

Where the code does not do what its callers may expect, the model follows the code and the exact condition is proved:

- The second generation bump of an arm that found no thread (workqueue.c:313) can drop the arm of another caller: `WorkqueueTimers.ArmLost`, exactly
  when, `TimerDropsIff`, and what a caller can do, `UndisturbedExpires`.
- The store that undoes a failed tasklet_schedule (interrupt.h:127) can take away a schedule made by another call: `Tasklet.ScheduleForgotten`, exactly
  when, `UndoTakesOther`.
- tasklet_disable can return while a worker is about to call the callback (interrupt.h:50-56): `Tasklet.DisableBroken`, `DisableLeaksIffWindow`.
- An accepted URB can be left in the queue of an idle pipe (usb.c:1064-1077, 1090-1092, 465-467), because the check and the append are two steps, or because
  a launch is refused: `UrbProgress.SubmissionStranded`; without both it cannot happen, `AtomicNeverStrands`;
  step by step, `AttendedIffCareful`.
- usb_kill_urb can return inside the completion callback (usb.c:424-434): `UrbTheorems.KillInsideCallback`, exactly what it achieves, `KilledCallbacks`.
- A transfer whose length is left to the scatterlist never gets a zero-length packet (usb.c:134-135, 397): `UrbTheorems.ZlpLeftOut`, exactly
  which transfers get it, `ZeroLengthPacket`.
- A NULL answer of alloc_frames_bytes becomes a registered page at address 0 (page_pool.c:24-34): `PacketHeap.PacketHeap.PageAlloc`.
- For sizes above 2^63 the shift in __dev_alloc_pages wraps and one page comes back (page_pool.c:96): `PageOrder.BlockHoldsSize`.
- skb_pull beyond the linear part, skb_reserve on a non-empty buffer, and skb_add_rx_frag into an occupied slot or after a trim inside the fragments do
  not do what their names say: `SkbWindow.PullDropsPrefix`, `ReserveNeedsEmpty`, `TrimmedByteReturns` with
  `AddFragAppends` and `AddFragAppendsIff`, `PageRefs.OverwriteLeaks`.
- A scan result with elements but without any rate element makes the rates sent and supported_rates_mask disagree (mac80211.c:562-595, 659-681):
  `WifiElements.RatesAgreeWithMask`.
- A zero among the rates to be sent, or a twenty-fifth one, cuts the rate lists short (mac80211.c:707-710); a zero rate does no harm where the scan result
  marks it as basic, which sends 0x80: `WifiAssoc.RatesCut`, exactly when, `AllRatesListed`, and for the counting loops, `NothingCut`.
- A positive value from the driver's sta_add leaves the station associating without a notification (mac80211.c:1096-1100, 2227):
  `WifiConnection.Station.HandleAssocResp`.
- The second search of select_bss never fills in a BSSID (mac80211.c:468-471): it is only reached when one was given, as the proof of
  `WifiConnection.SelectBss` shows.
- The A-MSDU bit is looked up at the wrong place when a frame carries an HT control field (mac80211.c:2035): `WifiRx.SubframesLost`, exactly when,
  `AmsduBitPosition`, and what then decides, `HtControlDecides`.
- lcompat_cancel_delayed_work_sync can return and the item be queued afterwards, because a timer past its two tests is not stopped (workqueue.c:205-214,
  371-373): `WorkqueueTimers.CancelMisses`, exactly when, `CancelMissesIff`.

## Model

| member | source | states |
|---|---|---|
| `WorkqueueTheorems.SingleTokenInRuns` | workqueue.c:87-127 | in every reachable state of any interleaving QUEUED of an item is set exactly when one party holds it (producer past its CAS, one list link, worker past its pop, canceller past its unlink, delay timer or arming call), never two, and the list has no repetition |
| `WorkqueueTheorems.HoldersFindQueued` | workqueue.c:100-108 | a worker that popped an item, a producer about to link it and a canceller about to clear it find QUEUED set; a timer or a failed arm that gives it back finds the word to be exactly QUEUED |
| `WorkqueueTheorems.NeverLinkedTwice` | workqueue.c:275-283 | an item about to be linked is in no list |
| `WorkqueueTheorems.CancelSeesListed` | workqueue.c:344-351 | a cancel that looks while the item is listed reads a queue pointer, and under the lock finds the item |
| `WorkqueueTheorems.AccountsInRuns` | workqueue.c:256-287 | for an item that is not delayed work, over every run: successful queue calls = function invocations + cancels that return true + the outstanding token (0 or 1), calls still on their way counted on both sides |
| `WorkqueueTheorems.DelayedAccountsInRuns` | workqueue.c:289-317 | the same equation for delayed work, with arms on one side and the timer's drops and hand-overs on the other |
| `WorkqueueTheorems.OutcomesLast` | workqueue.c:87-135 | once a link has returned from its function or been removed, that stays so for the rest of the run |
| `WorkqueueTheorems.TrueCancelNeverRuns` | workqueue.c:344-358 | a cancel_work_sync that is going to return true removed, in this same call, a link of its item from the list, and at no later time is that link invoked: a true cancel means that queuing never runs |
| `WorkqueueTheorems.RemovedNeverRuns` | workqueue.c:344-351 | a link that was removed is never invoked at any later time |
| `WorkqueueTheorems.InvokedOnce` | workqueue.c:100-117 | the worker that wins the CAS holds a link that was not invoked before, so no link is invoked twice |
| `WorkqueueTheorems.FlushIsBarrier` | workqueue.c:319-335 | when flush sees an empty list and active == 0, every link made before the call has returned from its function or been removed; for any number of workers |
| `WorkqueueTheorems.ActiveCountsWorkers` | workqueue.c:95-98 | `active` is at all times the number of workers between their pop and their final critical section |
| `WorkqueueTheorems.NoLostWakeup` | workqueue.c:172-181 | over a non-empty list some worker is runnable, or the installed worker has an unblock pending, or a producer stands between its link and its wake |
| `WorkqueueTheorems.WorkGoesOn` | workqueue.c:87-98 | hence over a non-empty list a worker or a waking producer always has a step to take |
| `WorkqueueTimers.TimerDropsIff` | workqueue.c:192-207 | exactly when a timer drops its arm: at its first test if and only if a canceller disarmed the item since the arm stored `active`, at its second if and only if the bumps of the generation since the timer read it, by cancellers or by arms that found no thread, are not a multiple of 2^32 |
| `WorkqueueTimers.UndisturbedExpires` | workqueue.c:289-317 | without cancel_delayed calls and failed task_creates for the item every arm expires: nothing is ever dropped, and arms = expiries + the arm under way (0 or 1) |
| `WorkqueueTimers.CancelMissesIff` | workqueue.c:361-376 | exactly when cancel_delayed_work_sync misses a timer: a timer that still runs after the two stores has decided to queue the item if and only if it had passed both tests when the second store was made, or the bumps since it read the generation came round to a multiple of 2^32 |
| `WorkqueueTimers.CommittedReleases` | workqueue.c:205-214 | at its compare-and-swap such a timer finds QUEUED, clears it and goes on to lcompat_queue_work |
| `WorkqueueTimers.CancelMisses` | workqueue.c:361-376 | a concrete run: cancel_delayed_work_sync returns, nobody calls anything after it, and the item is queued |
| `WorkqueueTimers.ArmLost` | workqueue.c:307-314 | a run without any cancel in which an arm whose own task_create succeeded is dropped, because of the late bump of another caller's failed arm, and the item is not queued |
| `WorkqueueProtocol.Find` | workqueue.c:49-74 | the search of the list stops at the first link of the item, and otherwise reaches the end |
| `WorkqueueRefinement.PerformRefines` | workqueue.c:82-135 | every atomic access and every locked block is one move of a small ledger of tokens, tickets and events; all results above are proved on that ledger |
| `WorkLedgerToken.ApplyKeepsToken` | workqueue.c:264-283 | every move keeps the assignment of each item to its one owner |
| `WorkLedgerTickets.ApplyKeepsTickets` | workqueue.c:87-135 | every move keeps each link in exactly one place: list, worker, or done |
| `WorkLedgerAccounts.ApplyKeepsAccounts` | workqueue.c:256-317 | every move keeps set bits and cleared bits of each item in balance, and arms in balance with expiries and drops |
| `WorkLedgerAccounts.ApplyKeepsWake` | workqueue.c:172-181 | every move keeps the wake-up invariant |
| `WorkList.WorkqueueStruct.PopLocked` | workqueue.c:34-47 | head, next chain and tail keep describing one list without repetition, and its first item leaves |
| `WorkList.WorkqueueStruct.RemoveLocked` | workqueue.c:49-74 | the item leaves the list wherever it is, its neighbours stay in order; a miss changes nothing |
| `WorkList.WorkqueueStruct.AppendLocked` | workqueue.c:275-283 | the item becomes the last one |
| `Tasklet.CallbackExclusive` | include/linux/interrupt.h:56-67 | in every interleaving at most one worker is inside the callback, and none while a tasklet_trylock succeeded |
| `Tasklet.NoScheduleForgotten` | include/linux/interrupt.h:116-129 | when no scheduler and no worker is under way any more, SCHED is clear and, if no task_create failed, every schedule that set it was one call of the callback or was killed; otherwise failed ones and those they took away are missing |
| `Tasklet.UndoTakesOther` | include/linux/interrupt.h:125-128 | exactly when a failed tasklet_schedule takes away the schedule of another call: if and only if SCHED was cleared and set again since the failed call set it |
| `Tasklet.OnlyUndoTakes` | include/linux/interrupt.h:43-156 | no other step of anybody takes a schedule away |
| `Tasklet.ScheduleForgotten` | include/linux/interrupt.h:116-129 | a run in which a schedule whose own task_create succeeded, not killed, never gets its callback |
| `Tasklet.StepServed` | include/linux/interrupt.h:43-72 | SCHED is set only while some scheduler before its task_create or some worker will still look at it |
| `Tasklet.StepBooks` | include/linux/interrupt.h:43-72 | every step keeps: accepted schedules = callback calls + killed + undone by the call that made them + taken away by another call + the outstanding bit; without a failed task_create nothing is undone or taken away |
| `Tasklet.DisableLeaksIffWindow` | include/linux/interrupt.h:131-136 | the promise of tasklet_disable fails exactly then: after it saw RUN clear, the callback can still be called while the tasklet stays disabled if and only if some worker stands between its count check (line 50) and its test_and_set_bit (line 56), and SCHED is set or another actor can still set it |
| `Tasklet.DisableBroken` | include/linux/interrupt.h:131-136 | a run in which tasklet_disable returns and the callback is then called, the count being positive throughout |
| `Tasklet.KillStops` | include/linux/interrupt.h:148-156 | on any path from tasklet_kill's clear of SCHED to the moment it sees RUN clear: if no schedule set SCHED in between, the tasklet is then not scheduled and not inside its callback |
| `Tasklet.StoppedStays` | include/linux/interrupt.h:148-156 | and this lasts until the next schedule that sets SCHED, whatever else happens |
| `UrbTheorems.RefcountInRuns` | usb.c:988-1010 | in every run the count of a URB is the driver's reference plus the submissions that have not dropped theirs, and the URB is freed exactly when neither is left |
| `UrbTheorems.NeverFreedInUse` | usb.c:369-480 | a URB is not freed while a submission of it is queued, in flight, or inside completion, also if the callback frees or resubmits it |
| `UrbTheorems.CompletionFindsSubmitted` | usb.c:383-425 | urb->submitted is set for one submission at most and every native completion finds it set, so the two early returns are never taken |
| `UrbTheorems.KillSeesEnds` | usb.c:1102-1109 | when usb_kill_urb sees submitted clear, every submission of that URB has ended; its callback may still be running |
| `UrbTheorems.KilledCallbacks` | usb.c:1102-1109 | from the store of usb_kill_urb until the URB is submitted again no callback of it starts, and one is running if and only if it was running at the store and its handler has not moved since |
| `UrbTheorems.KillInsideCallback` | usb.c:424-435 | a run in which usb_kill_urb finds submitted clear, and returns, inside the completion callback |
| `UrbTheorems.EndsLast` | usb.c:424-472 | an end once reached is never replaced, counts of callbacks and transfers only grow, and a finished submission never changes again |
| `UrbTheorems.DoneMeansEnded` | usb.c:1080-1099 | a submission whose thread is done was either refused to its caller, with no transfer and no callback, or was accepted and then failed or completed, with exactly one callback unless it has none or was killed |
| `UrbTheorems.MutedMeansKilled` | usb.c:432-435 | a callback is only left out, for the submission the step works for, if usb_kill_urb had marked its URB, and then its end was already recorded |
| `UrbTheorems.ZeroLengthPacket` | usb.c:392-411 | section 5.8.3 of USB 2.0: of the complete OUT transfers that ask for it and end on a packet boundary, judged by the bytes transferred, exactly those get a zero-length packet tried for which the driver gave a transfer length; the second transfer is that packet, and the reported length is that of the data |
| `UrbTheorems.ZlpLeftOut` | usb.c:130-135 | a run in which such a transfer ends without the packet, its length being left to the scatterlist (the test at line 397 looks at transfer_buffer_length) |
| `UrbTheorems.PipeExclusive` | usb.c:1064-1070 | pipe_busy of an endpoint is set exactly while one submission of it holds the pipe |
| `UrbTheorems.QueueIsFifo` | usb.c:223-257 | submissions leave the queue of an endpoint in the order in which they were appended, each once |
| `UrbSteps.PerformKeeps` | usb.c:369-480 | every step of a thread, of the driver and of the native stack keeps the invariant behind these results |
| `UrbProgress.AttendedIffCareful` | usb.c:1059-1077 | step by step in a given run: a non-empty queue always has a busy pipe if and only if every append still finds the pipe busy and every failed launch that clears pipe_busy leaves nobody queued |
| `UrbProgress.AtomicNeverStrands` | usb.c:1064-1077 | what a caller can arrange: if every append comes right after its own check and no data transfer is refused, a non-empty queue always has a busy pipe, in every run |
| `UrbProgress.SubmissionStranded` | usb.c:1059-1093 | neither condition can be dropped: an accepted submission is left in the queue of an idle pipe in a run without any refusal, and in a run in which every append comes right after its check |
| `UrbProgress.WorkGoesDown` | usb.c:369-480 | every step of a thread or of the native stack brings the run closer to its end |
| `UrbProgress.WorkIsBounded` | usb.c:369-480 | a run with n submissions has at most 16 n such steps |
| `UrbProgress.AllEnd` | usb.c:1026-1100 | when a run has come to rest and no queue is left behind an idle pipe, every submission has ended, and every count is back to the driver's own reference |
| `UrbProgress.AtomicAllEnd` | usb.c:1059-1100 | so it is in every run at rest in which appends come right after their checks and no data transfer is refused |
| `UrbPending.PendingList.Append` | usb.c:223-237 | the state becomes the last of the list and is flagged as queued |
| `UrbPending.PendingList.Pop` | usb.c:239-257 | the first state leaves the list, the rest stays in order |
| `PageOrder.GetOrder` | page_pool.c:101-115 | the result is the least order whose block holds `size` bytes |
| `PageOrder.BlockHoldsSize` | page_pool.c:91-99 | a block of that order holds the requested bytes if and only if size <= 2^63; for 32-bit sizes the order is at most 20 |
| `PageRefs.GetKeeps` | page_pool.c:78-82 | get_page keeps: the count is the number of slots that name the page plus the references callers hold |
| `PacketHeap.PacketHeap.GetPage` | page_pool.c:78-82 | the heap stays in order and the caller holds one more reference |
| `PacketHeap.WithPutOk` | page_pool.c:78-89 | put_page keeps the whole heap in order: the counts, the registry of exactly the counted pages, and the page ranges apart |
| `PageRefs.PutKeeps` | page_pool.c:84-89 | so does put_page; the page goes exactly with its last reference, and no slot is left dangling |
| `PageRefs.OverwriteLeaks` | include/linux/skbuff.h:474-491 | storing a caller's page into a slot keeps the count right if and only if the slot was empty |
| `PacketHeap.PacketHeap.PageAlloc` | page_pool.c:10-36 | a page is handed out exactly when its record can be allocated; it is registered, with the caller's one reference; the heap is in order afterwards if and only if no page was made on a NULL answer of alloc_frames_bytes, which is registered at address 0 |
| `PacketHeap.PacketHeap.PutPage` | page_pool.c:38-49 | the last reference takes the page off the registry |
| `PacketHeap.PacketHeap.VirtToHeadPage` | page_pool.c:53-74 | the one registered page that contains the address, if there is one |
| `PacketHeap.PacketHeap.AllocSkb` | include/linux/skbuff.h:75-97 | an empty buffer with `size` bytes of tailroom inside a new page with one reference |
| `PacketHeap.PacketHeap.ReleaseFrags` | include/linux/skbuff.h:103-118 | every used slot gives its reference back and is cleared, the loop keeping the books balanced |
| `PacketHeap.PacketHeap.KfreeSkb` | include/linux/skbuff.h:120-129 | the buffer is gone, whatever its window, its references are given back, and every other buffer keeps its content |
| `PacketHeap.PacketHeap.CowHead` | include/linux/skbuff.h:140-178 | at least the requested headroom, the same packet, the same tailroom; all other buffers unchanged; nothing changes on an error |
| `PacketHeap.PacketHeap.SkbCopy` | include/linux/skbuff.h:309-329 | the copy holds the linear bytes in a page of its own, with the same headroom and tailroom |
| `PacketHeap.PacketHeap.Linearize` | include/linux/skbuff.h:387-447 | on success the packet is the same and in one piece; -EINVAL only if a fragment page or bytes are missing; on failure buffers and pages are as before; others keep their content |
| `PacketHeap.PacketHeap.CopyFrags` | include/linux/skbuff.h:412-428 | the copy loop gathers exactly the packet |
| `PacketHeap.PacketHeap.Trim` | include/linux/skbuff.h:576-594 | fragments are given back when the cut falls into the linear part; others keep their content |
| `PacketHeap.PacketHeap.AddRxFrag` | include/linux/skbuff.h:474-491 | the books balance afterwards if and only if the slot was empty |
| `PacketHeap.OthersFrom` | page_pool.c:84-89 | reference counting protects: whoever still names its pages keeps its content, whatever was put |
| `SkbWindow.PutGrowsTail` | include/linux/skbuff.h:337-347 | skb_put succeeds exactly when tailroom and length allow, and extends the linear bytes by those it hands out |
| `SkbWindow.PutAppends` | include/linux/skbuff.h:337-347 | without fragments this appends to the packet |
| `SkbWindow.PushPrepends` | include/linux/skbuff.h:356-364 | skb_push gives the packet the headroom bytes before it |
| `SkbWindow.PullDropsPrefix` | include/linux/skbuff.h:568-574 | skb_pull drops a prefix and leaves a buffer that passes the bounds check exactly when that prefix is linear |
| `SkbWindow.PushUndoesPull` | include/linux/skbuff.h:356-364 | push after pull restores the buffer |
| `SkbWindow.ReserveMovesRoom` | include/linux/skbuff.h:349-354 | skb_reserve moves room from the tail to the head and keeps the bounds |
| `SkbWindow.ReserveNeedsEmpty` | include/linux/skbuff.h:349-354 | it keeps the linear bytes, whatever memory holds, if and only if there are none or nothing is reserved |
| `SkbWindow.TrimKeepsPrefix` | include/linux/skbuff.h:576-594 | the packet becomes its prefix, also across fragments; the tail is again data offset plus linear length |
| `SkbWindow.AddFragExact` | include/linux/skbuff.h:474-491 | what is appended: first the fragment bytes an earlier trim cut off, then those of the new fragment, `size` bytes in all |
| `SkbWindow.AddFragAppends` | include/linux/skbuff.h:474-491 | for a page that no fragment of the buffer names: whatever memory holds, the fragment's own bytes are appended, if and only if no fragment bytes were cut off by a trim or nothing is added |
| `SkbWindow.AddFragAppendsIff` | include/linux/skbuff.h:474-491 | for any page: if and only if the addresses of the cut-off bytes followed by those of the fragment begin with those of the fragment |
| `SkbWindow.TrimmedByteReturns` | include/linux/skbuff.h:474-491 | a concrete buffer: the packet 7 8 trimmed to 7, with the byte 9 added as a fragment, is 7 8 |
| `PacketMemory.OkIsValid` | include/linux/skbuff.h:53-73 | every buffer the operations produce passes lcompat_skb_valid_bounds |
| `ScatterGather.ToSgvec` | include/linux/skbuff.h:499-555 | at most eight entries that together name exactly the requested bytes of the packet; 0 if and only if the request lies outside it or needs a ninth entry |
| `ScatterGather.FragEntries` | include/linux/skbuff.h:532-554 | the fragment loop, from any starting point |
| `ScatterGather.SgTotalLen` | usb.c:106-121 | the sum of the entries, if and only if all have pages and it fits an int |
| `ScatterGather.UrbDataLen` | usb.c:123-139 | without a scatterlist the transfer length itself; with one the transfer length, or the sum if it is not positive; an error if and only if the list is bad or shorter |
| `ScatterGather.SgCopyFromUrb` | usb.c:141-158 | the first `len` bytes the entries name, in order, if and only if the entries before the first one without a page name that many; otherwise an error; no byte beyond is written |
| `ScatterGather.SgCopyToUrb` | usb.c:160-178 | the bytes are written through the entries in order, an error if and only if those before the first one without a page are too short; entries that do not overlap read them back, and no other byte of memory changes |
| `ScatterGather.PrepareUrbBuffer` | usb.c:180-221 | the URB's own buffer without a scatterlist; with one a bounce buffer that is large enough and holds the data of an OUT transfer, if and only if the length is good and the buffer can grow when it must |
| `ScatterGather.PacketToUrb` | usb.c:180-221 | end to end: packet, scatterlist, bounce buffer; the bytes are that stretch of the packet |
| `ScatterGather.GatherAgreesWithLinearize` | include/linux/skbuff.h:387-555 | skb_to_sgvec, the gathering copy and skb_linearize run on one heap: the bytes gathered are, one by one, those at that offset of the piece that skb_linearize makes |
| `WifiFrames.EthernetRoundTrip` | mac80211.c:1964-2026 | receiving a sent frame gives back destination, EtherType and payload, with the interface's address as source, if and only if the EtherType is neither AARP nor IPX; with and without QoS |
| `WifiFrames.DataToEthernet` | mac80211.c:1979-2025 | the conversion in place, with its overlapping move, computes that frame, and leaves the buffer alone when it refuses |
| `WifiFrames.ParseInvertsSerialize` | mac80211.c:2119-2146 | parsing an A-MSDU body gives back the subframes, for any padding bytes, the last subframe padded or not (section 9.3.2.2 of IEEE Std 802.11-2020) |
| `WifiFrames.AmsduRoundTrip` | mac80211.c:2107-2149 | a list of Ethernet frames put into an A-MSDU comes out as that list, in order |
| `WifiFrames.MsduRoundTrip` | mac80211.c:2066-2105 | one subframe gives its Ethernet frame back if and only if the EtherType is neither AARP nor IPX |
| `WifiFrames.SubframesInside` | mac80211.c:2119-2146 | on arbitrary bytes every subframe found lies inside the buffer |
| `WifiTx.BuildDataFrame` | mac80211.c:1342-1421 | the buffer holds exactly the 802.11 frame, behind the driver's headroom; whatever fails, the heap is as before; no skb_put can fail after the allocation; and every other buffer keeps its content |
| `WifiTx.FillFrame` | mac80211.c:1376-1409 | header, QoS control, LLC/SNAP and payload, each put shown to succeed |
| `WifiElements.ElementsOfEncode` | mac80211.c:328-348 | parsing encoded elements gives them back |
| `WifiElements.FindIe` | mac80211.c:328-348 | the body of the first complete element with that number |
| `WifiElements.BssHasWmm` | mac80211.c:350-369 | true exactly when a WMM information or parameter element is there |
| `WifiElements.BasicIsSupported` | mac80211.c:600-682 | basic_rates_mask is a subset of supported_rates_mask |
| `WifiElements.RatesAgreeWithMask` | mac80211.c:534-598 | for driver rates in 1..127, at most 24: the rates sent are the bits of supported_rates_mask in ascending order if and only if the scan result has a rate element or no elements at all (or there are no driver rates) |
| `WifiAssoc.BuildRates` | mac80211.c:534-598 | first eight rates in one buffer, up to sixteen more in the other, with the basic bit of the first matching entry, for any rates |
| `WifiAssoc.AllRatesListed` | mac80211.c:534-598 | no rate that was to be sent is missing from the two lists if and only if at most 24 were to be sent and none of them is zero, unless the scan result marks it as basic; without a scan result: if and only if the driver has at most 24 rates and none is zero; with 24 rates in 1..127 nothing is missing |
| `WifiAssoc.NothingCut` | mac80211.c:707-710 | the two counting loops lose nothing if and only if there are at most 24 bytes and none of them is zero |
| `WifiAssoc.RatesCut` | mac80211.c:707-710 | concrete rates: of 2, 0 and 4 only 2 is sent |
| `WifiAssoc.RateMasks` | mac80211.c:600-682 | the two mask loops compute the sets of listed and of marked rates |
| `WifiAssoc.AssocRoundTrip` | mac80211.c:754-777 | reading the elements of an association request back gives the SSID and both rate lists, up to a zero rate, and WMM exactly when the scan result had it |
| `WifiAssoc.BuildAssocReq` | mac80211.c:684-785 | for any rates the frame is fixed fields plus encoded elements; the length computed first is the length written, so the final check never fails |
| `WifiConnection.SelectBss` | mac80211.c:421-477 | the first scan result that fits all that was asked for, else the first that fits the SSID; only a missing SSID is filled in |
| `WifiConnection.ChoiceIsUnique` | mac80211.c:421-477 | these rules leave one answer for every scan and every request |
| `WifiConnection.Station.Connect` | mac80211.c:1131-1184 | accepted exactly when started, open, supported and disconnected; then authenticating with the chosen BSS, its beacon interval, capabilities and WMM, if and only if there is a choice and both native calls succeed; else one connect result with this port id and the status of what failed |
| `WifiConnection.Station.HandleAuth` | mac80211.c:2162-2195 | short and foreign frames change nothing; otherwise associating, or a connect result with the frame's status, which can be 0 |
| `WifiConnection.Station.HandleAssocResp` | mac80211.c:2197-2230 | connected to the requested BSSID with aid < 0x4000, or a failure result, or still associating without any notification when sta_add returns a positive value |
| `WifiConnection.Station.HandleDisconnect` | mac80211.c:2232-2254 | a matching frame in any connected or connecting state gives one disconnect event |
| `WifiConnection.Station.ConnectComplete` | mac80211.c:1079-1129 | zero means connected, with both assoc flags, aid and BSSID set; anything else leaves the station associating and without an entry |
| `WifiConnection.Station.ConnectFailed` | mac80211.c:1062-1077 | one connect result with the request's port id, and all parameters cleared |
| `WifiConnection.Station.DisconnectLocal` | mac80211.c:1020-1060 | everything is undone; an event exactly when there was a connection or an attempt |
| `WifiConnection.Station.Disconnect` | mac80211.c:1186-1221 | only a connected station disconnects, with one event that carries this port id |
| `WifiConnection.NoticesAlternate` | mac80211.c:1051-1127 | the notification trace is in the language: each accepted connect, then one result with its port id or a disconnect event; a result with the link up has status 0 and is followed by a disconnect event, any other result and a disconnect event by the next accepted connect |
| `WifiConnection.RunAdds` | mac80211.c:1131-1221 | along a run the notifications only grow, with one accepted connect for each connect call that is taken |
| `WifiConnection.Run` | mac80211.c:1131-2254 | over any sequence of calls each call changes the whole state as the rules for it say; connected exactly when a station entry exists and exactly when both assoc flags are set; the notifications are in the language and grow by those of the calls |
| `WifiRx.Receiver.RxIrqsafe` | mac80211.c:2284-2362 | the buffer is freed or stands on rx_queue, never both, and rx_queue grows by exactly the Ethernet frames the buffer is worth |
| `WifiRx.Receiver.EnqueueAmsdu` | mac80211.c:2107-2149 | the frames of the subframes with a known SNAP header whose buffer could be allocated, in order, each in a new buffer |
| `WifiRx.Receiver.Recv` | mac80211.c:1320-1340 | the oldest frame is delivered, or dropped when it does not fit; its buffer is freed |
| `WifiRx.RunGrows` | mac80211.c:2284-2362 | along a run what enters rx_queue is the concatenation of what each reception is worth in the connection state it meets |
| `WifiRx.Run` | mac80211.c:1320-2362 | over any sequence of receptions and reads: each reception has a new buffer of its own, freed exactly once or queued exactly once; what enters is what the receptions are worth, in order; each read answers with the oldest frame that has not left, delivered or too big |
| `WifiRx.AmsduBitPosition` | mac80211.c:2028-2037 | the A-MSDU test answers what the QoS control field says, on all QoS frames with a given frame control and length, if and only if that frame control announces no HT control field |
| `WifiRx.HtControlDecides` | mac80211.c:2348-2361 | behind a header with an HT control field all Ethernet frames of an A-MSDU (whose first address is no SNAP header) arrive if bit 7 of the third byte of that field is set and none otherwise, whatever the QoS control field says |
| `WifiRx.SubframesLost` | mac80211.c:2348-2361 | for any frames to be carried: a header that marks an A-MSDU, behind which the subframe loop would find them all, and yet nothing arrives |
| `WifiRxHeap.RxIrqsafe` | mac80211.c:2284-2362 | the same on the heap of pages: the buffers put on rx_queue hold exactly the frames the received one is worth; that one is freed or queued and no other buffer is made; reference counts stay in balance; and every buffer that does not share its head page keeps its content |
| `WifiRxHeap.EnqueueAmsdu` | mac80211.c:2107-2149 | the subframe loop on the heap: new buffers with the subframes' frames in order, and every buffer there was keeps its content, the received one included |
| `WifiRxHeap.DataToEthernet` | mac80211.c:1964-2026 | the buffer holds the Ethernet frame, rewritten in place and trimmed, if and only if there is one; otherwise the heap is as before; only buffers that share the head page can notice |
| `WifiRxHeap.BuildEthSkb` | mac80211.c:2066-2105 | a new buffer with the Ethernet frame of a subframe, or the heap as before; no skb_put can fail after the allocation |
| `WifiRxHeap.NobodyElseSees` | mac80211.c:2013-2024 | if the head page of the received buffer has one reference, all other buffers keep their content: reference counting protects them from the rewriting in place |
| `SkbList.SkbQueue.QueueTail` | include/linux/skbuff.h:203-221 | head, next chain, tail and qlen describe one sequence; the buffer becomes its last |
| `SkbList.SkbQueue.QueueHead` | include/linux/skbuff.h:223-234 | the buffer becomes its first |
| `SkbList.SkbQueue.Dequeue` | include/linux/skbuff.h:236-251 | its first buffer leaves |
| `SkbList.SkbQueue.Unlink` | include/linux/skbuff.h:269-294 | the buffer leaves wherever it is; a miss changes nothing |
| `SkbList.SkbQueue.Purge` | include/linux/skbuff.h:331-335 | every buffer is freed once, oldest first |
| `Kfifo.Fifo.Put` | include/linux/kfifo.h:27-33 | appends to the bounded queue if there is room, also when `in` wraps at 2^32, for a power-of-two size |
| `Kfifo.Fifo.Get` | include/linux/kfifo.h:35-41 | takes its first element |
| `Kfifo.MaskIsMod` | include/linux/kfifo.h:31 | masking with size - 1 is the remainder for a power of two |
| `Kfifo.SlotsDiffer` | include/linux/kfifo.h:27-41 | no two live elements share a slot, also across the wrap |
| `Kfifo.DistinctIffPow2` | include/linux/kfifo.h:13-20 | masked indices of live elements never collide if and only if the size is a power of two |

## Left out

Work queue and tasklet:

- Worker creation (workqueue.c:138-170): workers are installed from the start, any positive number of them; `worker_task` is one of them.
- The delay timer's wait loop is one step that may be taken when the deadline has passed, the arm was undone, or the generation changed; jiffies and
  `expires` are not modelled.
- lcompat_cancel_delayed_work_sync: its return value and its last wait on `running` (workqueue.c:367-370, 374-375) are not modelled.
- One queue per item; the destination queue of a delayed item that is armed again while a worker finishes it is not modelled.
- WorkList.WorkqueueStruct: the list class is proved for calls under the lock; that no item is linked twice is WorkqueueTheorems.NeverLinkedTwice.
- Memory ordering weaker than sequential consistency.

URB engine:

- usb_submit_urb up to its reference (usb.c:1031-1057) is one step: a driver submits one URB from one thread at a time. Its failures before that
  (-EINVAL, -ENOMEM, -ENOENT, -EBUSY) change nothing and are not steps.
- The stores of status and actual_length after the compare-and-swap (usb.c:427-428) are kept as the end of the submission; that they can land
  on a URB that was submitted again meanwhile is not modelled.
- The reference count does not wrap at 2^32, and an endpoint is a fixed property of a URB, as the cached pipe makes it.
- That the native stack completes each accepted transfer once, and that each thread goes on, are assumptions; UrbProgress.AllEnd is about runs that came to rest.
- Pipe allocation, device removal, the synchronous transfer path, DMA synchronisation.

Pages and buffers:

- Apart from PacketHeap.PacketHeap.PageAlloc itself, alloc_frames_bytes is taken to answer with an unused range: what the copies do with a page at
  address 0 is not modelled.
- Heads from kmalloc (`head_page` NULL), build_skb, page pools with statistics, cb, priority, queue_mapping and protocol of a buffer.
- ScatterGather.ToSgvec: for packets of at most INT_MAX bytes; the NULL answer of virt_to_head_page (skbuff.h:521-522) cannot occur there and has no branch.
- PacketHeap.PacketHeap.ReleaseFrags: a slot is cleared before its page is put, the code does it the other way round; nothing is read in between.
- Buffers are used by one thread at a time; the page registry lock is not modelled.

802.11:

- Received buffers are linear. The code reads through `skb->data` up to `skb->len`, so a buffer with fragments would be read beyond its linear part (mac80211.c:2008-2015).
- WifiRx.Receiver keeps the order of rx_queue and the connection, with the bytes of a buffer as a value; WifiRxHeap keeps the pages and the other buffers, with one
  received buffer at a time and the handling of management frames left to WifiConnection.
- WifiConnection.Station: calls run one after the other; the window between storing the parameters and leaving DISCONNECTED (mac80211.c:1151-1173) is not visible.
  Results of set_channel, of sending frames, of alloc_sta and of sta_add are parameters. Wireless info and basic_rates are not tracked, and the link
  state only where a connect result is published.
- WifiAssoc.BuildAssocReq: the buffer is an array of the computed length; that puts into a buffer of that length do not fail is shown for data frames in WifiTx.
- Scanning, beacons, probe requests, transmit queues, key handling, constant tables and stub inlines.

Elsewhere:

- kthread.c and include/linux/timer.h rest on the unseen scheduler. pci.c, memory.c, module.c, entry.c and debugfs.c are wrappers around native calls;
  xarray.h and idr.h are not used by the modelled files, and of list.h only the page registry, which PacketHeap keeps as a sequence.
- Kfifo.Fifo: single producer and consumer, without the memory accesses of two threads.
