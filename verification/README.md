# Verified models of the streaming base classes and the OpenAL renderer

A Dafny model of the parts of this repository where state, arithmetic and
concurrency meet: the DirectShow base classes it carries, and the renderer's own
buffer ring. `dafny verify dfyconfig.toml` checks everything.

Code that works in place is modelled in place, as classes, arrays and loops, and
each method is proved equal to a function on values. What the repository promises is
then proved about those functions, for every input, every interleaving and every run.

| files | what they model |
|---|---|
| `Words`, `RefTime`, `Wrappers`, `Sequences`, `Products` | fixed-width integers and their wrap-around; reference time; options; repetition-free sequences; products as unknowns |
| `ExtendedArithmetic` | `llMulDiv` and `Int64x32Div32` in machine words, against exact arithmetic |
| `AdviseList`, `AdviseSchedule` | `CAMSchedule`: the meaning of dispatching on values, and the linked list with its cache on the heap |
| `ReferenceClock`, `ClockTime` | the clock's requests and advise thread; its 64-bit time from a 32-bit timer |
| `AllocatorLayout`, `SampleList`, `BufferAllocator`, `AllocatorProtocol` | the memory block's layout; the linked free list; the allocator's lock regions, with samples at their addresses; any number of threads using it |
| `OutputQueueTypes`, `OutputQueue` | `COutputQueue`: regions and scan as functions; the object with its array and loops |
| `OutputQueueProtocol`, `OutputQueueWakeups`, `OutputQueueFlush`, `OutputQueueOrder`, `OutputQueueForced` | the queue with its worker thread: conservation, wake-ups, flushing, and the theorems on runs |
| `OutputQueueLiveness`, `OutputQueueReset`, `OutputQueueCrossing` | why EndFlush and Reset do not wait for ever; when Reset returns too soon; what crosses a flush |
| `OutputQueueDirect`, `OutputQueueResume` | the queue without a thread, and the refinement between the two; delivery after EndFlush and RESET, in both forms |
| `DynamicPin` | `CDynamicOutputPin`'s block protocol with its streaming threads |
| `StreamControl` | `CBaseStreamControl`'s decision for each sample, and what runs of samples and commands mean |
| `FrameStatistics`, `IntegerSqrt`, `FrameStats` | the variance of running sums; `isqrt` with its faults; the renderer's sums and reports |
| `PullPin` | `CPullPin`'s aligned, pipelined reading |
| `SoundRing`, `SampleFifo` | `COpenALStream`'s buffer ring; `CMixer`'s byte queue |
| `PersistInt` | `WriteInt` and `ReadInt`; the printed form is the `%011d` conversion of section 7.21.6.1 of ISO/IEC 9899:2011 |

## Where code and documentation part

The model follows the code. Each of these has its lemmas: a failing input, and the exact condition.

- `arithutil.cpp:168` says its test catches overflow. Quotients from 2^63 up to 2^64 pass it and come back wrapped (`OverflowNotCaught`); the result is exact if and only if the quotient fits (`MulDivExactIffFits`).
- `amfilter.h:1416` states an equality that `AM_GBF_NOWAIT` breaks (`HeaderEqualityFails`); it holds exactly when no such call has given up (`WaitingAccount`).
- `amfilter.cpp:5065-5077` tests alignments against the system's granularity, and accepts every one up to it (`AnyAlignmentPasses`, `AlignOkIff`). Rounding a request can wrap to a negative length (`WrappedRequestAgreesNonsense`); `RoundRequestExact` says when it does not.
- `AdvisePeriodic` accepts a period whose first dispatch takes the packet to the sentinel's time or past it. There `ShuntHead` walks off the end of the list, or the sum overflows (`LongPeriodReachesSentinel`); `Advise` and `AdviseThreadWake` report a fault exactly then (`SafeIffNextTimesFit`). A packet whose period is not positive, which `AddAdvisePacket` takes, keeps the dispatch loop going for ever (`ZeroPeriodFiresForever`, `EndsIffSteady`).
- `refclock.cpp:237-243` only sets aside readings a whole timer cycle apart. `Int32x32To64` reads the elapsed time as signed, so the clock is exact if and only if readings are less than half a cycle apart (`PrivateTimeExact`, `LongGapGoesBack`). The times reported can go back after a `Restart` that asks for less than the last one, and only so (`ReportedTimeMonotonic`, `RestartMayGoBackIff`, `RestartGoesBackIff`).
- `COutputQueue::Reset` shares its event with flushing and can return with its packet still listed (`StaleEventReachable`, `ResetReturnsIff`). A segment can cross a flush, exactly when `m_bFlushed` is set and the optimisation on as BeginFlush is called (`SegmentCrosses`, `MayCrossIff`, `SegmentCrossesIff`); samples and EndOfStream cannot.
- `strmctl.cpp:56-61` means to begin by discarding when the first command is a start. Moving an earlier stop past the start leaves it flowing (`MovedStopBeginsWrong`, `StopKeepsBeginning`), and moving an earlier start past the stop leaves it discarding (`MovedStartBeginsWrong`, `StartKeepsBeginning`).
- A stop that is not a whole number of bytes, just past an aligned block, is not fully delivered before EndOfStream (`FractionNotDelivered`, `DeliveredTimesTile`).
- `CMixer::Mix` reports all frames asked for after a failed wait and hands out stale bytes (`FailedWaitPlaysStaleByte`, `FifoConserves`); bytes pushed while it then pops land mid-buffer and tear a frame (`LatePushTearsFrame`). The outcome of the wait decides both, for one call and over runs (`TakeConservesIff`, `ConservesWhateverLate`, `TakeKeepsFramesIff`, `FramesStayWhole`).
- `isqrt` faults at -2 and -1, where it divides by zero, and at 0x40000000, where a sum overflows, and nowhere else (`FaultsAtMinusTwo`, `FaultsAtMinusOne`, `FaultsAtTwoToThe30`, `IsqrtFaultsIff`). `VarianceBounds` keeps its caller clear of them.
- The deviation figures count one observation more than were made, the extra one being zero, so that a single one has a deviation (`LoneObservationVaries`). Equal observations are given none exactly when their square is less than their number (`EqualObservationsVaryIff`), and in general `VarianceZeroIff` says when there is none.

## Model

| member | source | states |
|---|---|---|
| ExtendedArithmetic.LlMulDiv | arithutil.cpp:77-241 | for all four 64-bit operands the word-by-word code returns the mathematical quotient specification: truncated toward zero, modulo 2^64, saturated by sign when c is 0 or the magnitude reaches 2^64 |
| ExtendedArithmetic.Int64x32Div32 | arithutil.cpp:243-360 | the 96-bit form meets the same specification for every 64-bit a and 32-bit b, c, d, minimum values and c = 0 included |
| ExtendedArithmetic.FastFormRefinesGeneral | arithutil.cpp:243-360 | run on the same operands, the 96-bit and the 128-bit forms return the same value |
| ExtendedArithmetic.MulDivExactIffFits | arithutil.cpp:162-241 | the result equals (a * b + d) / c truncated toward zero if and only if that quotient is a signed 64-bit value |
| ExtendedArithmetic.TooLargeIff | arithutil.cpp:168-172 | the code's one comparison saturates exactly when the numerator's magnitude is at least the divisor's times 2^64, which includes c = 0 |
| ExtendedArithmetic.SaturatesTowardsQuotient | arithutil.cpp:162-172 | a saturated result is the 64-bit end on the quotient's side; with c = 0 it has the numerator's sign, and for a numerator of zero that of the factors |
| ExtendedArithmetic.MulDivCongruent | arithutil.cpp:174-241 | whenever it does not saturate, the result differs from the true quotient by a multiple of 2^64 |
| ExtendedArithmetic.OverflowNotCaught | arithutil.cpp:168-172 | a concrete input for which the comparison said to catch overflow does not: 2^62 * 2 / 1 comes back as the least 64-bit value |
| ExtendedArithmetic.TruncDivMeaning | arithutil.cpp:174-181 | truncating division leaves a remainder smaller than the divisor with the dividend's sign, for every sign combination |
| ExtendedArithmetic.PartialsFit | arithutil.cpp:92-110 | the bound argued in the comment: with both magnitudes at most 2^63, the cross products plus carry and the top product each fit 64 bits |
| ExtendedArithmetic.LongMultiply | arithutil.cpp:88-110 | the two quadwords hold exactly the product of the magnitudes; no word sum wraps |
| ExtendedArithmetic.AddSigned | arithutil.cpp:112-160 | adding d in two's complement and renormalising leaves the magnitude of the signed sum and its sign, and the carry out of the top never matters |
| ExtendedArithmetic.DivideByWord | arithutil.cpp:183-219 | the two-step division by a doubleword is the exact floor of the 128-bit value, given the top quadword is below the divisor |
| ExtendedArithmetic.LongDivision | arithutil.cpp:221-240 | the 64-step shift and subtract loop computes the exact floor, although it shifts bits out of 64-bit words |
| ExtendedArithmetic.Divide128 | arithutil.cpp:174-241 | all three division paths give the same exact floor |
| ExtendedArithmetic.EnlargedUnsignedDivide | arithutil.cpp:27-37 | quotient and remainder reconstruct the dividend whenever the quotient fits a doubleword, as its callers ensure |
| ExtendedArithmetic.Multiply64x32 | arithutil.cpp:255-267 | the quadword and doubleword hold exactly the product, also on the path that skips the high half |
| ExtendedArithmetic.AddSigned96 | arithutil.cpp:269-321 | as the 128-bit addition, in 96 bits, with the early widening of d that keeps its least value right |
| ExtendedArithmetic.DivideEnlarged | arithutil.cpp:335-357 | two doubleword divisions give the exact floor of the 96-bit value; skipping the first one when its quotient is zero is sound |
| AdviseSchedule.CAMSchedule.AddAdvisePacket | schedule.cpp:77-112 | on the heap, list and cache stay disjoint, acyclic and counted; the new packet stands where its time belongs, its cookie is the next one, and the clock's event is set exactly when it became first |
| AdviseSchedule.CAMSchedule.InsertPacket | schedule.cpp:190-215 | linking after the last earlier node gives the time-ordered list with the packet in it |
| AdviseSchedule.CAMSchedule.Unadvise | schedule.cpp:114-141 | finds the cookie exactly when it is live, and takes off exactly that packet or changes nothing |
| AdviseSchedule.CAMSchedule.Delete | schedule.cpp:217-228 | an unlinked packet joins the cache unless it already holds five, and the live list is untouched |
| AdviseSchedule.CAMSchedule.ShuntHead | schedule.cpp:232-262 | relinking the head behind the last packet not after it restores time order and loses no node |
| AdviseSchedule.CAMSchedule.Advise | schedule.cpp:143-186 | given that due periodic packets have positive periods, terminates; it goes wrong exactly when some packet's next time does not fit below the sentinel's, and otherwise leaves the list and has made the firings of an ideal dispatch, and returns the next event time, which is later |
| AdviseSchedule.CAMSchedule.GetNextAdviseTime | schedule.cpp:71-75 | the first live packet's time, or the sentinel's maximal one |
| AdviseSchedule.CAMSchedule.TakePacket | schedule.cpp:91-100 | takes the first cached node, or a new one; either way a node not on the live list |
| AdviseSchedule.CAMSchedule.constructor | schedule.cpp:20-28 | an empty list between the two sentinels, an empty cache, and counters at zero |
| AdviseSchedule.CAdvisePacket.InsertAfter | schedule.h:56-60 | links the node between this one and its successor |
| AdviseSchedule.CAdvisePacket.RemoveNext | schedule.h:65-71 | bypasses the successor and returns it |
| AdviseSchedule.InsertOk | schedule.cpp:190-215 | a packet with a new cookie keeps the list sorted with distinct cookies no larger than the last issued |
| AdviseSchedule.ShuntIsMove | schedule.cpp:251-256 | cutting the head out and splicing it further down is the ordered re-insertion, and doing nothing is right when it is already in place |
| AdviseList.GetAfterAdd | schedule.cpp:190-215 | adding makes exactly the new cookie findable, with its packet, and leaves every other cookie's packet as it was |
| AdviseList.GetAfterRemove | schedule.cpp:114-141 | cancelling a cookie makes exactly that one unfindable |
| AdviseList.FiringsClosedForm | schedule.cpp:158-179 | a periodic packet due at t fires floor((T - t) / P) + 1 times, on its own semaphore, at t, t + P and so on, and is left at the first such time after T |
| AdviseList.RunInOrder | schedule.cpp:143-186 | dispatching keeps the list sorted with distinct cookies and fires in nondecreasing event time, never past T |
| AdviseList.RunPerPacket | schedule.cpp:143-186 | each packet fires at exactly its own due times whatever else is listed; a fired one-shot is gone, a periodic one stands after T, the rest is untouched and nothing is added |
| AdviseList.RunSignalsAsAsked | schedule.cpp:158-179 | every signal made in a dispatch is for a listed packet, on that packet's own handle, of its own kind (event or semaphore), and at none of its times before its first or after T |
| AdviseList.OneShotSignalled | schedule.cpp:143-186 | a one-shot event added to any list is signalled exactly once, on the handle it was asked for with, by a dispatch to its time or later, and is then gone |
| AdviseList.PeriodicSignalled | schedule.cpp:143-186 | a repeating event added to any list is signalled on its semaphore floor((T - t) / P) + 1 times, at t, t + P and so on, and is left at its first time after T |
| AdviseList.RunSplits | schedule.cpp:143-186 | dispatching to t1 and then to t2 makes the same firings and leaves the same list as dispatching to t2 at once |
| AdviseList.SafeIffNextTimesFit | schedule.cpp:243-249 | no packet is ever moved to the sentinel's time or past it if and only if each periodic packet's first time after T is below it, which can be checked before the call |
| AdviseList.LongPeriodReachesSentinel | schedule.cpp:243-249 | a packet that AdvisePeriodic accepts, at 1 with period MAX_TIME - 1, for which dispatching is not safe: its next time is the sentinel's own |
| AdviseList.EndsIffSteady | schedule.cpp:158-179 | on a sorted list the dispatch loop ends if and only if every periodic packet that is due has a positive period, and then within the number of firings pending |
| AdviseList.ZeroPeriodFiresForever | schedule.cpp:158-179 | a packet of period zero: firing it leaves the list as it was, and dispatching to its time or later never ends |
| ReferenceClock.AdviseTime | refclock.cpp:175-200 | accepted exactly for a wrapped sum strictly between zero and the sentinel time, listed under a new cookie, the advise thread woken exactly if it comes first; refused otherwise with nothing changed |
| ReferenceClock.AdvisePeriodic | refclock.cpp:205-223 | accepted exactly for a positive start below the sentinel time and a positive period, so that dispatching always ends; refused otherwise with nothing changed |
| ReferenceClock.AdviseThreadWake | refclock.cpp:339-362 | a wake-up at any time dispatches what is due within a millisecond or faults exactly as Advise does; where the two subtractions do not overflow, the wait that follows is at least one millisecond, never past the next event, and within a millisecond of it |
| ReferenceClock.DispatchKeepsSteady | refclock.cpp:205-223 | dispatching keeps every period positive |
| ReferenceClock.WaitFor | refclock.cpp:355-362 | where the difference does not overflow, the conversion and cut-off never give a wait of zero or beyond the next event |
| ClockTime.CBaseReferenceClock.GetPrivateTime | refclock.cpp:232-254 | advances by the elapsed 32-bit time read as a signed value, as the multiplication macro does |
| ClockTime.CBaseReferenceClock.GetTime | refclock.cpp:142-170 | never reports an earlier time than before, and S_OK exactly when the time has moved on |
| ClockTime.PrivateTimeExact | refclock.cpp:232-254 | over any run of readings and deltas the clock equals start plus true elapsed time plus deltas if and only if no two readings are 2^31 ms or more apart; else it is behind |
| ClockTime.CBaseReferenceClock.Restart | refclock.cpp:135-140 | sets the least time to be reported, and nothing else |
| ClockTime.ReportedTimeMonotonic | refclock.cpp:135-170 | over any run, negative deltas and timer wraps included, the times GetTime returns never go back if and only if the first reading after each Restart reaches what was reported before it; without a Restart they never do |
| ClockTime.RestartGoesBackIff | refclock.cpp:135-170 | the reading after a Restart is earlier than the last one if and only if both the Restart's time and the clock's own are |
| ClockTime.RestartMayGoBackIff | refclock.cpp:135-170 | after a Restart some delta and timer value make the next reading earlier than the last if and only if the Restart asks for less than the last |
| ClockTime.LongGapGoesBack | refclock.cpp:246-249 | two readings 2^31 ms apart move the clock back, although the comment only sets aside gaps of a whole timer cycle |
| AllocatorLayout.LayoutExact | amfilter.cpp:5144-5178 | the wrap-around checks give up exactly when the true size of the block, aligned and unwrapped, exceeds a LONG |
| AllocatorLayout.BuffersDisjoint | amfilter.cpp:5149-5215 | every buffer of a successful layout, a single one included, starts at a multiple of the alignment and lies inside the block, and no two overlap, prefixes included |
| AllocatorLayout.RoundUpMeaning | amfilter.cpp:5156-5166 | the rounded size is the least multiple of the alignment not below the size asked for |
| AllocatorLayout.RoundRequestExact | amfilter.cpp:5097-5104 | for every request the agreed length plus prefix is the request rounded up if and only if the rounded length fits a LONG or, where the sum wraps, both it and its complement are aligned; it is then at least what was asked for |
| AllocatorLayout.WrappedRequestAgreesNonsense | amfilter.cpp:5097-5104 | a request for which a negative length is agreed |
| AllocatorLayout.AlignOkIff | amfilter.cpp:5065-5077 | with a granularity of 2^g the alignment test looks at one bit of cbAlign - 1 |
| AllocatorLayout.AnyAlignmentPasses | amfilter.cpp:5065-5077 | so with a granularity of 64K every alignment up to it is accepted, a power of two or not |
| AllocatorLayout.NoFurtherPadding | amfilter.cpp:5097-5166 | for a request SetProperties rounded exactly, Alloc arrives at the same rounded size and adds nothing, or gives up because that size does not fit |
| BufferAllocator.CMemAllocator.GetBuffer | amfilter.cpp:4731-4785 | one pass under the lock: refused when not committed, the sample at the head of the linked free list, or an announced wait |
| BufferAllocator.CMemAllocator.ReleaseBuffer | amfilter.cpp:4790-4841 | the buffer heads the free list, every announced waiter is signalled, and a pending decommit ends exactly with the last buffer |
| BufferAllocator.CMemAllocator.Commit | amfilter.cpp:4881-4916 | commits, revives a pending decommit without a new reference, or allocates; a failure leaves it uncommitted |
| BufferAllocator.CommitSucceedsIff | amfilter.cpp:4881-4916 | Commit succeeds exactly when already live, or when positive properties are agreed and, if they changed, the block's true size fits a LONG and there is memory; it is committed afterwards, and holds a new reference, exactly as it should; a failure for memory leaves no buffers and no block |
| BufferAllocator.CMemAllocator.Decommit | amfilter.cpp:4920-4966 | ends at once or stays pending by whether buffers are out, and releases all waiters either way |
| BufferAllocator.CMemAllocator.Alloc | amfilter.cpp:5122-5216 | makes exactly the agreed number of new samples in list order, or fails with the old ones gone once reallocation began |
| BufferAllocator.CMemAllocator.CreateSamples | amfilter.cpp:5191-5217 | the loop makes one new sample per count, the i-th at i strides and the prefix into the block, and links each in at the head of the free list |
| BufferAllocator.SampleBuffersDisjoint | amfilter.cpp:5191-5217 | the addresses of the samples so made are aligned and inside the block, and their buffers do not overlap |
| BufferAllocator.CMemAllocator.ReallyFree | amfilter.cpp:5241-5266 | takes every sample off the linked list and forgets the block |
| BufferAllocator.CMemAllocator.SetProperties | amfilter.cpp:5050-5112 | refuses an alignment the granularity test rejects, while committed, or with buffers out, and changes nothing; otherwise records the rounded request and asks for reallocation |
| BufferAllocator.SetPropertiesAgrees | amfilter.cpp:5050-5112 | SetProperties succeeds exactly when the alignment passes, nothing is committed and no buffer is out; it then records count, alignment and prefix as asked, and for an agreeable request a length that with the prefix is the request rounded up |
| BufferAllocator.AgreedThenCommitted | amfilter.cpp:4881-5216 | agreeing on an agreeable request and committing gives exactly that many free new buffers, each with room for what was asked for, if and only if the block fits a LONG and there is memory |
| BufferAllocator.CMemAllocator.NotifySample | amfilter.cpp:4871-4879 | moves the whole count of announced waits to the semaphore |
| BufferAllocator.CMemAllocator.SetWaiting | amfilter.h:1514 | announces one more wait |
| SampleList.CSampleList.Add | amfilter.h:1366-1372 | links a sample that is not on the list in at its head; the list stays acyclic and counted |
| SampleList.CSampleList.RemoveHead | amfilter.h:1373-1381 | takes off the head, or gives null for an empty list |
| SampleList.CSampleList.Remove | amfilter.cpp:4995-5010 | takes exactly that sample off wherever it is, or reports that it is not there and changes nothing |
| AllocatorProtocol.ReachableInv | amfilter.h:1410-1416 | in every state any threads can reach outside the lock: free buffers or no commitment mean no announced wait; samples are free or out, once; and the reference and free counts below hold |
| AllocatorProtocol.NoThreadStaysBlocked | amfilter.h:1417-1425 | while a buffer is free or the allocator is not committed the semaphore has a count for every thread that waits, so each can proceed |
| AllocatorProtocol.WaitingAccount | amfilter.h:1414-1416 | the header's equality (2) is an inequality in general, and holds if and only if no AM_GBF_NOWAIT call has given up |
| AllocatorProtocol.HeaderEqualityWithoutNoWait | amfilter.h:1414-1416 | on every run without AM_GBF_NOWAIT the header's equality holds as stated |
| AllocatorProtocol.HeaderEqualityFails | amfilter.cpp:4753-4764 | a reachable state in which it does not hold: one buffer, taken, then one no-wait request |
| AllocatorProtocol.FreeOncePerDecommit | amfilter.cpp:4881-4966 | Free runs exactly in the step that completes a decommit, with every buffer back, and once for each allocation |
| AllocatorProtocol.SamplesKeepAllocatorAlive | amfilter.cpp:3351-3400 | while a sample is out the allocator holds a reference on itself; a pending decommit has a sample out; and free plus outstanding is the number allocated |
| AllocatorProtocol.OutAndBack | amfilter.cpp:3351-3400 | a free sample handed out carries one reference; whatever threads do, while references are left it stays out with exactly that many, and the Release that takes the last puts it back on the free list |
| AllocatorProtocol.StepKeepsInv | amfilter.cpp:4731-4966 | each lock region, wake-up, reference change and late Release keeps all the invariants |
| OutputQueueOrder.DeliveredInOrder | outputq.cpp:203-371 | without flush and with downstream returning S_OK, on every interleaving: what was sent, then in flight, batched and listed is exactly what was accepted, EndOfStream and NewSegment in place |
| OutputQueueOrder.SleepsOnlyWhenDone | outputq.cpp:251-262 | on such runs a worker asleep on a queue that is not exact has delivered everything accepted |
| OutputQueueOrder.BatchSizes | outputq.cpp:240-318 | every batch ever sent has 1 to m_lBatchSize samples, and in exact mode is full unless a control packet forced it |
| OutputQueueForced.SendAnywayForces | outputq.cpp:385-389 | on any run after SendAnyway, whenever no SEND packet is listed, and so whenever the worker sleeps, the queue holds no sample handed in before it, however short the batch that takes |
| OutputQueueOrder.NoLostWakeup | outputq.cpp:251-262 | a worker blocked with nothing on the semaphore has no control packet and no termination waiting, and no more samples than may stay batched |
| OutputQueueOrder.WakesIff | outputq.cpp:463-495 | a sleeping worker is woken by samples if and only if they are accepted and, in exact mode, fill a batch with what waits; and by BeginFlush if and only if m_bFlushed with the optimisation does not make it short |
| OutputQueueOrder.SamplesConserved | outputq.cpp:203-371 | in every reachable state each sample handed in is released, listed, batched or in flight, in one place, once, and all are released when the worker has exited; NEW_SEGMENT is always followed by its parameters |
| OutputQueueOrder.NothingCrossesAFlush | outputq.cpp:463-551 | no sample accepted before a flush began is ever delivered after EndFlush returned |
| OutputQueueOrder.FlushEmpties | outputq.cpp:516-551 | when EndFlush returns no sample is left in list, batch or flight |
| OutputQueueOrder.WorkerExits | outputq.cpp:155-162 | once termination is requested the worker always has a step to take and exits within four, whatever downstream answers |
| OutputQueueOrder.DestructorEnds | outputq.cpp:147-162 | from any reachable state, after the destructor's request at most four steps follow, all the worker's; until it has exited it has one to take, and then every sample has been released |
| OutputQueueLiveness.FlushCompletes | outputq.cpp:223-226 | while EndFlush waits for a flush the worker is never stuck, and its next step signals completion or leaves at most three before the one that does |
| OutputQueueLiveness.ResetCompletes | outputq.cpp:701-713 | while Reset waits the worker is never stuck, and each of its steps signals or brings the RESET packet strictly nearer, behind however long a list |
| OutputQueueLiveness.OthersKeepReset | outputq.cpp:701-713 | what any other thread does meanwhile leaves Reset waiting and the packet's distance as it was |
| OutputQueueLiveness.ResetBounded | outputq.cpp:701-713 | over any run without the destructor, a waiting Reset has its event after at most ToReset(s) steps of the worker, however many steps others take |
| OutputQueueLiveness.OthersKeepFlush | outputq.cpp:516-536 | what any other thread does while EndFlush waits leaves it waiting and the worker where it was |
| OutputQueueLiveness.FlushBounded | outputq.cpp:516-536 | over any run without the destructor, a waiting EndFlush has its event after at most four steps of the worker |
| OutputQueueReset.ResetReturnsIff | outputq.cpp:701-713 | Reset never returns before its packet has been dealt with if and only if the flush-complete event was clear as it was called |
| OutputQueueReset.StaleEventReachable | outputq.cpp:223-226 | a reachable state, outside any flush, in which that event is set: a flush whose worker scanned twice |
| OutputQueueReset.ScanKeepsResets | outputq.cpp:216-297 | a scan that neither flushes nor exits loses no RESET packet |
| OutputQueueCrossing.NoEosCrossesFlush | outputq.cpp:463-551 | when EndFlush returns, no EndOfStream accepted before it is listed or in the worker's hands |
| OutputQueueCrossing.SegmentCrossesIff | outputq.cpp:463-551 | between BeginFlush and EndFlush either the worker scans, and the list is emptied of all that was on it, or it does not, EndFlush takes its short path, and everything listed before the flush, segments included, is still listed after it |
| OutputQueueCrossing.MayCrossIff | outputq.cpp:463-551 | in a reachable state, as BeginFlush is called: some run up to EndFlush keeps what is listed if and only if m_bFlushed is set and the optimisation is on; what survives is still listed after EndFlush |
| OutputQueueCrossing.SegmentCrosses | outputq.cpp:425-429 | a run in which a segment accepted before a flush is listed after it |
| OutputQueueLiveness.ScanMovesReset | outputq.cpp:217-297 | a scan with a RESET packet listed hands it over or brings it nearer the head, and never sleeps |
| OutputQueueDirect.QueuedRefinesDirect | outputq.cpp:594-697 | whatever the interleaving, the queued form has sent a prefix of what the direct form would have sent or batched for the same requests, and holds exactly the rest |
| OutputQueueDirect.DirectInOrder | outputq.cpp:606-675 | in direct mode what went downstream followed by the partial batch is what was asked for, in order, when the queue is exact or does not batch |
| OutputQueueDirect.DirectConserves | outputq.cpp:606-675 | over any direct run with flushes and any answers each sample is released once or in the batch, which has room; EndFlush releases the rest |
| OutputQueueDirect.DirectNothingCrosses | outputq.cpp:606-675 | over any such run no sample accepted before a flush goes downstream after EndFlush, and every batch sent has 1 to m_lBatchSize samples and is full unless SendAnyway, EOS or NewSegment forced it |
| OutputQueueDirect.DirectSinceFlush | outputq.cpp:536-551 | EndFlush accepts data again whatever came before: up to the next EndFlush, what is sent or batched after it is exactly what is asked for, in order, save what the next BeginFlush refuses |
| OutputQueueDirect.FlushingMeans | outputq.cpp:496-551 | on every direct run m_bFlushing tells whether a flush is under way |
| OutputQueueDirect.FlushedMeans | outputq.cpp:536-551 | while m_bFlushed stays set after EndFlush, nothing is batched and nothing but segments has gone on since |
| OutputQueueResume.DeliveredSinceFlush | outputq.cpp:516-551 | on any interleaving, when EndFlush returns the queue accepts data again, is marked as flushed and holds no sample; over any run that follows without another flush, shutdown or error, what has been sent, is in flight, batched and listed has grown by exactly what was asked for, in order |
| OutputQueueResume.DeliveredSinceReset | outputq.cpp:361-364 | RESET clears a sticky error and signals; from then on, over any such run, everything asked for is sent or held, in order |
| OutputQueueResume.DeliveredFrom | outputq.cpp:203-371 | from any reachable state that accepts data, not only the initial one, delivery over any such run is in order and complete |
| OutputQueueResume.RefusedWhileClosed | outputq.cpp:405-460 | while an error sticks, and so all through a flush, samples are released and EndOfStream and NewSegment dropped, with nothing listed for them |
| OutputQueueResume.NothingSentWhileClosed | outputq.cpp:203-371 | with a thread too an error sticks: on every run until EndFlush or a RESET, nothing goes downstream but segments, neither samples nor EndOfStream |
| OutputQueueResume.ResultStep | outputq.cpp:313-369 | the result that sticks is downstream's answer over S_OK, S_FALSE from BeginFlush or the destructor, and is cleared by exactly EndFlush and RESET; an answer after that does not replace it |
| OutputQueueDirect.FeedConserves | outputq.cpp:639-669 | the batching loop neither loses nor duplicates a sample and leaves less than a batch |
| OutputQueueDirect.ProcessedReported | outputq.cpp:606-675 | ReceiveMultiple reports as processed all it was given less the samples that left the batch and that downstream, over the calls made, did not report as processed; none while an error sticks, and never less than none |
| OutputQueueDirect.ErrorSticks | outputq.cpp:606-675 | without a thread, whatever downstream answers: the queue goes on accepting exactly as long as every batch was answered S_OK; any other answer is the result that sticks, and nothing goes on after it save the segment whose batch it was |
| OutputQueueTypes.ScanConserves | outputq.cpp:216-297 | the worker's locked region moves samples between list, batch and outgoing batch and keeps every one, flushing and exiting included |
| OutputQueueTypes.ScanKeepsOrder | outputq.cpp:216-297 | a scan that neither flushes nor exits leaves the order of what is to be delivered unchanged |
| OutputQueueTypes.ScanShape | outputq.cpp:216-297 | a scan waits only with an empty list, never sends while flushing, and sends an unforced batch only when it has samples, and in exact mode only when full |
| OutputQueueWakeups.WakeupsStep | outputq.cpp:687-767 | every client request, flush step, termination and worker step keeps the wake-up account: waiting plus semaphore is 1 when the worker is blocked, else 0 |
| OutputQueueFlush.FlushOkStep | outputq.cpp:463-551 | every step keeps the flush bookkeeping: nothing of an older epoch outside a flush, and nothing left once the flush-complete event is consumed |
| OutputQueue.COutputQueue.ReceiveQueued | outputq.cpp:676-697 | with a sticky error every sample is released and none queued; otherwise all are queued in order, and the worker is notified unless an exact batch is not yet full |
| OutputQueue.COutputQueue.SendAnyway | outputq.cpp:385-389 | queues a SEND packet and notifies the worker |
| OutputQueue.COutputQueue.EOS | outputq.cpp:452-458 | queues EOS unless an error is sticky |
| OutputQueue.COutputQueue.NewSegmentQueued | outputq.cpp:425-429 | queues the packet with its parameters right behind it |
| OutputQueue.COutputQueue.ResetQueued | outputq.cpp:701-711 | queues a RESET packet and notifies the worker |
| OutputQueue.COutputQueue.BeginFlush | outputq.cpp:465-495 | with a thread: marks the flush and the sticky result, and rearms the event and notifies unless the queue is already flushed |
| OutputQueue.COutputQueue.BeginFlushDirect | outputq.cpp:496-510 | without a thread: marks the flush and makes the sticky result refuse samples, unless it already does |
| OutputQueue.COutputQueue.ResetDirect | outputq.cpp:703-704 | without a thread: clears the sticky result at once |
| OutputQueue.COutputQueue.RequestTermination | outputq.cpp:155-160 | asks the worker to exit and wakes it |
| OutputQueue.COutputQueue.FreeSamples | outputq.cpp:716-754 | empties list and batch, releasing each sample once and pairing each NEW_SEGMENT with its parameters |
| OutputQueue.COutputQueue.NotifyThread | outputq.cpp:759-767 | moves the count of waits to the semaphore |
| OutputQueue.COutputQueue.ThreadOnce | outputq.cpp:218-291 | one turn of the inner loop on the object's array and list |
| OutputQueue.COutputQueue.ThreadLocked | outputq.cpp:216-297 | the loop terminates, and the batch to send is the array's first slots |
| OutputQueue.COutputQueue.ThreadCall | outputq.cpp:313-330 | sends the slots unless an error is sticky, in which case it only releases them |
| OutputQueue.COutputQueue.ThreadReturn | outputq.cpp:318-330 | a result sticks only over S_OK, and every slot sent is released |
| OutputQueue.COutputQueue.ThreadAct | outputq.cpp:340-369 | EndOfStream only while no error is sticky; RESET clears the error and signals; NEW_SEGMENT is passed on with its parameters |
| OutputQueue.COutputQueue.ReceiveDirect | outputq.cpp:606-675 | the direct batching loop on the array: state, calls made and the count of samples processed, lost ones taken off |
| OutputQueue.COutputQueue.SendAnywayDirect | outputq.cpp:374-383 | sends a partial batch from the caller's thread |
| OutputQueue.COutputQueue.EosDirect | outputq.cpp:439-451 | in exact mode the partial batch goes first; EndOfStream only without a sticky error |
| OutputQueue.COutputQueue.NewSegmentDirect | outputq.cpp:398-404 | in exact mode the partial batch goes first, then the segment |
| OutputQueue.COutputQueue.EndFlushDirect | outputq.cpp:536-551 | releases the partial batch and accepts data again |
| DynamicPin.CDynamicOutputPin.Block | amfilter.cpp:3982-4035 | bad flags or an event on unblocking change nothing; otherwise makes the block or unblock request, unblocking an unblocked pin still reporting success; the wait of a call without an event is the subject of SynchronousCallerWaits |
| DynamicPin.CDynamicOutputPin.AsynchronousBlockOutputPin | amfilter.cpp:4071-4112 | refused by caller thread when a request exists; otherwise blocked at once if unused, else pending |
| DynamicPin.CDynamicOutputPin.UnblockOutputPin | amfilter.cpp:4137-4165 | ends a block or cancels a pending one, notifying its caller |
| DynamicPin.CDynamicOutputPin.TryStart | amfilter.cpp:4179-4227 | a use begins exactly when the pin is not blocked |
| DynamicPin.CDynamicOutputPin.StopUsingOutputPin | amfilter.cpp:4230-4247 | the last user leaving carries out a pending block |
| DynamicPin.BlockStateConsistent | amfilter.cpp:4483-4517 | in every reachable state: blocked means no users, pending means some, the handle exists exactly while pending, the unblock event is set exactly unless blocked, the caller is recorded exactly while not unblocked |
| DynamicPin.NotifiedExactlyOnce | amfilter.cpp:4071-4165 | requests are notified in the order accepted, each once, save the pending one; accepted requests exceed successful unblocks by one while a request stands, else by none |
| DynamicPin.StuckOnlyWhileBlocked | amfilter.cpp:4179-4220 | a thread waiting to use the pin cannot proceed if and only if the pin is blocked and no stop was signalled |
| DynamicPin.HowAWaitEnds | amfilter.cpp:4179-4220 | whatever other threads do between, a thread woken by unblocking begins to use the pin, or waits again if the pin was blocked anew; one woken by the stop event does neither |
| DynamicPin.StopFreesWaiters | amfilter.cpp:4190-4215 | once the stop event is set, and until it is reset, on every run no thread is stuck waiting for the pin |
| DynamicPin.NestedUseNeverWaits | amfilter.cpp:4167-4228 | a thread already using the pin is never made to wait for it |
| DynamicPin.NobodyStartsWhileBlocked | amfilter.cpp:4167-4228 | from blocking until the next unblock, on every run, there are no users, no request is accepted and nobody is notified |
| DynamicPin.PendingUntilUnused | amfilter.cpp:4098-4109 | a run leaves a pending request unnotified if and only if the pin was in use throughout it and nobody unblocked |
| DynamicPin.RefusedUntilUnblocked | amfilter.cpp:4078-4084 | after an accepted request, on every run without an unblock, further requests are refused, and told whether their own thread made the first |
| DynamicPin.StillPending | amfilter.cpp:4137-4247 | a pending request is settled in exactly the step in which the last user leaves or someone unblocks, with the matching notice |
| DynamicPin.SynchronousCallerWaits | amfilter.cpp:4037-4069 | over any run after its request was accepted, a synchronous caller waiting on an event of its own is still waiting if and only if the pin was in use throughout and nobody unblocked |
| StreamControl.CBaseStreamControl.CheckSampleTimes | strmctl.cpp:234-273 | the nineteen-case code carries out exactly the start and stop that have come due, notifying in order of time, and returns the resulting state |
| StreamControl.DecisionMeansCommands | strmctl.cpp:190-231 | the decision for a sample is to send it if and only if the commands before it leave the stream flowing or the start lies within it, a start going ahead of a stop at the same time |
| StreamControl.LaterSampleAbsorbs | strmctl.cpp:234-273 | checking an earlier sample first changes nothing about what a later one leaves, when neither starts nor ends go backwards |
| StreamControl.RecheckChangesNothing | strmctl.cpp:234-273 | checking the same sample twice is checking it once |
| StreamControl.SampleFlowsIff | strmctl.cpp:234-273 | in any ordered run of samples each is sent exactly when the two commands mean it to be, and each due command has been reported once, in order of time |
| StreamControl.CBaseStreamControl.CheckOnce | strmctl.cpp:286-315 | one pass: discards when flushing or stopped, reports the state for a sample without times, else decides and may send one extra sample |
| StreamControl.CBaseStreamControl.CheckStreamState | strmctl.cpp:276-341 | a sample held back is looked at again after each wake, whatever other threads did meanwhile, until a pass decides or a wait runs out |
| StreamControl.IdleWakes | strmctl.cpp:283-339 | wakes that change nothing leave the first decision and the control as they were |
| StreamControl.StartReleases | strmctl.cpp:283-339 | starting the stream while a sample is held back has that sample sent |
| StreamControl.ExtraSampleOnce | strmctl.cpp:302-314 | in an ordered run a sample the commands would not send is sent exactly when it is the first such after a stop that asked for an extra one |
| StreamControl.CBaseStreamControl.StopAtTime | strmctl.cpp:35-80 | sets, replaces or cancels the stop, or stops now, and presets how a stopped filter will begin |
| StreamControl.StopNowStops | strmctl.cpp:65-77 | after a stop with no time a sample is sent if and only if a start still pending comes before its end, and no extra one is |
| StreamControl.NothingAfterStopNow | strmctl.cpp:65-77 | with no start pending, after a stop with no time no sample of any later ordered run is sent, the extra one included |
| StreamControl.StopAtTakes | strmctl.cpp:40-64 | on a filter that is not stopped a stop at t replaces or cancels the pending one and changes nothing else about which samples are sent; an extra sample goes only if asked for with it, and after t |
| StreamControl.CBaseStreamControl.StartAtTime | strmctl.cpp:82-121 | sets, replaces or cancels the start, or starts now, and presets how a stopped filter will begin |
| StreamControl.StartNowStarts | strmctl.cpp:112-118 | after a start with no time a sample is sent if and only if no stop still pending comes before it |
| StreamControl.EverythingAfterStartNow | strmctl.cpp:112-118 | with no stop pending, after a start with no time every sample of any later ordered run is sent |
| StreamControl.StartAtTakes | strmctl.cpp:86-111 | likewise a start at t, which leaves the extra sample as it was asked for |
| StreamControl.CBaseStreamControl.NotifyFilterState | strmctl.cpp:345-394 | stopping carries out both pending commands in order of time and ends flowing |
| StreamControl.NothingWhileStopped | strmctl.cpp:283-300 | once the filter is stopped no sample is sent or held back, whatever commands follow |
| StreamControl.FlowsAgain | strmctl.cpp:345-394 | stopped and set going again, the stream flows until new commands are given |
| StreamControl.NothingWhileFlushing | strmctl.cpp:283-300 | while the filter flushes every sample is discarded at once and no command carried out |
| StreamControl.UntimedFollowsStream | strmctl.cpp:283-300 | a sample without times is sent or discarded at once as the stream flows or not, and carries out no command |
| StreamControl.CBaseStreamControl.ExecuteStop | strmctl.cpp:149-159 | enters the state on stop, reports the cookie and clears the stop |
| StreamControl.CBaseStreamControl.ExecuteStart | strmctl.cpp:161-171 | enters the flowing state, reports the cookie and clears the start |
| StreamControl.EveryCommandAccounted | strmctl.cpp:35-121 | over any life of the control each command that asked for a report is reported once, pending, or overridden by a later command of its kind |
| StreamControl.DueIsReported | strmctl.cpp:149-171 | in any life of the control, a sample reports each command it finds due that asked for it, and the command is then no longer pending |
| StreamControl.StoppingSettles | strmctl.cpp:353-380 | once the filter has stopped no command is pending: every one was reported or overridden |
| StreamControl.StopKeepsBeginning | strmctl.cpp:56-61 | on a stopped filter a stop request keeps the promised initial state if and only if it does not move a stop from ahead of the start to after it |
| StreamControl.StartKeepsBeginning | strmctl.cpp:101-106 | likewise a start request, if and only if it does not move a start from ahead of the stop to after it |
| StreamControl.MovedStopBeginsWrong | strmctl.cpp:56-61 | a concrete sequence of requests after which the stream begins by flowing although its first command is a start |
| StreamControl.MovedStartBeginsWrong | strmctl.cpp:101-106 | start at 3, stop at 5, then start at 7: the stream begins by discarding although its first command is a stop |
| StreamControl.LastCancelKeepsFlow | strmctl.cpp:35-121 | cancelling the only command pending leaves the stream to begin as it was to |
| FrameStats.CBaseVideoRenderer.RecordFrameLateness | renbase.cpp:1965-2010 | the four sums are those of the clamped observations of the whole history, lateness from the third frame and frame time from the fourth, and no sum overflows |
| FrameStats.ObservationsAre | renbase.cpp:1965-2010 | each lateness observed is the value within a second nearest to that of its own frame, from the third on; each inter-frame time likewise, from the fourth on, a negative one counting as a second |
| FrameStats.CBaseVideoRenderer.GetStdDev | renbase.cpp:2754-2788 | through llMulDiv and isqrt, the result is 0 without observations or clock, else the root of their variance rounded down or one more |
| FrameStats.CBaseVideoRenderer.get_DevSyncOffset | renbase.cpp:2793-2801 | that, for the lateness of every frame since streaming began |
| FrameStats.CBaseVideoRenderer.get_Jitter | renbase.cpp:2807-2816 | that, for the inter-frame times |
| FrameStats.CBaseVideoRenderer.get_AvgSyncOffset | renbase.cpp:2688-2706 | the mean divides by one more than the observations and stays within a second |
| FrameStats.CBaseVideoRenderer.ResetStreamingTimes | renbase.cpp:1838-1855 | starts an empty history |
| FrameStats.SquareOverCount | renbase.cpp:2782 | llMulDiv(T, T, N, 0) is the exact quotient although T * T may not fit 64 bits |
| FrameStatistics.PairsIdentity | renbase.cpp:2773-2783 | N times the sum of squares less the square of the sum is the sum of squared differences between pairs, hence never negative |
| FrameStatistics.VarianceBounds | renbase.cpp:2782-2785 | the value given to isqrt is between 0 and 1000000 for any clamped observations: the assertion holds and the cast loses nothing |
| FrameStatistics.VarianceMeaning | renbase.cpp:2782-2783 | that value is the sample variance of the observations with one zero put in front, out by less than one |
| FrameStatistics.VarianceZeroIff | renbase.cpp:2782-2783 | the value is zero exactly when the squared differences between pairs, the zero in front included, sum to at most (n + 1) * (n - 1) |
| FrameStatistics.EqualObservationsVaryIff | renbase.cpp:2782-2783 | n observations that are all x do not deviate from each other, yet are given a variance of zero if and only if x squared is less than n |
| FrameStatistics.LoneObservationVaries | renbase.cpp:2782-2783 | a single observation of 100 ms is given a variance of 5000 |
| IntegerSqrt.Isqrt | renbase.cpp:2727-2749 | for every int, the loop and three steps with checked products and divisions give what the step-by-step functions give, or no value |
| IntegerSqrt.IsqrtFaultsIff | renbase.cpp:2727-2749 | over all ints isqrt faults at exactly -2, -1 and 0x40000000 |
| IntegerSqrt.FaultsAtMinusOne | renbase.cpp:2737-2745 | isqrt(-1): the first step gives 0, which passes the test for a negative, and the second divides by it |
| IntegerSqrt.FaultsAtMinusTwo | renbase.cpp:2737-2745 | isqrt(-2): truncation gives 0, and the second step divides by it |
| IntegerSqrt.FaultsAtTwoToThe30 | renbase.cpp:2731-2743 | isqrt(0x40000000): the guess is 0x8000, and its square plus x overflows |
| IntegerSqrt.IsqrtIsNear | renbase.cpp:2727-2749 | from 0 to ten million the result is the square root rounded down or one more |
| IntegerSqrt.GuessIs | renbase.cpp:2734-2737 | the doubling loop stops within fifteen doublings, at a power of two whose square is not below x although its half's is |
| IntegerSqrt.PositiveIsNear | renbase.cpp:2737-2745 | three integer Newton steps from such a guess never overflow and end at the root or above, and at most one above it for roots up to 3200 |
| PullPin.MasksAlign | pullpin.h:114-122 | for a power-of-two alignment the bit masks give the nearest multiple not above, and not below |
| PullPin.CPullPin.Process | pullpin.cpp:433-566 | however it ends, requests are a chain of aligned pieces from the aligned start, none longer than its own buffer carries and shorter only at the aligned stop, and only the first marked discontinuous; at most two and at most cBuffers are outstanding, none in synchronous mode, and two once a second buffer allows it; deliveries are a prefix of them in order; at EndOfStream all are collected and cover the aligned range; and with nothing going wrong EndOfStream is reached |
| PullPin.CPullPin.RangeMeaning | pullpin.cpp:443-457 | the range read starts within a block at or below the start and ends at the stop or the end of the media, whichever is first, less than a byte short of it or less than a block past it |
| PullPin.CPullPin.ProcessAsync | pullpin.cpp:463-515 | the overlapped loops; with a second buffer and a second piece, two requests have been outstanding at once |
| PullPin.CPullPin.ProcessSync | pullpin.cpp:516-563 | the loop that reads one piece at a time meets the same contract with nothing ever left with the reader |
| PullPin.CPullPin.ReadAndDeliver | pullpin.cpp:525-561 | one synchronous read: the next piece is read and passed on, or nothing changes |
| PullPin.CPullPin.QueueSample | pullpin.cpp:335-368 | requests exactly the piece the buffer carries from the current time, cut at the aligned stop; on failure the chain is as it was, and of the requests that were out the oldest may have been taken back, the rest are still out |
| PullPin.CPullPin.CollectAndDeliver | pullpin.cpp:370-395 | collects the oldest request and delivers it with adjusted times; on failure, of the requests that were out some of the oldest have been taken back, and the rest are still out |
| PullPin.CPullPin.DeliverSample | pullpin.cpp:397-430 | times are cut at the real stop and made relative to the aligned start |
| PullPin.CPullPin.CleanupCancelled | pullpin.cpp:570-587 | takes back the oldest requests, in order, up to the first one the reader has not completed; all of them when the reader is flushing |
| PullPin.CPullPin.RunAndClean | pullpin.cpp:315-331 | a started run followed by the flush leaves nothing with the reader, however the run ended, and keeps what Process promises |
| PullPin.AlignedRange | pullpin.cpp:444-457 | the aligned range starts within a block below the start and reaches the stop if and only if the stop is whole bytes or inside a block |
| PullPin.ChainCovers | pullpin.cpp:433-566 | every moment of a chain's range lies in exactly one of its pieces |
| PullPin.DeliveredTimesTile | pullpin.cpp:397-430 | at EndOfStream the delivered times run from 0 to tStop - tStart without gap or overlap, each with start before stop, if and only if the stop is whole bytes or inside an aligned block |
| PullPin.FractionNotDelivered | pullpin.cpp:453-457 | byte alignment and a stop at 10000001: any complete run delivers up to 10000000 only |
| PullPin.FractionRunExists | pullpin.cpp:453-457 | there is such a run |
| SoundRing.COpenALStream.SoundTurn | OpenALStream.cpp:796-908 | one turn of the loop keeps the ring and the audio in it intact; a free or played buffer and frames from the mixer put the mixer's chunk last in the source, in the next slot, and count its frames; without them nothing is given; a change of format first drops what was not played |
| SoundRing.COpenALStream.ChangeFormat | OpenALStream.cpp:804-827 | drops the source's queue and starts an empty ring over new buffers |
| SoundRing.COpenALStream.QueueNext | OpenALStream.cpp:873-887 | fills the next slot, queues it and moves round the ring |
| SoundRing.RingAlwaysOk | OpenALStream.cpp:796-908 | over any run the source holds exactly the num_buffers_queued slots before next_buffer, in order and never more than there are, and what was given to OpenAL is what it has played followed by what waits |
| SoundRing.EveryChunkGiven | OpenALStream.cpp:796-908 | over any run in one format, what OpenAL is given is the mixer's chunks of exactly the turns that find a buffer free or played, in order, and m_total_buffered has grown by their frames |
| SoundRing.NextIsFree | OpenALStream.cpp:873-887 | the slot about to be refilled is not one still queued |
| SampleFifo.CMixer.CopyWaveform | OpenALAudioRenderer.cpp:703-753 | pushes exactly the sample's whole frames, byte by byte, in order |
| SampleFifo.CMixer.Mix | OpenALAudioRenderer.cpp:817-860 | pops byte by byte after waiting, with the other thread's pushes between the pops; a pop that finds nothing leaves the buffer's old byte, and the frames asked for are always reported |
| SampleFifo.CMixer.AwaitBytes | OpenALAudioRenderer.cpp:832-847 | waits take arriving samples in order until enough bytes are queued or a wait fails |
| SampleFifo.CMixer.PopAll | OpenALAudioRenderer.cpp:849-856 | the pops against interleaved pushes, one for each byte of the buffer |
| SampleFifo.PopsWhenEnough | OpenALAudioRenderer.cpp:849-856 | when the queue has enough to begin with, pushes in between might as well come after |
| SampleFifo.FifoConserves | OpenALAudioRenderer.cpp:817-860 | in one format, bytes handed out followed by the queue equal every byte pushed, in order, if and only if no pop found the queue empty |
| SampleFifo.TakeConservesIff | OpenALAudioRenderer.cpp:832-856 | for one Mix: it loses and invents no byte whatever is pushed while it pops, if and only if its wait did not fail |
| SampleFifo.ConservesWhateverLate | OpenALAudioRenderer.cpp:817-860 | every run of the same requests, whatever whole frames are pushed while they pop, conserves every byte, if and only if in none of those runs a wait fails |
| SampleFifo.WaitSupplies | OpenALAudioRenderer.cpp:832-847 | a wait that succeeds supplies every pop; without late pushes only such a wait does |
| SampleFifo.FailedWaitPlaysStaleByte | OpenALAudioRenderer.cpp:832-856 | a Mix from an empty queue to which nothing comes hands out its buffer's old byte |
| SampleFifo.FramesStayWhole | OpenALAudioRenderer.cpp:717-730 | in every run of the same requests, whatever whole frames are pushed while they pop, the queue always holds whole frames, if and only if in none of those runs a wait fails, or a frame is one byte |
| SampleFifo.TakeKeepsFramesIff | OpenALAudioRenderer.cpp:832-856 | for one Mix from a queue of whole frames: it leaves whole frames whatever whole frames are pushed while it pops, if and only if its wait did not fail or a frame is one byte |
| SampleFifo.WhenFindsWhole | OpenALAudioRenderer.cpp:832-856 | the pops find whole frames when the wait succeeded, and when nothing was pushed meanwhile |
| SampleFifo.LatePushTearsFrame | OpenALAudioRenderer.cpp:832-856 | a frame pushed between the pops that follow a failed wait is torn in two |
| SampleFifo.MixIsTake | OpenALAudioRenderer.cpp:817-860 | a Mix at the mixer's own sample width, its wait failed or not, is the step those theorems speak of |
| PersistInt.IStream.WriteInt | pstream.cpp:129-134 | appends twelve characters, which read back as the integer written |
| PersistInt.IStream.FormatDigits | pstream.cpp:132 | digits from the last back, padded with zeros, and the space |
| PersistInt.IStream.ReadInt | pstream.cpp:143-190 | on any text: the sign, digits and blank it accepts, its value modulo 2^32 with the sign, what it consumes, and its two errors |
| PersistInt.ReadAnyText | pstream.cpp:143-190 | for any text, seen as a sign or none, digits and what follows: a blank ends the number and is consumed, any other character is a format error and consumed, the end of the text a read error; the value is 0 on error, else that of the digits with the sign, modulo 2^32 |
| PersistInt.ReadUndoesWrite | pstream.cpp:129-190 | reading what was written gives back every 32-bit integer, the least included, and consumes exactly that |
| PersistInt.SequenceRoundTrip | pstream.cpp:129-190 | any sequence written is read back as written, twelve characters each, with the text after it untouched |
| PersistInt.WritingIsInjective | pstream.cpp:129-134 | different sequences are written differently |
| PersistInt.UnsignedSurvives | pstream.cpp:124-127 | an unsigned value written through a cast comes back through the opposite cast |
| PersistInt.SignedResult | pstream.cpp:183-189 | multiplying by the sign, with its special case for the least integer, is the signed value modulo 2^32 |

## Left out

- COM plumbing, registration, property pages, volume, media type copying, logging and `CPosPassThru`: no state worth a theorem.
- Operating system and OpenAL primitives: semaphores and events are counters and flags, OpenAL's source queue is a sequence, and OpenAL never reports more processed buffers than it holds. Real time and scheduling are interleavings.
- Out-of-memory on `new` and `AddTail`, and failures of `DuplicateHandle`, `CreateEvent` and waits. `CMemAllocator::Alloc`'s own overflow checks are modelled.
- LlMulDiv: the `USE_LARGEINT` form of the doubleword division inside it is not modelled; the default build's is.
- EnlargedUnsignedDivide: the portable form is modelled; the x86 assembly form faults where the portable one truncates.
- Advise, AdviseThreadWake: a due packet whose period is not positive is excluded, since the loop then never returns (`EndsIffSteady`); `AdvisePeriodic` refuses such a period.
- AddAdvisePacket: cookies are unbounded, so their wrap-around is not captured.
- AdviseThreadWake: nothing is claimed of the wait where `m_rtNextAdvise - rtNow` or `10000 + rtNow` overflows; aborting, the wait itself and `m_rtNextAdvise`'s readers are left out. What follows a fault in Advise is not modelled.
- GetPrivateTime: `Int32x32To64` comes from the Windows headers and is not part of this model beyond its cast to signed 32 bits; 64-bit overflow of the clock is not captured.
- SetTimeDelta: triggering the advise thread after a forward jump is not modelled.
- GetBuffer: its loop is repeated region steps, and the sample's flags and times are not modelled.
- ReleaseBuffer: the last `InterlockedDecrement` of a sample and the call it leads to are one step; the notification callback (`SetNotify`) is left out.
- SetProperties: negative alignments, for which the wrapped test may pass, are not considered in the lemmas on rounding.
- CMediaSample's setters and getters, and allocators other than `CMemAllocator`.
- `COutputQueue::IsIdle` and the pop event. BeginFlush is assumed not to be called while a Reset is waiting, nor, after one that returned too soon, while its packet is still listed or in the worker's hands: that packet would clear the sticky result during the flush.
- BeginFlush, BeginFlushDirect, EndFlushDirect: the downstream BeginFlush and EndFlush calls are not in the record of calls.
- SegmentCrossesIff: it speaks of the list; a NEW_SEGMENT already in the worker's hands as the flush begins is passed on, during the flush or after it.
- SendAnywayDirect: the flag it sets is assumed not to be seen by another thread's ReceiveMultiple with samples in hand; that loop would not end with a partial batch.
- DirectInOrder, QueuedRefinesDirect: direct mode that batches more than one sample without being exact is excluded, because there the code sends EndOfStream and NewSegment past samples still batched.
- EOS, NewSegmentQueued: in the direct forms the sticky error test and the downstream call are one step; in the queued form of NewSegment they are separate.
- WorkerExits: it counts the worker's own steps; downstream calls are assumed to return.
- CDynamicOutputPin's reconnection and format changes, and the reset of the caller's event before a request.
- ExecuteStop, ExecuteStart: the event sink is always there; the code would dereference a null sink for a start with a cookie, where ExecuteStop tests for one.
- CheckStreamState: how long a wait is, and that there is none without a clock or close to the sample's time, is left open: any number of wakes may come before one times out.
- RecordFrameLateness: fewer than 2^31 - 1 frames; the averages kept by OnRenderEnd and the throttle are left out.
- IsqrtIsNear: beyond ten million only faults are decided; callers stay below one million.
- Process, RunAndClean: seeking, the worker's other commands, sizes that are not multiples of the alignment, and alignments that are not powers of two are left out.
- ProcessSync: the error codes of the allocator and the reader are not told apart.
- SoundTurn: format negotiation, the frames-per-buffer computation, playback state and `Stop()` are left out.
- Mix: the timed waits and flags are reduced to arrivals that succeed or fail; the samples that arrive while it waits are pushed whole, those that arrive while it pops byte by byte; channel layouts without a frame size are excluded.
- ReadInt: reading past the end fails; a stream that instead succeeds with no bytes would make the source's loop reuse its last character.
- WriteInt: writes go to the end of the stream; the loop that formats stands for the C library's.
