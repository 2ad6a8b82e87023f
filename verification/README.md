# Verified models of the middleware libraries

Dafny models of six concurrent or stateful cores of the repository, with proofs of what they promise.
`dafny verify dfyconfig.toml` checks everything.

* **Reclaim table** (`Reclaim*.dfy`, `Alias*.dfy`). Every Lock..Unlock region of `reclaim/table.go` is a
  function of the guarded state, and a method of `ReclaimTable.Table` that refines it on shared slot and
  channel objects. `ReclaimSystem` runs any number of goroutines over those regions: a goroutine is a
  program counter, hooks run between regions, and each incarnation carries a trace of its hook calls. The
  invariant is kept by every action (`ReclaimSteps`, `ReclaimWideSteps`), and the theorems in
  `ReclaimSafety`, `ReclaimRuns`, `ReclaimRest`, `ReclaimDrops`, `ReclaimGrace`, `ReclaimFuses` and
  `ReclaimOpens` speak of every run. The alias layer links
  public names and incarnations both ways.
* **Window counter** (`Window*.dfy`). The write-back buffer as a transition system in which GET and EVAL
  happen outside the mutex, with a ledger per window key and the origin of every count a window knows
  (`WindowExact`, `WindowEstimate`); the flush timer and its stop protocol as a second
  one; and the limiter object, loop by loop.
* **CIDR lookup** (`Ip*.dfy`, `Radix*.dfy`). The mutable trie in the heap against a plain map of prefixes,
  longest match as in section 5.1 of RFC 4632, IPv4-mapped addresses as in section 2.5.5.2 of RFC 4291, and
  the two-family helper over whole histories.
* **RESP codec** (`Resp*.dfy`). Writer and reader of `simpleredis/resp.go`, loop by loop, against pure
  encoding and decoding functions (Redis serialization protocol specification, sections "Bulk strings" and
  "Arrays").
* **Socket pool** (`Pool*.dfy`, `ExecRetry.dfy`). Turns, idle list, cancellation watchers and Close as a
  transition system that also tracks what a socket's reader holds, the pool object, and the retry loop
  around it.
* **Token bucket and backoff gate** (`Token*.dfy`, `Backoff*.dfy`). The two steps over exact reals, bounds
  over whole runs, and the keyed stores around them; `NearWhole.dfy` holds the one fact about real numbers
  that the bound across lifetimes needs.

Time, contexts, jitter samples, create and hook outcomes, Redis replies and the order in which a Go map is
walked are parameters or nondeterministic choices.

## Where the code and its comments differ

* `reclaim/table.go:611-614` says no schedule reaches the park branch of claimDrop. Two drops can release
  before one of them claims (`DropCanPark`), so the branch is kept; `DropParksIff` says exactly when it is
  taken.
* Close-before-open holds without Reset and with the stored flag; `ReclaimExamples` shows runs in which
  either is missing and it fails.
* `reclaim/table.go:341` says an Open cancels the expiry. It stops the timer, but an expiry that has fired and
  not yet run stays, and can end the next sleep before its grace (`StaleExpiry`); `WhatEndsTheGrace` and
  `GraceIsWhole` say when a grace is whole.
* The estimate a Take works with never exceeds the hits (`NeverOvercounts`). While nothing else touches its key it
  falls short of them exactly if it rests on a GET result that an EVAL overtook (`ExactIffCurrent`, `EstimateIsExact`).
* Watcher agreement fails exactly when a late non-nil empty arrives (`AgreementStep`, `LateEmptyExample`).
* A hit is lost exactly if a sweep removes the window its Take holds before it counts (`LostExactly`,
  `LostHit`), which needs a sweep at or past the Take's expiry time (`SweptOnlyWhenDue`).
* The stop protocol needs its stops serialized (`OverlappingStops`).
* A call can be allowed without spending a token, exactly if the bucket lies in the gap between the delay in
  whole microseconds and the first nanosecond past it (`AllowedUnspentIff`), and then so are all calls at
  that clock reading (`GapIsFree`).
* What a source may spend stays bounded across idle expiry exactly if the ttl is worth the burst and the debt
  the accepted delay allows (`ExpiryBoundIff`, `ExpiryExample`).
* A Close that loses the closed flag may return before the idle list is empty (`EarlyReturn`), exactly if the
  winner found sockets on it and has not taken them yet (`LosingClose`).
* An empty simple string is returned as nil, like a null bulk string (`EmptySimpleIsNil`).

## Model

| member | source | states |
|---|---|---|
| `ReclaimSafety.CloseBeforeOpen` | reclaim/table.go:241-289 | in every run without Reset, once a value was stored with EnforceCloseBeforeOpen, no create for its key starts until its Close has returned, on every ending path |
| `ReclaimExamples.ResetBreaksCloseBeforeOpen` | reclaim/table.go:800-832 | a run with Reset in which a create starts although the enforced value is not closed: the exclusion of Reset is needed |
| `ReclaimExamples.UnenforcedOverlaps` | reclaim/table.go:749-767 | a run without Reset and without the stored flag in which a create starts between Sleep and Close: the flag is needed |
| `ReclaimDrops.DropParksIff` | reclaim/table.go:578-628 | in every run without Reset, a drop that releases at step i and claims at step j parks iff some other goroutine took the slot up strictly in between, by a last-holder claim, a wake or an enforced expiry, and has not finished with it by j |
| `ReclaimDrops.QuietDropNeverParks` | reclaim/table.go:605-616 | a drop with no claim, wake or expiry of its slot between its two sections never parks |
| `ReclaimDrops.UnparkedDropParksIff` | reclaim/table.go:605-616 | in every run, Reset included, a drop that parked at step p, was unparked and claims again at step j parks again iff some goroutine took the slot up after p and has not finished with it by j |
| `ReclaimDrops.BusiedIff` | reclaim/table.go:313-747 | one step makes a slot busy iff it is a last-holder claim, a wake or an enforced expiry of that slot, and a slot that stays busy keeps its ready channel |
| `ReclaimExamples.DropCanPark` | reclaim/table.go:605-616 | a run without Reset in which a drop finds its slot busy and parks, so the condition of DropParksIff does occur |
| `ReclaimSafety.Occupied` | reclaim/table.go:254-289 | while an enforced value is not closed, its key is mapped to it or to the closer that runs its Close |
| `ReclaimSafety.NoCreateNow` | reclaim/table.go:313-360 | while an enforced value is not closed, its key is mapped and no goroutine is inside a create for it |
| `ReclaimRuns.HookOrder` | reclaim/table.go:662-708 | in every run, Reset included, the hook calls of an incarnation are a prefix of (Sleep Wake)* and one of the three endings: hooks never overlap and none follows Close |
| `ReclaimSafety.HeldIsAwake` | reclaim/table.go:313-360 | without Reset, a holder's incarnation is mapped, awake, carries the holder's value and has no Sleep or Close begun |
| `ReclaimSafety.OverlappingHoldersShare` | reclaim/table.go:495-544 | without Reset, holders that overlap on a key share one incarnation and one value |
| `ReclaimSafety.CountedWhileBusy` | reclaim/table.go:313-360 | a goroutine counted as holder of a busy slot is the one running its Wake, and the only holder; without Reset the slot is still mapped under its key |
| `ReclaimSafety.OneCloserPerChannel` | reclaim/table.go:207-289 | in every run no channel is closed twice, every open channel has exactly one goroutine that will close it, and every busy slot has exactly one owner, which will close its current ready |
| `ReclaimSafety.RunLater` | reclaim/table.go:495-506 | a published value and its stored flag never change, and hook traces only grow |
| `ReclaimRest.NothingLeaks` | reclaim/table.go:607-654 | when no goroutine is mid-flight no slot is busy, no awake slot is without a holder, no sleeping slot without a timer, no ended value unclosed and no channel open |
| `ReclaimRest.WaitersAreServed` | reclaim/table.go:400-432 | whoever waits on a ready channel waits for a goroutine that has yet to close it and is not itself waiting |
| `ReclaimGrace.SleepDecides` | reclaim/table.go:630-708 | in every run without Reset, after a Sleep a positive grace keeps the value asleep under its key with a timer armed for it; without grace an enforced value closes while its key leads to it and any other is unmapped first |
| `ReclaimGrace.KeptStepIff` | reclaim/table.go:313-747 | without Reset one step ends the keeping of a sleeping value iff it is an Open of its key or an expiry run for it; every other step leaves record and mapping as they were |
| `ReclaimGrace.KeptForGrace` | reclaim/table.go:642-652 | a value put to sleep with a positive grace is kept, the same record under the same key, until its key is opened or an expiry for it runs |
| `ReclaimGrace.OpenWithinGrace` | reclaim/table.go:336-352 | an Open within the grace wakes the very value that was put to sleep and stops the timer armed for it |
| `ReclaimFuses.WhatEndsTheGrace` | reclaim/table.go:652-652 | without Reset an expiry that ends a grace comes from the timer armed for it, which has fired since, or from one that had fired before the sleep and whose expiry had not run |
| `ReclaimFuses.GraceIsWhole` | reclaim/table.go:710-747 | if no earlier expiry is pending when the value is put to sleep, it is kept until its key is opened or the timer armed for it fires |
| `ReclaimExamples.StaleExpiry` | reclaim/table.go:340-344 | a run without Reset in which a timer fires, the key is opened and dropped before its expiry runs, and that expiry ends the new sleep while the new timer still waits |
| `ReclaimOpens.OpenDecides` | reclaim/table.go:313-360 | in every run a lookup takes an unmapped key for a create, counts and binds an awake value, claims a sleeping one for its Wake with its timer stopped, waits on a busy one changing nothing, and unmaps an ended one |
| `ReclaimOpens.OpenReturns` | reclaim/table.go:475-533 | a create that succeeds leaves its caller holding its value under the key, awake, waiters released; a Wake that returns leaves its caller holding the value that slept |
| `ReclaimOpens.WaiterHears` | reclaim/table.go:423-428 | a woken waiter gives up with an error iff the create failed or the Wake panicked that it waited for, and otherwise looks its key up again |
| `ReclaimOpens.ErrorIsRecorded` | reclaim/table.go:206-218 | in every run an incarnation carries an error iff its create failed or its Wake panicked, and it is that one |
| `ReclaimOpens.ValueIsCreated` | reclaim/table.go:494-506 | in every run a stored value and its flag are what that incarnation's own create returned |
| `ReclaimOpens.HolderHasCreated` | reclaim/table.go:535-544 | in every run, Reset included, whoever holds an incarnation holds the value its create returned |
| `ReclaimRuns.RunInv` | reclaim/table.go:65-117 | every reachable state satisfies the table's invariant |
| `ReclaimRuns.StepKeeps` | reclaim/table.go:313-832 | every critical section and hook outcome keeps the invariant |
| `ReclaimRest.AliasesStayConsistent` | reclaim/alias.go:39-118 | in every reachable state an entry is listed once in an incarnation's aliases iff it points at it, a named publisher holds one alias per group, and without Reset no alias points at a closed value |
| `ReclaimRest.WatchersAgree` | reclaim/alias.go:191-214 | in every run without a late non-nil empty each watcher's last equals what its alias publishes |
| `ReclaimRest.AgreementStep` | reclaim/alias.go:88-118 | a step takes agreeing watchers out of agreement iff it is a Watch bringing a late non-nil empty that differs |
| `AliasLinks.UnbindKeeps` | reclaim/alias.go:155-167 | ending an incarnation clears exactly the entries that still point at it, so it never clears a replacement, and keeps links and agreement |
| `AliasLinks.SetAliasKeeps` | reclaim/alias.go:49-86 | SetAlias keeps the two-way links, one alias per publisher and group, and watcher agreement |
| `AliasLinks.PreparedKeeps` | reclaim/alias.go:65-76 | clearing the publisher's other aliases of the group leaves none held elsewhere and keeps the links |
| `AliasLinks.AttachTwoWay` | reclaim/alias.go:77-81 | moving an entry to an incarnation keeps both directions of every link |
| `AliasLinks.DetachTwoWay` | reclaim/alias.go:176-189 | detaching removes the entry from its incarnation and nothing else |
| `AliasLinks.ClearAllKeeps` | reclaim/alias.go:169-174 | clearing a set of entries keeps links and agreement |
| `AliasLinks.WatchKeeps` | reclaim/alias.go:88-118 | Watch keeps the links, and keeps agreement iff it brings no late non-nil empty |
| `AliasLinks.DropWatcherKeeps` | reclaim/alias.go:120-137 | dropping a watcher keeps links and agreement |
| `AliasLinks.ClearPublisherKeeps` | reclaim/alias.go:139-153 | ClearPublisher keeps links and agreement and leaves the publisher nothing in the group |
| `AliasLinks.StoreTells` | reclaim/alias.go:191-199 | after a publish every watcher was last told the published value |
| `AliasLinks.DeliverFaithful` | reclaim/alias.go:201-214 | a watcher is called only on change, and its last is its newest call |
| `AliasLinks.LateEmptyExample` | reclaim/alias.go:107-116 | a late non-nil empty leaves an earlier watcher told something else |
| `AliasLaws.SetAliasDecides` | reclaim/alias.go:52-64 | SetAlias refuses a key without a value and an alias another publisher holds, in these cases only, and then changes nothing |
| `AliasLaws.SetAliasPublishes` | reclaim/alias.go:65-86 | when it does not refuse, the alias points at the target under its publisher and group and its watchers were told the target's value; the publisher's other aliases of the group are emptied, all else is as it was |
| `AliasLaws.PreparedIs` | reclaim/alias.go:65-76 | making room empties the publisher's other aliases of the group and leaves the alias itself alone |
| `AliasLaws.WatchIs` | reclaim/alias.go:93-118 | Watch adds one watcher and tells it what the alias shows; the first non-nil empty sticks and no other watcher hears of it |
| `AliasLaws.DropIs` | reclaim/alias.go:120-137 | dropping a watcher takes away exactly it and keeps the others in order |
| `AliasLaws.ClearPublisherIs` | reclaim/alias.go:139-153 | ClearPublisher empties exactly what the publisher holds in the group; an empty name clears nothing |
| `AliasLaws.UnbindIs` | reclaim/alias.go:155-167 | ending an incarnation empties exactly the entries that point at it |
| `AliasLaws.SameIs` | reclaim/alias.go:225-246 | nil and every typed nil count as one value, pointers are told apart by where they point, everything else by equality |
| `AliasTable.Names.StoreWatchersLocked` | reclaim/alias.go:191-199 | tells every watcher of the entry, changing nothing else; keeps the alias invariant |
| `AliasTable.Names.DetachAliasLocked` | reclaim/alias.go:176-189 | unlinks the entry from its incarnation; keeps the alias invariant |
| `AliasTable.Names.ClearAliasLocked` | reclaim/alias.go:169-174 | unlinks, unnames and republishes the empty; keeps the alias invariant |
| `AliasTable.Names.UnbindIncarnationLocked` | reclaim/alias.go:155-167 | clears every entry of the incarnation; keeps the alias invariant |
| `AliasTable.Names.ClearHeld` | reclaim/alias.go:66-71 | clears every alias the publisher holds in the group but one; keeps the alias invariant |
| `AliasTable.Names.AttachLocked` | reclaim/alias.go:77-81 | points the entry at the incarnation, both ways; keeps the alias invariant |
| `AliasTable.Names.Set` | reclaim/alias.go:52-86 | SetAlias with its two refusals; keeps the alias invariant |
| `AliasTable.Names.Watch` | reclaim/alias.go:93-118 | registers a watcher and tells it the current value; keeps the alias invariant |
| `AliasTable.Names.Drop` | reclaim/alias.go:120-137 | removes one watcher; keeps the alias invariant |
| `AliasTable.Names.ClearPublisher` | reclaim/alias.go:141-153 | clears the publisher's aliases in the group; keeps the alias invariant |
| `ReclaimTable.Table.constructor` | reclaim/table.go:126-137 | an empty table with the default grace for a negative one |
| `ReclaimTable.Table.LookupOpenSection` | reclaim/table.go:311-360 | on the shared slot objects: hands out a new slot object, or the mapped one counted, woken on a new channel or parked on its own, or unmaps an ended one; the table then looks as LookupOpen says and no other object is touched |
| `ReclaimTable.Table.PublishPutSection` | reclaim/table.go:494-506 | fills in the slot object, counts its holder, maps the key to that very object and closes the channel its waiters hold |
| `ReclaimTable.Table.PublishWakeSection` | reclaim/table.go:527-533 | the slot object is awake again and the channel its waiters hold is closed; the map and all other objects stay |
| `ReclaimTable.Table.ReleaseHolderSection` | reclaim/table.go:580-585 | one holder less on the shared slot object, seen through the map and by every other holder; nothing else changes |
| `ReclaimTable.Table.ClaimDropSection` | reclaim/table.go:605-628 | reports the channel of a busy slot object, or claims the last holder's slot on a channel of its own, or leaves everything alone |
| `ReclaimTable.Table.ParkAsleepSection` | reclaim/table.go:630-654 | asleep with the waiters' channel closed, and armed if the map still leads to this very object, or unmapped when nothing is kept |
| `ReclaimTable.Table.ClaimExpireSection` | reclaim/table.go:726-747 | skips a slot object in use, claims an enforced one while it stays mapped, and otherwise ends it and unmaps the key only if it leads to this object |
| `ReclaimTable.Table.EndBusySlotSection` | reclaim/table.go:206-218 | the failed slot is gone, unmapped, its aliases ended and its waiters released |
| `ReclaimTable.Table.UnmapLockedSection` | reclaim/table.go:227-239 | the closed slot is gone and unmapped and its aliases ended |
| `ReclaimTable.Table.InstallCloserSection` | reclaim/table.go:254-271 | the ended value is replaced by a closer on a new channel |
| `ReclaimTable.Table.TakeAllSection` | reclaim/table.go:769-786 | everything mapped is swapped out, unbound and disarmed, object by object |
| `ReclaimTable.Table.EndResetSlotSection` | reclaim/table.go:788-798 | an awake or sleeping slot object ends, whoever still points at it; a busy or ended one is left alone |
| `ReclaimTable.Table.SetAliasSection` | reclaim/alias.go:56-86 | publishes what the key maps to, if it is awake or asleep |
| `WindowRuns.Accounts` | windowcounter/limiter.go:417-481 | in every interleaving of Takes, Peeks, flushes and probes: Redis count + expired + localDelta + lost == hits + in-flight + doubled + other writers, per window key, and 0 <= flushDelta <= localDelta |
| `WindowLoss.HitsAreKept` | windowcounter/limiter.go:181-306 | where EVALs of the key are applied iff they succeed and nothing else writes or expires the key: Redis count + localDelta - in-flight == hits iff no Take of the key counted after its window was swept |
| `WindowLoss.LostExactly` | windowcounter/limiter.go:181-198 | in every run the hits of a key that are lost are exactly the Takes that counted after a sweep had removed the window they held |
| `WindowRuns.NeverOvercounts` | windowcounter/limiter.go:193-197 | redisKnown + localDelta never exceeds the hits, other writes and doubled deltas, whatever is in flight and however stale the last GET |
| `WindowEstimate.EstimateIsExact` | windowcounter/limiter.go:193-197 | where EVALs of the key are applied iff they succeed, nothing else touches it, and no GET result taken over was overtaken by an EVAL, redisKnown + localDelta is the hits less the lost ones in every state |
| `WindowEstimate.ExactIffCurrent` | windowcounter/limiter.go:291-306 | right after a GET result is taken over, redisKnown + localDelta is the hits less the lost ones iff no EVAL of the key ran since that GET |
| `WindowEstimate.FirstSightIsCount` | windowcounter/limiter.go:291-306 | a first sight of a key, or a GET for a window with nothing unflushed, leaves as redisKnown the count Redis held at that thread's own GET |
| `WindowEstimate.AckIsCount` | windowcounter/limiter.go:455-466 | an acknowledged EVAL leaves as redisKnown the count Redis held right after that thread's own EVAL |
| `WindowEstimate.OtherwiseUnchanged` | windowcounter/limiter.go:181-475 | nothing else changes what a window knows, and nothing else makes one |
| `WindowEstimate.CurrentIff` | windowcounter/limiter.go:284-312 | a GET result still is the count Redis holds iff no EVAL has overtaken it |
| `WindowEstimate.AnswerIsCount` | windowcounter/limiter.go:284-312 | in every run a thread that has an answer asked for it itself, and the answer is the count Redis held at its GET or right after its EVAL |
| `WindowExact.StepFollows` | windowcounter/limiter.go:181-475 | for every step and key, in values: what Redis holds, what is in flight, when a hit is counted, and the known count, buffered count and expiry time of the window |
| `WindowExact.FlushSendsAll` | windowcounter/limiter.go:417-441 | a flush that gets under way sends every unflushed count, whole and once, with its window's expiry time |
| `WindowExact.SweptIff` | windowcounter/limiter.go:470-475 | a window leaves the map iff a sweep finds nothing in it, nothing of it in flight, and its expiry time reached or never set |
| `WindowRuns.FlushesDoNotMeet` | windowcounter/limiter.go:416-441 | a flush waiting for Redis finds its windows again, still marked with the deltas it sent, and no other flush has any of them in flight |
| `WindowRuns.NothingStaysMarked` | windowcounter/limiter.go:438-469 | when no flush waits for Redis no window is marked and nothing is in flight |
| `WindowRuns.NothingDoubled` | windowcounter/limiter.go:438-468 | nothing is counted twice in Redis iff every EVAL was applied once when it succeeded and not at all when it failed |
| `WindowLoss.MappedUnlessSwept` | windowcounter/limiter.go:181-193 | the window a Take holds is the mapped one iff no sweep has removed it since the Take got it |
| `WindowLoss.HeldStepIff` | windowcounter/limiter.go:470-475 | from a state in which every Take holds its mapped window, a step leaves it so iff it is not the end of a flush that finds a held window stale |
| `WindowLoss.StepFate` | windowcounter/limiter.go:291-475 | a step takes a key's window out of the map iff its section reaches the sweep and finds the window stale then, and no step maps an old window again |
| `WindowLoss.SweptOnlyWhenDue` | windowcounter/limiter.go:470-475 | a sweep that removes a Take's window has a clock at or past that Take's expiry |
| `WindowLoss.InTimeIsKept` | windowcounter/limiter.go:181-198 | so where no sweep's clock reaches the expiry of a Take under way, no Take counts too late |
| `WindowLoss.LostHit` | windowcounter/limiter.go:470-475 | a run in which a Take straddles its window's expiry and its hit reaches neither Redis nor the buffer |
| `WindowRuns.RunInv` | windowcounter/limiter.go:46-53 | every reachable state satisfies the accounting invariant |
| `WindowSteps.StepKeeps` | windowcounter/limiter.go:181-481 | every critical section, Redis command and Redis-side event keeps the accounting invariant |
| `WindowSteps.TakeKeeps` | windowcounter/limiter.go:181-198 | the first section of a Take keeps it, on all its branches |
| `WindowSteps.PeekKeeps` | windowcounter/limiter.go:214-248 | so does the first section of a Peek |
| `WindowSteps.StoreKeeps` | windowcounter/limiter.go:291-306 | storing a GET result keeps it, although a stale result may lower redisKnown |
| `WindowInvariant.HitKeeps` | windowcounter/limiter.go:193-194 | counting a hit keeps it, also on a window already swept |
| `WindowSteps.StartsFlushKeeps` | windowcounter/limiter.go:424-436 | marking and copying the unflushed deltas keeps it |
| `WindowSteps.SettlesKeeps` | windowcounter/limiter.go:439-475 | settling one EVAL, either way, and sweeping after the last keeps it |
| `WindowSteps.SweptWithin` | windowcounter/limiter.go:470-475 | the sweep takes no window with a count or a mark |
| `WindowSteps.ApplyKeeps` | windowcounter/limiter.go:18-24 | the flush script running in Redis, any number of times, keeps it |
| `WindowTimer.BusyIsExact` | windowcounter/limiter.go:358-407 | with stops serialized and any Wakes, flushBusy is 1 exactly while one timer is armed, one tick runs or one stop owes its Done, and 0 otherwise |
| `WindowTimer.StoppedMeansQuiet` | windowcounter/limiter.go:388-407 | when a stop clears stopping, or returns early for want of a timer, nothing is armed and no tick runs |
| `WindowTimer.WaitIsDischarged` | windowcounter/limiter.go:399-403 | a stop in Wait may return, or one tick is running whose next step brings it closer to Done |
| `WindowTimer.NothingStartsWhileWaiting` | windowcounter/limiter.go:335-343 | while a stop waits no timer is armed and nothing is added to the wait group |
| `WindowTicks.TimerRuns` | windowcounter/limiter.go:367-386 | with stops serialized, an open limiter that has a timer has it armed or its tick is running |
| `WindowTicks.WakeArmsIff` | windowcounter/limiter.go:335-343 | Wake arms a timer iff the limiter buffers, is open, is not stopping and has none |
| `WindowTicks.TickArmsIff` | windowcounter/limiter.go:375-386 | a tick arms the next timer iff no stop has taken the timer and the limiter is open; otherwise it goes on to its Done |
| `WindowTicks.StopTakes` | windowcounter/limiter.go:389-398 | a stop takes the timer away and stops, or returns at once when there is none |
| `WindowTicks.ClosedArmsNothing` | windowcounter/limiter.go:346-357 | after Close no timer is ever armed again and the wait group only falls |
| `WindowTicks.TicksUntilStopped` | windowcounter/limiter.go:56-76 | a limiter made to buffer has its timer in every state up to the first stop |
| `WindowTicks.TimerChanges` | windowcounter/limiter.go:335-405 | only a Wake gives a limiter a timer, only a stop takes it away, and closing is for good |
| `WindowTimer.OverlappingStops` | windowcounter/limiter.go:388-407 | two overlapping stops end with flushBusy 2 and two armed timers while the first still waits |
| `WindowTimer.RunInv` | windowcounter/limiter.go:35-40 | every state of a run with serialized stops satisfies the timer invariant |
| `WindowLimiter.Limiter.constructor` | windowcounter/limiter.go:56-76 | an empty buffer, its timer armed when buffered |
| `WindowLimiter.Limiter.Lookup` | windowcounter/limiter.go:231-240 | finds the window and raises its expiry |
| `WindowLimiter.Limiter.ApplyGetLocked` | windowcounter/limiter.go:291-306 | stores a GET count unless there is something unflushed, creating the window if needed |
| `WindowLimiter.Limiter.Hit` | windowcounter/limiter.go:193-194 | counts on the held record, mapped or not |
| `WindowLimiter.Limiter.MarkPending` | windowcounter/limiter.go:424-436 | marks every unflushed window and lists each once with its whole delta |
| `WindowLimiter.Limiter.SettleJob` | windowcounter/limiter.go:439-469 | acknowledges or unmarks the looked-up window |
| `WindowLimiter.Limiter.Sweep` | windowcounter/limiter.go:470-475 | deletes exactly the stale windows |
| `WindowLimiter.Limiter.StartFlushLocked` | windowcounter/limiter.go:358-373 | makes and arms a timer object with one wait group unit, unless one is in the field |
| `WindowLimiter.Limiter.Wake` | windowcounter/limiter.go:335-343 | does so unless closed, stopping or unbuffered; no timer object that exists is touched |
| `WindowLimiter.Limiter.TickEnd` | windowcounter/limiter.go:375-386 | puts a new armed timer object in the field unless closed, stopping or unarmed |
| `WindowLimiter.Limiter.StopBegin` | windowcounter/limiter.go:388-399 | takes the timer object out of the field and marks the stop, or returns at once |
| `WindowLimiter.Limiter.StopTaken` | windowcounter/limiter.go:399-403 | a taken timer stopped before it fired gives back its wait group unit; one that fired is left to its tick |
| `WindowLimiter.StoredAgrees` | windowcounter/limiter.go:292-306 | the transition system and the object change the buffer alike when storing a GET |
| `WindowLimiter.HitAgrees` | windowcounter/limiter.go:193-194 | the transition system and the object change the buffer alike when counting a hit |
| `WindowLimiter.MarkAgrees` | windowcounter/limiter.go:425-436 | the transition system and the object change the buffer alike when marking for a flush |
| `WindowLimiter.SettledAgrees` | windowcounter/limiter.go:441-466 | the transition system and the object change the buffer alike when settling an EVAL |
| `WindowLimiter.SweptAgrees` | windowcounter/limiter.go:471-475 | the transition system and the object change the buffer alike when sweeping |
| `IpHistory.Ask` | iplookup/tree.go:55-81 | a helper driven through any history and asked for an address finds it iff the network of some standing add contains it by masked comparison, and answers with the longest such network and its label |
| `IpHistory.LookupIsLongestMember` | iplookup/tree.go:55-81 | longest prefix match on what a history stores is longest masked membership among its standing adds |
| `IpHistory.LatestLabel` | iplookup/helper.go:38-51 | a prefix is stored iff an add of it stands unreplaced, unremoved and unreset, with that add's label |
| `IpHistory.Replay` | iplookup/helper.go:38-127 | a helper driven through any history is valid and holds exactly what the history stores |
| `IpHistory.AddThenRemove` | iplookup/tree.go:24-126 | inserting a prefix that is not there and removing it again leaves the heap trie with exactly the nodes it had, each showing what it showed |
| `IpHistory.AddThenRemoveCIDR` | iplookup/helper.go:38-100 | the same through the helper: both tries node for node and the count are as before |
| `IpBits.MembershipIsPrefix` | iplookup/tree.go:138-158 | looking a network's bits up along an address is masked membership in the same family; the other family never matches |
| `IpBits.MappedNeedsNinetySix` | iplookup/tree.go:143-151 | a canonical IPv4-mapped network has at least 96 mask bits |
| `IpBits.WalkFits` | iplookup/tree.go:128-151 | the walk of a canonical network ends within the family's bytes |
| `IpBits.AddressFits` | iplookup/tree.go:128-136 | the walk of an address is exactly its bytes |
| `IpBits.BitIsOf` | iplookup/tree.go:153-158 | bitAt is the bit of the address's bit string |
| `IpForms.MappedIsSame` | iplookup/tree.go:128-136 | the sixteen-byte mapped form of an IPv4 address is looked up as its four bytes are, in the IPv4 trie |
| `IpForms.OthersAreV6` | iplookup/tree.go:128-151 | every other sixteen-byte address or network goes to the IPv6 trie by all its bits |
| `IpForms.MappedNetIsSame` | iplookup/tree.go:143-151 | an IPv4 network and its mapped form, 96 mask bits longer, are one prefix |
| `IpForms.FormsStoreTheSame` | iplookup/helper.go:38-100 | writing the networks of any history in the other form stores the same |
| `IpForms.FormsAreCoveredTheSame` | iplookup/helper.go:102-111 | after any history an address is covered by the same adds in either form |
| `IpForms.AskEither` | iplookup/helper.go:102-111 | a helper driven through any history gives one answer for an address in either form |
| `RadixShape.TrieIsItsContents` | iplookup/tree.go:83-126 | after any history the trie has exactly the nodes its prefixes need and each shows exactly what is stored there |
| `RadixShape.GrownKeeps` | iplookup/tree.go:29-43 | hanging a child keeps links, marks and pruning but for the open path |
| `RadixShape.EndpointKeeps` | iplookup/tree.go:45-52 | marking the end of the path closes it |
| `RadixShape.ClearedKeeps` | iplookup/tree.go:105-110 | clearing an endpoint leaves at most its own path to prune |
| `RadixShape.CutKeeps` | iplookup/tree.go:112-124 | cutting an empty leaf keeps links and marks and moves the open path up |
| `RadixShape.KeptNode` | iplookup/tree.go:115-117 | stopping at a node with an endpoint or child leaves the trie pruned |
| `RadixTree.Tree.constructor` | iplookup/tree.go:19-22 | an empty valid trie |
| `RadixTree.Tree.Insert` | iplookup/tree.go:24-53 | stores the prefix with its label, added iff it was not there |
| `RadixTree.Tree.Contains` | iplookup/tree.go:55-81 | the longest stored prefix of the address, with its label, or not found |
| `RadixTree.Tree.Remove` | iplookup/tree.go:83-126 | drops the prefix, true iff it was there, and prunes |
| `RadixTree.Tree.Grow` | iplookup/tree.go:32-42 | one missing child |
| `RadixTree.Tree.SetEndpoint` | iplookup/tree.go:45-52 | endpoint with depth and label |
| `RadixTree.Tree.ClearEndpoint` | iplookup/tree.go:105-110 | no endpoint |
| `RadixTree.Tree.CutLeaf` | iplookup/tree.go:118-123 | one empty leaf |
| `RadixTree.Tree.Prune` | iplookup/tree.go:112-124 | back to a pruned trie |
| `IpHelper.Helper.constructor` | iplookup/helper.go:22-28 | empty |
| `IpHelper.Helper.TreeFor` | iplookup/helper.go:30-36 | the family's trie |
| `IpHelper.Helper.InsertV4` | iplookup/helper.go:40-49 | stores on the IPv4 trie and counts a new prefix |
| `IpHelper.Helper.InsertV6` | iplookup/helper.go:40-49 | stores on the IPv6 trie and counts a new prefix |
| `IpHelper.Helper.RemoveV4` | iplookup/helper.go:92-99 | drops from the IPv4 trie |
| `IpHelper.Helper.RemoveV6` | iplookup/helper.go:92-99 | drops from the IPv6 trie |
| `IpHelper.Helper.AddCIDR` | iplookup/helper.go:38-51 | stores in the network's family, or reports a bad text; the count goes up by one iff the prefix was not there |
| `IpHelper.Helper.RemoveCIDR` | iplookup/helper.go:87-100 | drops from the network's family; the count goes down by one iff the prefix was there |
| `IpHelper.Helper.Contains` | iplookup/helper.go:102-111 | longest match in the address's own family, an error for no address |
| `IpHelper.Helper.Reset` | iplookup/helper.go:113-120 | empty again |
| `IpHelper.Helper.Count` | iplookup/helper.go:122-127 | the number of distinct stored prefixes over both families |
| `RespTheorems.RoundTrip` | simpleredis/resp.go:157-198 | decoding an encoded command gives back its arguments, clean, every byte consumed and nothing after it touched, for any bytes within the caps |
| `RespTheorems.RoundTripExactly` | simpleredis/resp.go:318-334 | the round trip holds iff the command is within the caps; every other encoded command is refused as dirty |
| `RespTheorems.CleanDecodeIsLocal` | simpleredis/resp.go:200-267 | the bytes a clean decode consumed, followed by anything, decode the same |
| `RespTheorems.RepliesDecodeInTurn` | simpleredis/resp.go:200-267 | concatenated replies decode to the list of their decodings |
| `RespTheorems.LineLocal` | simpleredis/resp.go:302-316 | a line depends only on its own bytes |
| `RespTheorems.BulkLocal` | simpleredis/resp.go:274-300 | a bulk string depends only on its own bytes |
| `RespTheorems.EmptySimpleIsNil` | simpleredis/resp.go:211-213 | a one-line string decodes to its text, but an empty one to nil, as a null bulk string does |
| `RespWire.AnswersDecode` | simpleredis/resp.go:200-267 | whatever a server may answer within the caps, text, integer, error, bulk string, null or array of these, decodes to what it says, whole, with nothing after it touched |
| `RespWire.OneDecodes` | simpleredis/resp.go:205-224 | a bulk string decodes to its bytes, a null to nil, an integer line to its digits and a text line to its text, the empty one to nil |
| `RespWire.RefusalDecodes` | simpleredis/resp.go:369-378 | an error line is an error of its text, and the one for missing authentication iff it begins with one of the four literal prefixes |
| `RespWire.ManyDecodes` | simpleredis/resp.go:225-262 | an array decodes to its elements in order |
| `RespWire.CutShortIsIo` | simpleredis/resp.go:302-316 | a stream that ends anywhere inside a reply is an I/O failure, never a reply and never a malformed one |
| `RespWire.OtherMarksAreRefused` | simpleredis/resp.go:263-267 | a line that opens with none of the five marks is not decoded |
| `RespWire.OtherElementsAreRefused` | simpleredis/resp.go:240-262 | nor is an array that holds an error, an array or another mark after elements that fit |
| `RespWire.BadHeadersAreRefused` | simpleredis/resp.go:337-367 | a header whose number is no numeral, is negative for an array or is over the cap is malformed |
| `RespWire.BadFramesAreRefused` | simpleredis/resp.go:274-334 | so is an empty line, a newline without a carriage return, a first line over 4096 bytes, and a bulk string its CRLF does not follow |
| `RespWire.CommandsAreArrays` | simpleredis/resp.go:157-198 | a command goes out as an array of bulk strings |
| `RespWire.PlainDecimal` | simpleredis/resp.go:157-198 | lengths are written in decimal without leading zeros |
| `RespReader.ParseLen` | simpleredis/resp.go:336-367 | accepts exactly optionally signed digit strings of magnitude at most the largest machine integer, with the exact value and no intermediate overflow |
| `RespCodec.LengthOfDigits` | simpleredis/resp.go:159-175 | a written length header reads back |
| `RespCodec.ReadLine` | simpleredis/resp.go:302-316 | a line is its text, CRLF, without a newline, and fits the reader's buffer |
| `RespCodec.ReadBulk` | simpleredis/resp.go:274-300 | a bulk string is its data and CRLF, within the cap |
| `RespCodec.ReadElements` | simpleredis/resp.go:236-262 | an array reply has exactly the announced number of elements |
| `RespCodec.Decode` | simpleredis/resp.go:200-267 | a clean reply consumes part of the stream |
| `RespReader.Writer.WriteCommand` | simpleredis/resp.go:167-198 | appends exactly the encoding |
| `RespReader.Reader.NextLine` | simpleredis/resp.go:302-316 | the next line or the fault |
| `RespReader.Reader.NextBulk` | simpleredis/resp.go:274-300 | the payload, a miss, or the fault |
| `RespReader.Reader.NextElement` | simpleredis/resp.go:238-260 | one array element or the fault |
| `RespReader.Reader.NextArray` | simpleredis/resp.go:235-262 | all elements in order or the fault |
| `RespReader.Reader.ReadReply` | simpleredis/resp.go:200-267 | what the stream decodes to, its bytes consumed; a dirty result carries no values |
| `PoolRuns.TurnsAreConserved` | simpleredis/pool.go:61-87 | free turns plus held turns equal PoolSize in every run and OverFrees stays 0 |
| `PoolRuns.EverySocketHasOnePlace` | simpleredis/pool.go:200-248 | every socket is open on the idle list once, or in the hands of exactly one turn holder or closer, or closed |
| `PoolRuns.SocketsAreBounded` | simpleredis/pool.go:160-184 | idle plus committed sockets are at most PoolSize while no command skips the list, and at most PoolSize + MaxIdleConns always |
| `PoolCensus.OpenSocketsAreBounded` | simpleredis/pool.go:160-248 | in every run all open sockets, the swept and not yet closed ones and those a Close has taken included, number at most MaxIdleConns + PoolSize * (1 + MaxIdleConns) |
| `PoolLaws.BorrowSorts` | simpleredis/pool.go:200-224 | in every run a borrow from an open pool gets the newest young socket or none, takes exactly the stale ones away and leaves the other young ones in order; a closed pool gives nothing |
| `PoolLaws.ParksIff` | simpleredis/pool.go:226-251 | a socket is parked at the end of the list iff it is fit for reuse and the open pool has room, and is closed otherwise |
| `PoolLaws.ParkedIsNext` | simpleredis/pool.go:200-251 | the socket parked last is the one the next borrow gets while it is young |
| `PoolLaws.FitIff` | simpleredis/resp.go:18-98 | a do leaves its socket fit iff it ended clean, left nothing unread, its context did not fire and its deadline did not pass |
| `PoolLaws.DialsIff` | simpleredis/pool.go:160-198 | a borrower dials iff it got no idle socket |
| `PoolLaws.SkipDialsIff` | simpleredis/pool.go:160-198 | an attempt that skips the list dials iff the pool is open |
| `PoolRuns.StartedWatcherNeverIdle` | simpleredis/resp.go:107-125 | a socket whose cancellation watcher has started is not on the idle list, in every interleaving, handshake included |
| `PoolRuns.DrainedStaysEmpty` | simpleredis/simpleredis.go:122-134 | once a Close has taken the list it stays empty |
| `PoolRuns.CloseLeavesNothingIdle` | simpleredis/simpleredis.go:122-134 | when the Close that won the flag returns the list is empty for good |
| `PoolClose.LosingClose` | simpleredis/simpleredis.go:122-134 | a Close that finds the flag set returns to an empty list iff the Close that set it has already taken the list or found it empty; an empty list then stays empty |
| `PoolClose.SetBySwap` | simpleredis/simpleredis.go:123-126 | the flag is set only by a Close that finds it clear |
| `PoolEarly.EarlyReturn` | simpleredis/simpleredis.go:123-126 | a run in which a Close that lost the flag returns while the list still holds a socket |
| `PoolReaders.PooledReadersAreEmpty` | simpleredis/resp.go:40-98 | in every reachable state a socket on the idle list has no unread reply bytes, and a do finds leftover only on a socket its own command dialed |
| `PoolReaders.ReadersStep` | simpleredis/resp.go:40-98 | every action keeps that: only a do changes what a reader holds, and only its own socket's |
| `PoolSteps.ReadKeeps` | simpleredis/resp.go:89-98 | what a do leaves unread moves no socket |
| `PoolRuns.RunInv` | simpleredis/pool.go:112-248 | every reachable state satisfies the pool invariant |
| `PoolSteps.CheckKeeps` | simpleredis/commands_exec.go:78-91 | a socket still reusable after the context check has met no started watcher |
| `PoolSteps.ParkKeeps` | simpleredis/pool.go:238-248 | parking puts an open, undisturbed socket on the list and keeps every other place |
| `PoolSteps.TakenKeeps` | simpleredis/pool.go:200-224 | a take moves stale sockets to the taker's bin and the newest survivor into its use, and keeps every other place |
| `PoolSteps.DrainedKeeps` | simpleredis/simpleredis.go:127-130 | taking the whole list moves every idle socket to the closer |
| `PoolSteps.StartKeeps` | simpleredis/resp.go:121-123 | a watcher starts only on a socket its own thread still uses |
| `PoolSteps.WatchCloseKeeps` | simpleredis/resp.go:121-123 | a watcher closes no socket that is idle or in other hands |
| `PoolSteps.WatchKeeps` | simpleredis/resp.go:37-39 | registering the watcher keeps the invariant |
| `PoolSteps.UnwatchKeeps` | simpleredis/resp.go:116-125 | a stopped watcher that has not started never will |
| `PoolInvariant.CloseKeeps` | simpleredis/pool.go:226-236 | closing a socket of one's own keeps every other place |
| `PoolInvariant.DialedKeeps` | simpleredis/pool.go:250-273 | a dialed socket belongs to its dialer alone |
| `PoolClient.Client.constructor` | simpleredis/pool.go:61-71 | a full semaphore and an empty list |
| `PoolClient.Client.FreeInUseTurn` | simpleredis/pool.go:73-87 | returns a turn or counts it as one too many |
| `PoolClient.Client.TakeIdleConn` | simpleredis/pool.go:200-224 | splits the list into stale and young, in order, and pops the newest |
| `PoolClient.Client.ParkIdleConn` | simpleredis/pool.go:238-248 | appends unless closed or full |
| `PoolClient.Client.Release` | simpleredis/pool.go:226-236 | the socket ends parked or closed and the turn comes back |
| `PoolClient.Client.Close` | simpleredis/simpleredis.go:122-134 | the winner empties the list and closes what was on it |
| `ExecRetry.Exec` | simpleredis/commands_exec.go:14-76 | makes at most one attempt more than the limit, stops at the first that ends the command, returns its result, skips the idle list exactly after an idle socket was found dead, and so burns at most one |
| `ExecRetry.MadeAgainIff` | simpleredis/commands_exec.go:195-214 | an attempt is made again iff the peer was unreachable or asked to come back, after a dial that did not fail in its handshake, on an open client |
| `ExecRetry.ComesBackIs` | simpleredis/commands_exec.go:226-238 | which error texts ask to come back, by their literal beginnings |
| `ExecRetry.ReportedIs` | simpleredis/commands_exec.go:107-123 | a command succeeds only by a clean attempt and fails with its last attempt's error; the library's own deadline, and only that, is reported as a timeout |
| `ExecRetry.RetryBackoff` | simpleredis/commands_exec.go:171-193 | where nothing wraps the wait is the base plus the sample taken modulo the base shifted by the attempt, capped at the maximum; whatever wraps, it stays within the bounds |
| `TokenBucket.SpentIsBounded` | tokenbucket/clock.go:55-85 | in any run with any clock readings, tokens spent are at most burst + rate * advance of last + rate * maxDelay, and last never decreases |
| `TokenBucket.TokensConserved` | tokenbucket/clock.go:62-84 | tokens left + spent + cut off by the cap == tokens before + rate * advance of last |
| `TokenBucket.RunInBounds` | tokenbucket/clock.go:62-78 | tokens stay between the debt maxDelay allows and the burst |
| `TokenBucket.LastIsLatest` | tokenbucket/clock.go:79-84 | last is the latest of its start and every reading |
| `TokenBucket.ConsumeOne` | tokenbucket/clock.go:55-85 | computes the specified step and wait |
| `TokenBucket.AllowScript` | tokenbucket/lua.go:11-56 | the script computes the same step and wait; a missing hash is a full bucket |
| `TokenBucket.SpentIsAllowed` | tokenbucket/clock.go:87-98 | a call that spent a token is allowed |
| `TokenBucket.DeniedTakesNothing` | tokenbucket/clock.go:69-78 | a denied call spends nothing |
| `TokenBucket.AllowedUnspentIff` | tokenbucket/clock.go:69-98 | a call is allowed without spending iff the refilled bucket it finds is short of a token by more than maxDelay in whole microseconds makes up and by less than the first nanosecond past maxDelay makes up |
| `TokenBucket.GapIsFree` | tokenbucket/clock.go:69-98 | a bucket in that gap stays there: any number of calls at one clock reading are all allowed and none spends |
| `TokenBucket.AllowedUnspentExample` | tokenbucket/clock.go:69-98 | a run from a full bucket reaches the gap |
| `TokenExpiry.BoundSurvivesExpiry` | tokenbucket/memory.go:63-84 | with a clock that does not go back and a ttl worth the burst and the debt maxDelay allows, one source spends at most burst + rate * elapsed + rate * maxDelay over any number of lifetimes |
| `TokenExpiry.BoundFailsAcrossExpiry` | tokenbucket/memory.go:63-84 | with a ttl worth less than the burst and the debt maxDelay allows, at any rate, some history of one source spends more: two lives that draw every token as it comes |
| `TokenExpiry.ExpiryBoundIff` | tokenbucket/memory.go:63-84 | for every rate, burst, maxDelay and ttl the code accepts, the bound holds over every history on a clock that does not go back iff the ttl is worth the burst and the debt |
| `TokenExpiry.ExpiryExample` | tokenbucket/memory.go:63-84 | one token a second, a burst of one, half a second of delay and a ttl of a second break the bound |
| `TokenLaws.HoldingIs` | tokenbucket/clock.go:55-66 | at a call the bucket holds what it had and limit more for every microsecond since, up to the burst; a clock that went back adds nothing |
| `TokenLaws.WaitIs` | tokenbucket/clock.go:67-78 | the wait is how long the bucket still has to fill to hold a token: filled for just that long it holds exactly one |
| `TokenLaws.CallIs` | tokenbucket/clock.go:55-98 | a call costs a token iff the accepted delay in whole microseconds fills the bucket to one, and returns the wait in nanoseconds cut off |
| `TokenLaws.TokensAre` | tokenbucket/clock.go:55-86 | over a run that never fills the bucket the tokens left are those at the start plus limit for every microsecond less the calls that cost one |
| `TokenLaws.FullBucketServes` | tokenbucket/clock.go:55-98 | of n calls at one reading a full bucket serves the burst and what the accepted delay is worth in whole tokens, no more and no less |
| `TokenLaws.RecordIs` | tokenbucket/memory.go:61-84 | a call finds the source's own bucket while it is younger than the ttl and a full one otherwise; either way it lives another ttl |
| `TokenMemory.Memory.constructor` | tokenbucket/memory.go:28-43 | no buckets |
| `TokenMemory.Memory.DropExpired` | tokenbucket/memory.go:86-93 | drops exactly the expired buckets |
| `TokenMemory.Memory.DropOne` | tokenbucket/memory.go:95-105 | makes room, dropping a live bucket only when the store is full of them |
| `TokenMemory.Memory.MakeRoom` | tokenbucket/memory.go:64-77 | makes room for a missing source |
| `TokenMemory.Memory.Allow` | tokenbucket/memory.go:54-84 | one step of the source's bucket, new if idle too long; other buckets keep their contents |
| `Backoff.ShutMeansFewFailures` | backendbackoff/allow.go:74-89 | over any stretch handled while CLOSED without tripping, failures < B + successes * p/(1-p) |
| `Backoff.TripNeedsFailures` | backendbackoff/allow.go:82-89 | a trip needs at least B failures since closing |
| `Backoff.CreditBounds` | backendbackoff/allow.go:74-84 | credit lies between what failures alone leave and what successes can add |
| `Backoff.FailedProbeCooldown` | backendbackoff/allow.go:59-73 | with jitter off, the k-th failed probe since n was zero opens for exactly min(Base * 2^k, Max) |
| `Backoff.ExponentCounts` | backendbackoff/allow.go:70-72 | n counts the failed probes since it was last reset |
| `Backoff.RunKeeps` | backendbackoff/allow.go:8-93 | in every run HALF-OPEN has its probe outstanding and CLOSED has positive credit within the budget |
| `Backoff.ProbesAreSpaced` | backendbackoff/allow.go:22-93 | in any run of Allow and Report, an attempt is admitted within BaseCooldown of a probe only if a report came in between, and another probe only if a report of failure did |
| `Backoff.ProbesNeverCrowd` | backendbackoff/allow.go:22-93 | in any run on a clock that does not go back, whatever is reported, two probes are further apart than BaseCooldown less its jitter share and a nanosecond; without jitter at least BaseCooldown |
| `Backoff.DoubledWait` | backendbackoff/gate.go:155-168 | the doubling loop yields min(Base * 2^n, Max) without exceeding Max |
| `Backoff.JitterBounds` | backendbackoff/gate.go:169-181 | jitter moves the cooldown by at most its share and never past Max |
| `BackoffLaws.SuccessEarns` | backendbackoff/gate.go:150-153 | while CLOSED a success earns p/(1-p) up to the budget and changes nothing else |
| `BackoffLaws.FailureCosts` | backendbackoff/allow.go:74-93 | while CLOSED a failure costs one; the gate opens iff nothing is left, for the cooldown of an exponent that is zero again after a full MaxCooldown of CLOSED |
| `BackoffLaws.ProbeReports` | backendbackoff/allow.go:54-73 | a probe's success closes the gate with its whole budget, its failure opens it for the cooldown of an exponent one higher; while OPEN a report only keeps the key |
| `BackoffLaws.CooldownIs` | backendbackoff/gate.go:155-182 | the cooldown is the base doubled n times and capped, spread by the sample and capped again |
| `BackoffLaws.AskIs` | backendbackoff/allow.go:22-40 | what each state admits and the wait a refusal names |
| `BackoffLaws.NewKeyIs` | backendbackoff/allow.go:95-115 | an unknown key is CLOSED with its whole budget |
| `BackoffLaws.CreditIs` | backendbackoff/allow.go:74-89 | over a stretch handled while CLOSED that never meets the budget the credit is start + successes * p/(1-p) - failures, and the gate is open iff that is used up |
| `BackoffLaws.TripsAtTheCount` | backendbackoff/allow.go:82-89 | a new key stays CLOSED for one failure less than TripFailures in a row and opens at that many |
| `BackoffLaws.OpenUntilItsTime` | backendbackoff/allow.go:22-40 | until its time every ask of an OPEN gate is refused with what is left, whatever is reported; the first ask from then on is the probe |
| `BackoffGate.Gate.constructor` | backendbackoff/gate.go:76-89 | no keys |
| `BackoffGate.Gate.Close` | backendbackoff/gate.go:133-139 | drops every key for good |
| `BackoffGate.Gate.DropExpired` | backendbackoff/allow.go:128-135 | drops exactly the expired keys |
| `BackoffGate.Gate.DropOne` | backendbackoff/allow.go:137-147 | drops a live key only when the map is full of them |
| `BackoffGate.Gate.LoadEntry` | backendbackoff/allow.go:95-115 | the live record object or a new one in its place |
| `BackoffGate.Gate.CooldownDuration` | backendbackoff/gate.go:155-182 | the cooldown for a jitter sample |
| `BackoffGate.Gate.Allow` | backendbackoff/allow.go:7-40 | admits or refuses by the key's record and moves it in place, other keys' records untouched but for dropped ones; an error once closed |
| `BackoffGate.Gate.NoteEntry` | backendbackoff/allow.go:54-92 | moves the record in place through every branch, cooldown included |
| `BackoffGate.Gate.Report` | backendbackoff/allow.go:42-93 | moves the key's record in place and no other, ignoring an unknown key |

## Left out

- Slots, alias entries and sockets of the transition systems are records in sequences named by index; identity and sharing are modelled, allocation is not.
- A hook's recorded interval runs from the critical section before it to the one after it, so it contains the real one.
- Reclaim's nil-receiver and nil-map paths, `Peek`, typed opening, logging, and the polling of contexts without a Done channel beyond the end of their incarnation.
- Liveness under a scheduler: `WaitersAreServed` and `WaitIsDischarged` name the step that serves a waiter, not that it is scheduled.
- Window counter: exact mode, key and weight arithmetic of `slidingAt`, the retained flush error and its timestamps; int64 wrap-around of counts.
- Window counter: whether a Take or Peek probes Redis is a free choice, so the theorems cover every outcome of the contact-time test.
- CIDR text and address parsing; the helper starts from a parsed canonical network or nothing.
- RESP: socket deadlines, classification of I/O errors, and the log lines of `do`; the stream is everything the peer will send. A stray reply that reaches only the kernel's buffer is outside `PooledReadersAreEmpty`, as it is outside the check of `do`.
- Pool: the transition system lets a command retry freely, and `ExecRetry` bounds the retries apart from it; a panic inside dial or its handshake; pool wait timeouts are a free choice.
- TokenExpiry follows one source that is never evicted for room, on a clock that does not go back.
- Token bucket: one clock serves expiry and refill. The program compares monotonic readings for the one and takes wall time for the other; the two are taken to agree.
- Token bucket and backoff: float rounding and the conversion of very long waits to durations; argument validation and defaulting; the Redis store's reply parsing.
- SHA-1 script digests, NOSCRIPT fallback, MSETEX and the remaining command wrappers.
