# Verified models of the chainkit SDK's stateful cores

This project models, in Dafny, the parts of the chainkit Go SDK whose correctness depends on
history: the telemetry transport, the provider manager, the scoring store and the scoring
engine. Each is given twice. A value-level state machine carries the theorems about every
run. A class with the program's own fields and loops carries the code, and each of its methods
is proved to move the machine exactly as the value function says (`View()` is the abstraction).
Where the theorems are about histories, the objects carry them along as ghost state, so that the
theorems speak about every reachable object (`ObjectIsSafe`, `EveryProviderObeys`).
The environment is a parameter everywhere: clock readings, random draws, HTTP replies,
operation results, cache failures, evictions and the pushes of other goroutines.

| file | subject |
|---|---|
| `TransportProtocol.dfy`, `Transport.dfy` | the buffering transport: every interleaving of producers with the flush loop, then the object with two slice windows on one backing array |
| `EventIds.dfy`, `Wire.dfy` | time-ordered event ids and the batches stamped with them |
| `RateLimiter.dfy` | sliding window plus token bucket |
| `Breaker.dfy` | one provider's circuit breaker, the older "temporarily down" flag beside it, and the credential-failure path |
| `Manager.dfy` | the maps of all providers, selection, retry and fallback |
| `Selection.dfy` | the ordering strategies |
| `HybridStore.dfy`, `RedisLock.dfy` | the cached score store and the distributed lock |
| `Latency.dfy`, `Scoring.dfy` | latency statistics, penalties, decay and recovery |
| `Common.dfy`, `Arithmetic.dfy` | subsequences, and facts about floor division |

Time is an `int` of nanoseconds (milliseconds in event ids), `float64` is `real` without
rounding, Go's `int` and `int64` counters are unbounded, and one critical section is one step.

## What the code does not promise

Five claims one might make of this code are false, and are replaced by the exact condition.

* `Stop() == nil` is documented as "every recorded event was handed to the cloud"
  (cloudagent/http_transport.go:120-124). Events lost to overflow, to their time to live or to
  a rejected batch also end in nil: `NilVerdictCanHideLoss` is such a run, and
  `NilVerdictMeaning` says that all events pushed before the drain's last emptiness check were
  acknowledged if and only if the drop counter stood at zero at that check.
* The "temporarily down" flag is redundant beside the circuit breaker if and only if the breaker
  is on with a timeout of at most ten minutes, or off with no cooldown, unless the rate limiter
  refuses everything anyway (`LegacyNeverMattersIff`).
* A provider can reach a state in which every later request for it is refused, so that no outcome
  can free it. `NeverStuckIff` gives the settings under which none can; the shipped defaults are
  not among them (`DefaultsCanGetStuck`).
* A cache write that fails is still marked fresh, on writes and on the repopulation after a read.
  `PlainIffBenign` says that reads stay right over a run if and only if every lost write met a
  cache holding nothing under that name, or the very value written.
* Lock tokens are clock readings. An unlock takes away another holder's lock if and only if both
  grants read the same token (`UnlockRobsIff`); without that mutual exclusion holds
  (`MutualExclusion`), and after it the next caller shares the lock (`RobberyAdmitsAnother`).

## Model

| member | source | states |
|---|---|---|
| TransportProtocol.WithDefaults | cloudagent/options.go:102-142 | every transport runs with a positive batch size, buffer size and event lifetime; an option that is not positive gets its documented default, the others are left alone |
| TransportProtocol.StaleCount | cloudagent/http_transport.go:272-284 | the pruned events are exactly the stale ones at the head: all of them are older than the cutoff and the next one is not |
| TransportProtocol.OverflowKeepsNewest | cloudagent/http_transport.go:101-108 | whatever was pending, a push or a returned batch leaves exactly the newest events that fit and counts the others as dropped |
| TransportProtocol.PruneMeaning | cloudagent/http_transport.go:272-284 | pruning removes and counts exactly the head events older than the time to live, and the first kept one is not |
| TransportProtocol.BatchMeaning | cloudagent/http_transport.go:366-384 | a batch is the oldest pending events, full unless it empties the buffer, and nothing else changes |
| TransportProtocol.StepKeeps | cloudagent/http_transport.go:92-413 | every atomic step of producer or loop keeps order, conservation, both size bounds and the consistency of phase, terminal error and drain error |
| TransportProtocol.EveryInterleavingIsSafe | cloudagent/http_transport.go:92-413 | after any interleaving, acknowledged events, the batch on the wire and the buffer together are a subsequence of what was pushed, nothing duplicated or reordered; pushed = acknowledged + dropped + in flight + buffered; the buffer never exceeds its bound |
| TransportProtocol.TerminalIsSticky | cloudagent/http_transport.go:92-100 | after a rejected key, whatever follows: buffer and batch stay empty, no further request is made, nothing more is acknowledged and each later push counts as exactly one drop |
| TransportProtocol.NilVerdictMeaning | cloudagent/http_transport.go:120-137 | a nil verdict means the last emptiness check found nothing pending; acknowledged events are in order among those pushed before it, and are all of them if and only if no drop had been counted |
| TransportProtocol.NilVerdictCanHideLoss | cloudagent/http_transport.go:101-106 | a concrete interleaving in which an overflow loses an event and Stop still returns nil |
| Transport.Append | cloudagent/http_transport.go:101-108 | appending, in place or into a grown array, changes no element of a window that ends before the buffer begins |
| Transport.Concat | cloudagent/http_transport.go:397-405 | returning a batch copies both windows into fresh storage, batch first |
| Transport.CountStale | cloudagent/http_transport.go:272-284 | the scan of the slice finds the number of stale events at the head |
| Transport.HttpTransport.constructor | cloudagent/http_transport.go:71-81 | a new transport is the empty protocol state under sanitised options, with nothing pushed or delivered |
| Transport.HttpTransport.Push | cloudagent/http_transport.go:92-118 | on slices, a push (drop-oldest included) is the two-sequence push, leaves the batch on the wire untouched, and asks for a flush exactly when a batch is full |
| Transport.HttpTransport.PruneStale | cloudagent/http_transport.go:272-284 | reslicing removes exactly the stale head and counts it as dropped |
| Transport.HttpTransport.TakeInflight | cloudagent/http_transport.go:366-384 | the batch and the rest of the buffer are adjacent windows that never overlap, capacity included |
| Transport.HttpTransport.DiscardInflight | cloudagent/http_transport.go:387-391 | the batch is let go and nothing else changes |
| Transport.HttpTransport.ReturnInflightToHead | cloudagent/http_transport.go:397-413 | a failed batch goes back in front of the buffer, and what does not fit is dropped oldest first and counted |
| Transport.HttpTransport.SetTerminal | cloudagent/http_transport.go:151-170 | only the first rejection counts; everything pending becomes a counted drop |
| Transport.HttpTransport.ReadBatch | cloudagent/http_transport.go:305-306 | serialising without the lock while producers push between any two elements yields the batch exactly as it was taken |
| Transport.HttpTransport.Settle | cloudagent/http_transport.go:306-363 | the object handles each reply as the protocol does, what each status code does being stated by FlushByStatus, and only an acceptance adds to what was delivered |
| Transport.HttpTransport.FlushOnce | cloudagent/http_transport.go:297-363 | one whole flush with arbitrary concurrent pushes is the specified transition of buffers, deliveries and pushes; a non-empty batch is reported sent if and only if the reply was a 2xx |
| Transport.FlushByStatus | cloudagent/http_transport.go:297-363 | by status code, for a non-empty batch with any concurrent pushes: a 2xx delivers exactly the batch; a 429, a 5xx or a request not built or posted delivers nothing and keeps the newest of batch and buffer; a 401 or 403 records that code and drops everything pending; any other code, or a batch that cannot be serialised, drops exactly the batch and goes on |
| Transport.PushAllMeaning | cloudagent/http_transport.go:92-118 | any number of pushes leaves exactly the newest events that fit and counts the others |
| Transport.HttpTransport.LoopTurn | cloudagent/http_transport.go:205-208 | one turn of the loop prunes and then flushes, as one use of the object, with producers pushing between the two as well as during the flush |
| Transport.HttpTransport.DrainAndExit | cloudagent/http_transport.go:235-268 | with producers pushing at any moment of every round, the drain ends by its deadline and computes the recursive drain specification, deliveries, pushes and number of requests included |
| Transport.HttpTransport.Stop | cloudagent/http_transport.go:125-137 | Stop reports a rejected key before an undelivered remainder, and nil otherwise |
| Transport.FlushIsInterleaving | cloudagent/http_transport.go:297-363 | every flush of the object is one of the protocol's interleavings: same buffers, same deliveries, same pushes, and the phase the loop goes on from |
| Transport.UsesAreInterleaving | cloudagent/http_transport.go:176-227 | any sequence of pushes and loop turns of the object is an interleaving of the protocol that is back at its waiting point |
| Transport.DrainIsInterleaving | cloudagent/http_transport.go:235-268 | the whole drain, pushes included, is an interleaving that ends the loop, and a nil verdict means its last act was an emptiness check that had seen every push |
| Transport.ObjectIsSafe | cloudagent/http_transport.go:92-413 | for an object through any sequence of pushes and loop turns and then a shutdown, with producers pushing around and during every flush: delivered, pending and dropped events account for every push, in order, and after a nil verdict everything pushed was delivered if and only if nothing was dropped |
| Transport.DrainAccounts | cloudagent/http_transport.go:235-268 | without concurrent pushes a drain splits the buffer into a delivered prefix, a counted loss and a kept suffix, with nothing left over |
| Transport.DrainVerdict | cloudagent/http_transport.go:120-137 | after a drain without concurrent pushes Stop is nil if and only if each of the needed requests was accepted before the deadline, and then every buffered event was delivered in order and none dropped |
| Transport.RefusedVerdict | cloudagent/http_transport.go:235-268 | after a quiet drain refused on its first request, Stop names the rejected key for a 401 or 403, and otherwise how many events were pending |
| Transport.QuietDrainIsBounded | cloudagent/http_transport.go:235-268 | without concurrent pushes a drain ends by what is pending, whatever the deadline: it makes at most one request per pending batch, hence at most one per pending event |
| Transport.DeadlineIsIdle | cloudagent/http_transport.go:235-268 | without concurrent pushes a deadline that leaves room for the pending batches plays no part: any later one gives the same drain |
| EventIds.EncodeRawValue | cloudagent/ids.go:21-57 | base32 by groups of five bytes (section 6 of RFC 4648, unpadded) spells four times the 128-bit number |
| EventIds.LayoutIsId | cloudagent/ids.go:47-56 | the byte layout and grouping give the same text as the number written in 26 base32 digits |
| EventIds.IdOrder | cloudagent/ids.go:21-57 | ids compare as strings exactly as their 128-bit numbers do, and are equal only for equal numbers |
| EventIds.NextIdGreater | cloudagent/ids.go:29-57 | the next id is above the previous one if and only if the clock advanced, or stood still without the counter wrapping |
| EventIds.NextMeaning | cloudagent/ids.go:29-57 | an id carries its own millisecond, with the drawn bytes in a new one and the successor of the last number within one; different contents give different ids |
| EventIds.IdsStrictlyIncrease | cloudagent/ids.go:29-57 | over every run with a clock that never goes back and no counter wrap, each later id is strictly greater |
| EventIds.CarryValue | cloudagent/ids.go:34-41 | turning trailing 255s to zero and adding one to the byte before them is plus one on the big-endian number |
| EventIds.WrapValue | cloudagent/ids.go:34-41 | the carry runs off the end exactly from 2^80-1 to zero |
| EventIds.StampBytes | cloudagent/ids.go:47-54 | six shifts and truncations are the six low base-256 digits of the timestamp |
| EventIds.IdGenerator.constructor | cloudagent/ids.go:15-19 | the generator starts at timestamp zero with a zero counter |
| EventIds.IdGenerator.IncrementEntropy | cloudagent/ids.go:34-41 | the carry loop on ten bytes is plus one modulo 2^80 |
| EventIds.IdGenerator.NewEventID | cloudagent/ids.go:29-57 | the id returned is the text of the generator's new number, a fresh draw in a new millisecond and a successor within one, for every timestamp (beyond 48 bits its high bits are lost) |
| Wire.BuildBatch | cloudagent/wire.go:71-128 | one envelope per event that carries a request or a score, in event order, each with the payload of its event and the next id after the batch's own |
| Wire.CarriedPicks | cloudagent/wire.go:71-128 | the events that get an envelope are the batch read at exactly the positions with a payload |
| Wire.PayloadMeaning | cloudagent/wire.go:71-128 | each field reaches its place; durations are whole milliseconds rounded toward zero as far as they fit, and an event with neither part carries nothing |
| Wire.WrapMeaning | cloudagent/wire.go:71-128 | narrowing an integer keeps every value that fits and the remainder of any other |
| Wire.BatchIdsIncrease | cloudagent/wire.go:71-128 | on a steady clock the envelope ids of a batch strictly increase in event order and all exceed the batch id |
| RateLimiter.RateLimitState.constructor | manager.go:72-78 | a new limiter has a full bucket and an empty window |
| RateLimiter.RateLimitState.CanMakeRequest | manager.go:81-125 | pruning, refill, window test and burst token in the code's order give the specified verdict and state, whenever the code does not come to a division by zero |
| RateLimiter.RateLimitState.RecordRequest | manager.go:129-139 | a recorded request is appended to the window |
| RateLimiter.WindowIsHistory | manager.go:81-139 | pruning never forgets a request a later check would still have to count |
| RateLimiter.PlainBound | manager.go:81-125 | of the admissions inside one window at most MaxRequests came through the window test |
| RateLimiter.BurstBound | manager.go:96-122 | burst tokens admit at most BurstSize plus one per refill interval plus one in any window |
| RateLimiter.WindowBound | manager.go:81-139 | for every sequence of nondecreasing times with each admission recorded at once, any window holds at most MaxRequests plus the burst allowance, which is zero without bursts |
| RateLimiter.PlainAdmittedIff | manager.go:81-139 | over every sequence of uses, a request passes without a token if and only if fewer than MaxRequests were admitted within the last window |
| RateLimiter.BurstAdmittedIff | manager.go:96-122 | with a full window a request passes if and only if a token is left or a refill interval has gone by; enough idle time refills the bucket exactly and it never overflows |
| RateLimiter.IntervalShares | manager.go:108-109 | a refill interval is the longest of which MaxRequests fit into one window |
| RateLimiter.SurgeIsServedExactly | manager.go:81-139 | of any number of requests at one instant on a new limiter exactly min(n, MaxRequests + BurstSize) are admitted, by window first and then by tokens |
| RateLimiter.AdmitsLater | manager.go:81-125 | a limiter that is not starved admits every request from some computable time on |
| RateLimiter.StarvedRefuses | manager.go:81-125 | a limiter with no window and no tokens coming back refuses, and is left as starved as before |
| Breaker.CountersAreHistory | manager.go:438-527 | consecutive failures and successes are the lengths of the failing and succeeding suffixes of the outcome history, and the totals and credential-failure count are counts over it |
| Breaker.TransitionsFollowHistory | manager.go:384-527 | after every history, each act's effect on the circuit's state, time of change and probe count is read off the history, both ways: closing exactly on SuccessThreshold trailing successes in half-open, opening exactly on FailureThreshold trailing failures or a third credential failure since the last success, half-opening exactly on a selection past the wait that applies and not held back by the flag |
| Breaker.ChooseIff | manager.go:370-435 | a check takes a provider if and only if none of five reasons stands against it: flag within cooldown, open circuit within its wait, no probe left, bad health where it counts, rate limit |
| Breaker.FlagMeaning | manager.go:370-527 | a success lowers the flag and counts as a request; a failure raises the flag exactly from FailureThreshold on and is no request; a check past the cooldown clears flag and count |
| Breaker.DownImpliesOpen | manager.go:370-414 | with the breaker on and a timeout of at most ten minutes, in every reachable state the legacy flag implies an open circuit that changed state no earlier than the last failure |
| Breaker.DeletionSimulates | manager.go:370-414 | under those settings the program without the legacy check gives the same answers and the same circuit in every run |
| Breaker.LegacyMatters | manager.go:370-382 | outside the redundancy condition a constructed run in time order, with outcomes only after an admitted selection where the window admits one, makes the two programs answer differently |
| Breaker.LegacyNeverMattersIff | manager.go:370-414 | for every setting that does not divide by zero, deleting the legacy check changes no answer in any run if and only if the breaker is on with a timeout of at most ten minutes, or off with none, or the rate limiter refuses everything anyway; with a positive request limit, or none, the same holds over the runs in which outcomes follow admitted selections |
| Breaker.StuckIffDead | manager.go:370-435 | every request for a healthy provider, however often and whenever made from now on, is refused if and only if it is half-open with its probe calls used up or its limiter is starved; otherwise it is admitted from some time on |
| Breaker.DeadForever | manager.go:370-435 | no sequence of refused selections changes a state that refuses for either reason |
| Breaker.NeverStuckIff | manager.go:438-527 | for every setting that does not divide by zero, over all runs in time order with outcomes only after admitted selections: no provider is ever blocked for good if and only if the rate limiter keeps letting requests through and the breaker is off, or allows a probe and either one failure reopens, or one success closes and FailureThreshold is at most HalfOpenMaxCalls |
| Breaker.CanGetStuck | manager.go:452-525 | for every other breaker setting a run in time order, started by an admitted selection, after which no selection ever takes the provider again |
| Breaker.CanStarve | manager.go:81-125 | a limiter whose tokens never come back blocks the provider by selections alone |
| Breaker.DefaultsCanGetStuck | config.go:66-73 | the shipped thresholds allow a provider blocked for good and make the legacy check redundant, for every health setting and every rate setting that does not divide by zero |
| Manager.BookIsPerProvider | manager.go:370-527 | on the maps, each check and each recorded outcome acts on the provider it names as the single-provider machine does, and leaves every other provider alone |
| Manager.OpenIsNotSelected | manager.go:223-243 | an open provider is in no selection before the shorter of the timeout and ten minutes has passed, however often it is listed, and its circuit stays as it is |
| Manager.PassingPicks | manager.go:223-243 | the selection is the provider list read at exactly the positions whose check passes, in order |
| Manager.SelectedIff | manager.go:223-243 | among providers with different names each is selected if and only if its own check takes it, whatever the others do, and the order is kept |
| Manager.UnknownFailure | manager.go:486-507 | a failure of an unregistered name starts a record holding that one failure |
| Manager.OutcomeMeaning | manager.go:256-353 | a won run's last call succeeded and gave the result, and its provider alone is told to the strategy; a lost run reports the very last call's error, or that the context had ended |
| Manager.OperationAt | manager.go:223-353 | after a whole operation the maps hold, for each provider, the single-provider machine after one selection per listing and then that provider's own outcomes |
| Manager.OperationIsCausal | manager.go:223-353 | outcomes are recorded only for providers that the same operation's selection took, so whole histories have outcomes only after admitted selections |
| Manager.TracedOperation | manager.go:223-353 | an operation extends every provider's history and keeps its tracking equal to the single-provider machine after that history |
| Manager.ProviderManager.EveryProviderObeys | manager.go:370-527 | in every reachable manager each provider's counters are its own history, a raised flag means an open circuit, and the provider is not blocked for good, under the conditions of the single-provider theorems |
| Manager.FindProviderByName | manager.go:618-626 | finds the first provider whose name matches regardless of case, and reports none only when there is none |
| Manager.FoldsCase | manager.go:618-626 | two names match if and only if they have equal length and agree letter by letter up to case |
| Manager.InsertKeepsOrder | manager.go:187-218 | inserting by priority keeps the list sorted |
| Manager.InsertKeepsAll | manager.go:187-218 | inserting by priority adds one provider and loses none |
| Manager.ProviderManager.constructor | manager.go:150-172 | a new manager has no providers and no history |
| Manager.ProviderManager.AddProvider | manager.go:187-218 | a new provider gets fresh tracking and an empty history, and the list stays sorted by priority and keeps everyone; a nil provider is skipped |
| Manager.ProviderManager.CheckLegacy | manager.go:371-382 | the legacy stage blocks during the cooldown and clears the flag after it |
| Manager.ProviderManager.CheckCircuit | manager.go:384-414 | the circuit stage half-opens after the wait that applies, and limits half-open calls |
| Manager.ProviderManager.IsProviderAvailable | manager.go:370-435 | the four stages run in order and the first refusal ends the check |
| Manager.ProviderManager.GetAvailableProviders | manager.go:223-243 | the strategy arranges exactly the providers whose check passes, none left out (PassingPicks, SelectedIff), with every side effect of the checks kept |
| Manager.ProviderManager.RecordSuccess | manager.go:438-481 | a success resets the failure side, advances a half-open circuit and records the request |
| Manager.ProviderManager.UpdateFailureState | manager.go:486-527 | a failure resets the success side, may raise the flag and may open the circuit |
| Manager.ProviderManager.HandleAuthFailure | manager.go:728-755 | the third credential failure without a success opens the circuit |
| Manager.ProviderManager.RecordFailureWithError | manager.go:681-723 | one failed call is recorded once, with the escalation only for credential errors |
| Manager.ProviderManager.AttemptWithRetry | manager.go:316-353 | a provider is called until its first success, the end of its budget or a cancellation, each call is recorded, and giving up reports the last call's error or the context's |
| Manager.ProviderManager.Narrow | manager.go:267-289 | a pin from the call wins over the manager's own and leaves the first match alone in the chain, or fails when no available provider matches |
| Manager.ProviderManager.RunChain | manager.go:291-308 | the winner is the first provider of the chain with a success; those before it gave up; the failed trail names exactly them; a lost run reports the last error |
| Manager.ProviderManager.RunOp | manager.go:256-308 | an operation as a whole: each of the three errors has its exact cause, the chain is what selection and pin leave, the winner is the first to succeed, only it is reported to the strategy, each provider's totals rise by its own calls and all totals together by the reported attempts, and every provider's tracking stays that of the single-provider machine after its own history |
| Manager.RunOpCounts | manager.go:256-353 | over a whole operation each provider's success and failure totals rise by exactly its own calls, and the sum over all tracked providers rises by the number of attempts |
| Selection.GroupByPriority | selection_strategy.go:60-70 | groups keep the order of the input and their priorities come out ascending and complete |
| Selection.GroupwisePermutation | selection_strategy.go:52-95 | rearranging each priority group on its own is a permutation of the whole |
| Selection.RoundRobinSelector.constructor | selection_strategy.go:46-50 | a new selector starts every group at its first member |
| Selection.RoundRobinSelector.SelectProviders | selection_strategy.go:52-89 | a permutation with ascending priorities in which each group is rotated by its index |
| Selection.RoundRobinSelector.RecordAttempt | selection_strategy.go:91-95 | an attempt advances the index of one priority only |
| Selection.RotateGroup | selection_strategy.go:79-84 | the loop's modular indexing is the cyclic rotation |
| Selection.RotatedPermutes | selection_strategy.go:79-84 | a rotation is the back part of the group followed by its front, and loses nobody |
| Selection.EachMemberFirstOnce | selection_strategy.go:52-95 | over as many recorded attempts as a group has members, each member comes first exactly once |
| Selection.Shuffle | selection_strategy.go:142-147 | the in-place loop exchanges each position with the drawn one at or before it; the result is a permutation whatever the random source returns |
| Selection.EveryOrderPossible | selection_strategy.go:142-147 | every arrangement of a group, repeated members included, comes out of the shuffle for some draws |
| Selection.SelectRandom | selection_strategy.go:115-153 | a permutation with ascending priorities in which each group is shuffled by its own draws |
| Selection.ExchangeSort | selection_strategy.go:208-216 | the exchange loops sort a copy by key and permute it |
| Selection.SelectLeastLoaded | selection_strategy.go:181-238 | a permutation with ascending priorities, each group in order of load |
| Selection.LoadMeaning | selection_strategy.go:224-238 | a load of zero for an unknown provider, ten per active request, fifty per consecutive failure, and a hundred times the share of failures among its outcomes |
| Selection.SelectAdaptive | selection_strategy.go:264-288 | a permutation in order of falling score, whatever the priorities |
| HybridStore.ReadsArePlain | scoring/store/hybrid.go:129-354 | after any run over any two stores in any synchronous mode, with evictions, failed cache reads and deletes and benign losses of cache writes, a read answers what a plain map holds, or the primary's error during an outage |
| HybridStore.RunCoherent | scoring/store/hybrid.go:98-354 | in every reachable state a name that is tracked and cached is cached with the primary's value, and the primary is the plain map |
| HybridStore.CoherentIffBenign | scoring/store/hybrid.go:129-244 | an operation keeps the cache coherent if and only if each cache write it loses, in a batch or in a repopulating read, would have met a cache holding nothing under that name or the very value written |
| HybridStore.HarmShows | scoring/store/hybrid.go:154-203 | right after any other lost write some read is stale |
| HybridStore.PlainIffBenign | scoring/store/hybrid.go:98-354 | over a whole run in time order, reads agree with a plain map after every operation if and only if all lost cache writes were benign, or the lifetime is not positive |
| HybridStore.BoundedStaleness | scoring/store/hybrid.go:98-203 | with others writing the primary between operations, a read at time t returns what the primary holds, or held at some time in (t - CacheTTL, t]; during an outage of the primary only the latter, or its error |
| HybridStore.EntryOrigin | scoring/store/hybrid.go:129-354 | each tracked cache entry after an operation is an old one with its old mark, or the primary's current value with a mark no later than now |
| HybridStore.WarmServes | scoring/store/hybrid.go:334-354 | after a successful warm-up every entry of the primary is answered from the cache for the whole lifetime, primary down or not; after a failed one nothing is fresh that was not before |
| HybridStore.WriteServes | scoring/store/hybrid.go:170-244 | after a write-through write that is not lost the written value is answered from the cache for the whole lifetime; in the other modes the next read asks the primary |
| HybridStore.ReadServes | scoring/store/hybrid.go:129-167 | a read that went to the primary answers its value, and unless the repopulation is lost so does the cache for the whole lifetime |
| HybridStore.LastWins | scoring/store/memory.go:77-87 | of several entries for one name in a batch the last is kept |
| HybridStore.ForgettingAsksPrimary | scoring/store/hybrid.go:257-331 | after a deletion or an invalidation no read is answered from the cache, and a deleted name is in neither store the deletion reached |
| HybridStore.MemoryStore.constructor | scoring/store/memory.go:18-22 | a new store is empty |
| HybridStore.MemoryStore.Get | scoring/store/memory.go:30-39 | the stored data or nothing |
| HybridStore.MemoryStore.Set | scoring/store/memory.go:42-53 | data is filed under its own name; nil or nameless data is ignored |
| HybridStore.MemoryStore.SetMany | scoring/store/memory.go:77-87 | as setting one after the other |
| HybridStore.MemoryStore.Remove | scoring/store/memory.go:68-74 | one name is forgotten |
| HybridStore.MemoryStore.GetAll | scoring/store/memory.go:56-65 | every entry exactly once |
| HybridStore.HybridScoreStore.constructor | scoring/store/hybrid.go:71-90 | nothing is tracked at first, and an unset lifetime becomes five minutes |
| HybridStore.HybridScoreStore.GetScore | scoring/store/hybrid.go:129-167 | the read path on two store objects: fresh cache first, else primary and repopulation, whose failure goes unnoticed |
| HybridStore.HybridScoreStore.SetScore | scoring/store/hybrid.go:170-203 | nil data and primary errors change nothing; otherwise primary first and the cache by mode |
| HybridStore.HybridScoreStore.SetScores | scoring/store/hybrid.go:206-244 | a batch is one write of all its entries, any of which the cache may lose; an empty batch succeeds even when the primary is down |
| HybridStore.HybridScoreStore.DeleteScore | scoring/store/hybrid.go:257-270 | the name leaves the primary and the tracking, and the cache if it can be reached |
| HybridStore.HybridScoreStore.InvalidateAll | scoring/store/hybrid.go:327-331 | all tracking is dropped, both stores stay |
| HybridStore.HybridScoreStore.WarmCache | scoring/store/hybrid.go:334-354 | the primary's entries are copied and all marked, so that reads find them (WarmServes); when the cache reports an error, even after a complete copy, what it took is there and nothing is marked; a failing primary changes nothing |
| RedisLock.RedisStore.Lock | scoring/store/redis.go:348-363 | a lock is granted if and only if no unexpired value sits under the key |
| RedisLock.LockLasts | scoring/store/redis.go:348-383 | a granted lock keeps its key taken exactly until its time to live has passed, for ever without one, and no other key |
| RedisLock.RedisStore.Unlock | scoring/store/redis.go:366-380 | compare and delete in one step |
| RedisLock.MutualExclusion | scoring/store/redis.go:348-383 | at any time after any interleaving in which no unlock robs another holder, in particular one with distinct tokens, two unreleased and unexpired grants on one key are the same grant |
| RedisLock.UnlockSparesOthers | scoring/store/redis.go:366-380 | calling an unlock, its hold expired or not, never removes another holder's lock |
| RedisLock.UnlockRobsIff | scoring/store/redis.go:366-380 | while every live grant is backed by the database, an unlock removes another holder's live lock if and only if both grants are on one key and carry one token |
| RedisLock.GuardedIffNoRobbery | scoring/store/redis.go:348-383 | over a whole run every live grant stays backed by the database if and only if no unlock along the way robs another holder |
| RedisLock.RobberyAdmitsAnother | scoring/store/redis.go:348-383 | after such an unlock the very next caller is granted the lock beside the holder that still counts on it |
| RedisLock.CollidingTokensBreakIt | scoring/store/redis.go:348-383 | with two equal tokens an expired holder's unlock leads to two simultaneous holders |
| Latency.SortDurations | scoring/latency.go:238-247 | the in-place bubble sort leaves the one sorted arrangement of its input |
| Latency.SortedUnique | scoring/latency.go:238-247 | there is only one sorted arrangement |
| Latency.CalculateStats | scoring/latency.go:163-204 | the loops compute the reference statistics |
| Latency.StatsOfMultiset | scoring/latency.go:163-204 | reordering the samples changes no statistic |
| Latency.PercentileMonotone | scoring/latency.go:207-235 | interpolated percentiles grow with p across all segments and stay within the samples |
| Latency.StatsOrdered | scoring/latency.go:163-204 | Min <= P50 <= P75 <= P90 <= P95 <= P99 <= Max and Min <= Mean <= Max for every non-empty sample list |
| Latency.StatsMeaning | scoring/latency.go:163-204 | in terms of the samples in any sorted arrangement: count, extremes, the mean (rounded down where the sum is not negative), the integer root of the mean squared deviation, and each of the five percentiles |
| Latency.PercentilePosition | scoring/latency.go:207-235 | the p-th percentile is the sample at position p(n-1)/100, or lies between its two neighbours at the matching fraction of the gap, rounded down for samples that are not negative |
| Latency.StdDevIsRoot | scoring/latency.go:180-187 | the reported deviation is the integer part of the root of the exact variance |
| Latency.OneOrderIsAll | scoring/latency.go:85-98 | the global statistics do not depend on the order in which the map is walked |
| Latency.AloneIsAverage | scoring/latency.go:110-143 | a provider with no peers has slowness zero |
| Latency.SlownessMeaning | scoring/latency.go:110-143 | slowness is positive if and only if the provider's mean exceeds everyone's, larger exactly for the larger mean, and one at one standard deviation |
| Latency.Slide | scoring/latency.go:63-70 | a window keeps at most its size and always the newest sample |
| Latency.WindowIsNewest | scoring/latency.go:54-73 | after any number of samples a window holds exactly the newest ones, in order, as many as fit |
| Latency.LatencyTracker.constructor | scoring/latency.go:40-51 | an empty tracker with a positive window |
| Latency.LatencyTracker.RecordLatency | scoring/latency.go:54-73 | one provider's window slides, no other changes, and the cached statistics are never left standing as clean |
| Latency.LatencyTracker.GetGlobalStats | scoring/latency.go:76-106 | cached or recomputed, the answer is what a recomputation gives in every iteration order |
| Latency.LatencyTracker.GetProviderSlownessFactor | scoring/latency.go:110-143 | how many standard deviations the provider's mean lies above everyone's (SlownessMeaning), zero without data or without variation |
| Latency.LatencyTracker.Reset | scoring/latency.go:250-257 | no samples remain and no cached statistics survive |
| Latency.GatherAll | scoring/latency.go:85-89 | the collection loop visits each provider once, in an order it does not choose, and what it collects has the global statistics |
| Scoring.Validated | scoring/options.go:648-662 | a decay rate outside [0, 1] becomes a tenth, a window below ten becomes ten, and everything sound is kept |
| Scoring.LatencyChargeMeaning | scoring/engine.go:261-297 | a provider is charged for slowness if and only if it lies beyond the threshold, and then the configured amount for each further deviation |
| Scoring.SlowerCostsMore | scoring/engine.go:249-304 | with enough samples the provider with the larger mean is charged no less than any other; with too few no charge changes |
| Scoring.SamplesAreHistory | scoring/engine.go:161-190 | over every run the samples kept for a provider are the newest of all it was ever timed at while registered and scoring was on |
| Scoring.RecentIsNewest | scoring/scorer.go:182-192 | a score's own window goes on holding the newest samples of its past |
| Scoring.PenaltiesCost | scoring/scorer.go:76-89 | each of the four penalties costs exactly its amount, down to a score of zero, and without penalties the score is the base |
| Scoring.EventsCost | scoring/engine.go:161-246 | every penalising event with a positive weight strictly lowers the score of the provider it names, unless its penalty is at the cap or its score at zero |
| Scoring.SuccessEarns | scoring/scorer.go:163-179 | a success earns back exactly its bonus as far as there are error penalties, and never lowers the score |
| Scoring.BaseMeaning | scoring/scorer.go:48-72 | priority one starts at a hundred, each further priority ten lower, with a floor of ten; a new score is its base |
| Scoring.TickMeaning | scoring/scorer.go:243-265 | a tick takes the rate's share off each decaying penalty, and drops it exactly when less than a hundredth would remain |
| Scoring.FadingIsGeometric | scoring/scorer.go:243-265 | a penalty still standing after n ticks is the original times (1 - rate)^n |
| Scoring.PenaltiesStayBounded | scoring/engine.go:161-246 | with nonnegative weights, over every run of registrations, events and decay ticks, each decaying penalty stays in [0, MaxPenalty], the score stays in [0, BaseScore] and the operation counters add up |
| Scoring.ChargesAddUp | scoring/engine.go:198-242 | between decays a penalty is the sum of its category's charges capped once, however events of different kinds and providers are mixed |
| Scoring.CountersAreHistory | scoring/scorer.go:140-179 | the operation counters are the numbers of success and failure events, and no event touches the base score |
| Scoring.FullRecovery | scoring/scorer.go:243-265 | once ticks times rate reach 100 * MaxPenalty, a provider not charged in the meantime has no penalty but latency, and its score is max(0, BaseScore - LatencyPenalty) |
| Scoring.RecoversIff | scoring/scorer.go:243-265 | some number of ticks clears every penalty if and only if the rate is positive or the cap is below the snapping threshold |
| Scoring.LoneProviderNeverSlow | scoring/engine.go:249-304 | with a nonnegative threshold, a provider that is the only one ever timed is never charged for latency |
| Scoring.RecordedAt | scoring/engine.go:161-246 | an event changes the named provider's score only, and nothing when scoring is off |
| Scoring.LeavingForgets | scoring/engine.go:152-158 | unregistering removes one score and keeps all samples and all other scores |
| Scoring.ProviderScore.constructor | scoring/scorer.go:48-72 | a new score has no penalties and a base from its priority, never below ten |
| Scoring.ProviderScore.EffectiveScore | scoring/scorer.go:76-89 | what is left of the base after all four penalties in full (PenaltiesCost), never negative |
| Scoring.ProviderScore.AddHealthPenalty | scoring/scorer.go:95-113 | only the health penalty grows, up to the cap |
| Scoring.ProviderScore.AddRateLimitPenalty | scoring/scorer.go:118-135 | only the rate-limit penalty grows, up to the cap |
| Scoring.ProviderScore.AddErrorPenalty | scoring/scorer.go:140-160 | the error penalty grows up to the cap and a failed operation is counted |
| Scoring.ProviderScore.RecordSuccess | scoring/scorer.go:163-179 | a positive bonus lowers the error penalty, not below zero, and a successful operation is counted |
| Scoring.ProviderScore.RecordLatency | scoring/scorer.go:182-192 | the score's own window slides |
| Scoring.ProviderScore.UpdateLatencyPenalty | scoring/scorer.go:214-239 | the latency penalty is replaced, never negative |
| Scoring.ProviderScore.ApplyDecay | scoring/scorer.go:243-265 | the three decaying penalties shrink and snap to zero, the latency penalty stays |
| Scoring.Engine.constructor | scoring/engine.go:29-80 | a new engine has no scores, no samples and a repaired configuration |
| Scoring.Engine.RegisterProvider | scoring/engine.go:136-149 | a known name is left alone, a new one gets a fresh score object shared with nobody |
| Scoring.Engine.UnregisterProvider | scoring/engine.go:152-158 | one name leaves the board, its samples stay |
| Scoring.Engine.UpdateLatencyPenalty | scoring/engine.go:249-304 | with enough samples the named provider's latency penalty is its comparison with all peers, otherwise it stays |
| Scoring.Engine.Dispatch | scoring/engine.go:198-242 | each event kind moves its own penalty by its own weight |
| Scoring.Engine.RecordEvent | scoring/engine.go:161-246 | sampling, comparison and dispatch on the shared score objects are one update of the named provider, ignored when scoring is off or the name unknown |
| Scoring.Engine.ApplyDecay | scoring/decay.go:80-92 | the loop over the map decays every score exactly once |

## Left out

- Transport.HttpTransport.DrainAndExit: the five-second deadline is a number of rounds after which no request is accepted; the clock itself is not modelled.
- Wire.BuildBatch: JSON encoding of the payloads is not modelled.
- RateLimiter.WindowBound: states the limiter under check-then-record use with a positive request limit and, with bursts on, a window of at least that many nanoseconds. The manager records requests on success only.
- Manager.OpenIsNotSelected: uses the shorter of the two waits; which one applies is in TransitionsFollowHistory.
- Manager.ProviderManager.EveryProviderObeys: the flag and blocking clauses assume recorded times in order, as a clock that never goes back gives them.
- Manager.ProviderManager.RunOp: serialised operations only, with a strategy that returns no provider it was not given; a failed call's two critical sections are one step.
- Manager.ProviderManager.RunChain: the attempts told to the strategy are a list; their effect is proved on the round-robin strategy itself.
- Manager.ProviderManager.GetAvailableProviders: the strategy is a function parameter; what each strategy guarantees is proved in `Selection.dfy`.
- Manager.FindProviderByName: folds the case of ASCII letters only.
- Selection.SelectAdaptive: scores are read as a fixed function during one call; scores that change while being sorted are not modelled.
- Selection.GroupByPriority: the library sort of the priorities is an ordered insertion.
- HybridStore.ReadsArePlain: synchronous modes; asynchronous writes may land out of order and are not modelled, nor are concurrent callers of one store.
- HybridStore.HybridScoreStore.constructor: one store passed as both primary and cache is not modelled.
- RedisLock.RedisStore.Lock: network errors and the retry of a caller are not modelled; the token is a parameter.
- Scoring.FullRecovery: exact reals; floating-point rounding is not modelled.
- Scoring.PenaltiesStayBounded: penalties restored from a persistent store are not modelled.
- Scoring.Engine.constructor: loading scores from a configured store is not modelled.
- The waiting, backoff and jitter of the flush loop, the context deadline of Stop, OnError callbacks, logging and metrics.
- Retry delays, the allocated but unused semaphore, and health states, which nothing in the modelled code changes.
- The diagnostic history of penalties (scoring/penalties.go), its persistence, and the text of penalty reasons.
- PostgreSQL stores, the Redis stores apart from the lock, instrumented stores and conversions between stored and live scores.
- Provider HTTP clients, the configuration poller, webhooks, key derivation and payment monitoring: calls into libraries, or simple field copying.
- Builders, option setters and configuration updates while running.
