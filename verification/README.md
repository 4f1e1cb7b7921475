# A verified model of the throttling service

The service divides the rate limit of each resource among the clients that are interested in it. Clients keep
themselves registered by heartbeats, learn their share from the responses, and enforce it with local token buckets and a
queue of waiting requests. This project models the token bucket, the client registry, the resource manager, the
server's heartbeat handler and the client runtime, and proves what they promise: each alone, over whole runs, over all
interleavings of their critical sections, and together.

## How it is built

Every component that the program updates in place is a class whose methods follow the code (`TokenBucket`,
`ClientRegistry`, `ResourceManager`, `ThrottlingService`, `ThrottlingClient`, `FakeClock`). Each method is proved equal to
a small function on values (modules `Buckets`, `Registry`, `Shares`, `HeartbeatHandler`, `ClientRuntime`), and the theorems
are about those functions. Runs are sequences of steps; a run's state is defined from its last step, so that every
theorem over runs is one induction over one lemma about a step.

| files | contents |
|---|---|
| Numbers, Sets, Options, Ids, Clocks | sums over sets, harmonic numbers, the string order of `std::map`, the injected clock |
| Buckets, TokenBuckets, BucketRuns | the bucket as a value and as an object; ledger, windows, greedy optimality, transparency |
| Registry, RegistryLaws, LazyExpiry | the registry as a value and as an object; index, event log, lazy against eager expiry |
| Shares, Server | fair shares, the manager object, the heartbeat handler end to end |
| Client, ClientRuns, ClientLife, Queues | the client as values and as an object; its remote calls; interleavings, request ledger, admission bound, waiting times, stopping, starvation, whole queues |
| System, HandlerRuns, Replies | the whole service: server threads, responses in flight, the clients' buckets; what a response says under any interleaving |
| Overshoot, WorstCase, Convergence | harmonic bound, its tightness, convergence |
| FleetRate, FleetOvershoot | what the whole fleet admits once settled, and while clients still arrive |
| LockOrder | the locks of the server: order and freedom from deadlock |

The interleaving of server threads takes the registry's lock twice for every operation that expires, once to expire and
once for the body, and holds the manager's lock over both while one share is computed, as the code does. Responses may
be lost, delayed for ever, or delivered in any order. The client's interleaving has an explicit request in the worker's
hand and callers of `Acquire` that were refused and have not queued their request yet.

## Where the code and its documentation differ

The model follows the code.

- "Callback always executes eventually" (src/client/throttling_client.h:152) is false, for three reasons.
  First, not every request can be served. Left to the worker, a queued request at the head runs eventually if and only if
  its resource has a bucket and its count is not positive, or is within the burst and either the rate is positive or the
  tokens are there already (`WaitingTimes.RunsEventually`); a whole queue empties if and only if every request in it fits
  in this sense behind the ones before it (`WholeQueue.QueueEmpties`). A head without a bucket, or above its bucket's
  burst, blocks everything behind it, requests for other resources included, as long as the bucket stays missing or is
  kept (`WaitingTimes.HeadBlocksQueue`); both occur in short runs from a client's start (`WaitingTimes.BlockingHappens`).
  Second, later callers of `Acquire` overtake the queue: they can starve a head that is attainable at every poll, for any
  number of polls and any time, if and only if its count is positive (`Starvation.CallersStarveTheQueue`).
  Third, `Stop` discards what has not run (`RequestLedger.StopDiscardsTheRest`).
- "Burst: defaults to 1 second worth of tokens" (project.md:317) holds at creation. After any run that keeps the bucket
  the burst equals the rate if and only if the latest allocation is the one the bucket was created with
  (`FixedBurst.BurstIsOneSecond`); an allocation of one and then of two part them (`FixedBurst.BurstLagsBehind`). So a
  client that first hears a small share can never admit a request larger than that share while the bucket is kept
  (`FixedBurst.FirstAllocationCapsRequests`).

## Where a hypothesis is needed

- Allocations are "always consistent" (src/resource_manager/resource_manager.h:6) as the server computes them
  (`System.FairShareConserved`). The rates that clients hold are shares of earlier moments (`Replies.RatesAreGenuine`)
  and may sum to more than the limit: to no more than the limit times a harmonic number while nobody loses interest
  (`Overshoot.HarmonicBound`), which is attained (`WorstCase.BoundIsAttained`), and to the limit once all have heard the
  settled shares (`Convergence.ConvergesToFairShare`).
- Greedy admission is optimal for requests of one size. With several sizes it can be beaten
  (`GreedyAdmission.GreedyNeedsEqualCounts`).
- A successful heartbeat carries exactly the requested resources as long as no heartbeat on record lies in the future,
  whatever the timeout is (`HeartbeatHandler.SuccessIsComplete`), or the timeout is not negative, whatever the clock does
  (`HeartbeatHandler.HeartbeatEndToEnd`). With a negative timeout, which src/main.cc:108 refuses, and a clock gone
  backwards together, grants are lost (`HeartbeatHandler.BackwardClockLosesGrants`).
- Deadlock freedom needs listeners that take no lock (`LockOrder.LockingListenerWouldStick`).

## Model

| member | source | states |
|---|---|---|
| Clocks.FakeClock.constructor | src/token_bucket/token_bucket.h:73 | the clock starts at its epoch |
| Clocks.FakeClock.Advance | src/token_bucket/token_bucket.h:60-63 | time moves by the given amount, backwards if it is negative |
| Clocks.FakeClock.SetTime | src/token_bucket/token_bucket.h:66-69 | time becomes the given one, whatever it was |
| Ids.BeforeIsLexicographic | src/client_registry/client_registry.h:153 | one id comes before another exactly if at the end of their common prefix it ends or has the smaller character |
| Buckets.Fresh | src/token_bucket/token_bucket.cc:11-28 | a new bucket has rate >= 0 and 0 <= tokens <= burst for every rate and burst, negative ones included |
| Buckets.Refill | src/token_bucket/token_bucket.cc:84-104 | no refill, at any clock reading, breaks rate >= 0 or 0 <= tokens <= burst |
| Buckets.TryConsume | src/token_bucket/token_bucket.cc:30-43 | neither an admission nor a refusal breaks those bounds |
| Buckets.SetRate | src/token_bucket/token_bucket.cc:45-53 | no new rate, negative ones included, breaks those bounds |
| Buckets.SetBurst | src/token_bucket/token_bucket.cc:55-66 | no new burst, below the present tokens or negative, breaks those bounds |
| TokenBuckets.TokenBucket.constructor | src/token_bucket/token_bucket.cc:11-28 | the object starts as the fresh bucket at the clock's time |
| TokenBuckets.TokenBucket.TryConsume | src/token_bucket/token_bucket.cc:30-43 | new state and answer are those of the value-level operation, whose runs the ledger and the windows describe |
| TokenBuckets.TokenBucket.SetRate | src/token_bucket/token_bucket.cc:45-53 | tokens are settled at the old rate before the new one is set; the burst stays |
| TokenBuckets.TokenBucket.SetBurstSize | src/token_bucket/token_bucket.cc:55-66 | tokens are settled under the old burst and then capped by the new one |
| TokenBuckets.TokenBucket.GetAvailableTokens | src/token_bucket/token_bucket.cc:78-82 | reports the level after a refill and leaves exactly that refill behind |
| TokenBuckets.TokenBucket.Refill | src/token_bucket/token_bucket.cc:84-104 | the in-place refill is the value-level one on every path, a clock gone backwards included |
| BucketRuns.RefillComposes | src/token_bucket/token_bucket.cc:84-104 | refilling at s and again at t is refilling once at t, through the cap |
| BucketRuns.LastRefill | src/token_bucket/token_bucket.cc:84-104 | under a monotone clock the refill time never runs ahead of the trace |
| BucketParameters.ParametersInForce | src/token_bucket/token_bucket.cc:11-66 | after every trace the rate and the burst are the latest ones given, by the construction or since, negative ones counting as zero and a missing burst as the rate; a new bucket is full |
| BucketParameters.BackwardClock | src/token_bucket/token_bucket.cc:90-94 | a clock that goes back earns nothing and takes nothing; from the new reading on the bucket earns again, up to its burst |
| BucketLedger.StepBalances | src/token_bucket/token_bucket.cc:30-66 | for every operation and every clock reading, tokens after + admitted + discarded = tokens before + earned, and nothing negative is discarded |
| BucketLedger.TokenLedger | src/token_bucket/token_bucket.cc:30-66 | the same over every trace of consumes, rate and burst changes and clock moves, backward ones included; 0 <= tokens <= burst; no window admits more than its opening tokens plus what it earned |
| AdmissionWindows.LevelIsWindow | src/token_bucket/token_bucket.cc:30-43 | at fixed rate and burst the level is at least x if and only if every window back to a refill has room for x |
| AdmissionWindows.AdmissionWindow | src/token_bucket/token_bucket.cc:11-43 | a positive count is admitted if and only if, for the construction and every refill so far, what was admitted since plus the count is at most burst + rate * time since |
| AdmissionWindows.BurstPlusRate | src/token_bucket/token_bucket.cc:30-43 | from any refill on, a bucket that started full admits at most one burst plus rate * time |
| GreedyAdmission.GreedyKeepsUp | src/token_bucket/token_bucket.cc:30-43 | for requests of one size the bucket's own decisions stay ahead of any other affordable policy, request for request and token for token |
| GreedyAdmission.GreedyIsOptimal | src/token_bucket/token_bucket.cc:30-43 | at every prefix of every trace (rate, burst and clock may change in any way) no affordable policy has served more requests of one size |
| GreedyAdmission.GreedyNeedsEqualCounts | src/token_bucket/token_bucket.cc:30-43 | with requests of different sizes some affordable policy serves more: a concrete trace |
| Observations.ObservationTransparency | src/token_bucket/token_bucket.cc:30-104 | under a monotone clock, deleting (or inserting) level queries, refused consumes and same-value rate or burst changes anywhere changes no result of what remains |
| Registry.StaleListElements | src/client_registry/client_registry.cc:161-167 | the list collected in map order contains exactly the stale clients |
| Registry.RemoveAllClients | src/client_registry/client_registry.cc:173-175 | removing a list of clients, repetitions and strangers included, takes away those and no others |
| Registry.ExpireClients | src/client_registry/client_registry.cc:158-183 | expiry keeps exactly the clients whose silence does not exceed the timeout, with their entries unchanged |
| Registry.ExpireTwice | src/client_registry/client_registry.cc:158-176 | expiring again at the same instant changes no map and tells the listener nothing |
| ClientRegistries.ClientRegistry.constructor | src/client_registry/client_registry.cc:12-15 | an empty registry without a listener |
| ClientRegistries.ClientRegistry.SetListener | src/client_registry/client_registry.cc:17-20 | changes whether a listener is set and nothing else: nobody expires |
| ClientRegistries.ClientRegistry.RegisterClient | src/client_registry/client_registry.cc:22-49 | refuses the empty id without expiring; otherwise expires, then joins with an event or only renews the heartbeat |
| ClientRegistries.ClientRegistry.Heartbeat | src/client_registry/client_registry.cc:51-102 | fails, after expiring, exactly for ids that are not registered; the two index loops together compute the diff-based update |
| ClientRegistries.ClientRegistry.UnregisterClient | src/client_registry/client_registry.cc:104-116 | always succeeds; expires, then removes the client if it is there |
| ClientRegistries.ClientRegistry.GetClientsForResource | src/client_registry/client_registry.cc:118-129 | the index entry after expiry, the empty set if there is none |
| ClientRegistries.ClientRegistry.GetInterestedResources | src/client_registry/client_registry.cc:131-142 | the interests after expiry, the empty set for an unknown id |
| ClientRegistries.ClientRegistry.GetClientCount | src/client_registry/client_registry.cc:144-149 | the number of clients after expiry |
| ClientRegistries.ClientRegistry.IsClientRegistered | src/client_registry/client_registry.cc:151-156 | membership after expiry |
| ClientRegistries.ClientRegistry.ExpireStaleClients | src/client_registry/client_registry.cc:158-176 | the collect-then-remove loops perform the expiry whose effect ExpireClients characterises |
| ClientRegistries.ClientRegistry.CollectStale | src/client_registry/client_registry.cc:161-167 | the loop visits the map in key order and lists the stale clients in that order |
| ClientRegistries.ClientRegistry.RemoveClient | src/client_registry/client_registry.cc:185-210 | takes the client out of every index entry it is in, out of the map, and sends its interests with the event |
| ClientRegistries.ClientRegistry.IndexAdd | src/client_registry/client_registry.cc:81-83 | the client is inserted for exactly the given resources, creating missing entries |
| ClientRegistries.ClientRegistry.IndexDrop | src/client_registry/client_registry.cc:84-90 | the client is erased for exactly the given resources, and entries that become empty disappear |
| ClientRegistries.ClientRegistry.Tell | src/client_registry/client_registry.cc:44-46 | the event is recorded if and only if a listener is set |
| RegistryLaws.AgreesIsRebuilt | src/client_registry/client_registry.h:11 | the index lists exactly the interested clients and stores no empty set if and only if it equals a rebuild from scratch |
| RegistryLaws.ListedIsInterested | src/client_registry/client_registry.cc:118-129 | with such an index, the lookup for a resource is the set of clients that want it |
| RegistryLaws.RemoveKeepsIndex | src/client_registry/client_registry.cc:185-210 | removing a client keeps index and relation in agreement |
| RegistryLaws.BeatKeepsIndex | src/client_registry/client_registry.cc:57-93 | the incremental update for any new interests keeps them in agreement |
| RegistryLaws.JoinKeepsIndex | src/client_registry/client_registry.cc:31-41 | joining and re-joining keep them in agreement |
| RegistryLaws.RemoveKeepsLog | src/client_registry/client_registry.cc:191-209 | the left event carries exactly the interests the log replays to, and the log still replays to the clients |
| RegistryLaws.JoinKeepsLog | src/client_registry/client_registry.cc:31-46 | a joined event is sent for new clients only, and the log still replays to the clients |
| RegistryLaws.BeatKeepsLog | src/client_registry/client_registry.cc:65-99 | a change event is sent only for a change; added is disjoint from the replayed interests, removed contained in them, and the log still replays to the clients |
| RegistryLaws.ExpireKeeps | src/client_registry/client_registry.cc:158-176 | a whole expiry keeps the index in agreement and the log complete |
| RegistryLaws.ExpiryTells | src/client_registry/client_registry.cc:158-176 | a listener hears of exactly the stale clients, in the order of their ids, each with the interests it had; without a listener nothing is recorded |
| RegistryLaws.OperationsTell | src/client_registry/client_registry.cc:22-116 | after the expiry a registration, a heartbeat and an unregistration tell exactly of the new client, of the changed interests and of the client removed, and tell nothing if nothing changed or nobody listens |
| RegistryLaws.OperationsKeepLog | src/client_registry/client_registry.cc:22-116 | each whole operation keeps the log complete |
| RegistryLaws.RegisterMeans | src/client_registry/client_registry.cc:22-49 | after a registration the client is there, heard now, with the interests it had or none; everybody else and the index are as the expiry left them |
| RegistryLaws.UnregisterMeans | src/client_registry/client_registry.cc:104-116 | after an unregistration the client is in no map; everybody else is as the expiry left them |
| LazyExpiry.ServeClients | src/client_registry/client_registry.cc:22-176 | what each of the eight operations does to the client map, without the index, the log and the expiry loop |
| LazyExpiry.ServeAgrees | src/client_registry/client_registry.cc:22-183 | one operation keeps the lazy entry of a client and the session its call history defines in step, at the time of the call and at any later time |
| LazyExpiry.LazyIsEager | src/client_registry/client_registry.cc:17-183 | for every trace with a monotone clock and any timeout, every return value and query answer is the one defined client by client from the call history, where a client is gone the instant its silence exceeds the timeout |
| Shares.SharesSumToLimit | src/resource_manager/resource_manager.cc:48-76 | the allocations of a configured resource, summed over any clients that include the interested ones, equal its limit, or 0 if nobody is interested |
| Shares.ShareBounds | src/resource_manager/resource_manager.cc:48-76 | every allocation lies between 0 and the limit, is 0 for the others, and is the same for all interested clients |
| Shares.LimitsMean | src/resource_manager/resource_manager.cc:12-25 | exactly the non-negative limits are accepted and replace the old one, a removal leaves none, and no other resource is touched |
| Shares.AllocationMeans | src/resource_manager/resource_manager.cc:48-76 | an unconfigured resource gives 0 and expires nobody; a configured one gives limit / n to each of the n live interested clients and 0 to others, stale clients not counting and gone afterwards |
| Shares.AllAllocationsMean | src/resource_manager/resource_manager.cc:78-93 | the same for every interest of a live client; a client that is not live gets an empty map |
| Shares.NextShareDivides | src/resource_manager/resource_manager.cc:12-76 | the next share after a limit is set divides that limit, and after a removal is 0 |
| ResourceManagers.ResourceManager.constructor | src/resource_manager/resource_manager.cc:9-10 | no limits at the start |
| ResourceManagers.ResourceManager.SetResourceLimit | src/resource_manager/resource_manager.cc:12-20 | a negative limit is refused and changes nothing; any other is accepted and replaces the old one |
| ResourceManagers.ResourceManager.RemoveResource | src/resource_manager/resource_manager.cc:22-25 | tells whether there was a limit and leaves none |
| ResourceManagers.ResourceManager.GetResourceInfo | src/resource_manager/resource_manager.cc:27-41 | nothing, and no expiry, without a limit; else the limit and the number of interested clients after expiry |
| ResourceManagers.ResourceManager.GetAllocation | src/resource_manager/resource_manager.cc:48-76 | the object computes the share and the registry that AllocationMeans describes |
| ResourceManagers.ResourceManager.GetAllAllocations | src/resource_manager/resource_manager.cc:78-93 | though every share is a new call that expires again, the object computes the one consistent division that AllAllocationsMean describes |
| HeartbeatHandler.GrantedAllocations | src/resource_manager/resource_manager.cc:78-93 | after a recorded heartbeat the map lists each requested resource with limit / (live interested clients, caller included), or 0 without a limit |
| HeartbeatHandler.HeartbeatEndToEnd | src/server/throttling_server.cc:49-86 | it fails exactly for the empty id and for unknown or stale clients; the keys are the ids in the request if and only if the timeout is not negative or nothing was requested; then the values are the fair grants |
| HeartbeatHandler.HeartbeatRecords | src/server/throttling_server.cc:63-83 | a refused call changes nothing or has only expired the stale; a success records the time and exactly the ids in the request, answers exactly them, and leaves the other live clients alone |
| HeartbeatHandler.ApartMeans | src/server/throttling_server.cc:11-83 | with a manager on another registry the heartbeat is recorded in the one, and the shares are those of the other, expired at its own clock |
| HeartbeatHandler.SuccessIsComplete | src/server/throttling_server.cc:67-83 | with no heartbeat on record in the future, every success carries exactly the requested ids with their fair grants, for every timeout |
| HeartbeatHandler.BackwardClockLosesGrants | src/client_registry/client_registry.cc:178-183 | for every negative timeout, a client registered that much later than the present clock reading gets a success with no grants, whatever it asks for |
| ThrottlingServices.ThrottlingService.constructor | src/server/throttling_server.cc:11-13 | the handler uses the given registry and manager, whatever registry the manager was built on |
| ThrottlingServices.ThrottlingService.Heartbeat | src/server/throttling_server.cc:49-86 | with a manager on the same registry the handler computes the response and registry of HeartbeatEndToEnd and HeartbeatRecords; with a manager on another one those of ApartMeans |
| ClientRuntime.ReconcileMeans | src/client/throttling_client.cc:376-400 | the bucket keys are the allocation keys; a surviving bucket keeps its burst and what it earned at the old rate, capped, and earns at the new rate clamped at 0 from now on; a new one is full with burst = rate |
| ClientCalls.TalkIsOrderly | src/client/throttling_client.cc:144-207 | over any starts, heartbeats and stops, every heartbeat and every unregistration comes after a registration with no unregistration in between, and a running client is registered |
| ThrottlingClients.ThrottlingClient.constructor | src/client/throttling_client.cc:130-136 | not running, no buckets, nothing queued, nothing sent |
| ThrottlingClients.ThrottlingClient.SetResourceInterests | src/client/throttling_client.cc:209-212 | replaces the interests |
| ThrottlingClients.ThrottlingClient.TryBucket | src/client/throttling_client.cc:217-227 | no bucket means refusal; otherwise only the bucket of that resource changes |
| ThrottlingClients.ThrottlingClient.Acquire | src/client/throttling_client.cc:214-240 | the callback runs at once, or the request goes to the end of the queue, never both and never neither |
| ThrottlingClients.ThrottlingClient.WorkerIteration | src/client/throttling_client.cc:295-341 | the head runs and leaves, or is put back in front and the queue is as before |
| ThrottlingClients.ThrottlingClient.Attempt | src/client/throttling_client.cc:321-340 | the popped request runs, or returns to the front of the queue, never both and never neither |
| ThrottlingClients.ThrottlingClient.WorkerLoop | src/client/throttling_client.cc:294-342 | the loop, woken at any times, is the sequence of turns that the waiting-time theorems describe |
| ThrottlingClients.ThrottlingClient.UpdateTokenBuckets | src/client/throttling_client.cc:376-400 | the two loops together compute the reconciliation that ReconcileMeans describes |
| ThrottlingClients.ThrottlingClient.UpdateOrCreateAll | src/client/throttling_client.cc:381-390 | all allocated buckets are re-rated or created, all others are untouched |
| ThrottlingClients.ThrottlingClient.UpdateOrCreate | src/client/throttling_client.cc:382-389 | one bucket is re-rated in place or created, no other changes |
| ThrottlingClients.ThrottlingClient.RemoveUnallocated | src/client/throttling_client.cc:393-399 | erasing while iterating keeps exactly the allocated buckets, the same objects, and terminates |
| ThrottlingClients.ThrottlingClient.SendHeartbeat | src/client/throttling_client.cc:344-374 | sends exactly one heartbeat, with the client's id and its current interests; a failed call changes no bucket; a response reconciles the buckets |
| ThrottlingClients.ThrottlingClient.Start | src/client/throttling_client.cc:144-171 | running already: nothing is sent or changed; refused registration: a registration is sent and nothing else happens; else running, exactly a registration and then one heartbeat are sent, with its buckets if it succeeded, and true either way |
| ThrottlingClients.ThrottlingClient.Stop | src/client/throttling_client.cc:173-207 | a running client sends one unregistration and ends with no buckets and an empty queue, and nothing more is executed; a stopped one does nothing |
| ClientRuns.TurnRefines | src/client/throttling_client.cc:294-342 | a pop followed by a run, or by a refusal and a re-queue, is the turn the client object's loop body computes |
| ClientLife.AcquireRefines | src/client/throttling_client.cc:214-240 | an immediate run, or a refusal followed by the queueing, is what the client object's Acquire computes |
| ClientLife.StartRefines | src/client/throttling_client.cc:144-171 | the launch and the first response are what the object's Start computes |
| ClientLife.EmptyTurn | src/client/throttling_client.cc:299-319 | an iteration that finds no request changes nothing |
| ClientLife.WorkerLeaves | src/client/throttling_client.cc:294-342 | once halted, a worker at any point of its loop can leave it, running or returning at most the request it holds or pops |
| ClientLife.StopCompletes | src/client/throttling_client.cc:173-207 | from any running state a stop can be completed and ends idle, with the worker out of its loop, no buckets and an empty queue, as the object's Stop says |
| ClientLife.StoppedAdmitsNothing | src/client/throttling_client.cc:198-206 | after the buckets are cleared nothing runs, by either path, until a response is applied |
| RequestLedger.StepKeepsOrder | src/client/throttling_client.cc:214-342 | each step keeps: enqueued this epoch = run from the queue, then in the worker's hand, then queued, in order |
| RequestLedger.StepKeepsCount | src/client/throttling_client.cc:214-342 | each step keeps every issued request accounted for exactly once |
| RequestLedger.LedgerHolds | src/client/throttling_client.cc:173-342 | both in every interleaving of callers, worker, heartbeats, starts and stops, at every moment; after Stop has joined the worker it is out of its loop |
| RequestLedger.AtMostOnce | src/client/throttling_client.cc:214-342 | a request issued once runs at most once, over both paths, and not at all while it waits anywhere or once it was discarded |
| RequestLedger.StopDiscardsTheRest | src/client/throttling_client.cc:173-207 | when Stop clears the queue the worker's hand is empty and exactly what was enqueued and not run is discarded |
| AdmissionBound.StepPays | src/client/throttling_client.cc:214-400 | whatever a step admits, by either path, is paid for by the tokens the bucket can hand out now plus the step's credit |
| AdmissionBound.AdmissionIsBounded | src/client/throttling_client.cc:214-400 | over any window of any run, both paths together admit at most the tokens the bucket can hand out at the start, at most its burst, plus the allocation of every bucket created plus the rate in force over time, across rate changes, removals and re-creations |
| AdmissionBound.AdmissionFromTheStart | src/client/throttling_client.cc:214-400 | from a client's first moment the same without an opening balance |
| WaitingTimes.ReadyMeans | src/token_bucket/token_bucket.cc:84-104 | the uncapped level reaches a count exactly from last refill + max(0, (count - tokens) / rate) on |
| WaitingTimes.ExactWait | src/client/throttling_client.cc:294-342 | a head request within the burst, at a positive rate and without competition, is admitted at the first poll from that time on and at no earlier one, however often it was popped and put back |
| WaitingTimes.NeverAdmitted | src/client/throttling_client.cc:294-342 | a head without a bucket, above the burst, or short of tokens at rate zero is admitted at no poll, however time moves, nor is anything behind it |
| WaitingTimes.RunsEventually | src/client/throttling_client.cc:294-342 | with the worker as the only consumer: some poll admits the head if and only if its resource has a bucket and its count is not positive, or is within the burst and either the rate is positive or the tokens suffice already; then a poll after any given time does |
| WaitingTimes.HeadBlocksQueue | src/client/throttling_client.cc:294-342 | in the full interleaving, a head without a bucket or above its burst stops every queued request of any resource, whatever callers, heartbeats and clock do, while the bucket stays missing or kept and the epoch lasts |
| WaitingTimes.BlockingHappens | src/client/throttling_client.cc:144-240 | both occur in legal runs from a client's first moment: for every request, a head without a bucket; for every count above one, a head above its bucket's burst |
| Starvation.CallersStarveTheQueue | src/client/throttling_client.h:152-155 | for a client in use: any number of polls over any time, in legal runs from its first moment, may refuse a queued head that is attainable at each of them, if and only if its count is positive, because callers take the tokens first |
| Starvation.NothingIsNeverRefused | src/client/throttling_client.cc:331 | in the full interleaving a request with a count that is not positive is refused by no poll that finds its bucket |
| WholeQueue.TurnKeepsFit | src/client/throttling_client.cc:294-342 | no turn of the worker, at any clock reading, changes whether the requests still queued fit |
| WholeQueue.PollsKeepFit | src/client/throttling_client.cc:294-342 | what ran and what is queued, in order, are the queue at the start, after any polls at any times |
| WholeQueue.QueueEmpties | src/client/throttling_client.h:11-13 | left to the worker at fixed rates, some polls empty the queue if and only if each request has a bucket and a count that is not positive, or within the burst where either the rate is positive or the positive counts for that resource up to it fit in the tokens; then all run, in order, after any given time |
| FixedBurst.BurstNeverChanges | src/client/throttling_client.cc:376-400 | a bucket that is kept has the burst it was created with after every run |
| FixedBurst.RateIsLatest | src/client/throttling_client.cc:376-400 | the rate of a kept bucket is the latest allocation heard, negative ones counting as zero |
| FixedBurst.BurstIsOneSecond | project.md:317 | after any run that keeps a created bucket, burst equals rate if and only if the latest allocation is the first one |
| FixedBurst.BurstLagsBehind | src/client/throttling_client.cc:376-400 | a legal run of three steps ends with burst 1 and rate 2 |
| FixedBurst.FirstAllocationCapsRequests | src/token_bucket/token_bucket.cc:45-53 | from the response that creates a bucket on, while it is kept, neither path admits a request larger than that first allocation, however far later heartbeats raise the rate |
| System.SectionKeeps | src/client_registry/client_registry.cc:22-176 | every critical section of every server thread keeps the index in agreement and the log complete; which sections they are is stated in HandlerRuns |
| System.StepFrames | src/server/throttling_server.cc:49-130 | only sections change the registry, only accepted limits and removals the limits, only a response, a request or a stop the buckets of that one client; a delivered or lost call is over |
| System.StepKeeps | src/client_registry/client_registry.cc:22-176 | so does every step of the whole service, and limits stay non-negative |
| System.RunKeepsSound | src/token_bucket/token_bucket.cc:11-66 | no run of the whole service breaks rate >= 0 or 0 <= tokens <= burst in any client's bucket |
| System.RegistryConsistent | src/client_registry/client_registry.cc:22-210 | in every reachable state of every interleaving the index equals a rebuild, the event log is coherent, and replaying it gives the registered clients with their interests |
| System.FairShareConserved | src/resource_manager/resource_manager.cc:12-76 | in every reachable state the shares of a configured resource sum to its limit (0 without interest), lie between 0 and the limit, and are equal |
| HandlerRuns.HandlerAlone | src/server/throttling_server.cc:49-86 | the sequential handler is the run in which its thread works alone: same registry, same response, through exactly the registry states of the code's critical sections |
| HandlerRuns.BeatAlone | src/client_registry/client_registry.cc:51-102 | its first half: expiry, then the heartbeat's body, as two sections of one thread |
| HandlerRuns.RegisterAlone | src/client_registry/client_registry.cc:22-49 | a registering thread alone performs the registry's whole operation in two sections |
| HandlerRuns.UnregisterAlone | src/client_registry/client_registry.cc:104-116 | so does an unregistering thread: the client is out of the map, everybody else is as the expiry left them |
| HandlerRuns.AskAlone | src/client_registry/client_registry.cc:118-156 | a query thread alone expires the stale clients and changes nothing else |
| HandlerRuns.DivideSections | src/resource_manager/resource_manager.cc:48-76 | the lookup of the limit and the two sections of the query under the manager's lock compute one share as AllocationMeans says, at whatever moment |
| HandlerRuns.ListAndShare | src/resource_manager/resource_manager.cc:78-93 | the same for its second half, the lookup and division under the manager's lock resource by resource |
| Replies.StepIsGenuine | src/server/throttling_server.cc:67-83 | each step of any thread keeps: what a call carries comes from moments of that call |
| Replies.RepliesAreGenuine | src/resource_manager/resource_manager.cc:48-93 | in every interleaving a response lists exactly the interests the caller had at some moment of the call, and each share is l / k (0 if the caller was not interested), with k interested clients at some moment of the call and l a limit in force then or earlier in the call, or 0 with no limit at some moment |
| Replies.StepIsHeard | src/client/throttling_client.cc:376-400 | a step gives a client a new rate only by delivering a share from such a response, counted as zero if negative |
| Replies.RatesAreGenuine | src/client/throttling_client.cc:344-400 | in every reachable state, with departures, losses and late deliveries, every rate a client holds is a share of this kind from one past call |
| Overshoot.OneNewcomer | src/client_registry/client_registry.cc:51-102 | one critical section adds at most one client to those interested in a resource |
| Overshoot.StepStaysTame | src/resource_manager/resource_manager.cc:48-93 | each step keeps every rate held, carried or about to be computed within the share of the moment its client arrived |
| Overshoot.CapsSumUp | src/client/throttling_client.cc:376-400 | rates so bounded, summed over any clients, are at most limit/1 + ... + limit/n |
| Overshoot.HarmonicBound | src/client/throttling_client.cc:344-400 | from an empty server, while nobody loses interest and the limit is at most L, all held rates sum to at most L * (1 + 1/2 + ... + 1/n), with responses lost, late or out of order |
| WorstCase.Arrivals | src/server/throttling_server.cc:67-83 | there is a legal run after which n clients, each heard once, hold limit/1, limit/2, ..., limit/n in order of arrival |
| WorstCase.BoundIsAttained | src/server/throttling_server.cc:67-83 | for every n there is a legal run on which the harmonic bound holds with equality |
| Convergence.SettledRunConverges | src/server/throttling_server.cc:49-86 | along a settled run every thread carries or will compute the fair share, and every client served has it |
| Convergence.ConvergesToFairShare | src/server/throttling_server.cc:49-86 | if interest and limit stay fixed, nothing older is in flight and every interested client receives one response, each holds exactly limit / n, the rates sum exactly to the limit, and further steps leave this so |
| FleetRate.WindowPays | src/client/throttling_client.cc:214-400 | what a client of a settled fleet admits within a window comes out of its bucket's level at the opening and what it earns |
| FleetRate.StepPays | src/client/throttling_client.cc:214-400 | each step of the service pays for what it admits at a client out of that purse, capped by the burst |
| FleetRate.FleetObeysLimit | src/client/throttling_client.cc:214-400 | between two clock readings a settled fleet admits at most the tokens its buckets hold at the first, which the bursts cap, plus limit * time between, however long it was idle before |
| FleetRate.FleetAfterConvergence | src/server/throttling_server.cc:49-86 | in any reachable state with nothing in flight: one response each, and from then on the fleet as a whole obeys the limit so, given that clocks do not go backwards and no interested client is stopped |
| FleetOvershoot.StepReserves | src/client/throttling_client.cc:214-400 | whatever a step admits at one client is paid for by what its bucket could earn at its cap, plus the burst of a bucket the step creates |
| FleetOvershoot.ClientAdmits | src/client/throttling_client.cc:214-400 | a client whose rate never exceeds a cap admits at most the bursts created for it plus cap * time, across removals and re-creations |
| FleetOvershoot.CapsBoundHistory | src/resource_manager/resource_manager.cc:48-93 | along a growing run no client's rate ever exceeds the share of the moment it arrived |
| FleetOvershoot.GrowingFleetAdmits | src/client/throttling_client.cc:214-400 | along any growing run from an empty server, any clients together admit, between two clock readings, at most the bursts of the buckets created for them plus limit * (1 + 1/2 + ... + 1/n) * time |
| LockOrder.ProgramsOrdered | src/resource_manager/resource_manager.cc:27-115 | every operation takes locks only in the order manager, registry, clock, looks at the clock only under the registry's lock, and ends holding none, for any numbers of clients and resources |
| LockOrder.ProgramsTake | src/client_registry/client_registry.cc:22-176 | each operation takes the registry's lock once to expire and once for its body, looks at the clock once per client expired and once if it records a time, and takes the manager's lock once per share |
| LockOrder.AllocationHolds | src/resource_manager/resource_manager.cc:48-76 | the manager's lock is taken first, once, and released last around both sections of a share's query |
| LockOrder.RunsKeepOrder | src/client_registry/client_registry.cc:22-176 | in every interleaving each thread stays on its ordered program and no lock has two holders |
| LockOrder.DeadlockFree | src/resource_manager/resource_manager.cc:27-115 | in every reachable interleaving with an unfinished thread some thread can step |
| LockOrder.NeverRetaken | src/client_registry/client_registry.cc:22-176 | no thread ever comes to take a lock it already holds |
| LockOrder.LockingListenerWouldStick | src/resource_manager/resource_manager.cc:95-115 | the callbacks have to be no-ops: with one that took the manager's lock, the thread computing a share would, after 2 + 2n steps of an expiry over n clients that finds a stale one, wait for good for the lock it holds |

## Left out

- Channels, stubs, protobuf messages and the text of gRPC statuses: a remote call is a parameter or a step that may fail or deliver late.
- The fake stub, src/main.cc, and the handlers RegisterClient, UnregisterClient, GetAllocation, SetResourceLimit and GetResourceLimit: each validates and delegates one call.
- Plain readers (GetRate, GetBurstSize, HasResource, the client's GetAllocation, IsRunning, GetPendingCount): they would only add easy members.
- Doubles are reals: rounding, NaN and infinities are outside, and so is the narrowing of the client count to 32 bits in a response.
- RealClock: time is a real number that steps set freely; theorems that need a monotone clock say so.
- Registry.ExpireClients: one clock reading serves a whole expiry and the body after it, where the code reads the clock once per client; between the two critical sections of an operation time may pass in module System.
- ThrottlingClients.ThrottlingClient.TryBucket: bucket lookup and consumption are one step, where the code drops its mutex in between; the lifetime of a bucket erased in that gap is outside.
- ThrottlingClients.ThrottlingClient.WorkerLoop: the object's methods run one after the other, on a clock set between turns; the interleavings are in module ClientRuns, where waiting and waking are arbitrary steps and the 10 ms wait has no length.
- ThrottlingClients.ThrottlingClient.Start: Start and Stop are called by one controlling thread and never from a callback; the threads they create and join are steps of ClientRuns.
- ThrottlingClients.ThrottlingClient.Acquire: a callback is an opaque identifier recorded when it runs; null callbacks and what a callback does are outside.
- WaitingTimes.ExactWait: without competition for the bucket and at a fixed rate; with other consumers a head may starve, and only the ledger and the bounds hold.
- Overshoot.HarmonicBound: while nobody loses interest; with departures, clients that no longer count may keep old shares for as long as they are silent; then only Replies.RatesAreGenuine says what they are.
- Convergence.ConvergesToFairShare: shares already in flight at the start are excluded, since a late response would undo a fair rate.
- LockOrder.DeadlockFree: the locks of the server only; the client's and the bucket's mutexes are not part of this order.
- The order in which a set of resources is visited: it cannot be observed in the results, so the loops pick any element. The order of clients during expiry can, and is modelled.
