# Verified model of the OLT gateway's core

The service polls optical line terminals (OLTs) over SNMP and serves what it reads over HTTP.
This project models the parts of it whose correctness depends on more than one function:

- **the SNMP connection pool** (`SnmpPool.dfy`, `SnmpRepository.dfy`): a semaphore, a buffered channel,
  an atomic closed flag, and a `recover` around a send on a closed channel;
- **the OLT registry and its lifecycle protocol** (`RegistryProtocol.dfy`, `Registry.dfy`,
  `RegistryTopology.dfy`, `RegistryPools.dfy`): reconciling, tracked workers, retiring a stack, background closers, shutdown;
- **the trap batcher** (`TrapEvents.dfy`, `TrapStatuses.dfy`, `BatcherProtocol.dfy`,
  `BatcherRates.dfy`, `BatcherFlush.dfy`, `Batcher.dfy`):
  per-severity queues under a mutex and a flush that drops the lock between ONUs;
- **keys and codecs** (`CacheKeys.dfy`, `ChangeKeys.dfy`, `Oids.dfy`): Redis keys, request-coalescing
  keys, the connection change key, the ifIndex encoding and its decoder;
- **topology and configuration** (`Boards.dfy`, `Olts.dfy`);
- **ONU lists and their cache** (`OnuList.dfy`, `RedisStore.dfy`, `OnuUsecase.dfy`);
- **loops against an environment** (`ClientIp.dfy`, `RegistryRetry.dfy`, `Health.dfy`).

`Text.dfy`, `Sorting.dfy`, `Tally.dfy` and `Runs.dfy` hold what these share: splitting, joining and
decimal text, sorting by contract, sums over sequences, and runs of a step relation.

## How concurrency is modelled

The pool, the registry, the batcher and the shared Redis instance are first given as step systems. One step
is one atomic action of one goroutine (a channel operation, an atomic load, a Redis command, a whole critical
section where the code holds a lock throughout), so a run is an arbitrary interleaving of any number of
goroutines. Invariants are proved for every step and therefore hold over every run. `Runs.dfy` defines runs
once for all of them.

The classes `SnmpRepository`, `OLTRegistry`, `Batcher` and `OnuUsecase` then hold the code of each method, in
the source's order. Between two atomic actions a method yields. What it may rely on afterwards is only that a
run has happened which took none of the labels that belong to itself; that such a run leaves its program
counter, its entries or its flush alone is a lemma each time (`OthersKeepOp`, `BackgroundRun`, `ReaderRun`,
`OthersKeepFlush`). Each method is shown to be part of a run of the step system, so the invariants of all runs
apply to it. `Batcher` keeps the source's nested maps as its own fields, and its validity says that they
partition the simple map of the step system. `RegistryPools.dfy` runs the registry and the pools of all its
stacks together.

A registry object is only ever given configs whose topology is well formed. Both callers of `Reconcile`, the
poller and the startup code, are modelled and proved to hand over such configs.

Each Redis command carries the number of the request that issued it, which Redis does not see, so "this request
issued exactly these commands" is a statement about its own commands among those of all others.

Outcomes the code does not determine (SNMP answers, whether a dial or a Redis command succeeds, what the
registry returns, how long a sleep takes, how an address is parsed) are parameters, quantified over in every
statement.

## What the properties turned out to need

- Two OLT configurations have equal change keys exactly when nothing that matters for the connection
  differs, provided neither host is *ambiguous*: no field of the host after its first `|` reads as a port
  number. A host without `|` is never ambiguous. `AmbiguousHostsCollide` builds a collision for every
  ambiguous host; `CollisionExample` is one between two configs the code accepts: host `h|1`, port 161, community
  `c`, and host `h`, port 1, community `161|c`.
- The ONU list is strictly ascending exactly when no two id texts of the walk denote the same number,
  which canonical decimals guarantee. It is independent of the map's iteration order exactly when id texts
  of one number come with equal records. `LeadingZeroLists` gives the failing walk and its two lists; an agent whose
  OIDs are printed from integers never produces it.
- Header lines to the left of the hop at which the proxy walk stops never change the client address. When
  every hop is a trusted proxy they do, and `TrustedChainIsWalkedThrough` says how.
- The validator and the OID map agree on every port if and only if every configured PON count is in range,
  which `parseBoardSpecs` guarantees.

Where code and comments differ, the model follows the code: `registryStartupTimeout` is described as
replacing a non-positive duration by the default, but it honours every duration that parses
(config/registry.go:28-42); `GetDefault` is described as deterministic, but falls back to any entry, and is
not part of this model.

## Model

| member | source | states |
|---|---|---|
| SnmpPool.InitInv | internal/repository/snmp.go:69-113 | a freshly opened pool has every connection in the channel and satisfies the invariant |
| SnmpPool.PlacesStep | internal/repository/snmp.go:135-248 | no step changes in how many places (channel, one operation, the drainer, closed) a connection is |
| SnmpPool.TotalStep | internal/repository/snmp.go:135-248 | no step changes how many connections there are in all places together |
| SnmpPool.StepInv | internal/repository/snmp.go:135-248 | every atomic action of acquire, release, an operation or Close keeps the pool invariant |
| SnmpPool.RunInv | internal/repository/snmp.go:135-248 | the invariant holds over every interleaving |
| SnmpPool.ExclusiveUse | internal/repository/snmp.go:135-181 | in every reachable state a connection in use is open, not in the channel, not with the drainer, and used by nobody else |
| SnmpPool.ClosedExactlyOnce | internal/repository/snmp.go:203-215 | after Close and the return of all operations every connection was closed exactly once, also when a release raced with closing the channel |
| SnmpPool.HeldWithinLimit | internal/repository/snmp.go:166-181 | operations holding a connection never exceed the semaphore limit nor the number of connections |
| SnmpPool.SendNeverBlocks | internal/repository/snmp.go:146-163 | giving a connection back never blocks on a full channel |
| SnmpPool.RefusedOnlyWhenClosed | internal/repository/snmp.go:135-181 | an operation fails with "SNMP pool closed" only after Close was called |
| SnmpPool.BlockedReceiveHasHolder | internal/repository/snmp.go:135-143 | a blocked acquire implies another operation holds a connection, or Close is about to close the channel |
| SnmpPool.NeverDeadlocks | internal/repository/snmp.go:166-248 | while an operation is unfinished some step of the pool's own code is enabled |
| SnmpPool.InternalStepsAreBounded | internal/repository/snmp.go:135-248 | every step of the pool's own code decreases the work left, so without new calls it comes to rest |
| SnmpPool.EveryOperationReturns | internal/repository/snmp.go:135-248 | from every reachable state every operation can return within that bound, and a called Close drains the pool |
| SnmpRepository.SnmpRepository.constructor | internal/repository/snmp.go:69-113 | the pool starts with the seed connection and those that opened, in an initial state of the step system |
| SnmpRepository.SnmpRepository.Acquire | internal/repository/snmp.go:135-143 | a run of the operation's own steps: refused when the pool was closed before, else yields an open connection for it alone, reports a closed pool, or is blocked by another holder |
| SnmpRepository.SnmpRepository.Release | internal/repository/snmp.go:146-163 | a run that always gives the connection back or closes it, without blocking, in every race with Close |
| SnmpRepository.SnmpRepository.Close | internal/repository/snmp.go:203-215 | the first call is a run that ends with flag set, channel closed and empty; a later call changes nothing, and waits while the first one is still at work |
| SnmpRepository.ClosedChannelShrinks | internal/repository/snmp.go:203-215 | after the channel is closed its buffer only shrinks, so the drain loop terminates |
| SnmpRepository.OthersKeepOp | internal/repository/snmp.go:135-163 | whatever other operations and Close do, an operation stands where it stood |
| RegistryProtocol.StepInv | app/registry.go:146-360 | every atomic action of Reconcile, Close, GoForEach, a worker or a background closer keeps the registry invariant |
| RegistryProtocol.RunInv | app/registry.go:146-360 | the invariant holds over every interleaving |
| RegistryProtocol.RetiredWorkerHasCloser | app/registry.go:264-276 | when the active counter is read while a worker of the stack is live, the close is left to a background closer that waits for that worker's lifecycle |
| RegistryProtocol.WorkerNeverMeetsClosedPool | app/registry.go:264-299 | in every interleaving a tracked worker's function never runs while its stack's pool is closed |
| RegistryProtocol.CopiesShareLifecycle | app/registry.go:192-206 | all workers of one stack share one lifecycle across metadata-only copies of its entry |
| RegistryProtocol.StackInOneState | app/registry.go:146-276 | every stack ever opened is mapped and open, retired with exactly one pending closer, or closed exactly once |
| RegistryProtocol.LeftoverCloserActs | app/registry.go:271-275 | with nothing mapped and all workers done, an open stack has a closer that can act at once |
| RegistryProtocol.ShutdownClosesAll | app/registry.go:352-360 | after Close, once all workers have returned, the background closers close every stack exactly once |
| RegistryPools.StepInv | app/registry.go:264-276 | registry and pools together: a pool's flag is set only once its stack was closed, and every pool keeps its own invariant |
| RegistryPools.JobNeverSeesPoolClosed | app/registry.go:258-299 | while a tracked worker's function runs, no operation on its OLT's pool has been refused because the pool is closed, and no connection of it is closed |
| Registry.OLTRegistry.constructor | app/registry.go:80-87 | a new registry is the initial state |
| Registry.OLTRegistry.CancelWorkers | app/registry.go:264-266 | the entry's lifecycle exists and is canceled before anything is closed; other entries are untouched |
| Registry.OLTRegistry.RetireEntry | app/registry.go:264-276 | a run that settles the stack: closed now, or left to exactly one background closer |
| Registry.OLTRegistry.RemoveOltLocked | app/registry.go:249-256 | unmaps exactly this OLT and gives up its stack |
| Registry.OLTRegistry.AddOltLocked | app/registry.go:212-245 | succeeds exactly with a host, a port, a community and a successful dial; then maps the OLT to a newly opened stack built from its config, and otherwise leaves it unmapped |
| Registry.OLTRegistry.ApplyOlt | app/registry.go:165-207 | opened when new, rebuilt when the change key changed, otherwise same stack and lifecycle with the new metadata |
| Registry.OLTRegistry.Reconcile | app/registry.go:146-208 | converges for any unique-id input: an incoming OLT with the old change key keeps its stack; any other one is mapped exactly when its host, port and community are given and the dial succeeds, to a new stack from its config; no other id is mapped |
| Registry.DoneIsMapped | app/registry.go:165-207 | what that means for one incoming OLT, entry field by entry field |
| Registry.OLTRegistry.Close | app/registry.go:352-360 | empties the registry, with every stack closed or left to a closer |
| Registry.OLTRegistry.GoForEach | app/registry.go:282-299 | starts exactly one tracked worker for every OLT mapped when it was called, on that OLT's stack, and no other worker |
| Registry.OLTRegistry.Poll | app/registry.go:329-343 | a failed, empty or invalid poll changes nothing; any other poll converges to the decoded configs, which are well formed |
| Registry.OLTRegistry.Start | app/app.go:73-78 | startup fails without a change, or converges to the configured OLTs; a single OLT has the topology its text says |
| Registry.OLTRegistry.ValidatorsAgree | internal/middleware/validation.go:64-111 | in every state of the registry every entry's validator accepts a request exactly when its usecase finds the OIDs |
| Registry.BackgroundRun | app/registry.go:146-276 | every run of workers and closers leaves what a writer holding the lock sees alone |
| Registry.ReaderRun | app/registry.go:282-299 | while a reader holds the lock every run of the others keeps entries, stacks and existing lifecycles, and starts no worker in its name |
| Registry.ReconcileAgainKeepsAll | app/registry.go:182-206 | repeating the same input retires nothing and keeps every lifecycle |
| Registry.RetiredExactly | app/registry.go:157-186 | a stack stays owned if and only if its OLT came in with the same change key |
| Registry.KeptIsSameConnection | app/registry.go:182-186 | for unambiguous hosts that is exactly when nothing that matters for the connection changed |
| RegistryTopology.TopologyRun | app/registry.go:198-206 | over every run of a registry given well-formed configs, an entry's slot map, config and its usecase's OID map describe the same ports |
| RegistryTopology.ValidatorAgreesInEveryState | internal/middleware/validation.go:64-111 | in every state such a run leads to, a request passes the validator if and only if the usecase finds its OIDs |
| ChangeKeys.OltChangeKey | app/registry.go:383-393 | the key is a function of the config, whatever the map iteration order |
| ChangeKeys.ChangeKeyExact | app/registry.go:383-393 | for unambiguous hosts and any communities, keys are equal exactly when host, port, community, walk flag and topology are |
| ChangeKeys.EqualKeysSameBoards | app/registry.go:383-393 | whatever hosts and communities contain, equal keys mean equal topology and walk flag |
| ChangeKeys.PlainHost | app/registry.go:391-392 | a host without a vertical bar is unambiguous |
| ChangeKeys.AmbiguousHostsCollide | app/registry.go:391-392 | every ambiguous host has a config with the same key as one with another host, so the condition is exact |
| ChangeKeys.CollisionExample | app/registry.go:391-392 | two different connections the code accepts that have one key |
| CacheKeys.KeysNeverCollide | internal/usecase/onu.go:49-94 | keys are injective in OLT, kind, board, PON and ONU for all admissible ids, also against the unprefixed default OLT |
| CacheKeys.KeysCollideExactly | internal/usecase/onu.go:89-94 | for any prefixes at all, keys are equal exactly when prefix and slot are |
| CacheKeys.LastBoardMarksBase | internal/usecase/onu.go:49-61 | the last "board_" in a key starts its base, whatever the OLT id contains |
| CacheKeys.BaseKeyInjective | internal/usecase/onu.go:49-61 | unprefixed keys tell kind, board, PON and ONU apart |
| CacheKeys.DefaultKeepsKeys | internal/usecase/onu.go:86-94 | the default OLT keeps the unprefixed keys of a single-OLT instance, any other OLT's start with "olt_" and its id |
| CacheKeys.CallsAreSeparate | internal/usecase/onu.go:167-167 | two different calls about ports have different coalescing keys |
| CacheKeys.FlightsAreSeparate | internal/usecase/onu.go:947-950 | no two different flights of one OLT's group are coalesced, single-OID Gets and uplink detection included, so the shared result has the type the caller asserts |
| Oids.DecodeIfIndexExact | internal/trap/listener.go:198-233 | with 64-bit wrap-around and truncating division, exactly the generated indexes decode, each to its slot and PON |
| Oids.DecodeUndoesEncode | internal/trap/listener.go:198-233 | decoding undoes OID generation through decimal text for every slot, PON and non-negative ONU id |
| Oids.TrapColumnIsGenerated | config/oid_generator.go:85-112 | the column the trap decoder strips is the generated name column under the base OID |
| Oids.DecodableExactly | internal/trap/listener.go:198-233 | any text decodes to a board exactly when its index component is a generated index, which the result re-encodes |
| Oids.GeneratedOidsDiffer | config/oid_generator.go:85-112 | different ports have different OIDs in both index spaces |
| Oids.GeneratedColumns | config/oid_generator.go:85-112 | which of the twelve columns is in which index space, and the index formulas, for any way of writing a column and an index |
| Oids.NoOtherPorts | config/oid_generator.go:85-93 | OIDs exist exactly for slots 1..30 and PONs 1..16 |
| Oids.KnownIndexes | config/oid_generator.go:22-24 | the indexes of slots 1, 2 and 3 the documentation lists |
| Boards.ParseBoardSpecs | config/config.go:186-220 | every text gives a non-empty in-range map with the last part winning per slot, and its ascending key list |
| Boards.SlotWithPons | config/config.go:197-209 | "5:8" means slot 5 with 8 PONs, and an unusable count means the default |
| Boards.SlotAlone | config/config.go:197-204 | "5" means slot 5 with the default count, and a number that is no slot says nothing |
| Boards.SpecTextRoundTrip | config/config.go:186-220 | writing out any list of different in-range slots and reading it back gives exactly those slots and PON counts |
| Boards.DefaultTopology | config/config.go:211-215 | without any slot the topology is slots 1 and 2 with 16 PONs |
| Boards.InitializeBoardPonMapFromSpecs | config/oid_generator.go:139-158 | fails exactly for a slot outside the chassis; otherwise holds exactly the implied ports with their OIDs |
| Boards.FoundIsGenerated | config/config.go:424-431 | what is found for a port are that port's own generated OIDs |
| Boards.AgreementExact | internal/middleware/validation.go:64-111 | validator and OID map agree on every port if and only if every PON count is in range |
| Boards.AcceptedExactly | internal/middleware/validation.go:64-111 | a request is accepted with the numbers its texts denote, exactly for a slot of the topology and a PON up to its count |
| Boards.ParsedTopologyAgrees | config/config.go:424-431 | for every parsed topology a request text is accepted exactly when GetBoardPonConfig finds its port |
| Olts.OltFromJson | config/olts.go:136-182 | accepted exactly with id, host and community; normalizes port, concurrency and topology |
| Olts.BuildOltRegistry | config/olts.go:78-131 | succeeds exactly for decodable input with unique well-formed ids and an existing default, and returns that input normalized in order |
| Olts.DecodableMeans | config/olts.go:81-111 | a single OLT needs a host and a community, a list needs complete entries |
| Olts.IdPatternExact | config/olts.go:69-71 | ids are the non-empty texts over letters, digits, "-" and "_" |
| Olts.PortKept | config/olts.go:136-182 | a port that fits 16 bits is kept, any other is taken modulo 2^16 |
| OnuList.IndexWalk | internal/usecase/onu.go:201-206 | the map holds every id text of the walk with its last variable |
| OnuList.BuildList | internal/usecase/onu.go:212-253 | one record per id text, ordered by id, for any iteration order of the map |
| OnuList.AscendingExactly | internal/usecase/onu.go:250-253 | the list is strictly ascending if and only if no two id texts denote the same number |
| OnuList.ListedAreWalked | internal/usecase/onu.go:201-253 | the list has exactly the walked ids, for every walk |
| OnuList.RecordedFromLast | internal/usecase/onu.go:203-222 | every record comes from the last variable of its id |
| OnuList.RecordHasFields | internal/usecase/onu.go:214-241 | type, serial, RX power and status of a record are those its id has in their own columns; the serial without a leading "1,", the status by its code |
| OnuList.FailedGetLeavesBlank | internal/usecase/onu.go:233-242 | when the Get fails or is short the four details stay empty |
| OnuList.DeterminedExactly | internal/usecase/onu.go:212-253 | iteration order and sort choices do not matter if and only if texts of one number carry equal records |
| OnuList.CanonicalIsUnambiguous | internal/utils/extractor.go:11-45 | names ending in canonical decimals are unambiguous |
| OnuList.UnambiguousTiesAgree | internal/usecase/onu.go:250-253 | an unambiguous walk meets the condition for determinism |
| OnuList.LeadingZeroLists | internal/utils/extractor.go:11-45 | for ".1" and ".01" both orders of the two records are possible lists |
| OnuList.FreeIds | internal/usecase/onu.go:479-524 | exactly the ids 1..128 not walked, ascending |
| OnuList.ListedOrFree | internal/usecase/onu.go:501-519 | for one walk every id in 1..128 is either listed or free, never both |
| RedisStore.CoherentRun | internal/usecase/onu.go:86-94 | over every run of all OLTs' Redis commands everything stored was saved under the key of its OLT and slot |
| RedisStore.StoredIsOwn | internal/usecase/onu.go:86-94 | what is stored under an OLT's key was saved by that OLT for that slot and is an answer of its kind |
| RedisStore.DeletionSpares | internal/usecase/onu.go:984-1035 | deleting a slot's key deletes it for no other OLT, port or kind |
| RedisStore.IssuesLeads | internal/usecase/onu.go:161-275 | a request's own commands among those of all others are a run |
| RedisStore.CommandDoes | internal/repository/redis.go:74-90 | a save stores the value under its key, a deletion takes its key away, and no other key changes |
| RedisStore.IssuesThrough | internal/usecase/prewarm.go:22-57 | two parts of a request one after the other issue the commands of both, in order |
| OnuUsecase.OnuUsecase.GetByBoardIDAndPonID | internal/usecase/onu.go:161-275 | a hit is this OLT's own earlier answer for this port and issues nothing; a miss is the list of the device's current answers, and issues exactly the command that saves it, among any commands of other requests |
| OnuUsecase.OnuUsecase.AnsweredFields | internal/usecase/onu.go:198-241 | every record of a fresh list has the name of a variable walked in the port's name column and the details of its id in the port's other columns |
| OnuUsecase.OnuUsecase.RefreshONUInfoCache | internal/usecase/onu.go:278-322 | saves the list of the device's current answers under the port's key, and issues nothing when the walk fails |
| OnuUsecase.OnuUsecase.SameAnswers | internal/usecase/onu.go:278-322 | for the same SNMP answers refresh and foreground read give the same list |
| OnuUsecase.OnuUsecase.GetEmptyOnuID | internal/usecase/onu.go:455-540 | the free ids of the port, cached or fresh; an answer that cannot be saved is an error |
| OnuUsecase.OnuUsecase.UpdateEmptyOnuID | internal/usecase/onu.go:656-725 | saves fresh free ids, or fails and issues nothing |
| OnuUsecase.OnuUsecase.GetOnuIDAndSerialNumber | internal/usecase/onu.go:563-654 | a forced read never uses the cache; otherwise a hit is this OLT's own answer, and a miss is the sorted list of readable serial numbers |
| OnuUsecase.OnuUsecase.DeleteCache | internal/usecase/onu.go:966-1011 | issues the deletions of exactly the port's list and serial-list keys, or fails and issues none |
| OnuUsecase.OnuUsecase.InvalidateONUCache | internal/usecase/onu.go:1016-1035 | issues the deletions of exactly the ONU's detail key and the port's list and serial-list keys |
| OnuUsecase.OnuUsecase.PreWarmCache | internal/usecase/prewarm.go:13-65 | fetches each port's list, then its serial numbers, once, and starts no fetch after the context is done; the n-th fetch did what such a read of that port does with the device's n-th answers, and all fetches together issued exactly their commands |
| OnuUsecase.LinkedIssues | internal/usecase/prewarm.go:22-57 | the commands of all fetches, in order, are those of the request |
| OnuUsecase.SerialHasFields | internal/usecase/onu.go:770-777 | a serial number is read from the serial column of the ONU's own id and cut like that of a record |
| OnuUsecase.SerialsListed | internal/usecase/onu.go:608-622 | listed are the serial numbers of exactly the walked ONUs that could be read |
| TrapEvents.OnuKeyInjective | internal/trap/batcher.go:48-50 | keys are equal exactly for the same board, PON and ONU, negative numbers included |
| TrapEvents.ResolvedIsAlertOrOnline | internal/trap/handler.go:132-183 | a resolved status is an alert with a severity other than RX power, or online |
| TrapEvents.ReverifyKeepsOnu | internal/trap/batcher.go:183-240 | re-verification keeps ONU and severity and, outside RX power, yields only alerts |
| TrapEvents.HandlerDispatch | internal/trap/handler.go:51-126 | the handler queues or sends only alerts about the trap's own ONU and removes it exactly when verified online |
| TrapEvents.HandlerExact | internal/trap/handler.go:51-126 | a complete trap is ignored exactly when the fetcher did not find the ONU; else an alert is queued, or sent without a batcher, and anything else is removed |
| TrapEvents.AlertSeverities | internal/trap/handler.go:14-24 | alerts are exactly the types of critical, high or low severity, and which types these are |
| TrapStatuses.OnlineExactly | internal/trap/handler.go:132-162 | a status counts as online exactly when it says so or contains none of the known words |
| TrapStatuses.DeviceStatuses | internal/utils/extractor.go:109-134 | the event type of every status the device reports |
| TrapStatuses.OfflineStatus | internal/trap/handler.go:154-158 | offline is told apart by its reason, if there is one |
| TrapStatuses.OfflineReasons | internal/trap/handler.go:165-183 | the event type of every offline reason that has one of its own |
| BatcherProtocol.BatchInvStep | internal/trap/batcher.go:54-279 | every critical section keeps: each queued event is its own ONU's and of its queue's severity; batches are duplicate-free and of the flushed severity |
| BatcherProtocol.AddUpdates | internal/trap/batcher.go:54-75 | Add is an update of one ONU that keeps last-notified only when the severity is unchanged, and counts as one Add |
| BatcherProtocol.RemoveDeletes | internal/trap/batcher.go:83-95 | after Remove the ONU is not queued, and every other ONU is as before |
| BatcherProtocol.CleanupDrops | internal/trap/batcher.go:245-250 | cleaning up deletes exactly the dropped ONUs still in the severity |
| BatcherProtocol.MarkStamps | internal/trap/batcher.go:258-279 | marking stamps exactly the sent ONUs still in the severity, or deletes them when nothing repeats |
| BatcherProtocol.FlushNeverAdds | internal/trap/batcher.go:245-279 | every step but Add only deletes items or refreshes them |
| BatcherProtocol.RemovedUntilAdded | internal/trap/batcher.go:83-95 | over any run an ONU stays out from its Remove to its next Add |
| BatcherProtocol.MarkWritesOwnEvent | internal/trap/batcher.go:258-272 | every entry written back holds its own ONU's sent event, so the placeholder never survives |
| BatcherProtocol.BatchesAreGood | internal/trap/batcher.go:156-243 | every batch about to be sent in any run is non-empty and has distinct ONUs; each of its events is of the flushed severity and, outside RX power, re-verified as an alert |
| BatcherRates.SpacingStep | internal/trap/batcher.go:172-279 | every critical section keeps the spacing invariant, including what a running flush has judged to be due |
| BatcherRates.RepeatsAreSpaced | internal/trap/batcher.go:172-180 | an ONU that stays queued in one severity is notified at times at least the repeat interval apart |
| BatcherRates.SendsNeverExceedAdds | internal/trap/batcher.go:273-278 | with no repeat configured the sends of an ONU in a severity never exceed the Adds to it |
| Batcher.Batcher.constructor | internal/trap/batcher.go:37-46 | starts empty, as the initial state |
| Batcher.Batcher.Add | internal/trap/batcher.go:54-75 | the event is in its severity's group and no other, last-notified survives only there, every other entry is as before; the simple map is updated the same way |
| Batcher.Batcher.Remove | internal/trap/batcher.go:83-95 | no severity's group holds the ONU any more, and every other entry is as before; the simple map is updated the same way |
| Batcher.Batcher.FlushSeverity | internal/trap/batcher.go:141-290 | nothing when the severity is empty; else a whole flush: all its keys are snapshotted, each read and judged by the fetcher's answer about it, failed ones dropped, sent ones marked; in between only other goroutines run; the result is a good batch stamped with one time |
| BatcherFlush.FlushedLeads | internal/trap/batcher.go:141-290 | such a flush is part of a run |
| BatcherFlush.JudgeDecides | internal/trap/batcher.go:172-243 | a read entry joins the batch exactly when it was never notified or a repeat interval ago and, with a fetcher, the answer confirms it, with the answer's data; it is dropped exactly when the answer does not |
| BatcherFlush.FlushDecides | internal/trap/batcher.go:141-243 | every ONU of the snapshot is read once; if still queued it is judged by that entry, the time and the answer, and sent or dropped accordingly |
| BatcherFlush.DueIsSent | internal/trap/batcher.go:141-243 | an ONU left alone whose time had come when the flush began is sent exactly when there is no fetcher or its answer confirms it, and one whose time has not come is not |
| BatcherFlush.ReverifyConfirms | internal/trap/batcher.go:183-240 | re-verification gives an event exactly when the fetcher found the ONU with an alert of that severity, or for RX power a level out of range, and which fields the event takes over |
| BatcherFlush.OthersKeepFlush | internal/trap/batcher.go:161-170 | whatever runs while the lock is dropped leaves the flush where it stood |
| Batcher.Batcher.ReadKeys | internal/trap/batcher.go:161-243 | every snapshotted key is read and judged once |
| Batcher.Batcher.MarkKeys | internal/trap/batcher.go:258-279 | stamps exactly the sent keys still queued, with their own events, and removes them when nothing repeats |
| ClientIp.Contains | internal/middleware/client_ip.go:58-69 | true exactly when some prefix contains the unmapped address |
| ClientIp.ParseTrustedProxies | internal/middleware/client_ip.go:32-55 | fails exactly on a malformed entry; otherwise trusts exactly what some entry covers |
| ClientIp.MaskedContainsSame | internal/middleware/client_ip.go:43 | masking a prefix does not change what it contains |
| ClientIp.CidrIsRange | internal/middleware/client_ip.go:58-69 | a prefix contains exactly the addresses of its family from its masked address to the end of its block |
| ClientIp.SingleAddressTrusted | internal/middleware/client_ip.go:47-52 | a single address in the list trusts itself and no other |
| ClientIp.CidrTrusted | internal/middleware/client_ip.go:39-45 | a CIDR in the list trusts what its prefix contains |
| ClientIp.ResolveClientIP | internal/middleware/client_ip.go:82-119 | equals the specification over the hops of all header lines in order |
| ClientIp.ResolvedByCases | internal/middleware/client_ip.go:82-119 | what the client is for an unparsable, an untrusted and a trusted peer, with and without X-Forwarded-For and X-Real-IP |
| ClientIp.WalkIsClient | internal/middleware/client_ip.go:96-109 | the client is the rightmost untrusted hop, the peer if a malformed hop comes first, else the leftmost hop |
| ClientIp.ClientUnique | internal/middleware/client_ip.go:96-109 | that description determines the address |
| ClientIp.WalkConcat | internal/middleware/client_ip.go:96-109 | hops left of the stopping hop are never looked at; a trusted suffix is walked through |
| ClientIp.ForgedLinesIgnored | internal/middleware/client_ip.go:94-109 | header lines in front of a chain the walk stops in never change the result |
| ClientIp.TrustedChainIsWalkedThrough | internal/middleware/client_ip.go:98-109 | when all hops are trusted proxies, the walk goes on into the lines in front |
| Text.SplitOfJoinedLines | internal/middleware/client_ip.go:94-95 | splitting the joined header lines gives the hops of every line in order |
| RegistryRetry.FetchWithRetry | config/registry.go:48-74 | terminates for every failure pattern; returns the first success, or the failure after which no sleep of min(2^n, 8) s ends before the deadline |
| RegistryRetry.WindowOf | config/registry.go:31-42 | a minute without a usable setting, else the duration as given |
| RegistryRetry.LastAttemptUnique | config/registry.go:48-74 | the outcome is determined by the environment |
| RegistryRetry.ShortWindowTriesOnce | config/registry.go:62-66 | a window of at most a second means exactly one attempt |
| RegistryRetry.SleepsWithinWindow | config/registry.go:62-67 | when sleeps last as long as asked, all of them together stay inside the window |
| RegistryRetry.TotalBackoffIs | config/registry.go:68-72 | the backoffs are 1, 2, 4 and then 8 seconds |
| RegistryRetry.DefaultWindowAttempts | config/registry.go:20-20 | the default window allows at most ten attempts |
| RegistryRetry.TenAttemptsHappen | config/registry.go:48-74 | the bound of ten is met |
| RegistryRetry.LongerWindowKeepsSuccess | config/registry.go:48-74 | a success within some window is the result within every longer one |
| Health.Dependency.Lookup | internal/health/health.go:95-109 | probes unless the latest result is younger than ttl and, for a failure, than five seconds; returns the then latest result; keeps the spacing of probes |
| Health.ServedBriefly | internal/health/health.go:96-102 | how long a success and a failure are served |
| Health.ProbesApart | internal/health/health.go:96-107 | a probe starts at least ttl after any earlier success and min(ttl, 5 s) after any earlier failure |
| Health.ProbeRate | internal/health/health.go:22-27 | a down dependency is probed at most once per min(ttl, 5 s), however many checks run |
| Health.Checker.Check | internal/health/health.go:89-122 | one status per dependency, each of a result still fresh at the call or newer, with other checks interleaving; healthy exactly when no critical dependency is reported down |
| Health.Checker.Register | internal/health/health.go:65-85 | appends a dependency that was never probed |

## Left out

- HTTP routing, handlers, authentication, CORS, logging, metrics, tracing and graceful shutdown: wiring over libraries.
- The SNMP wire protocol, Redis itself, JSON, the cron library, netip parsing and lower-casing: parameters or function values in the model.
- HTTP requests and the detached background refresh are not tracked workers in the code; the worker guarantee does not cover them.
- `Others` and `Yield` methods of the classes: their bodies do nothing; only their contracts are used, which allow every run of the other goroutines.
- Registry.OLTRegistry.Close: does not model shutdown waiting, because the code does not wait either; `ShutdownClosesAll` says what happens afterwards.
- SnmpRepository.SnmpRepository.Acquire: returns "blocked" where the code waits on the channel; that the wait ends is `EveryOperationReturns`.
- SnmpRepository.SnmpRepository.Close: returns "not done" where a second caller waits inside sync.Once for the first one.
- Batcher.Batcher.FlushSeverity: does not promise that an Add made during the flush of the same ONU is sent, because the code may drop it; posting the batch is not modelled.
- The batcher's timers, stop channel and the webhook swap: a flush may begin at any time instead.
- The RX power monitor and its floating-point thresholds: the comparison is an outcome of the environment.
- The change key leaves the concurrency limit out, so a change of that limit alone does not rebuild a stack; the model follows it.
- GetDefault, List, HealthCheck, pagination, single-ONU detail reads, user registry parsing and webhook formatting: would only add easy members.
- OnuUsecase.OnuUsecase.GetByBoardIDAndPonID: one execution is modelled; that callers coalesced into it share its answer is left to singleflight, and the remaining time to live that triggers the refresh is not modelled.
- OnuUsecase.OnuUsecase.GetEmptyOnuID: one execution is modelled, as for the list.
- OnuUsecase.OnuUsecase.GetOnuIDAndSerialNumber: one execution is modelled; in the code a forced read that joins an ordinary one in flight shares that one's result.
- OnuUsecase.OnuUsecase.InvalidateONUCache: does not clear the free-id key, because the code does not.
- Strings are sequences of characters: byte strings that are not valid UTF-8, which JSON would rewrite in the cache, are not modelled.
- TrapEvents.HandlerDispatch: event fields the handler only copies for display (time stamps, addresses) are not modelled.
