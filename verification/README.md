# StockStack catalog: a verified model

StockStack sells products through a PostgreSQL table, a Redis cache in front of it and
several web processes. This project models the backend catalog in Dafny and proves what
the system as a whole promises, over every run and every interleaving.

`dafny verify dfyconfig.toml` checks everything.

## What is modelled

**The public read protocol** (`ReadProtocol`) is a state machine over discrete
milliseconds. A state holds several processes (each with its table of flights, its free
database slots and one program counter per flight and call), one Redis (`CacheStore`:
entries and rebuild locks with expiry), one database (the commit history of every product)
and the pending invalidations of past commits. A step is one atomic action of one
participant: a call of `detail` (`backend/app/catalog/public_service.py:45-54`), one side
of a Redis command inside or at the end of a flight (`public_service.py:56-137`), a slot
acquired, timed out or returned (`public_service.py:146-169`), a database read of the whole
product row (`backend/app/catalog/repository.py:88-96`), a writer's commit or one attempt
to delete an entry (`backend/app/catalog/service.py:85-104`), a foreign value appearing in
the cache, an eviction, or the passing of time. Every Redis command may be answered, lost
or late; every query may fail. `past` records commits, lock grants, reads, cache writes,
deletions and refusals; steps look at it only to read the committed rows and to number what
they record.

- `ReadInvariant`, `ReadSteps`: what every reachable state satisfies, step by step.
- `ReadFlights`: single flight, slots, invalidations. `ReadLocks`: the rebuild lock.
- `ReadTheorems`: staleness, provenance, time. `ReadTransparency`: failures without writes.
- `ReadProgress`: time never stops, so the time bounds are not empty.
- `ReadEffects`: what single actions achieve, and that nothing is skipped.
- `ReadScripts`, `ReadLockGap`, `ReadTightness`, `ReadLatency`: concrete runs that attain
  three bounds. `ReadReuse`: runs answered from the cache.
- `PublicService`: the flight table, the slots and the polling loop as the class that
  changes them in place, tied to the state machine.

**The write side**: `Catalog` gives each write operation its meaning when it runs alone and
proves what holds of every sequence of them; `Requests` writes that meaning out on rows and
fields; `Service` has the repository statements and
service calls as methods of a class over a session's working state, each proved equal to
that meaning; `Transactions` interleaves them with row locks and proves that commits are
serialisable and that there is no deadlock; `Refusals` proves that every reported failure
was true of a committed state.

**Both together**: in `Composition` each transaction's commit is the commit the readers can
see, and what holds of the catalog reaches every answer.

**The rest**: `RateLimit` (the sliding window of `cache.py:28-35`), `FieldSchema` and
`Attributes` (a recursive JSON Schema Draft 2020-12 evaluator and the report built from its
errors), `SchemaMeaning` and `SchemaErrors` (the evaluator read
keyword by keyword over positions), `Reports` (what a report says and in which order),
`FieldGroups` (which errors are grouped together), `Listing` (filters, order and paging), `Domain`, `Ordering`, `Runs`, `Wrappers`.

Notation: R is the Redis timeout, S the slot wait, Q the query timeout, B the wait budget,
L the lock's lifetime, T the longest lifetime of a cached answer.

## Assumptions

- A Redis command whose caller timed out took effect before the timeout or never does.
- Local computation takes no time; every wait ends at its deadline at the latest.
- A key answers up to and including its expiry instant, so "after" a bound means strictly
  after it. `ReadTightness.ShownAtTheBound` is a run with a 200 exactly at the bound.
- A lock token is fresh: the model uses the flight's own number.
- The limiter's stamps are not negative and do not decrease, and its members are unique.
- An object's member names are distinct, as they are in a dictionary.

## Where the code keeps less than its documents say

- The design document (`docs/superpowers/specs/2026-08-21-product-management-design.md:177`)
  says that the short lock leaves one rebuilder across instances. The settings check only
  Q < L (`backend/app/core/config.py:31-35`), and `ReadLockGap.SettingsAreNotEnough` gives a
  configuration they accept and a run of it in which a late holder overwrites a newer
  snapshot. `ReadLockGap.LockLifetimeIsExact` says when it cannot happen: if and only if
  2R + S + Q <= L or there is one process only, whose single flight keeps the writes in order
  however short the lock. The defaults (1000 ms against 3000 ms) satisfy the inequality.
- The limiter's key expires by Redis's clock, its window is cut by the caller's. A call is on
  time if the window has passed by its own stamp whenever it has passed by Redis's clock,
  both since the latest admitted call. `RateLimit.CountsAgreeIffOnTime` shows that the script
  counts like a full history if and only if all calls are on time, and
  `RateLimit.DecisionAgreesIff` that one more call is decided alike if and only if it is on
  time or would be admitted anyway. In `RateLimit.LateScriptForgets` a late call is admitted
  second within one window under a limit of one.
- Grouped error messages are keyed by their paths joined with dots, so a member `a.b` shares
  its key with the member `b` of `a`, and a member named `attributes` with the root
  (`FieldGroups.DottedNamesCollide`). `FieldGroups.SameGroupIff` says exactly which errors do,
  and `FieldGroups.DotFreeGroups` what is left of it for names without dots.
- A penalized product may still be answered with 200 for a while, as the same document
  accepts (line 167). `ReadTightness.PenaltyBoundIsExact` says for how long: base lifetime
  plus jitter plus Q + 2R, and no less.

## Model

| member | source | states |
|---|---|---|
| ReadTheorems.PenalizedIsNeverShown | backend/app/catalog/public_service.py:45-188 | in every run, no call is answered 200 more than base TTL + jitter + Q + 2R after its product was committed as penalized, whatever interleaves, fails or is written late |
| ReadTightness.PenaltyBoundIsExact | backend/app/catalog/public_service.py:45-188 | that bound holds with d milliseconds in all runs if and only if d is at least base TTL + jitter + Q + 2R |
| ReadTightness.ShownAtTheBound | backend/app/catalog/public_service.py:139-188 | a reachable state in which a product penalized at 0 was answered 200 at exactly base TTL + jitter + Q + 2R |
| ReadTheorems.BoundedStaleness | backend/app/catalog/public_service.py:45-188 | every 200 or 404 at time t, from the cache, a joined flight or the database, tells a committed state that was current at some moment of [t - (T + Q + 2R), t] |
| ReadTheorems.OldCommitsAreSeen | backend/app/catalog/public_service.py:45-188 | an answer given later than that bound after a commit tells that commit or a newer one |
| ReadTheorems.NoAnswerBeforeItsCause | backend/app/catalog/public_service.py:45-54 | every 200 or 404 rests on a recorded database read of that product, every 503 on a recorded refusal, made no later than the answer |
| ReadTheorems.EveryFailureIsRecent | backend/app/catalog/public_service.py:146-169 | every 503 is the refusal, by query failure or slot timeout, of the very flight the call waited for, at most R before the answer |
| ReadTheorems.PenalizedForGood | backend/app/catalog/domain.py:31-35 | in a product's commit history, nothing after a penalized state leaves it |
| ReadTheorems.VersionIsPosition | backend/app/catalog/repository.py:190-208 | the k-th committed state of a product has version k |
| ReadTheorems.CachedDataWasCommitted | backend/app/catalog/public_service.py:139-188 | in every reachable state an acceptable cached product is the committed on-shelf row of exactly that version, and a cached "missing" is a committed absent or off-shelf state |
| ReadTheorems.StaleEntryIsExplained | backend/app/catalog/service.py:85-104 | a cached value older than the latest commit means that this commit's deletion has not taken effect, or that one flight read before the commit and wrote after the deletion |
| ReadTheorems.AnswersAreTimely | backend/app/catalog/public_service.py:110-169 | every call is answered within 5R + W + S + Q, joiners included, and no unanswered call is older; W is the longest from the loop's beginning to the end of its last sleep (`ReadSteps.LoopWaitIs`) |
| ReadSteps.LoopWaitIs | backend/app/catalog/public_service.py:131-133 | in whole milliseconds, W = min(B - 1, ((B - 1) div p)(p + 2R)) + p with p = min(25, B), and 0 without a budget; so W < B + p |
| ReadLatency.LatencyIsExact | backend/app/catalog/public_service.py:110-169 | every call of every run is answered within d if and only if d is at least 5R + W + S + Q |
| ReadLatency.SlowLoser | backend/app/catalog/public_service.py:130-137 | with a budget, a reachable state in which a call that lost the lock, polled to the end and fell back was answered after exactly that time |
| ReadLatency.SlowHolder | backend/app/catalog/public_service.py:118-128 | without a budget, one in which the lock holder's call was |
| ReadTheorems.PollingIsBounded | backend/app/catalog/public_service.py:131-136 | the contention loop is entered only with a positive budget and takes at most ceil(B / min(25, B)) rounds |
| ReadTheorems.FlightsAreSingle | backend/app/catalog/public_service.py:49-63 | in every reachable state each unfinished flight is the registered one, and a process has at most one per product |
| ReadTheorems.SlotsAreConserved | backend/app/catalog/public_service.py:146-169 | in every reachable state a process's free slots and its flights in the database add up to the configured number |
| ReadTheorems.AnsweredOnce | backend/app/catalog/public_service.py:45-54 | an answer never changes afterwards, and a new one carries the present time |
| ReadProgress.TimeNeverStops | backend/app/catalog/public_service.py:110-169 | every run can be continued until the clock has moved: deadlines alone lead every wait on |
| ReadProgress.StepOrTick | backend/app/catalog/public_service.py:110-169 | in every reachable state a millisecond can pass, or something due takes a step that leaves less to do at this instant |
| ReadTransparency.FailuresAreTransparent | backend/app/catalog/public_service.py:65-188 | with no concurrent write and cached values up to date or malformed, any schedule of Redis failures, lock losses and bad values leaves the database's present answer or 503, the latter only within R after the query failure or slot timeout of the flight the call waited for |
| ReadTransparency.CoherenceLasts | backend/app/catalog/public_service.py:65-137 | without a commit of the product, everything cached or in hand stays up to date |
| ReadTransparency.NewAnswerWasInHand | backend/app/catalog/public_service.py:45-54 | a call answers only with an acceptable cached value it fetched or its finished flight's answer |
| ReadLocks.SectionsNeverOverlap | backend/app/catalog/public_service.py:110-128 | if 2R + S + Q <= L or there is one process, no two flights are ever between grant and cache write for one product; under the inequality the lock is live and its owner's all that time |
| ReadLocks.CacheWritesInCommitOrder | backend/app/catalog/public_service.py:119-120 | under that condition, successive cache writes of a product carry snapshots in non-decreasing commit order |
| ReadLockGap.LockLifetimeIsExact | backend/app/core/config.py:31-35 | for every deployment with a slot, cache writes are in commit order in all runs if and only if 2R + S + Q <= L or there is at most one process |
| ReadLocks.OneProcessKeepsApart | backend/app/catalog/public_service.py:49-63 | in one process single flight alone keeps the sections for one product apart, whatever becomes of the lock |
| ReadFlights.AtHomeNext | backend/app/catalog/public_service.py:45-54 | every step keeps each call and flight in a process of the deployment |
| ReadLockGap.SettingsAreNotEnough | backend/app/core/config.py:31-35 | a configuration the settings accept, and a run of it that writes the cache out of order |
| ReadLocks.OnlyGrantedFlightsWrite | backend/app/catalog/public_service.py:118-128 | in every run each cache write is by a flight that was granted the lock before it read the database |
| ReadLocks.LockLeavesByOwner | backend/app/catalog/cache.py:21-26 | any step but the release of the flight whose token it stores leaves a live lock with its owner until it expires |
| ReadLocks.ReadsAscend | backend/app/catalog/repository.py:88-96 | later reads of a product see at least as many of its commits |
| ReadSteps.RunIsSafe | backend/app/catalog/public_service.py:45-188 | the invariant of the read protocol, its flight tables, slots and invalidations holds in every reachable state |
| ReadSteps.InvNext | backend/app/catalog/public_service.py:45-188 | every step of every participant keeps provenance, freshness and the remaining waiting time of everything cached or in hand |
| ReadSteps.PutServeKeeps | backend/app/catalog/public_service.py:170-188 | the lock holder's cache write keeps the invariant: its entry comes from its own read and expires in time |
| ReadSteps.StoredEntryOk | backend/app/catalog/cache.py:76-88 | an entry just written is the writing flight's own recorded read and expires at most Q + R + its lifetime after that read |
| ReadSteps.AnotherRound | backend/app/catalog/public_service.py:131-133 | while the budget is not spent one more round fits into ceil(B / min(25, B)) |
| ReadSteps.LoopTopOk | backend/app/catalog/public_service.py:131-137 | the loop's head either sleeps again within budget and rounds, or goes to the database in time |
| ReadSteps.CommitKeeps | backend/app/catalog/service.py:136-142 | a commit keeps the order of every product's history and the position of every earlier read in it |
| ReadSteps.JobServeKeeps | backend/app/catalog/service.py:85-104 | a deletion keeps the invariant and leaves no entry written before it |
| ReadSteps.TickKeeps | backend/app/catalog/public_service.py:65-188 | as long as nothing's deadline is passed, time keeps every bound |
| ReadFlights.StepsTouchOneFlight | backend/app/catalog/public_service.py:45-63 | every step starts, moves or ends at most one flight, with exactly the matching change to table and slots |
| ReadFlights.EndUnregisters | backend/app/catalog/public_service.py:60-63 | a flight that ends takes out its own registration and no other |
| ReadFlights.RegisteredNext | backend/app/catalog/public_service.py:49-63 | starting, moving or ending a flight keeps the table equal to the unfinished flights, each under its process and product |
| ReadFlights.SlotsNext | backend/app/catalog/public_service.py:146-169 | starting, moving or ending a flight keeps free slots plus database reads equal to the limit: success, query timeout, query error and slot timeout |
| ReadFlights.JobsNext | backend/app/catalog/service.py:85-104 | each commit of a product has one invalidation; one that succeeded did delete the key, one given up had three attempts |
| ReadEffects.InvalidationsTryOn | backend/app/catalog/service.py:85-104 | attempts are counted one by one from the first; a failed one is followed by another until the third |
| ReadEffects.GivenUpAfterThree | backend/app/catalog/service.py:97-104 | in every reachable state an invalidation that was given up had its third attempt |
| ReadEffects.InvalidationClears | backend/app/catalog/service.py:88-90 | a deletion leaves nothing under the key and every other key as it was |
| ReadEffects.DiscardClears | backend/app/catalog/public_service.py:95-100 | the discard of a bad value leaves nothing under the key and every other key as it was |
| ReadEffects.ReleaseFrees | backend/app/catalog/cache.py:21-26 | the release by the holder frees the lock, and touches no other lock and no entry |
| ReadEffects.HoldersRelease | backend/app/catalog/public_service.py:118-128 | a lock holder that was granted its slot wait leaves its way only for the release, however its query ends |
| ReadEffects.SlotWaitBegins | backend/app/catalog/public_service.py:149-152 | a wait for a slot has the whole slot wait from its beginning |
| ReadEffects.RefusalHasCause | backend/app/catalog/public_service.py:149-169 | a recorded refusal is of a flight that waited for a slot to its deadline or had its query under way |
| ReadEffects.OnlyQueriesRefuse | backend/app/catalog/public_service.py:65-137 | nothing but a slot wait and a query records a refusal |
| ReadEffects.WriteIsTold | backend/app/catalog/public_service.py:170-188 | right after a lock holder's write, a read of the key is accepted and tells the holder's own answer |
| ReadReuse.AbsenceToldFromCache | backend/app/catalog/public_service.py:45-48 | a reachable state in which an absent product was answered 404 from the cache, without a flight and with no second database read |
| ReadReuse.LoserToldFromCache | backend/app/catalog/public_service.py:130-136 | a reachable state in which a lock loser of another process was answered with the entry the winner wrote, and only the winner read the database |
| PublicService.PublicProductService.JoinFlight | backend/app/catalog/public_service.py:49-53 | the section joins the product's running flight or registers exactly one new one |
| PublicService.PublicProductService.EndFlight | backend/app/catalog/public_service.py:60-63 | the cleanup removes exactly the finished flight, and nothing if another flight is registered for the product |
| PublicService.PublicProductService.TakeSlot | backend/app/catalog/public_service.py:149-152 | a slot is taken if and only if one is free, and nothing else changes |
| PublicService.PublicProductService.QueryDb | backend/app/catalog/public_service.py:146-169 | the slot taken is back whatever becomes of the query; 503 exactly without a free slot or after a failure, else the row's public view |
| PublicService.PublicProductService.Poll | backend/app/catalog/public_service.py:131-137 | the loop returns the first answer found, or none once the deadline has passed; rounds and elapsed time are bounded, and it goes on exactly where the state machine sleeps again |
| PublicService.JoiningKeepsTidy | backend/app/catalog/public_service.py:49-53 | joining keeps the table equal to the running flights, without duplicates |
| PublicService.EndingKeepsTidy | backend/app/catalog/public_service.py:60-63 | ending removes only oneself: a successor and other products' flights stay |
| PublicService.StepsAreSections | backend/app/catalog/public_service.py:45-63 | each step of the state machine acts on each process as nothing or as one of the class's sections |
| PublicService.ReachableTablesAreTidy | backend/app/catalog/public_service.py:42-63 | in every reachable state each process's table is exactly its unfinished flights |
| CacheStore.OnlyTheOwnerReleases | backend/app/catalog/cache.py:21-26 | a foreign release or request leaves a held lock, the owner's release removes it |
| CacheStore.ProductCache.Fetch | backend/app/catalog/cache.py:62-74 | the value of a live key, or nothing |
| CacheStore.AcceptsIff | backend/app/catalog/public_service.py:78-93 | the missing marker is accepted, a snapshot exactly for this product under its own positive version, nothing else |
| CacheStore.ProductCache.StoreProduct | backend/app/catalog/cache.py:76-81 | every read up to base TTL plus jitter later finds the product's envelope under its version, no later read does, and reads of other products are as before |
| CacheStore.ProductCache.StoreMissing | backend/app/catalog/cache.py:83-88 | every read up to the negative TTL later finds the missing marker, no later read does, and reads of other products are as before |
| CacheStore.ProductCache.Drop | backend/app/catalog/cache.py:90-91 | afterwards no read finds this product at any time, and every read of another finds what it would have found |
| CacheStore.ProductCache.AcquireLock | backend/app/catalog/cache.py:93-98 | granted if and only if no live lock is held, and then held with the given token |
| CacheStore.ProductCache.ReleaseLock | backend/app/catalog/cache.py:100-101 | the lock goes if and only if it is live and stores the given token |
| Service.ProductService.BatchUpdateStatus | backend/app/catalog/repository.py:234-275 | each named row that does not fit is in the failure map for the first reason that applies; with no failure every named row has the target status, one version up from the given one, and no other column and no other row changes; otherwise nothing changes |
| Service.ProductService.ValidateBatch | backend/app/catalog/repository.py:239-268 | the three loops compute the first reason of duplicate, not found, version conflict, illegal transition for each named id |
| Service.ProductService.FindDuplicates | backend/app/catalog/repository.py:240-245 | exactly the ids named more than once |
| Service.ProductService.AddMissing | backend/app/catalog/repository.py:255-258 | exactly the ids no row carries are added, earlier reasons stay |
| Service.ProductService.CheckRows | backend/app/catalog/repository.py:259-268 | each locked row not failed yet fails for its version before its transition |
| Service.ProductService.MoveRows | backend/app/catalog/repository.py:271-273 | the given rows, and no other, move to the target one version up |
| Service.FailuresAreReasons | backend/app/catalog/repository.py:239-268 | the loops' combined result equals the declarative failure map |
| Service.ProductService.UpdateRow | backend/app/catalog/repository.py:190-208 | the compare-and-set writes exactly on matching id and version, else tells which of the two is wrong |
| Service.ProductService.ReplaceImages | backend/app/catalog/repository.py:210-232 | the images are replaced if and only if one position holds a main image and at most five a gallery image |
| Service.ProductService.CountKinds | backend/app/catalog/repository.py:213-219 | accepts exactly one position with a main image and at most five with a gallery image |
| Service.ProductService.CreateWithImages | backend/app/catalog/repository.py:165-188 | the new product has version 1, on a free id only, and is refused for its images exactly unless one position holds a main image and at most five a gallery image |
| Service.ProductService.CheckAttributes | backend/app/catalog/service.py:126-133 | accepts exactly the attributes that satisfy the schema, and else returns the grouped messages of the canonical report |
| Service.ProductService.Create | backend/app/catalog/service.py:120-145 | commits exactly what the operation means alone, only against the active schema version: the row carries every requested column under version 1 and no other row changes; on any error nothing is committed and the session is clean |
| Service.ProductService.Update | backend/app/catalog/service.py:176-211 | commits exactly what the edit means alone or nothing: the row carries the requested attributes, images and content, keeps type, schema version and status, goes one version up from the expected one, and no other row changes; attributes are checked against the product's own schema version |
| Service.ProductService.BatchStatus | backend/app/catalog/service.py:229-252 | commits the whole batch, row by row as requested, or nothing, with all reasons |
| Service.ProductService.UpdateStatus | backend/app/catalog/service.py:213-227 | one product's status change is a batch of one: target status, one version up, nothing else |
| Service.ProductService.CreateSchema | backend/app/catalog/repository.py:141-163 | a template is added exactly for a new positive version and unless a second one would be active; no row and no other template changes |
| Requests.CreationIs | backend/app/catalog/repository.py:175-188 | a creation leaves the requested product, column by column, under version 1, and no other row changed |
| Requests.CreationIff | backend/app/catalog/repository.py:165-178 | a creation succeeds exactly with its schema, valid attributes, legal images by position and a free id |
| Requests.EditIs | backend/app/catalog/repository.py:190-232 | an edit leaves the requested attributes, images and content, the rest of the row as before one version up, and no other row changed |
| Requests.EditIff | backend/app/catalog/service.py:176-205 | an edit succeeds exactly on an existing row of that schema version and expected version, with valid attributes and legal images by position |
| Requests.ReasonsAre | backend/app/catalog/repository.py:239-268 | by position: a named row fails exactly if it is named twice, absent, at another version, penalized or already at the target, and for the first of these |
| Requests.BatchIs | backend/app/catalog/repository.py:271-274 | a batch without failures leaves each named row with the target status one version up and all else as before |
| Requests.ExpectedIsLast | backend/app/catalog/repository.py:246-246 | of several items for one id the last one gives the expected version |
| Requests.TemplateIs | backend/app/catalog/repository.py:141-163 | a template insert succeeds exactly for a new positive version and not for a second active one, and changes nothing else |
| Catalog.ImagesOkIff | backend/app/catalog/repository.py:169-174 | legal images have exactly one position with a main image and at most five with a gallery image |
| Catalog.ApplyIsLegal | backend/app/catalog/repository.py:165-275 | one operation removes no product and changes each legally or not at all: version + 1, type and schema version kept, status along an allowed transition |
| Catalog.EveryStateSane | backend/app/catalog/service.py:120-145 | after any operations, every product satisfies the schema version it was published under, whatever is active now, and has one main and at most five gallery images by position |
| Catalog.BindingIsPermanent | backend/app/catalog/service.py:176-197 | type and schema version never change, versions never go back |
| Catalog.VersionCountsWrites | backend/app/catalog/repository.py:190-198 | a product's version is the number of committed writes to it |
| Catalog.HistoryIsStatusPath | backend/app/catalog/domain.py:31-42 | every product's status history is a path of the transition relation |
| Catalog.OneWriterPerVersion | backend/app/catalog/repository.py:194-208 | of all operations that expect one version of one product at most one ever commits |
| Catalog.BatchMovesNamed | backend/app/catalog/repository.py:259-273 | a batch without failures names each row once, at its current version, with an allowed transition |
| Transactions.Serialisable | backend/app/catalog/repository.py:190-275 | in every interleaving the committed catalog is what the committed operations produce one at a time in commit order |
| Transactions.NoLostUpdate | backend/app/catalog/repository.py:194-198 | in every interleaving at most one committed operation writes a product from a given version |
| Transactions.ReachableCatalog | backend/app/catalog/service.py:120-252 | every committed state of every interleaving is sane, versions count writes, statuses follow the relation |
| Transactions.CommitIsApply | backend/app/catalog/repository.py:247-274 | a commit publishes what its operation does alone on the catalog of that moment, although it read under locks earlier |
| Transactions.NoWaitCycle | backend/app/catalog/repository.py:247-254 | no reachable state has a cycle of transactions waiting for each other's rows |
| Transactions.AlwaysProgress | backend/app/catalog/repository.py:247-254 | while a transaction is unfinished some transaction can take a step of its own |
| Transactions.CommitsAreLegal | backend/app/catalog/repository.py:190-275 | every committed change in every interleaving is one the readers' history allows |
| Refusals.RefusalsAreTrue | backend/app/catalog/repository.py:203-208 | in every interleaving a refused edit or creation would fail alone in the same way on the catalog at its end (or its schema version is not active), and each reason of a failed batch applies at its end or is a row missing at its checks |
| Refusals.CommittedAsRequested | backend/app/catalog/repository.py:165-275 | in every interleaving each commit leaves its rows as its request says, field by field, and no other row changed |
| Refusals.CommittedWasActive | backend/app/catalog/service.py:121-125 | in every interleaving a committed transaction stands in the log, and a committed creation names the schema version that was active at its checks |
| Refusals.ExecuteRefusesLikeApply | backend/app/catalog/repository.py:190-208 | an edit or creation refused under its lock is refused with the same error by the operation alone on the present catalog |
| Refusals.MissTraced | backend/app/catalog/repository.py:194-208 | an edit whose UPDATE fails the version test at once, without waiting for a lock another transaction holds, reports what the edit alone would report on the present catalog |
| Refusals.BatchReasonHeld | backend/app/catalog/repository.py:255-268 | each reason a batch finds under its locks applies to the present catalog, or is a row that was missing when the batch chose its locks |
| Composition.ShownProductsAreSound | backend/app/catalog/public_service.py:45-188 | in every run of writers and readers together, a product answered with 200 is on the shelf, satisfies the schema version it is bound to and has one main and at most five gallery images by position |
| Composition.PenalizedProductsDisappear | backend/app/catalog/public_service.py:45-188 | once a transaction has left a product penalized in the catalog, no call is answered 200 for it more than base TTL + jitter + Q + 2R later |
| Composition.CommitsAreSeen | backend/app/catalog/service.py:136-142 | whatever a transaction commits, its writes are a legal commit for the readers: the two sides never block each other |
| Composition.RunIsJoined | backend/app/catalog/repository.py:88-96 | in every run of both, the readers' latest row of each product is the catalog's, and what readers see is a run of the read protocol |
| Domain.AssertTransition | backend/app/catalog/domain.py:38-42 | fails, with the two statuses, exactly from penalized or to the same status |
| Domain.PenalizedIsTerminal | backend/app/catalog/domain.py:34-34 | along every status path nothing follows penalized but penalized |
| RateLimit.SlidingWindow.RateLimit | backend/app/catalog/cache.py:28-35 | prunes, counts and inserts in place as the script does |
| RateLimit.CountsAgreeIffOnTime | backend/app/catalog/cache.py:28-35 | for every sequence of calls, the pruned, expiring set counts at each call what a full history counts if and only if every call is on time |
| RateLimit.DecisionAgreesIff | backend/app/catalog/cache.py:31-33 | after calls on time, a call is decided as by a full history if and only if it is on time or the full history would admit it |
| RateLimit.ScriptMatchesFullHistory | backend/app/catalog/cache.py:28-35 | for every sequence of calls on time the set decides like a counter of all calls ever admitted |
| RateLimit.AdmittedIffRoom | backend/app/catalog/cache.py:29-33 | by position: a call on time is admitted if and only if fewer than the limit of earlier calls were admitted less than a window ago |
| RateLimit.ReturnedCount | backend/app/catalog/cache.py:30-34 | the returned count is the number of admitted calls in the window, the call itself included when admitted, for calls on time |
| RateLimit.NoWindowExceedsLimit | backend/app/catalog/cache.py:28-35 | for calls on time no window, wherever it starts, holds the positions of more than the limit of admitted calls |
| RateLimit.RejectedCallsAreFree | backend/app/catalog/cache.py:31-31 | a rejected call uses no quota: all others, if on time, are still on time and decided as if it had not been made |
| RateLimit.LateScriptForgets | backend/app/catalog/cache.py:33-33 | for every window, two calls for which PEXPIRE changes a decision and one window admits more than the limit |
| FieldSchema.EvaluatorCorrect | backend/app/catalog/field_schema.py:97-101 | for schemas of the modelled keywords, the evaluator yields no error exactly on instances valid by JSON Schema Draft 2020-12, and each error's path leads to its instance |
| FieldSchema.ExtrasAreUnknown | backend/app/catalog/field_schema.py:73-80 | exactly the names at some position of the object that no position of any sibling `properties` carries and no pattern of any sibling `patternProperties` matches |
| FieldSchema.DeclaredIff | backend/app/catalog/field_schema.py:77-77 | a name is declared if and only if some member of some `properties` keyword carries it |
| FieldSchema.PatternedIff | backend/app/catalog/field_schema.py:78-78 | a name is patterned if and only if some pattern of some `patternProperties` keyword matches it |
| SchemaMeaning.ObjectMeaning | backend/app/catalog/field_schema.py:97-101 | a schema is satisfied if and only if the keyword at every position holds |
| SchemaMeaning.RequiredMeaning | backend/app/catalog/field_schema.py:105-109 | `required` holds if and only if every listed name stands at some position of the object (section 6.5.3 of the Validation document) |
| SchemaMeaning.PropertiesMeaning | backend/app/catalog/field_schema.py:97-101 | `properties` holds if and only if each declared member that is present satisfies its subschema |
| SchemaMeaning.PatternMeaning | backend/app/catalog/field_schema.py:97-101 | `patternProperties` holds if and only if each member satisfies the subschema of every pattern that matches its name |
| SchemaMeaning.AdditionalMeaning | backend/app/catalog/field_schema.py:73-80 | `additionalProperties` holds if and only if each member no sibling names satisfies its subschema (section 10.3.2.3 of the Core document) |
| SchemaMeaning.PrefixMeaning | backend/app/catalog/field_schema.py:97-101 | `prefixItems` holds if and only if each item satisfies the subschema at its position, if there is one |
| SchemaMeaning.ItemsMeaning | backend/app/catalog/field_schema.py:97-101 | `items` holds if and only if each item after the prefix satisfies it |
| SchemaMeaning.AllOfMeaning | backend/app/catalog/field_schema.py:97-101 | `allOf` holds if and only if the subschema at every position is satisfied |
| SchemaMeaning.AnyOfMeaning | backend/app/catalog/field_schema.py:97-101 | `anyOf` holds if and only if the subschema at some position is satisfied |
| SchemaMeaning.OneOfMeaning | backend/app/catalog/field_schema.py:97-101 | `oneOf` holds if and only if the subschema at exactly one position is satisfied |
| SchemaMeaning.BranchMeaning | backend/app/catalog/field_schema.py:97-101 | `not` negates, and `if` chooses between its two branches |
| SchemaErrors.ObjectYields | backend/app/catalog/field_schema.py:101-101 | a schema yields exactly the errors its keywords yield |
| SchemaErrors.RequiredYields | backend/app/catalog/field_schema.py:105-118 | `required` yields an error for every listed name that is no member, and no other |
| SchemaErrors.PropertiesYield | backend/app/catalog/field_schema.py:101-101 | `properties` yields all errors of each declared member that is present, at its own path |
| SchemaErrors.PatternPropertiesYield | backend/app/catalog/field_schema.py:101-101 | `patternProperties` yields all errors of each member a pattern matches, at its own path |
| SchemaErrors.AdditionalFalseYields | backend/app/catalog/field_schema.py:69-84 | `additionalProperties: false` yields its error exactly if some member is named by no sibling |
| SchemaErrors.AdditionalSchemaYields | backend/app/catalog/field_schema.py:101-101 | `additionalProperties` with a schema yields all errors of each member no sibling names |
| SchemaErrors.PrefixItemsYield | backend/app/catalog/field_schema.py:101-101 | `prefixItems` yields all errors of each item it has a subschema for, at the index of the item |
| SchemaErrors.ItemsYield | backend/app/catalog/field_schema.py:101-101 | `items` yields all errors of each item after the prefix, at the index of the item |
| SchemaErrors.AllOfYields | backend/app/catalog/field_schema.py:101-101 | `allOf` yields all errors of every subschema |
| Attributes.AdditionalPropertyErrors | backend/app/catalog/field_schema.py:69-90 | the loop yields the error list the specification gives, or the original error when nothing is unknown |
| Attributes.EveryUnknownFieldNamed | backend/app/catalog/field_schema.py:69-90 | an error, with its path and text written out, for each member that no position of a sibling keyword names, once, and nothing else |
| Attributes.ValidateAttributes | backend/app/catalog/field_schema.py:93-123 | the report is sorted by the canonical key, has each missing field once and every other error as often as it was yielded |
| Attributes.ReportMissing | backend/app/catalog/field_schema.py:105-119 | the inner loop adds one error for each field missing and not yet reported |
| Attributes.EmptyIffValid | backend/app/catalog/field_schema.py:93-123 | the report is empty exactly when the attributes satisfy the schema |
| Attributes.MissingReportedOnce | backend/app/catalog/field_schema.py:100-118 | a missing field is reported exactly once however many overlapping subschemas require it and in whatever order errors come, and no other error of the report has its path |
| Attributes.ReportIsCanonical | backend/app/catalog/field_schema.py:123-123 | the report does not depend on the order in which the evaluator yields its errors |
| Reports.ReportTells | backend/app/catalog/field_schema.py:101-122 | a report holds exactly what the errors of the evaluator tell: each listed name that is no member, each member no sibling names, and every other error at its own path with its own text |
| Reports.OtherErrorsAsOften | backend/app/catalog/field_schema.py:120-122 | an error that is neither is reported as often as it was yielded |
| Reports.ReportIsOrdered | backend/app/catalog/field_schema.py:123-123 | of two errors of a report, the earlier has the smaller path texts, character by character, and on equal ones the smaller message |
| Reports.TextsAre | backend/app/catalog/field_schema.py:123-123 | the texts of a path are the names of its components and, for indices, their decimal digits |
| Attributes.TextsDeterminePath | backend/app/catalog/field_schema.py:123-123 | within one instance the texts in the sort key determine the path |
| Attributes.GroupByField | backend/app/catalog/service.py:52-57 | under every joined path exactly the messages of that path, in order |
| Attributes.GroupingKeepsMessages | backend/app/catalog/service.py:52-57 | grouping keeps every message as often as it occurs |
| Reports.MessagesInOrder | backend/app/catalog/service.py:52-57 | the messages of a group are those of its errors, one each, in report order |
| FieldGroups.SameGroupIff | backend/app/catalog/service.py:52-57 | two errors share a key if and only if their paths spell the same dot-free pieces, the root and a member "" counting as "attributes" |
| FieldGroups.DotFreeGroups | backend/app/catalog/service.py:52-57 | for names without dots, two errors of one instance share a key if and only if they have the same path or both are at the root or a member "" or "attributes" |
| FieldGroups.DottedNamesCollide | backend/app/catalog/service.py:55-55 | two different paths with one key |
| Listing.BuildFilters | backend/app/catalog/repository.py:107-120 | the collected filters select exactly the rows that pass every given criterion |
| Listing.List | backend/app/catalog/repository.py:122-139 | the requested page of the rows that pass every given criterion, by position, later updates first and greater ids first on a tie, and the number of all of them |
| Listing.MatchingIsWanted | backend/app/catalog/repository.py:107-124 | filters that select by the given criteria match exactly the rows asked for, in the same order |
| Listing.OrderedIsListing | backend/app/catalog/repository.py:127-134 | the listing has every matching row as often as the table; an earlier row is updated no earlier than a later one, and on a tie its id is no less |
| Listing.ListingIsUnique | backend/app/catalog/repository.py:131-131 | with distinct ids there is only one such order |
| Listing.PagesPartition | backend/app/catalog/repository.py:132-133 | pages 1 to ceil(total / size) in order are the whole listing, and later pages are empty |
| Listing.RowsPage | backend/app/catalog/repository.py:132-133 | row i stands on page i / size + 1 at place i % size |

## Left out

- Routers, dependency wiring, error rendering, metrics, authentication, uploads, the frontend, migrations and deployment files: no invariant of their own.
- Images in public snapshots: a second SELECT loads them, so the row and its images are not one atomic read; the public snapshot in the model is the row.
- JSON encoding and decoding of cache values: an envelope is a datatype, and everything `_cache_get` refuses is `Malformed` or fails `Accepts`.
- A foreign cache value that happens to be well formed: the environment step writes only values that `_cache_get` refuses.
- Loss of Redis's lock keys before their expiry (restart, eviction under memory pressure): the theorems about the lock assume it does not happen.
- The time a cancelled `wait_for` takes to clean up, and a Redis command that takes effect after its caller's timeout.
- PublicService.PublicProductService.TakeSlot: tests the semaphore once, as it stands when the wait for a slot ends, because other flights run during the wait; the wait itself, its deadline and the other flights are steps of the read protocol.
- PublicService.PublicProductService.QueryDb: takes its slot by the same single test and ends with the answer; the cache write after it is a step of the read protocol (`ReadSteps.PutServeKeeps`).
- The end of a process: its flights and tables never disappear.
- The order in which waiting flights get database slots: any order is allowed.
- Delays between the attempts of an invalidation: each attempt may happen at any time, at most three per commit and product.
- `enforce_rate_limit`: it only adds a branch that lets calls pass when Redis fails; the limiter theorems are about calls Redis answers.
- Serialising the two reads of `update` and the insert of `create` statement by statement: a transaction checks, locks, executes and commits; its checks may be outdated by other commits before it locks.
- Activation of another schema version: no function of the modelled files does it; `Catalog.Op.Activate` stands for an operator's change and occurs in runs only to show that nothing depends on it.
- The unchanged active version of `create`: it is checked before the transaction locks, so the sequential meaning of a creation demands only that its schema version exists; `Service.ProductService.Create` states the check itself.
- FieldSchema.EvaluatorCorrect: does not cover recursive `$ref` and `$dynamicRef` (a reference that does not recur is its target, inlined as an `allOf` of one), `contains`, `propertyNames`, the `dependent` and `unevaluated` keywords, because the schema of the model is a finite tree of the other applicators: boolean schemas, `required`, the three property keywords, `prefixItems`, `items`, `allOf`, `anyOf`, `oneOf`, `not`, `if`/`then`/`else`, and each keyword that looks at one value as an uninterpreted assertion.
- `check_schema`: schemas are well formed by construction.
- HTML cleaning, `http-url` checking, message texts and keyword search: uninterpreted functions or an arbitrary predicate on rows.
- Image ids and their order inside `_view`, and the detail reads after a status change: they return what was committed.
