# Verified models of tundralibs

Dafny models of the state-changing cores of the tundralibs packages, with proofs of what they promise over every
interleaving, every dependency graph, every call sequence or every string. Check everything with

    dafny verify dfyconfig.toml

Six cores are modelled, each as a value-level description of the behaviour (states, steps, functions), theorems about
it, and, where the original updates objects in place, a class whose methods are proved to do what the description says.

| core | description and theorems | in the original's own form |
|---|---|---|
| connection pool | `PoolModel`, `PoolInvariants`, `PoolTheorems`, `PoolEffects`, `PoolOptions`, `PoolLifecycle`, `PoolLifecycleEffects`, `PoolOverlap` | `ConnectionPool`, `PoolLifecycle` |
| SQL transactions | `TransactionModel`, `TransactionCustody`, `TransactionEffects`, `TransactionSavepoints`, `TransactionBlocks` | `SQLEngine` |
| Doctor container | `DoctorModel`, `DoctorFrames`, `DoctorEffects`, `DoctorSearch`, `DoctorRegistry` | `Doctor` |
| ULID | `UlidCodec`, `UlidMonotonic` | the methods of both |
| Cronus | `CronText`, `CronLanguage`, `CronAtoms`, `CronSchedule`, `CronMatching`, `CronusModel`, `CronusRuns`, `CronusStamps`, `CronusEffects`, `CronusReplay` | `CronMatching`, `Cronus` |
| metric series | `MetricLabels`, `HistogramModel` | `MetricLabels`, `Histogram` |

## How asynchrony is modelled

The programs run on one thread and yield only at `await`, in timers and in callbacks into foreign code. Each stretch
between two such points is one step; what is suspended is part of the state; the outcome of everything awaited (the
factory, the validation hook, the database, an action, the clock) is chosen freely by the event. `Step` says what a
stretch does, `Enabled` when it can happen, and a run is any sequence of enabled events, so a statement about every
run covers every interleaving of any number of calls. A class method for a stretch ensures `Abs() == Spec(old(Abs()))`
with the whole abstract state on both sides, so nothing else may change. `Valid()` of the pool, the pooled engine and the
transaction record says that the object's state is one the machine can reach; every method that is an event keeps it, so
the theorems hold of the objects (`ConnectionPool.CurrentSize`, `TxRecord.Custody`).

What a step does is stated a second time, in words of its own, by the modules named `...Effects`: who is served, what is
sent, started, stored, armed or given back, for every event and over reached states, and that nothing else changes. They
do not name the functions that take the step, so the two descriptions check each other. `CronLanguage` does the same
for schedules: it says what an expression means with the fields' ranges, names and steps written out, and the parser's
values are proved equal to it.

Assumptions, all taken from the code's callers: who releases or destroys a pooled resource holds it, and does so once
(`PoolModel.Enabled`); the factory returns fresh resources; only `drain` sets the draining flag, and only `poolConnect`
clears it; transaction ids are not reused or begun twice at once; a completed statement and the stack update after it
are one step; the database confirms an operation on a savepoint only if it has it; label names are sorted by a strict
total order (`MetricLabels.StrictTotal`).

## Where the code does less than it says

Each of these has a lemma with the exact condition or a concrete run.

- A throw of the validation hook inside `acquire` leaves the resource claimed for good. It is the only way a slot is
  lost: `PoolTheorems.OnlyAThrowStrands` is an equivalence, and `ThrowStrandsASlot` a run in which it happens.
- `CLOSED` does not always mean an empty pool. It does as long as no `connect` starts while an earlier call is still on
  its way to `CLOSED` (`PoolOverlap.ClosedMeansEmpty`). The condition is exact: from any state in which a `connect` does
  start so, and in which some slot is not lost to the previous point, the engine can end `CLOSED` with an idle connection
  (`ClosingUnderAConnect`); with every slot lost nothing is ever idle again (`LostForGood`). `ClosedMayKeepAConnection` is
  a complete run: a second `disconnect` overtakes one that waits for a slow destroy hook.
- A statement outside a transaction that fails, and whose client's check then throws, gives the client back to nobody:
  `SQLEngines.ExecuteAlone` is an equivalence.
- A statement failure that made the database roll the transaction back ends the transaction by the time the call is over
  if and only if auto-rollback is on (`TransactionSavepoints.WipeEndsTransactionExactly`). With it off the transaction
  stays open until somebody closes it (`WipeIsMissedWithoutAutoRollback`; `WipeLeavesItOpen` is a run). If the failing
  statement is a savepoint statement it is never noticed, and harmless exactly if the engine's stack is then empty
  (`SavepointWipeIsMissed`).
- A savepoint name given to `rollbackToSavepoint` or `releaseSavepoint` keeps the engine's stack below the database's, for
  every database stack, if and only if it is still on the engine's stack or newer than all that is
  (`TransactionSavepoints.SafeNamesExactly`). `StrayNamePutsEngineAhead` is a run with a name a failed `RELEASE` had
  already taken off the engine's stack.
- A failing `dispense` drops the scope it was the first to need, but not another scope that one of its dependencies was
  the first to need. What it can leave behind is only a scope that some factory injects under by name
  (`DoctorFrames.FailureLeavesOnlyNamedScopes`), and any such name can be left behind (`OtherScopesMaySurvive`).
- A fixed-time cron job is documented to fire at most once per wall-clock minute. Only the last local minute is remembered,
  so one that has fired in a minute fires in it again if and only if the last tick that started it did so in another one
  (`CronusReplay.FiresAgainExactlyWhen`). `FiresTwiceInOneMinute` is a run of `0,30 1 * * *` over an hour set back.
- `getTimestamp` is documented to reject every character outside Crockford's base 32; because it upper-cases first it
  also accepts U+017F, U+FB05 and U+FB06 as S (`UlidCodec.AcceptedCharacters`).

## Model

| member | source | states |
|---|---|---|
| `PoolOptions.AcceptsExactlySoundSizes` | packages/drivers/ConnectionPool.ts:683-724 | an option is accepted iff every knob given is a non-negative whole number and the effective sizes satisfy min ≤ max and max ≥ 1 |
| `PoolOptions.KnobsAreUsedAsGiven` | packages/drivers/ConnectionPool.ts:175-187 | every knob given is used as given, times in milliseconds; without an option one connection, never evicted; else 0 to 10 connections, 180 s and 30 s |
| `PoolTheorems.ConfigIsTheOptions` | packages/drivers/ConnectionPool.ts:156-187 | the pool's floor and capacity are those of the option, and it evicts iff the option gives an idle time |
| `PoolTheorems.CapacityHolds` | packages/drivers/ConnectionPool.ts:218-221 | in every reachable state of every interleaving idle + active + pending + handoff ≤ max, and pending is the number of factory calls in flight |
| `PoolTheorems.EachInOnePlace` | packages/drivers/ConnectionPool.ts:353-445 | every resource created is in exactly one of idle, active, handoff, passed to the destroy hook, or queued in a drain; never twice in any |
| `PoolTheorems.Quiescent` | packages/drivers/ConnectionPool.ts:502-599 | once nothing is suspended every resource ever created is idle, handed out, or was destroyed exactly once |
| `PoolTheorems.HandOutIsExclusive` | packages/drivers/ConnectionPool.ts:275-342 | no resource is held by two acquirers, nor held while a suspended call validates, hands over or drains it |
| `PoolTheorems.StrandedByRun` | packages/drivers/ConnectionPool.ts:284-284 | over any run the stranded resources are exactly those whose validation threw inside acquire |
| `PoolTheorems.OnlyAThrowStrands` | packages/drivers/ConnectionPool.ts:280-288 | a resource counts as active without holder or validator iff validate threw on it inside acquire |
| `PoolTheorems.ThrowStrandsASlot` | packages/drivers/ConnectionPool.ts:280-294 | a run in which the only slot of a warmed pool is lost to a throwing validation |
| `PoolTheorems.QueueIsTheUnsettled` | packages/drivers/ConnectionPool.ts:312-342 | a waiter is queued iff unsettled, settled iff it has its outcome, and the queue is in order of arrival |
| `PoolTheorems.ServedInOrder` | packages/drivers/ConnectionPool.ts:459-482 | a waiter that leaves other than by timeout leaves after all that arrived before it |
| `PoolTheorems.OutcomeIsFinal` | packages/drivers/ConnectionPool.ts:321-339 | an acquire is settled once: no later step changes an outcome |
| `PoolTheorems.DrainingKeepsNothing` | packages/drivers/ConnectionPool.ts:578-599 | while draining is set the idle list is empty, whatever was begun before and finishes after |
| `PoolEffects.ReleaseServesTheQueue` | packages/drivers/ConnectionPool.ts:353-387 | a released resource is destroyed while draining, last in the idle list if nobody waits, and otherwise neither: it is claimed and put to the hand-off validation, idle list and queue as they were |
| `PoolEffects.HandOffServesTheQueue` | packages/drivers/ConnectionPool.ts:396-428 | a resource valid at hand-off is the outcome of the first waiter, or idle if the queue has emptied; an invalid one is destroyed and the waiters pumped after that; while draining it is destroyed |
| `PoolEffects.QueueIsLive` | packages/drivers/ConnectionPool.ts:448-482 | nobody in the queue is settled, so the head of the queue is who is served |
| `PoolEffects.AcquireSeeks` | packages/drivers/ConnectionPool.ts:268-309 | an acquire is refused while draining; else it takes the longest idle resource to validation, or starts a factory call below capacity, or is last in the queue |
| `PoolEffects.ValidationDecides` | packages/drivers/ConnectionPool.ts:284-294 | a valid resource is the caller's outcome, an invalid one goes to the destroy hook first, a throw rejects and leaves it claimed |
| `PoolEffects.DiscardedSeeksAgain` | packages/drivers/ConnectionPool.ts:280-309 | after the invalid resource is destroyed the caller seeks again, draining or not |
| `PoolEffects.CreatedGoesWhereItShould` | packages/drivers/ConnectionPool.ts:299-571 | a created resource goes to its caller; to the first waiter or idle; to idle; while draining the last two are destroyed |
| `PoolEffects.FailureFailsOne` | packages/drivers/ConnectionPool.ts:299-571 | a failed factory call frees its slot and fails its caller, or the first waiter, or nobody |
| `PoolEffects.DestroyForgets` | packages/drivers/ConnectionPool.ts:437-445 | what its holder destroys leaves every bucket and goes to the hook, and the waiters are pumped after it |
| `PoolEffects.PumpTakesATurnForEachWaiter` | packages/drivers/ConnectionPool.ts:489-532 | a pump takes one turn per waiter while there is room; a turn starts a factory call, or fails the first waiter if the factory throws at once; none while draining |
| `PoolEffects.WarmUpFillsToTheFloor` | packages/drivers/ConnectionPool.ts:539-551 | a warm-up starts exactly the factory calls missing to the floor, none while draining |
| `PoolEffects.DrainEmptiesThePool` | packages/drivers/ConnectionPool.ts:578-599 | a drain refuses the whole queue, empties the idle list at once and destroys it in order, longest idle first; a second one does nothing |
| `PoolEffects.DrainGoesOn` | packages/drivers/ConnectionPool.ts:595-598 | its loop passes on the next resource, or is over |
| `PoolEffects.EvictionRespectsTheFloor` | packages/drivers/ConnectionPool.ts:627-654 | an idle resource whose time is up is destroyed iff the pool is above its floor; below the floor it is warmed up instead |
| `PoolEffects.TimeoutLeavesTheQueue` | packages/drivers/ConnectionPool.ts:321-339 | a waiter whose time is up leaves its place in the queue, wherever it is, and is refused; the others keep their order |
| `PoolEffects.ReopenOpens` | packages/drivers/ConnectionPool.ts:192-194 | reopening clears the draining flag and nothing else |
| `PoolEffects.EverythingCanGoOn` | packages/drivers/ConnectionPool.ts:268-654 | no suspended call gets stuck, whatever its hook answers; holders can release or destroy, and set timers can fire |
| `PoolInvariants.AcquireKeeps` | packages/drivers/ConnectionPool.ts:268-343 | starting an acquire keeps the pool's invariant |
| `PoolInvariants.ValidatedKeeps` | packages/drivers/ConnectionPool.ts:284-294 | each outcome of the awaited validation keeps it; a throw strands exactly that resource |
| `PoolInvariants.CreatedKeeps` | packages/drivers/ConnectionPool.ts:299-309 | the end of a factory call, for a caller, a waiter or warmth, keeps it |
| `PoolInvariants.ReleaseKeeps` | packages/drivers/ConnectionPool.ts:353-387 | a release keeps it, in each of its branches |
| `PoolInvariants.HandedKeeps` | packages/drivers/ConnectionPool.ts:396-428 | the end of a hand-off validation keeps it |
| `PoolInvariants.DestroyKeeps` | packages/drivers/ConnectionPool.ts:437-445 | a destroy keeps it |
| `PoolInvariants.DrainKeeps` | packages/drivers/ConnectionPool.ts:578-599 | starting a drain keeps it |
| `PoolInvariants.IdleTimeoutKeeps` | packages/drivers/ConnectionPool.ts:627-654 | an idle timer firing keeps it |
| `PoolInvariants.AcquireTimeoutKeeps` | packages/drivers/ConnectionPool.ts:321-339 | an acquire timeout firing keeps it |
| `PoolInvariants.StepKeeps` | packages/drivers/ConnectionPool.ts:268-663 | every step of every call keeps the invariant, and only a throwing validation strands a resource |
| `ConnectionPools.ConnectionPool.constructor` | packages/drivers/ConnectionPool.ts:109-186 | a new pool with an accepted option is the machine's initial state |
| `ConnectionPools.ConnectionPool.CurrentSize` | packages/drivers/ConnectionPool.ts:218-221 | a pool object's size never exceeds its max |
| `ConnectionPools.ConnectionPool.ReleaseHeld` | packages/drivers/ConnectionPool.ts:353-387 | a holder's release keeps the pool reachable and is the machine's release |
| `ConnectionPools.ConnectionPool.DestroyHeld` | packages/drivers/ConnectionPool.ts:437-443 | a holder's destroy likewise |
| `ConnectionPools.ConnectionPool.AcquireStart` | packages/drivers/ConnectionPool.ts:268-294 | acquire up to its first await: refused while draining, else idle, new or queued |
| `ConnectionPools.ConnectionPool.LookForResource` | packages/drivers/ConnectionPool.ts:280-309 | claims the oldest idle resource, else reserves a slot, else queues |
| `ConnectionPools.ConnectionPool.Enqueue` | packages/drivers/ConnectionPool.ts:312-342 | a new waiter goes to the end of the queue, with a timeout if one is set |
| `ConnectionPools.ConnectionPool.AcquireValidated` | packages/drivers/ConnectionPool.ts:284-293 | a valid resource is handed out, an invalid one leaves active before its destroy is awaited, a throw rejects |
| `ConnectionPools.ConnectionPool.AcquireDiscarded` | packages/drivers/ConnectionPool.ts:280-309 | after the destroy hook the loop looks again, without re-checking draining |
| `ConnectionPools.ConnectionPool.AcquireCreated` | packages/drivers/ConnectionPool.ts:299-309 | pending is given up either way; a created resource is active and the caller's |
| `ConnectionPools.ConnectionPool.CreatedForWaiter` | packages/drivers/ConnectionPool.ts:502-532 | a created resource goes to the first live waiter, to idle, or to the destroy hook when draining; a failure rejects one waiter |
| `ConnectionPools.ConnectionPool.RejectOne` | packages/drivers/ConnectionPool.ts:507-520 | the first live waiter is rejected, if there is one |
| `ConnectionPools.ConnectionPool.CreatedWarm` | packages/drivers/ConnectionPool.ts:550-571 | a warm resource is parked, or destroyed when draining |
| `ConnectionPools.ConnectionPool.AcquireTimedOut` | packages/drivers/ConnectionPool.ts:321-339 | an unsettled waiter is settled, taken out of the queue wherever it stands, and rejected |
| `ConnectionPools.ConnectionPool.ReleaseResource` | packages/drivers/ConnectionPool.ts:353-387 | a released resource is destroyed when draining, parked when nobody waits, else claimed for hand-off |
| `ConnectionPools.ConnectionPool.HandOffValidated` | packages/drivers/ConnectionPool.ts:396-428 | hand-off after validation: destroyed, delivered, parked, or destroyed and pumped |
| `ConnectionPools.ConnectionPool.ForgetAndDestroy` | packages/drivers/ConnectionPool.ts:437-443 | a destroyed resource leaves every bucket and its timer |
| `ConnectionPools.ConnectionPool.DestroyResource` | packages/drivers/ConnectionPool.ts:437-443 | destroy up to its await |
| `ConnectionPools.ConnectionPool.DestroyFinished` | packages/drivers/ConnectionPool.ts:443-445 | then the waiters are pumped |
| `ConnectionPools.ConnectionPool.PumpWaiters` | packages/drivers/ConnectionPool.ts:489-499 | starts a factory for each live waiter as far as capacity goes, failing a waiter on the spot when the factory throws at once, and none while draining |
| `ConnectionPools.ConnectionPool.HasLiveWaiter` | packages/drivers/ConnectionPool.ts:448-453 | true iff some queued waiter is unsettled |
| `ConnectionPools.ConnectionPool.ShiftLiveWaiter` | packages/drivers/ConnectionPool.ts:473-482 | drops the settled head of the queue, and settles and returns the first live waiter |
| `ConnectionPools.ConnectionPool.DeliverToWaiter` | packages/drivers/ConnectionPool.ts:459-470 | gives the resource to the first live waiter, or parks it |
| `ConnectionPools.ConnectionPool.ReturnToIdle` | packages/drivers/ConnectionPool.ts:601-612 | parks with an eviction timer only above the floor |
| `ConnectionPools.ConnectionPool.StartFactory` | packages/drivers/ConnectionPool.ts:503-506 | a factory call reserves its slot before it is awaited |
| `ConnectionPools.ConnectionPool.PassToDestroyHook` | packages/drivers/ConnectionPool.ts:665-671 | one call of the destroy hook |
| `ConnectionPools.ConnectionPool.StartWarm` | packages/drivers/ConnectionPool.ts:539-551 | the loop starts the factories missing to the floor, none while draining |
| `ConnectionPools.ConnectionPool.WarmUp` | packages/drivers/ConnectionPool.ts:539-548 | ensureMin up to its await |
| `ConnectionPools.ConnectionPool.IdleTimerFired` | packages/drivers/ConnectionPool.ts:627-654 | evicts above the floor, re-warms below it |
| `ConnectionPools.ConnectionPool.RejectWaiters` | packages/drivers/ConnectionPool.ts:582-592 | every live waiter is rejected, in order |
| `ConnectionPools.ConnectionPool.DrainStart` | packages/drivers/ConnectionPool.ts:578-597 | takes the whole idle list at once, then destroys one by one; a second drain does nothing |
| `ConnectionPools.ConnectionPool.DrainTurn` | packages/drivers/ConnectionPool.ts:595-598 | one turn of the drain's loop |
| `ConnectionPools.ConnectionPool.DrainNext` | packages/drivers/ConnectionPool.ts:595-598 | the next resource of a drain under way |
| `ConnectionPools.ConnectionPool.Reopen` | packages/drivers/ConnectionPool.ts:192-194 | clears the draining flag |
| `PoolLifecycle.NoStrandedPool` | packages/drivers/poolLifecycle.ts:135-207 | draining with status not CLOSED implies some call in flight will set CLOSED; with no call in flight READY implies not draining |
| `PoolLifecycle.FailedConnectLeavesNothing` | packages/drivers/poolLifecycle.ts:158-168 | after a failed connect and with no other connect, idle stays empty, and at quiescence nothing warm is left |
| `PoolLifecycleEffects.ConnectOpensAndWarms` | packages/drivers/poolLifecycle.ts:135-148 | a CLOSED engine lets acquirers in and awaits exactly the factory calls missing to the floor; any other does nothing |
| `PoolLifecycleEffects.WarmUpDecides` | packages/drivers/poolLifecycle.ts:148-168 | a warm-up that succeeded makes it READY unless the pool drains; otherwise it drains the pool and awaits that |
| `PoolLifecycleEffects.DrainClosesTheEngine` | packages/drivers/poolLifecycle.ts:152-166 | whoever awaited a drain sets CLOSED at its end |
| `PoolLifecycleEffects.DisconnectDrains` | packages/drivers/poolLifecycle.ts:192-207 | an engine that is not CLOSED drains its pool on disconnect, a CLOSED one does nothing |
| `PoolLifecycleEffects.PoolMovesAreThePools` | packages/drivers/ConnectionPool.ts:539-571 | a failed factory call fails the warm-up that awaits it, and no other move of the pool does |
| `PoolOverlap.ClosedMeansEmpty` | packages/drivers/poolLifecycle.ts:135-207 | over all moves in which no connect starts while a call is still closing, CLOSED after the first connect means an empty idle list |
| `PoolOverlap.ClosingUnderAConnect` | packages/drivers/poolLifecycle.ts:151-155 | a connect that does start so has a continuation that ends CLOSED with an idle connection, provided some slot is not lost |
| `PoolOverlap.LostForGood` | packages/drivers/ConnectionPool.ts:280-288 | a lost slot stays lost, and with all slots lost nothing is idle |
| `PoolOverlap.SomethingComesIdle` | packages/drivers/ConnectionPool.ts:353-428 | from any open pool with a slot that is not lost, something can come to be idle |
| `PoolOverlap.ClosedMayKeepAConnection` | packages/drivers/poolLifecycle.ts:192-196 | a complete run that ends CLOSED, with nothing in flight and an idle connection |
| `PoolOverlap.NextIsTied` | packages/drivers/poolLifecycle.ts:135-207 | what a lifecycle call awaits is always its own factory calls or its own drain loop |
| `PoolLifecycle.NextKeeps` | packages/drivers/poolLifecycle.ts:135-207 | every move of connect, disconnect or the pool keeps the lifecycle invariant |
| `PoolLifecycle.PooledHost.constructor` | packages/drivers/poolLifecycle.ts:103-117 | an engine starts CLOSED over a fresh pool |
| `PoolLifecycle.PooledHost.WarmFactoryAnswered` | packages/drivers/ConnectionPool.ts:550-571 | a warm-up's factory answers; a failure is what its promise rejects with |
| `PoolLifecycle.PooledHost.ConnectStart` | packages/drivers/poolLifecycle.ts:135-140 | connect up to its await of the warm-up |
| `PoolLifecycle.PooledHost.ConnectWarmed` | packages/drivers/poolLifecycle.ts:151-168 | the warm-up's end: READY, retreat before a drain, or drain after a failure |
| `PoolLifecycle.PooledHost.DrainEnded` | packages/drivers/poolLifecycle.ts:152-153 | whoever awaited the drain sets CLOSED |
| `PoolLifecycle.PooledHost.DisconnectStart` | packages/drivers/poolLifecycle.ts:192-196 | disconnect does nothing when CLOSED, else drains |
| `TransactionCustody.ClientGivenBackOnce` | packages/drivers/SQLEngine.ts:1380-1389 | over every interleaving the reserved client is given back at most once, exactly once when all calls have ended unless the transaction is still active, and the record is registered iff the client is still reserved |
| `TransactionEffects.ClientIsDestroyedExactlyWhen` | packages/drivers/SQLEngine.ts:1380-1442 | over every run, an event gives the client back iff it ends the transaction, and then to be destroyed iff it is a failed answer to a ROLLBACK (the caller's, the error path's or the timeout's) or the timeout with a statement in flight; a failed COMMIT or BEGIN pools it |
| `TransactionEffects.SettledIsOver` | packages/drivers/SQLEngine.ts:729-767 | once transaction(fn) has settled, the transaction is open no more |
| `TransactionEffects.BeginRegistersOrGivesBack` | packages/drivers/SQLEngine.ts:384-408 | a confirmed BEGIN registers an ACTIVE record, timed iff asked; a failed one pools the client and rejects |
| `TransactionEffects.CallbackCommitsOrRollsBack` | packages/drivers/SQLEngine.ts:735-765 | the end of fn sends COMMIT or, if it threw, ROLLBACK while the transaction is open, and else rejects at once |
| `TransactionEffects.StatementsTakeTurns` | packages/drivers/SQLEngine.ts:614-642 | a statement is sent iff the transaction is open and the connection free, and else changes nothing |
| `TransactionEffects.FailureIsUndone` | packages/drivers/SQLEngine.ts:267-316 | a failed statement with auto-rollback is undone to the top savepoint, or rolls the transaction back if there is none; otherwise it is over |
| `TransactionEffects.FailedUndoRollsBack` | packages/drivers/SQLEngine.ts:289-305 | a failed undo turns into a rollback of the transaction if that is open |
| `TransactionEffects.EndingsAreSentOnce` | packages/drivers/SQLEngine.ts:421-485 | COMMIT and ROLLBACK are sent only from an open transaction, which is open no more then |
| `TransactionEffects.TimeoutSendsOrGivesUp` | packages/drivers/SQLEngine.ts:1405-1432 | the timeout sends ROLLBACK, or with a statement in flight destroys the client, or does nothing to a transaction that is over |
| `TransactionEffects.CommitPoolsTheClient` | packages/drivers/SQLEngine.ts:437-453 | the answer to COMMIT pools the client either way, and transaction(fn) resolves iff it is its own and confirmed |
| `TransactionEffects.RollbackPoolsOnlyWhenConfirmed` | packages/drivers/SQLEngine.ts:484-501 | the answer to ROLLBACK pools the client iff confirmed, and else destroys it |
| `TransactionEffects.AbortPoolsOnlyWhenConfirmed` | packages/drivers/SQLEngine.ts:484-501 | so does the answer to the error path's ROLLBACK, which also ends the statement's turn |
| `TransactionEffects.TimeoutPoolsOnlyWhenConfirmed` | packages/drivers/SQLEngine.ts:1429-1441 | so does the answer to the timeout's |
| `TransactionEffects.EverythingCanGoOn` | packages/drivers/SQLEngine.ts:224-502 | no call under way on a transaction gets stuck, whatever the database answers, and a set timeout can elapse |
| `TransactionCustody.NeverActiveAgain` | packages/drivers/SQLEngine.ts:428-502 | a record that has left ACTIVE or the registry never returns |
| `TransactionCustody.OneStatementAtATime` | packages/drivers/SQLEngine.ts:614-642 | at most one statement, its auto-rollback included, is in flight on a transaction, and busy is set meanwhile |
| `TransactionCustody.TimeoutSparesStatements` | packages/drivers/SQLEngine.ts:1405-1442 | with a statement in flight the timeout sends no ROLLBACK and destroys the client instead of pooling it |
| `TransactionCustody.ResolvedMeansCommitted` | packages/drivers/SQLEngine.ts:729-767 | a resolved transaction(fn) means the database confirmed its COMMIT; if fn threw it sent none |
| `TransactionCustody.ThrowNeverCommits` | packages/drivers/SQLEngine.ts:735-744 | if fn throws and nobody else commits, COMMIT is never sent |
| `TransactionCustody.StepKeeps` | packages/drivers/SQLEngine.ts:224-502 | every step of every call on the transaction keeps the custody invariant |
| `TransactionSavepoints.EngineNeverAhead` | packages/drivers/SQLEngine.ts:518-592 | with auto-rollback on, safe names, and no savepoint statement that itself loses the transaction over a non-empty stack, the engine's stack is an order-preserving sublist of the database's, however statements fail, except while the undo of a wiped statement is in flight |
| `TransactionEffects.SavepointsTakeTurns` | packages/drivers/SQLEngine.ts:518-591 | each savepoint operation is sent iff the transaction is open and the connection free; refused for the connection it has used up a name or cut the stack |
| `TransactionEffects.ConfirmedSavepointIsPushed` | packages/drivers/SQLEngine.ts:521-527 | a new name is on the stack iff confirmed |
| `TransactionEffects.ReleasedWhateverCameBack` | packages/drivers/SQLEngine.ts:546-559 | a released name is off the stack with all above it, whatever came back |
| `TransactionEffects.RewoundWhateverCameBack` | packages/drivers/SQLEngine.ts:579-591 | a name rolled back to is the top of the stack, whatever came back |
| `TransactionEffects.CutsAreAtTheLast` | packages/drivers/SQLEngine.ts:557-558 | a stack is cut at the last occurrence of the name, and is left alone without one |
| `TransactionSavepoints.SafeNamesExactly` | packages/drivers/SQLEngine.ts:553-591 | cutting at a name keeps every database stack above the engine's iff the name is on the engine's stack or newer than all of it |
| `TransactionSavepoints.RisingWithinIsSublist` | packages/drivers/SQLEngine.ts:518-528 | stacks of counter-made names agree in order as soon as they agree in contents |
| `TransactionSavepoints.WipeEndsTransactionExactly` | packages/drivers/SQLEngine.ts:281-313 | over all runs, a statement that made the database drop the transaction has ended it by the time its call is over iff auto-rollback is on |
| `TransactionSavepoints.WipeEndsTransaction` | packages/drivers/SQLEngine.ts:281-313 | with auto-rollback it has, whatever happens meanwhile |
| `TransactionSavepoints.WipeIsMissedWithoutAutoRollback` | packages/drivers/SQLEngine.ts:281-281 | without, the call is over at once, the engine keeps its names, and the transaction stays open until a commit, a rollback, the timeout or the end of fn |
| `TransactionSavepoints.WipeLeavesItOpen` | packages/drivers/SQLEngine.ts:277-316 | a run without auto-rollback that leaves an open transaction claiming a savepoint the database dropped |
| `TransactionSavepoints.SavepointWipeIsMissed` | packages/drivers/SQLEngine.ts:518-592 | a savepoint statement that loses the transaction is never noticed, and puts the engine ahead iff its stack is not empty then |
| `TransactionSavepoints.StrayNamePutsEngineAhead` | packages/drivers/SQLEngine.ts:585-591 | a run in which an unsafe name puts the engine ahead of the database |
| `TransactionBlocks.Perform` | packages/drivers/SQLEngine.ts:772-806 | a nested savepoint block, with any callback, any failures, and the timeout or an outside commit or rollback at any await, leaves the stack it entered with and the connection free, or the transaction has ended |
| `TransactionBlocks.PerformAll` | packages/drivers/SQLEngine.ts:777-785 | so does any sequence of statements and blocks a callback runs |
| `TransactionBlocks.PerformIsARun` | packages/drivers/SQLEngine.ts:772-806 | whatever a callback does is a run of the transaction in which a statement is asked for once, and a nested block asks for its savepoint, then for what its body does, goes back to the savepoint iff it throws, and releases it in any case |
| `TransactionBlocks.MeanwhileUntouched` | packages/drivers/SQLEngine.ts:1405-1442 | outside events never touch the savepoint stack, the turn or the statement in flight, and never reopen the transaction |
| `SQLEngines.TxRecord.constructor` | packages/drivers/SQLEngine.ts:384-386 | a transaction awaits BEGIN on its client |
| `SQLEngines.TxRecord.Custody` | packages/drivers/SQLEngine.ts:1380-1389 | of any record object: the client given back at most once, registered exactly while reserved, and resolved only if committed |
| `SQLEngines.TxRecord.BeginTransaction` | packages/drivers/SQLEngine.ts:385-408 | BEGIN's answer: the record is registered and armed, or the client released and transaction(fn) rejected |
| `SQLEngines.TxRecord.CallbackDone` | packages/drivers/SQLEngine.ts:735-765 | fn's end: rollback, rejection because the transaction is gone, or commit |
| `SQLEngines.TxRecord.ExecuteStart` | packages/drivers/SQLEngine.ts:234-257 | a statement claims the connection, or is refused |
| `SQLEngines.TxRecord.ExecuteAnswered` | packages/drivers/SQLEngine.ts:267-316 | success ends the turn; failure rolls back to the top savepoint, or rolls back, or nothing without auto-rollback |
| `SQLEngines.TxRecord.UndoAnswered` | packages/drivers/SQLEngine.ts:289-305 | a failed rollback to the savepoint becomes a full rollback |
| `SQLEngines.TxRecord.AbortTransaction` | packages/drivers/SQLEngine.ts:471-485 | the error path's rollback does nothing when the transaction has already ended |
| `SQLEngines.TxRecord.AbortAnswered` | packages/drivers/SQLEngine.ts:484-501 | its answer gives the client back, destroyed if the rollback failed |
| `SQLEngines.TxRecord.CreateSavepointStart` | packages/drivers/SQLEngine.ts:518-525 | the counter advances even when the claim is refused |
| `SQLEngines.TxRecord.CreateSavepointAnswered` | packages/drivers/SQLEngine.ts:521-527 | the name is pushed only when the database confirmed it |
| `SQLEngines.TxRecord.ReleaseSavepointStart` | packages/drivers/SQLEngine.ts:540-559 | the stack is cut even when the claim is refused |
| `SQLEngines.TxRecord.ReleaseSavepointAnswered` | packages/drivers/SQLEngine.ts:546-559 | the stack is cut below the name whatever the answer |
| `SQLEngines.TxRecord.RollbackToSavepointStart` | packages/drivers/SQLEngine.ts:573-591 | as for release, keeping the name |
| `SQLEngines.TxRecord.RollbackToSavepointAnswered` | packages/drivers/SQLEngine.ts:579-591 | the stack is cut above the name whatever the answer |
| `SQLEngines.TxRecord.CommitTransactionStart` | packages/drivers/SQLEngine.ts:421-438 | leaves ACTIVE and stops the timer before COMMIT is sent |
| `SQLEngines.TxRecord.CommitAnswered` | packages/drivers/SQLEngine.ts:437-453 | the client is released whether or not COMMIT succeeded |
| `SQLEngines.TxRecord.RollbackTransactionStart` | packages/drivers/SQLEngine.ts:464-485 | leaves ACTIVE and stops the timer before ROLLBACK is sent |
| `SQLEngines.TxRecord.RollbackAnswered` | packages/drivers/SQLEngine.ts:484-501 | the client is released, or destroyed if ROLLBACK failed |
| `SQLEngines.TxRecord.TimeoutElapsed` | packages/drivers/SQLEngine.ts:1405-1432 | with a statement in flight the client is destroyed at once, else ROLLBACK is sent |
| `SQLEngines.TxRecord.TimeoutRollbackAnswered` | packages/drivers/SQLEngine.ts:1429-1441 | the client is released, or destroyed if that ROLLBACK failed |
| `SQLEngines.TxRecord.ReleaseTransactionClient` | packages/drivers/SQLEngine.ts:1380-1389 | gives the client back only while the record is registered |
| `SQLEngines.ExecuteAlone` | packages/drivers/SQLEngine.ts:258-332 | outside a transaction the pool gets the statement's client back, to destroy iff the statement failed and the check said invalid; the call keeps it iff the statement failed and the check threw |
| `DoctorSearch.ResolutionIsExact` | packages/doctor/Doctor.ts:609-735 | over any finite graph of plain singletons, dispense succeeds iff no way down through uncached keys meets an unregistered key or a key being built; success caches exactly the keys reachable, failure only keys that would themselves have been dispensed |
| `DoctorEffects.BuiltHasItsDependencies` | packages/doctor/inject.ts:37-46 | scopes are inherited: of what is built, every dependency not caught is stored under the scope its injection names, or else the ambient one, and the factory did not throw |
| `DoctorEffects.ScopeIsInherited` | packages/doctor/inject.ts:42-42 | a SCOPED key built in n has every SCOPED dependency not caught in n, or in the scope the injection names |
| `DoctorEffects.DispenseConstructs` | packages/doctor/Doctor.ts:609-714 | a key that must be built is, for any mix of lifecycles: in flight meanwhile, its injections in order under their scopes up to the first failure not caught, then a throw or a new instance, stored where its lifecycle says; a failure stores nothing and drops the scope it brought |
| `DoctorEffects.ResolveConstructs` | packages/doctor/Doctor.ts:497-502 | resolve builds in the same way with nothing in flight for it and nothing stored |
| `DoctorEffects.RefusedBeforeConstruction` | packages/doctor/Doctor.ts:637-735 | refused at once and without a trace: an unregistered key, a SCOPED key without a scope, a key in flight that is not stored |
| `DoctorEffects.HandedOutIsStored` | packages/doctor/Doctor.ts:655-713 | what is handed out is in the cache of its lifecycle and scope; a TRANSIENT key is in no cache it was not in |
| `DoctorEffects.StoredIsHandedOut` | packages/doctor/Doctor.ts:652-690 | what is stored is handed out as it is, and nothing changes |
| `DoctorSearch.SearchKey` | packages/doctor/Doctor.ts:633-670 | the search behind it: what was built is in dependency order, and a failure comes with the dead end it met |
| `DoctorSearch.SearchDoses` | packages/doctor/inject.ts:37-46 | the same for the injections of one factory, in order |
| `DoctorSearch.BuiltHasNoDeadEnd` | packages/doctor/Doctor.ts:727-735 | below a key that was built no way down comes back to itself or meets an unregistered key |
| `DoctorSearch.ReachableIsBuilt` | packages/doctor/Doctor.ts:655-670 | everything reachable from a built key was cached or built |
| `DoctorFrames.FrameDiscipline` | packages/doctor/Doctor.ts:609-714 | a dispense, normal or failing, leaves the in-flight set as it was, loses no instance and no scope present at entry, and on failure leaves no scope of its own that was absent at entry |
| `DoctorFrames.ResolveDiscipline` | packages/doctor/Doctor.ts:497-502 | the same for resolve |
| `DoctorFrames.DispensedTwiceIsTheSame` | packages/doctor/Doctor.ts:652-700 | a successful dispense of a SINGLETON or SCOPED entry is repeated with the same instance and no change |
| `DoctorFrames.FailureCachesNothing` | packages/doctor/Doctor.ts:660-700 | a failed dispense does not cache its own key |
| `DoctorFrames.CachedOrFresh` | packages/doctor/Doctor.ts:651-713 | what is handed out is the cached instance, else new; TRANSIENT is always new |
| `DoctorFrames.RevokedIsForgotten` | packages/doctor/Doctor.ts:381-394 | after revoke no instance cached for the key is handed out again |
| `DoctorFrames.FailureLeavesOnlyNamedScopes` | packages/doctor/Doctor.ts:609-625 | a scope a failed dispense leaves behind is not its own and is one some factory names; with no scope named a failure leaves the scopes it found |
| `DoctorFrames.FailedResolveLeavesOnlyNamedScopes` | packages/doctor/Doctor.ts:497-502 | the same for resolve |
| `DoctorFrames.OtherScopesMaySurvive` | packages/doctor/Doctor.ts:611-625 | any name but the empty one and the operation's own can be left behind by a failing dispense |
| `DoctorFrames.DispenseGrows` | packages/doctor/Doctor.ts:609-714 | caches only grow in a resolution, and no key in flight gets cached |
| `DoctorRegistry.IndexStaysSound` | packages/doctor/Doctor.ts:251-394 | prescribe, stock and revoke keep every indexed name standing for a registration of that name, and each label holding its own name |
| `DoctorRegistry.ReadThroughStaysResolvable` | packages/doctor/Doctor.ts:745-758 | read through to a parent, every name that resolves still has a registration |
| `DoctorRegistry.SwapIsAccepted` | packages/doctor/Doctor.ts:328-394 | stocking after revoke is refused iff another key has taken over the name, and otherwise is what the name finds |
| `DoctorEffects.PrescribedIsFound` | packages/doctor/Doctor.ts:251-278 | a class is refused iff it is registered or a label has its name; else its key and name find it and nothing else is found differently |
| `DoctorEffects.StockedIsFound` | packages/doctor/Doctor.ts:328-367 | stocking is refused iff the key is registered or the name taken; else likewise |
| `DoctorEffects.RevokedIsNotFound` | packages/doctor/Doctor.ts:381-394 | a revoked key and its name find nothing, all others what they did; its instances, and no others, are dropped |
| `DoctorEffects.NearestIsFound` | packages/doctor/Doctor.ts:745-758 | a child reads its own entries and, where it has none, its parent's |
| `DoctorModel.Enter` | packages/doctor/Doctor.ts:678-688 | the scope's map is reachable before construction begins, as it was or empty, and nothing else changes |
| `Doctor.Container.constructor` | packages/doctor/Doctor.ts:219-221 | a new container is empty and reads through to its parent |
| `Doctor.Container.EveryNameResolves` | packages/doctor/Doctor.ts:745-758 | whatever a container's name lookup finds has a registration on its line of ancestors |
| `Doctor.Container.Prescribe` | packages/doctor/Doctor.ts:251-278 | refuses a registered class or a name a label holds; otherwise registers and takes over the name |
| `Doctor.Container.Stock` | packages/doctor/Doctor.ts:328-367 | refuses any name that is taken; otherwise registers |
| `Doctor.Container.Revoke` | packages/doctor/Doctor.ts:381-394 | drops the registration, the cached instances, and the name if it still points there |
| `Doctor.Container.Forget` | packages/doctor/Doctor.ts:387-388 | drops the key's instances from the singleton cache and every scope |
| `Doctor.Container.FindRegistration` | packages/doctor/Doctor.ts:745-747 | own registration, else the nearest ancestor's |
| `Doctor.Container.FindKey` | packages/doctor/Doctor.ts:756-758 | own name, else the nearest ancestor's |
| `Doctor.Container.DispenseKey` | packages/doctor/Doctor.ts:609-635 | one resolution, both ambient stacks as before, and no parent's caches touched |
| `Doctor.Container.ConstructKey` | packages/doctor/Doctor.ts:637-714 | the three lifecycles, caching only on success |
| `Doctor.Container.Guarded` | packages/doctor/Doctor.ts:658-669 | the cycle guard around the factory |
| `Doctor.Container.Factory` | packages/doctor/Doctor.ts:660-666 | construction is injection, in order |
| `Doctor.Container.Injected` | packages/doctor/inject.ts:37-46 | resolves against the container under construction, under the explicit scope or the ambient one |
| `Doctor.Container.Resolve` | packages/doctor/Doctor.ts:497-502 | builds fresh, by the container's own registration or a bare new |
| `UlidCodec.EncodeTime` | packages/id/ulid.ts:249-271 | refuses all but whole numbers of 48 bits; otherwise the ten base-32 digits of the time |
| `UlidCodec.EncodeRandom` | packages/id/ulid.ts:285-314 | the wrapping 32-bit buffer yields exactly the 16 base-32 digits of the 80-bit big-endian number; the padding branch is dead |
| `UlidCodec.WrapIsHarmless` | packages/id/ulid.ts:296-302 | however often the buffer has wrapped, the five bits taken are those of the true number |
| `UlidCodec.GetTimestamp` | packages/id/ulid.ts:398-449 | length first, then the leftmost unreadable character, then the 48-bit range, else the time |
| `UlidCodec.DecodeUndoesEncode` | packages/id/ulid.ts:406-421 | decoding an encoded time followed by any readable tail gives the time back |
| `UlidCodec.AcceptedIsEncoded` | packages/id/ulid.ts:398-449 | a string decodes to t iff it is 26 readable characters whose canonical form starts with the encoding of t |
| `UlidCodec.AcceptedCharacters` | packages/id/ulid.ts:410-412 | exactly which characters are accepted |
| `UlidCodec.RefusedExactlyWhen` | packages/id/ulid.ts:398-445 | a string is refused for its length iff that is not 26, else for its leftmost character outside the alphabet, else for its time iff its first character is above 7 |
| `UlidCodec.AlphabetIsCrockfords` | packages/id/ulid.ts:61-61 | the alphabet is the digits and the capitals without I, L, O and U |
| `UlidCodec.DigitsAreRead` | packages/id/ulid.ts:264-268 | digits of a number read back as the number and are canonical |
| `UlidCodec.ReadAreDigits` | packages/id/ulid.ts:408-421 | a readable string is, in canonical form, the digits of its value |
| `UlidCodec.RandomRoundTrip` | packages/id/ulid.ts:285-314 | the random digits give the 80-bit number back |
| `UlidCodec.OrderIsNumeric` | packages/id/ulid.ts:61-61 | comparing digit strings of one length is comparing their numbers, because the alphabet ascends |
| `UlidCodec.OrderIsTimeThenRandom` | packages/id/ulid.ts:147-147 | ULIDs sort as strings by time, then by random number |
| `UlidMonotonic.IncrementAddsOne` | packages/id/ulid.ts:344-367 | the carrying increment adds one to the 80-bit number, and overflows only at its maximum |
| `UlidMonotonic.OverflowIsAllOnes` | packages/id/ulid.ts:361-366 | it overflows iff every byte is 0xFF |
| `UlidMonotonic.IncrementRandom` | packages/id/ulid.ts:344-367 | the loop over a copied array computes the increment and leaves its argument alone |
| `UlidMonotonic.EmittedStringsIncrease` | packages/id/ulid.ts:173-198 | over every call sequence with any timestamps and any throws, emitted strings strictly increase |
| `UlidMonotonic.EmbedsTheRunningMaximum` | packages/id/ulid.ts:181-191 | each emitted string decodes to the latest acceptable timestamp so far |
| `UlidMonotonic.EmitsExactly` | packages/id/ulid.ts:173-198 | over every call sequence: a new latest time is emitted with the call's own random bytes; one at or below the latest at that time with the last number emitted and 1, or overflows at the greatest; anything but 48-bit whole numbers is refused |
| `UlidMonotonic.ThrowsExactlyWhen` | packages/id/ulid.ts:176-188 | when a call throws, and that the generator then carries on as if it had not been called |
| `UlidMonotonic.NextMovesUp` | packages/id/ulid.ts:187-197 | an emitting call moves the chain to what it emitted, strictly upwards |
| `UlidMonotonic.Generator.constructor` | packages/id/ulid.ts:224-227 | a new generator has emitted nothing |
| `UlidMonotonic.Generator.NextMonotonic` | packages/id/ulid.ts:173-198 | the method's result and new state are the chain's |
| `CronText.SplitThenJoin` | packages/cronus/schedule.ts:132-137 | splitting loses nothing and leaves no separator in a part |
| `CronText.JoinThenSplit` | packages/cronus/schedule.ts:132-137 | separator-free parts are recovered from their join |
| `CronText.LayoutHasWords` | packages/cronus/schedule.ts:219-219 | words set apart by white space are the words found |
| `CronText.LaidOut` | packages/cronus/schedule.ts:219-219 | every text is its words set apart by white space |
| `CronSchedule.ReadIsShowInverted` | packages/cronus/schedule.ts:136-181 | a list part reads as an item iff it is how that item is written |
| `CronAtoms.AtomsAreRead` | packages/cronus/schedule.ts:98-117 | a token is read as a value iff it is that number in decimal, zeros before it or not, or the whole of that month's or day's name in its field, in any case |
| `CronAtoms.NumeralsAreRead` | packages/cronus/schedule.ts:80-86 | digits are read as the number they are the decimal of |
| `CronSchedule.SoundFits` | packages/cronus/schedule.ts:146-195 | the parser takes an item iff it is sound: values in the field's range, ranges not reversed, steps of at least 1 that lead to a second value where there is room for one |
| `CronSchedule.HitsAreSteps` | packages/cronus/schedule.ts:156-200 | the parser's steps are what an item means: a star every so many from the field's first value, n only n, n/s every so many from n to the field's last, a-b/s from a to b |
| `CronSchedule.ValuesAreOnGrid` | packages/cronus/schedule.ts:197-200 | the loop's values are the arithmetic progression of the item, Sunday folded |
| `CronSchedule.FieldMeaning` | packages/cronus/schedule.ts:123-203 | a field is accepted with a set of values iff it lists sound items and the set is what the items hit |
| `CronSchedule.ListedOnce` | packages/cronus/schedule.ts:123-203 | the language is unambiguous: a field lists one sequence of items |
| `CronSchedule.FieldIsInRange` | packages/cronus/schedule.ts:183-200 | an accepted field is non-empty and in range, with no 7 for Sunday |
| `CronMatching.ParseRange` | packages/cronus/schedule.ts:156-181 | the bounds of a part, refusing reversed ranges |
| `CronMatching.ParsePart` | packages/cronus/schedule.ts:132-200 | the body of the field loop computes the part's values or rejects |
| `CronMatching.Stepped` | packages/cronus/schedule.ts:197-200 | the stepping loop |
| `CronMatching.ParseField` | packages/cronus/schedule.ts:123-203 | the field loop computes the union of its parts or rejects at the first bad one |
| `CronMatching.ParseSchedule` | packages/cronus/schedule.ts:215-247 | five fields or a rejection naming the first bad field |
| `CronMatching.AcceptsExactlyTheLanguage` | packages/cronus/schedule.ts:215-247 | an expression is accepted iff it is five white-space-separated lists of sound items |
| `CronMatching.RejectedAtTheFirstBadField` | packages/cronus/schedule.ts:216-236 | a rejection names no field iff there are not five words, else the first that is no list of sound items |
| `CronMatching.MatchingIsMeaning` | packages/cronus/schedule.ts:257-269 | a parsed expression matches a date iff the entry is due: union, ranges, steps, folding, and the day-of-month/day-of-week OR with the star rule |
| `CronMatching.FieldHits` | packages/cronus/schedule.ts:237-245 | a field's values and star flag are those of its items |
| `CronMatching.FieldsAreUsable` | packages/cronus/schedule.ts:227-236 | all five parsed sets are non-empty and in range |
| `CronusRuns.OneTimerAtMost` | packages/cronus/Cronus.ts:266-289 | at most one timer is armed, of the current generation; exactly one chain lives while active and none when stopped |
| `CronusRuns.NeverOverlaps` | packages/cronus/Cronus.ts:441-488 | a registration has at most one run in flight, and its guard is up exactly then |
| `CronusRuns.OnceStartsOnce` | packages/cronus/Cronus.ts:483-488 | a one-shot registration starts at most once, by tick or trigger |
| `CronusRuns.OnlyItsOwnRunRemoves` | packages/cronus/Cronus.ts:483-488 | a job leaves the registry only by remove or by the end of its own one-shot run |
| `CronusRuns.TicksStartWhatIsDue` | packages/cronus/Cronus.ts:335-375 | a tick starts only jobs registered before it, each at most once, whose schedule matches its minute |
| `CronusEffects.VisitStartsWhatIsDue` | packages/cronus/Cronus.ts:348-375 | a tick starts the next job of its snapshot iff it is still registered, enabled, matching, idle and, at a fixed time, last started by a tick in another local minute; else it only moves on |
| `CronusEffects.TickBeginsLater` | packages/cronus/Cronus.ts:335-348 | a tick begins iff its minute is later than the last evaluated or more than two earlier, with all registered jobs in order of registration to go through |
| `CronusEffects.FiringTicks` | packages/cronus/Cronus.ts:421-431 | a timer that fires is spent, and ticks, or arms the next one at once |
| `CronusEffects.TickEndsByArming` | packages/cronus/Cronus.ts:421-431 | a tick that is through arms the next timer iff a timer of the current generation began it |
| `CronusEffects.StartArms` | packages/cronus/Cronus.ts:266-272 | start arms the only timer of a new generation, or does nothing to an active ticker |
| `CronusEffects.StopDisarms` | packages/cronus/Cronus.ts:278-289 | stop leaves no timer armed and every tick under way with a past generation |
| `CronusEffects.AddRegisters` | packages/cronus/Cronus.ts:146-177 | a free name with a schedule in the language is registered under a record that has never run; else nothing changes |
| `CronusEffects.RemoveUnlists` | packages/cronus/Cronus.ts:197-206 | exactly the named job is registered no more |
| `CronusEffects.SwitchSetsTheFlag` | packages/cronus/Cronus.ts:233-247 | enable and disable set the flag of the registered record and nothing else |
| `CronusEffects.TriggerStarts` | packages/cronus/Cronus.ts:302-307 | trigger starts a registered job, enabled, due or not, unless it is running |
| `CronusEffects.CompletionLowersTheGuard` | packages/cronus/Cronus.ts:482-488 | the end of a run lowers the guard and removes the job iff it is one-shot and still registered |
| `CronusEffects.EverythingCanGoOn` | packages/cronus/Cronus.ts:335-489 | no tick, run or timer under way gets stuck |
| `CronusRuns.MinutesIncrease` | packages/cronus/Cronus.ts:336-344 | evaluated minutes strictly increase unless a tick falls more than two minutes below the last |
| `CronusStamps.NoReplay` | packages/cronus/Cronus.ts:353-370 | two ticks in a row that start one fixed-time job fall in different local minutes |
| `CronusReplay.FiresAgainExactlyWhen` | packages/cronus/Cronus.ts:352-370 | a due fixed-time job that has fired in this local minute fires again iff the last tick that started it did so in another |
| `CronusReplay.ReplayNeedsAnother` | packages/cronus/Cronus.ts:352-370 | between two fires of a fixed-time job in one local minute there is one in another |
| `CronusReplay.FiresTwiceInOneMinute` | packages/cronus/Cronus.ts:352-370 | a run in which a job fires twice in one local minute |
| `CronusRuns.StepKeeps` | packages/cronus/Cronus.ts:146-489 | every step of every call, tick, timer and run keeps the scheduler's invariant |
| `CronusScheduler.Cronus.constructor` | packages/cronus/Cronus.ts:102-121 | a new scheduler is the machine's initial state |
| `CronusScheduler.Cronus.AddJob` | packages/cronus/Cronus.ts:146-177 | refuses a taken name, then an action that is no function, then a bad schedule, else registers a fresh record |
| `CronusScheduler.Cronus.RemoveJob` | packages/cronus/Cronus.ts:197-206 | drops the job and its schedule |
| `CronusScheduler.Cronus.SwitchJob` | packages/cronus/Cronus.ts:233-247 | enables or disables |
| `CronusScheduler.Cronus.Begin` | packages/cronus/Cronus.ts:266-272 | idempotent start of a new generation |
| `CronusScheduler.Cronus.Stop` | packages/cronus/Cronus.ts:278-289 | invalidates every chain and clears the timer |
| `CronusScheduler.Cronus.ScheduleTick` | packages/cronus/Cronus.ts:421-431 | arms only for the current generation of an active ticker |
| `CronusScheduler.Cronus.TimerFired` | packages/cronus/Cronus.ts:424-428 | a stale timer dies; a current one ticks |
| `CronusScheduler.Cronus.TickStarts` | packages/cronus/Cronus.ts:335-348 | the clock guard, the watermark and the snapshot |
| `CronusScheduler.Cronus.ListJobs` | packages/cronus/Cronus.ts:348-348 | the snapshot is the registered jobs in order of registration |
| `CronusScheduler.Cronus.VisitNext` | packages/cronus/Cronus.ts:348-349 | the loop takes the next job of the snapshot |
| `CronusScheduler.Cronus.LookAt` | packages/cronus/Cronus.ts:348-374 | one turn of the loop: identity, enabled, match, local-time guard, overlap guard |
| `CronusScheduler.Cronus.Register` | packages/cronus/Cronus.ts:164-176 | a fresh record and its schedule under the name |
| `CronusScheduler.Cronus.Stamp` | packages/cronus/Cronus.ts:370-370 | the local key of the fire |
| `CronusScheduler.Cronus.TickEnds` | packages/cronus/Cronus.ts:424-428 | a tick begun by a timer re-arms its chain |
| `CronusScheduler.Cronus.TriggerJob` | packages/cronus/Cronus.ts:302-307 | runs unless the job is missing or running |
| `CronusScheduler.Cronus.RunStarts` | packages/cronus/Cronus.ts:446-448 | raises the guard and counts the run |
| `CronusScheduler.Cronus.ReleaseGuard` | packages/cronus/Cronus.ts:482-482 | lowers the guard |
| `CronusScheduler.Cronus.RunEnds` | packages/cronus/Cronus.ts:482-488 | then removes a one-shot job, by identity |
| `MetricLabels.KeysAreLabels` | packages/metro-man/BaseMetric.ts:230-246 | two records have the same key iff they are the same labels, and only the empty record has the key no_label |
| `MetricLabels.KeyReadsAsTheLabels` | packages/metro-man/BaseMetric.ts:230-246 | read by the rules of the text exposition format, the key of a labelled record is exactly its labels in ascending order |
| `MetricLabels.RenderedIsReadBack` | packages/metro-man/BaseMetric.ts:243-288 | a rendered label list, names, quotes, escapes and commas, reads back as the list |
| `MetricLabels.NamesAreLegalExactlyWhen` | packages/metro-man/BaseMetric.ts:32-32 | which label names are legal, character by character |
| `MetricLabels.RenderedOnce` | packages/metro-man/BaseMetric.ts:243-245 | a rendered label list reads back as one list only |
| `MetricLabels.ValueEnds` | packages/metro-man/BaseMetric.ts:279-288 | escaping is injective and never shows a bare quote |
| `MetricLabels.NeverNoLabel` | packages/metro-man/BaseMetric.ts:231-233 | no labelled series has the key of the unlabelled one |
| `MetricLabels.SortedIsAscending` | packages/metro-man/BaseMetric.ts:242-242 | the entries of a record come out strictly ascending by name |
| `MetricLabels.OneOrderOnly` | packages/metro-man/BaseMetric.ts:242-242 | a set of entries has one ascending listing |
| `MetricLabels.Escape` | packages/metro-man/BaseMetric.ts:279-288 | the escaping loop |
| `MetricLabels.Render` | packages/metro-man/BaseMetric.ts:243-245 | the joined text of a sorted list |
| `MetricLabels.LabelKey` | packages/metro-man/BaseMetric.ts:230-246 | a key iff every name is legal, else the first illegal name |
| `HistogramModel.HistogramIsItsObservations` | packages/metro-man/BaseMetric.ts:201-263 | after any sequence of observe, remove and reset, accepted or not, the string-keyed series agree with a map from label set to observations: same keys, bucket counts, sums and totals |
| `HistogramModel.ApplyAgrees` | packages/metro-man/Histogram.ts:83-110 | every call preserves that agreement |
| `HistogramModel.NormalisedIsRising` | packages/metro-man/Histogram.ts:63-68 | bucket bounds end up strictly ascending and are exactly the ones given |
| `HistogramModel.RecordHolds` | packages/metro-man/Histogram.ts:105-109 | one observation adds one to exactly the buckets whose bound it does not exceed |
| `HistogramModel.OnlyHowManyOfEach` | packages/metro-man/Histogram.ts:107-109 | bucket counts depend on the multiset of observations only |
| `HistogramModel.RenderedCountsAreCumulative` | packages/metro-man/Histogram.ts:145-158 | each rendered bucket counts exactly the values up to its bound, counts never fall, and +Inf is the total |
| `HistogramModel.EverySeriesRendersItsObservations` | packages/metro-man/Histogram.ts:118-158 | after any calls on a histogram with any finite bounds, each label set renders the exact cumulative counts of its observations in ascending bounds, ending with the total |
| `HistogramModel.ObserveAnswers` | packages/metro-man/Histogram.ts:83-110 | after any calls an observation is refused for its value, then for the label le, then for an illegal name; else its label set, and no other, has the value after those it had |
| `HistogramModel.RemoveAnswers` | packages/metro-man/BaseMetric.ts:201-215 | after any calls remove says whether the label set had observations and then it has none; an illegal name is refused; reset leaves none |
| `HistogramModel.DefaultBoundsAreThese` | packages/metro-man/Histogram.ts:12-12 | without bounds of its own a histogram has 1, 1.5, 2, 5 and 10 |
| `Histograms.Entries.Add` | packages/metro-man/Histogram.ts:105-109 | sum, count and the bucket loop, in place |
| `Histograms.Histogram.Create` | packages/metro-man/Histogram.ts:48-69 | refuses non-finite bounds, else a histogram over the normalised ones |
| `Histograms.Histogram.Find` | packages/metro-man/BaseMetric.ts:252-263 | the series under a key, made empty on a miss |
| `Histograms.Histogram.Tally` | packages/metro-man/Histogram.ts:100-109 | one series takes the value and the others keep theirs |
| `Histograms.Histogram.Observe` | packages/metro-man/Histogram.ts:83-110 | the checks in order, then the observation |
| `Histograms.Histogram.Remove` | packages/metro-man/BaseMetric.ts:213-215 | drops the series of these labels and says whether there was one |
| `Histograms.Histogram.Reset` | packages/metro-man/BaseMetric.ts:201-203 | drops every series |

## Left out

- Waiter objects of the pool are tickets in order of arrival with a set of settled ones, so aliasing of waiter objects is not modelled.
- Liveness of the pool (a live waiter implies a full pool) is not claimed; the code does not give it, since a failed factory call in `acquire` does not pump.
- An explicit commit or rollback does not claim the connection, so no exclusion between it and a running statement is stated.
- TransactionBlocks.Perform: is about callbacks that run one statement at a time, as the savepoint block is documented to require.
- TransactionSavepoints.EngineNeverAhead: assumes a successful statement leaves savepoints alone; what it excludes besides is shown to be necessary (`SafeNamesExactly`, `SavepointWipeIsMissed`).
- DoctorSearch.ResolutionIsExact: is about singletons whose factories neither throw nor catch; mixed lifecycles, throwing and catching factories are covered by `DoctorEffects.DispenseConstructs` and the frame lemmas.
- Doctor.Container.Factory: a factory is a list of injections; one that calls another container directly is not modelled.
- CronusScheduler.Cronus.RunStarts: does not record `lastRun`, a clock reading nothing in the scheduler depends on.
- Histograms.Histogram.Create: does not model the refusal of buckets that are not an array of numbers.
- Factories that call `reset`, `discharge` or `revoke` while resolving, the async container provider, and `checkup`.
- UlidCodec.GetTimestamp: strings are sequences of characters of the basic plane; a supplementary character would count as two units of length.
- The quality of random bytes, the process-wide shared ULID chain, and the other identifier generators.
- Cron error messages and their reasons; numerals too large for exact floating point, which are out of range either way.
- The delay until the next minute boundary, `unref`, run ids and timings of Cronus.
- The text of rendered numbers, HELP and TYPE lines, and the STRING and JSON renderers of metrics; floating-point rounding of sums, which are exact reals here.
- Events, listeners, error classes and option-shape checks everywhere; wire protocols, dialect engines, OQL, caches, routers and guards.
