# Ticket queue verification

A model, in Dafny, of the seat-ticketing protocol of a NestJS service, with proofs. Users join a waiting queue kept
in a Redis sorted set; promotion takes a seat from a Redis counter and creates a reservation in the database; a
delayed job expires unpaid reservations and returns their seats. There is no transaction around any of this: safety
rests on DECR and INCR, ZADD NX, SETNX, status checks and timing.

`dafny verify dfyconfig.toml` checks the project.

## Two layers over one set of stores

`Domain.dfy` defines what Redis, the database and the job queue hold about one event.

The interleaved layer (`Protocol.dfy`) follows one event command by command. Any number of `promoteUsers` batches and
`expireReservation` runs are in flight, each with its own program counter and local values; any of them may take
the next step. SETNX and EXPIRE, SETEX and INCR, DEL and DECR are separate steps. Any command may be rejected, any run
may stop where it is, and a due job may be delivered any number of times. A join and a payment are one step each.
Counters in a log that no step reads (seats granted, denied and returned, overlaps, windows) let the theorems
speak about every schedule without assuming anything about it. The proofs are in `SeatLedger`, `LedgerRefinement`,
`ReleaseOnce`, `PaidOrReleased`, `TimelyRelease`, `ActiveLimit`, `SinglePromotion`, `ServiceOrder`, `TidyEntries` and
`AtRest`. `Hazards`, `ExpiryHazards`, `SeatsToCome`, `OversellBound`, `LimitAttained`, `ComingToRest`, `Disagreement`
and `Scenarios` prove the other direction: from which states, exactly, a promise can be broken.

The whole-operation layer has one function per operation (`Operations.dfy`: `Join`, `Promote`, `PromoteMany`, `Pay`,
`Expire`), properties of these over single calls, batches and whole sequences (`Coupling`, `Batches`,
`OperationRuns`), and the services themselves as classes that update Redis keys and tables in place
(`RedisService`, `Database`, `Services`, `Processors`, `Application`), each method proved to do to its event what the
function says and nothing to any other event. What an operation promises its caller is stated apart from the functions,
over rows, entries, keys and the clock (`Outcomes`), and proved of the functions (`Answers`) and of the methods.

Two results join the layers. The commands of a promotion or of an expiry run, when nothing interleaves with them, have
exactly the effect of the whole operation (`SerialSteps`). And what whole operations keep of users, reservations,
queue and seats holds again after interleavings that have come to rest, under conditions stated exactly (`AtRest`).

## Conventions

Times are milliseconds. Users and events are numbers; the order of users stands for the byte order by which a sorted
set breaks ties. Reservations are never deleted, so a reservation is named by its index among the rows of its event.
Keys with a time to live stay in their map and are compared with the clock at each read. The answers of the database
to the saves of reservation rows are parameters (`saved`, `saves`), and so is the clock. The number of active users
allowed is a parameter.

## Where the code keeps less than its documentation promises

- Requirement 12.3 (`.kiro/specs/nest-ticket-queue/requirements.md:162`) wants each user promoted exactly once under
  concurrent promotion. Reading the head does not pop it. As long as no batch reads a head that another one is still
  serving, and no command is rejected after a save, it holds (`SinglePromotion.OneReservationPerUser`); wherever a
  batch is about to do so it can fail if and only if a seat can still be obtained
  (`Hazards.SharedHeadPromotesTwiceIff`), be it the seat of the first reservation, which comes back by its expiry while
  the user heads the queue (`Scenarios.OverlapPromotesTwice`). The order of service is kept throughout
  (`ServiceOrder.FirstComeFirstServed`).
- Property 8 (`.kiro/specs/nest-ticket-queue/design.md:494`) and requirement 12.2 want the seat of an expired
  reservation returned exactly once. Two things stand against it. The lock vanishes 3600 s after it was taken: expiry
  returns a seat at most once for runs that stay below a bound from their read to their status write if and only if the
  bound is at most 1800 s (`Scenarios.WindowBoundIsSharp`). And the catch block of a promotion returns the seat of a row
  that was saved and expires nevertheless (`ExpiryHazards.BrokenPromotionReturnsTwice`,
  `Scenarios.RefundedAndReleased`). `ExpiryHazards.ReturnedAgainIff` says when a seat can come back once more.
- Requirement 4.5 limits the concurrent active users. Overlapping batches each compute their slots from the count they
  read, and a key deleted before it is counted, or never counted, makes that count too low: k overlapping batches can
  reach k times the limit plus (k - 1) times (k - 1 + lost INCRs) and no more (`LimitAttained.LimitIsSharp`). Batches
  that never overlap keep the limit.
- Property 6 rules out overselling. The catch block of `handleSuccessfulPromotion` returns the seat for any error, also
  one after the row was saved (`Hazards.LateRefundOversells`, `Coupling.SeatsSurviveFaultIff`). The house is oversold
  if and only if more seats were returned that no reservation gave up than are free (`LedgerRefinement.NoOversell`);
  slow expiry runs alone oversell it from half the life of a lock on (`OversellBound.OversellBoundIsSharp`).
- Requirement 12.1 lets the last seat go to somebody. While a loser is between DECR and INCR, a seat that comes back is
  hidden from the next DECR: its user is turned away, EXPIRED, although a seat is free (`Hazards.DeniedThoughFree`,
  `Scenarios.DeniedWithFreeSeat`). Without losers in flight and returned seats the last seats are granted exactly:
  `SeatLedger.LastSeats`.
- A payment is accepted up to and including the millisecond of expiry. A reservation can be paid for and lost if and
  only if it can still be paid and its seat is back already, its promotion can still break off, or its job is due in
  that same millisecond and nothing keeps its seat from being returned (`ExpiryHazards.PaidAndLostIff`).
- The entry of a user is written without a look at the reservation. Marked ACTIVE after the payment or the expiry, or
  marked EXPIRED by a loser after another batch promoted the same user, it can stay at odds with the reservation at rest
  (`Disagreement.LateActivationDisagrees`, `Disagreement.EarlyPaymentDisagrees`, `Disagreement.SharedDropDisagrees`,
  `Disagreement.SharedServiceDisagrees`); without these, with promotions that do not break off after their save and
  jobs due after expiry, they agree at rest (`AtRest.UsersAgreeAtRest`).

## Model

| member | source | states |
|---|---|---|
| LedgerRefinement.ProtocolRefinesLedger | src/queue/queue.service.ts:141-257 | Over every schedule of any number of batches, expiry runs, joins, payments, rejected commands and stopped runs, the moves seen by a seat ledger (free; held or reserved; kept by a PAID reservation) are each allowed when made, and replaying them gives the ledger read off the final state |
| LedgerRefinement.StepRefines | src/reservations/reservations.service.ts:194-203 | One protocol step is one ledger move (grant, release, payment, forfeit of a PAID seat, credit of a seat returned again) or invisible to the ledger; a losing DECR and its INCR are invisible |
| LedgerRefinement.LedgerSafe | src/queue/queue.service.ts:153-162 | Any sequence of allowed ledger moves leaves no account negative, and the accounts add up to the house plus the credits |
| LedgerRefinement.CreditsAreDefects | src/queue/queue.service.ts:216-223 | The credits in the ledger of a schedule are exactly the returns of seats beyond the first return of each, by expiry runs and catch blocks together |
| LedgerRefinement.PunctualJobsForfeitNothing | src/reservations/reservations.service.ts:44-67 | If at the end of a schedule every job is due strictly after its reservation expires and no catch block has returned the seat of a saved row, no step of it returned the seat of a PAID reservation |
| LedgerRefinement.SeatsConserved | src/queue/queue.service.ts:153-162 | In every reachable state free + taken + paid is the house plus the returns beyond the first of each seat; taken + paid are the held seats and the reservations whose seat was never returned; free seats are never negative and the counter is never below minus the losers in flight |
| LedgerRefinement.NoOversell | src/redis/redis.service.ts:53-59 | In every reachable state held seats and reservations with a claim (PAID, or pending and not released by expiry) stay within the house if and only if the seats returned that no reservation gave up are at most the free ones; so always, if expiry runs take less than half the life of a lock, jobs are due after expiry and no promotion broke off after its save |
| OversellBound.OversellBoundIsSharp | src/redis/redis.service.ts:129-139 | Of all events where batches never overlap, no promotion breaks off after its save and jobs are due after expiry, none is ever oversold with every expiry run below a bound from its read to its status write, if and only if the bound is at most half the life of a lock |
| OversellBound.OversoldOnTime | src/reservations/reservations.service.ts:185-203 | A reachable state of an event with one seat and two reservations with a claim to it, with batches never overlapping, no promotion broken off, jobs due after expiry and no run beyond half the life of a lock between its read and its status write |
| LedgerRefinement.GrantedIff | src/queue/queue.service.ts:154-162 | A DECR ends in a grant or in a denial, and in a grant if and only if the seats held, those that losers have yet to put back and the reservations whose seat was never returned number less than the house plus the returns beyond the first of each seat |
| SeatLedger.LastSeats | src/queue/queue.service.ts:153-162 | From any reachable state with N seats in the counter and no losers in flight, as long as no seat comes back, M decrements in any interleaving grant exactly min(M, N), a denial means that all N are granted, and the counter with the losers in flight is N - min(M, N) |
| SeatLedger.SeatsAlways | src/queue/queue.service.ts:141-257 | Every schedule keeps: counter + held + losing + what reservations took less what was returned on their account = house, counter + losing not negative, and every grant held, a row, or refunded before a row was saved |
| PaidOrReleased.PaidExcludesReleased | src/reservations/reservations.service.ts:176-203 | In every reachable state, a reservation that was ever paid is still PAID and its seat was never returned, by expiry or by the catch block, unless its job fell due in the very millisecond of its expiry or its promotion broke off after its save and was refunded |
| ExpiryHazards.PaidAndLostIff | src/reservations/reservations.service.ts:117-133 | From a reachable state with a pending reservation, queued job or not, a state is reachable in which it was paid and is no longer PAID or its seat is back, if and only if it has not passed its expiry and one of these holds: its seat is back already; the batch that saved it has not ended its promotion or still owes the refund; or its job is due in the millisecond of expiry and its lock was not left without a time to live, its seat unreturned, by a run that stopped |
| PaidOrReleased.AtMostOneReleasePerLockLife | src/redis/redis.service.ts:129-139 | With failures anywhere and any number of retries, every return of a seat is backed by one acquisition of its lock or is the one refund of its promotion; more than one return beside that refund means that at least 3600 s have passed since the lock was first taken |
| TimelyRelease.ReleasedExactlyOnce | src/reservations/reservations.service.ts:185-233 | If every expiry run gets from its read to its status write in under half the life of a lock, expiry returns each seat at most once for good, although the lock vanishes, and it comes back at most once in all if its promotion was not refunded after its save; an EXPIRED row and a completed run mean that expiry returned it |
| Scenarios.WindowBoundIsSharp | src/redis/redis.service.ts:129-139 | If every run stays strictly below a bound from its read to its status write, every seat whose promotion was not refunded after its save comes back at most once, in all reachable states, if and only if the bound is at most half the life of a lock |
| ExpiryHazards.HalfLockReleasesTwice | src/reservations/reservations.service.ts:176-203 | From any state with an unclaimed pending reservation whose job is queued and no run between its read and its status write, two more returns of its seat can follow though none of the runs that follow spends more than half the life of a lock there |
| ExpiryHazards.ReturnedAgainIff | src/redis/redis.service.ts:129-139 | From any reachable state with a pending reservation, one more return of its seat is reachable if and only if the batch that saved it is still running the promotion, or its job is queued and its lock was not left without a time to live by a run that stopped before EXPIRE |
| ExpiryHazards.BrokenPromotionReturnsTwice | src/queue/queue.service.ts:216-223 | From every reachable state with a batch past the save of a pending reservation whose lock is not stuck, two returns of its seat can follow, one by expiry and one by the catch block |
| ReleaseOnce.StepKeepsLocks | src/redis/redis.service.ts:129-139 | Every step keeps the lock history: acquisitions = releases + runs that owe a release, and a lock is retaken only after its life |
| ReleaseOnce.StepKeepsTiming | src/reservations/reservations.service.ts:44-67 | Every step keeps the clocks in order: no job is due before its reservation expires, each row gets at most one job, expiry runs exist only for jobs that are due |
| TimelyRelease.StepKeepsTimely | src/reservations/reservations.service.ts:166-203 | Every step keeps the claim on a row unique while runs are on time: once the lock was taken, every run that read the row as pending is shut out by the lock for its whole window |
| ActiveLimit.OverlappingBatchesBounded | src/queue/queue.service.ts:268-282 | In every reachable state with at most k overlapping batches activeCount is at most k times the limit plus (k - 1) times (k - 1 + lost INCRs); at most k times the limit when no batch opens between SETEX and INCR of another and no INCR is lost; at most the limit when batches never overlap |
| LimitAttained.LimitIsSharp | src/queue/queue.service.ts:268-282 | For every limit of at least one, every k of at least one and every number of lost INCRs, a number bounds activeCount over all events with that limit, at most k overlapping batches and at most so many lost INCRs if and only if it is at least k times the limit plus (k - 1) times (k - 1 + lost INCRs) |
| ActiveLimit.NegativeNeedsOverlap | src/redis/redis.service.ts:102-126 | The count is below zero by no more than the batches between SETEX and INCR and the lost INCRs; so it is negative only if there is one of these |
| ActiveLimit.CountCoversLiveKeys | src/redis/redis.service.ts:102-126 | In every reachable state the count, corrected by commands in flight and lost INCRs, is at least the number of live keys, however keys lapse; it is not negative when no INCR is in flight or lost |
| ActiveLimit.StepKeepsActive | src/queue/queue.service.ts:268-282 | Every step keeps the potential, the count plus the slots still open in all batches, within its bound, and the count over the keys |
| SinglePromotion.OneReservationPerUser | src/queue/queue.service.ts:141-163 | After every schedule in which no batch read a head that another batch was serving, and no promotion broke off after its save, all reservations belong to different users, however many batches overlapped |
| ServiceOrder.FirstComeFirstServed | src/queue/queue.service.ts:141-163 | After every interleaved schedule, overlaps and faults included, the heads of the queue were read in non-decreasing order of joining time, and whoever has a reservation or an entry past WAITING was read as a head and did not join later than anybody still queued |
| Hazards.SharedHeadPromotesTwice | src/redis/redis.service.ts:96-99 | From every reachable state in which a batch is about to read a head that another batch is serving, at any point up to its ZREM, and a seat can be obtained, two reservations of one user can follow without a promotion breaking off |
| Hazards.SharedHeadPromotesTwiceIff | src/redis/redis.service.ts:96-99 | From such a state in which users have one reservation each, that can follow if and only if a seat can be obtained: what losers, refunds and expiry runs under way put back brings the counter to one, a pending reservation can expire, or a batch is about to save a row |
| Hazards.ReservedAgainIff | src/queue/queue.service.ts:141-163 | From every reachable state with a batch about to read the head of the queue, one more reservation can ever follow, no promotion breaking off, if and only if a seat can be obtained in this sense; else the event is sold out for good |
| AtRest.UsersAgreeAtRest | src/queue/queue.service.ts:175-190 | After every interleaving in which no batch read a head that another batch was serving or dropping, no entry was marked ACTIVE for a reservation already settled, no promotion broke off after its save and jobs are due after expiry: once every batch and run is over or stopped, users, entries, reservations and queue agree as between whole operations if no expiry run stopped right before marking its entry and no loser was left marked but queued; and only if so, when runs were on time |
| AtRest.SeatBalance | src/reservations/reservations.service.ts:196-203 | In every reachable state with runs on time, jobs due after expiry and no refund after a save, counter + pending and PAID rows + seats held + seats that losers put back = house + rows still pending though their seat is back |
| AtRest.PrematureIff | src/reservations/reservations.service.ts:196-203 | After such an interleaving with runs on time, a row is pending with its seat back if and only if an expiry run stands between its INCR and its status write |
| AtRest.AgreementAtRest | src/reservations/reservations.service.ts:194-215 | After such an interleaving, at rest, with runs on time and nothing stopped with a seat in hand, between the INCR and the status write of an expiry, or halfway: queue in order, users agree, and counter + pending and PAID rows = house |
| TidyEntries.StepKeepsEntries | src/queue/queue.service.ts:182-194 | While batches attend to different users and jobs are due after expiry, each step that marks no entry ACTIVE for a settled reservation and breaks off no promotion keeps what every entry says: WAITING only while queued and without reservation, queued otherwise only while a batch is taking the user off, ACTIVE and DONE naming the pending and the PAID row once entered, EXPIRED an expired row or none |
| ComingToRest.ComesToRest | src/queue/queue.service.ts:263-285 | From every reachable state the system can come to rest without breaking off a promotion, adding a job too early or leaving anything halfway that was not left so; reservations stay, and an entry at odds with a reservation stays at odds |
| Disagreement.LateActivationDisagrees | src/queue/queue.service.ts:182-188 | From every reachable state in which a batch is about to mark an entry ACTIVE for a reservation that was paid or has expired (then with no expiry run about to mark that entry), the system can come to rest with users and reservations in disagreement, though no promotion breaks off, no job is due too early and nothing more is left halfway |
| Disagreement.EarlyPaymentDisagrees | src/reservations/reservations.service.ts:131-139 | The same from every reachable state in which a saved reservation can still be paid and its batch has yet to mark the entry: the payment comes first |
| Disagreement.SharedDropDisagrees | src/queue/queue.service.ts:229-243 | The same from every reachable state in which a batch is about to read a head whose loser is not yet marked, with a seat in the counter or in the hand of that loser: the user is promoted and then marked EXPIRED |
| Disagreement.SharedServiceDisagrees | src/redis/redis.service.ts:96-99 | From every reachable state in which a batch is about to read a head that another batch is serving, and a seat can be obtained, the system can come to rest with users and reservations in disagreement, no promotion breaking off |
| SerialSteps.PromotionIsSerial | src/queue/queue.service.ts:141-257 | The single commands of a promotion, undisturbed, have exactly the effect of the whole-operation specification, in each of its cases: nobody waiting, sold out, promoted, and the save rejected |
| SerialSteps.ExpiryIsSerial | src/reservations/reservations.service.ts:164-234 | The single commands of an expiry run, undisturbed, have exactly the effect of the whole-operation specification, in each of its cases |
| SerialSteps.FailedSaveIsUndone | src/queue/queue.service.ts:216-223 | A rejected save followed by the catch block changes the stores in one place only: the seat is back |
| Hazards.LateRefundOversells | src/queue/queue.service.ts:216-223 | From every reachable state with a batch past its save, a user waiting, a slot to fill and a counter that is not negative, a rejected command refunds the seat although the row stays, and one more reservation for the head of the queue follows; a house fully occupied is then oversold |
| Hazards.DeniedThoughFree | src/queue/queue.service.ts:154-162 | From every reachable state in which all free seats are owed by losers between DECR and INCR, the next DECR denies its user, whose entry ends EXPIRED with the reservation it had, off the queue, with as many seats free as before and no row added |
| Scenarios.LateFaultOversells | src/queue/queue.service.ts:216-219 | A reachable state with one seat, one rejected job submission, and two reservations of one user with a claim to it |
| Scenarios.RefundedAndReleased | src/queue/queue.service.ts:216-219 | A reachable state with one seat that was returned twice, by a catch block and by an expiry run, with two in the counter, though no run spent any time between its read and its status write |
| Scenarios.OverlapPromotesTwice | src/queue/queue.service.ts:141-163 | A reachable state of an event with one seat in which one user holds two reservations though no promotion broke off: two batches overlapped |
| Scenarios.DeniedWithFreeSeat | src/queue/queue.service.ts:234-243 | A reachable state with a free seat and a user who was denied: EXPIRED, off the queue and without any reservation, though no promotion broke off |
| Scenarios.PaidAndReleased | src/reservations/reservations.service.ts:131-133 | A reachable state with a reservation that was paid and is not PAID or has its seat returned |
| Scenarios.HalfLockWindowReleasesTwice | src/redis/redis.service.ts:129-139 | A reachable state in which the one seat of an event was returned twice by expiry alone though no run spent more than half the life of a lock between its read and its status write |
| Coupling.NewStoreCoupled | src/events/events.service.ts:23-31 | A new event is coupled |
| Coupling.JoinKeepsCoupling | src/queue/queue.service.ts:71-81 | Joining keeps Redis and the database coupled: queued if and only if WAITING, ACTIVE and DONE name the one pending or paid reservation, EXPIRED an expired one or none, jobs and locks match rows, counter + kept seats = house |
| Coupling.PromoteKeepsCoupling | src/queue/queue.service.ts:175-190 | Promotion, sold-out drop and failed save keep the coupling |
| Coupling.SeatsSurviveFaultIff | src/queue/queue.service.ts:216-223 | After a promotion whose command was rejected, and its refund, counter + kept seats = house if and only if the save of the row was the command rejected; then nothing has changed at all |
| Coupling.PayKeepsCoupling | src/reservations/reservations.service.ts:131-139 | Payment, accepted or refused, keeps the coupling |
| Coupling.ExpireKeepsCoupling | src/reservations/reservations.service.ts:200-209 | Expiry, effective or refused, keeps the coupling |
| Coupling.NeverAlreadyProcessed | src/reservations/reservations.service.ts:185-192 | Between whole operations the lock refuses nobody |
| Coupling.LiveKeysCounted | src/redis/redis.service.ts:102-126 | In coupled stores the count is at least the number of live keys and not negative |
| OperationRuns.RunCoupled | src/queue/queue.service.ts:42-89 | Coupling holds after any sequence of joins, promotions, payments, expiries and waits |
| OperationRuns.FirstComeFirstServed | src/queue/queue.service.ts:141-163 | Over any such sequence users leave the queue in non-decreasing order of joining time, and nobody still waiting joined before somebody served |
| OperationRuns.NobodyServedOffSale | src/queue/queue.service.ts:47-53 | Over any such sequence everybody who waits or was served joined within the sales period |
| OperationRuns.OneChance | src/queue/queue.service.ts:56-81 | Over any such sequence a user gets at most one reservation, entries are never removed and only move WAITING, ACTIVE, DONE or EXPIRED, and settled reservations never change again |
| OperationRuns.SettledByItsOwn | src/reservations/reservations.service.ts:112-133 | Over any such sequence a reservation becomes PAID only through a payment by its owner, no later than its expiry, and EXPIRED only through an expiry of its own |
| OperationRuns.RepeatedJoinsAreIdle | src/queue/queue.service.ts:56-69 | Over any sequence of operations, all joins of a user who has an entry can be left out without changing the outcome |
| OperationRuns.JoinTwiceSamePosition | src/queue/queue.service.ts:56-69 | A second join while nobody was served reports the position of the first, which is the rank in the queue; the queue grew by one in all |
| OperationRuns.StatsAddUp | src/events/events.service.ts:65-87 | After any such sequence counter + rows that are PENDING_PAYMENT + rows that are PAID = totalSeats and the counter is not negative |
| OperationRuns.BatchIsARun | src/queue/queue.service.ts:263-285 | A batch, with any script of failing saves, is a sequence of single promotions |
| OperationRuns.PromoteManyKeepsCoupling | src/queue/queue.service.ts:263-285 | A batch keeps the coupling |
| Coupling.CountIsRows | src/events/events.service.ts:89-117 | The sum over the rows is the size of the set of row numbers with that status |
| Answers.JoinAnswers | src/queue/queue.service.ts:42-89 | In all stores: an unknown event, a time before the sales period and one after it are refused with answers of their own, without a trace; a user with an entry gets its status with the rank in the queue, or the position stored once off the queue; anybody else is inserted between members that keep their order, with an entry WAITING at that position |
| Answers.PayAnswers | src/reservations/reservations.service.ts:99-153 | In all stores: refused as not found, forbidden, not payable with its status, or expired, tested in this order, without a trace; otherwise exactly row and entry change, to PAID at the time of payment and to DONE |
| Answers.ExpireAnswers | src/reservations/reservations.service.ts:164-234 | In all stores: not found, not pending, and locked leave everything as it was; otherwise row and entry EXPIRED, one seat more, the lock held for 3600 s, and the count one less if and only if the active key was there and had not lapsed by the clock |
| Answers.PromoteAnswers | src/queue/queue.service.ts:141-163 | In all stores: nobody waiting; no seat, which costs the head its place, with the counter as before; the save rejected, without a trace; or row, job, entry and active key of the head, with one seat less and one user more counted |
| Answers.GrantOrRefundAnswers | src/queue/queue.service.ts:169-224 | For each command that may be rejected: the commands before it took effect, those after it did not, and the seat is back |
| Batches.ExactBatch | src/queue/queue.service.ts:263-285 | With no failed save, exactly min(slots, waiting, seats) users are promoted, the first so many in queue order with the next row numbers; all results are promotions except a last one; a shortage of seats drops exactly one more user; everybody else is untouched |
| Batches.DrainExactly | src/queue/queue.service.ts:141-257 | j calls serve exactly the first j users, seats going to the first of them; the queue is empty after as many calls as there were users and not before; the counter ends at max(0, free - j) |
| Batches.FailedSaveStopsBatch | src/queue/queue.service.ts:216-223 | A batch whose n+1st save fails, whatever the script says of later saves, promotes exactly n users in queue order, throws, and leaves the next user WAITING at the head with the seat back in the counter |
| Batches.PromoteUsersAnswers | src/queue/queue.service.ts:263-285 | From every ordered queue with entries and a counter that is not negative, and any script of failing saves: min(max(0, limit - activeCount), waiting, seats) users are promoted in queue order, or all before the first failing save, which makes the batch throw; one more is dropped if and only if seats ran out before slots and users; results, rows, jobs, entries, keys and count are exactly those of the users served |
| Batches.PromoteUsersRespectsLimit | src/queue/queue.service.ts:263-274 | For all stores, limits and scripts activeCount does not fall, does not pass the limit if it was below, and at the limit nothing changes and no result is returned |
| WaitingQueue.PositionsAreBijective | src/redis/redis.service.ts:80-86 | Positions are a bijection between the waiting users and 1..length |
| WaitingQueue.HeadRemovalShifts | src/redis/redis.service.ts:92-99 | Removing the head lowers every other position by exactly one |
| WaitingQueue.JoinKeepsPositions | src/redis/redis.service.ts:67-73 | A repeated join changes nothing; a first join adds one and worsens no position by more than one, and none held since strictly earlier |
| WaitingQueue.AddKeepsOrder | src/redis/redis.service.ts:67-73 | ZADD NX keeps the sorted set in (score, member) order without repeated members |
| WaitingQueue.AddMembers | src/redis/redis.service.ts:67-73 | ZADD NX adds the member unless its user is present, and nothing else |
| WaitingQueue.RemoveKeepsOrder | src/redis/redis.service.ts:92-94 | ZREM removes exactly the members of one user and keeps the order |
| Redis.RedisService.InitializeSeats | src/redis/redis.service.ts:49-51 | SET of the counter; nothing else in the keyspace changes |
| Redis.RedisService.DecrementSeats | src/redis/redis.service.ts:53-55 | DECR: the new value is returned and stored |
| Redis.RedisService.IncrementSeats | src/redis/redis.service.ts:57-59 | INCR of the counter; nothing else changes |
| Redis.RedisService.AddToQueue | src/redis/redis.service.ts:67-73 | ZADD NX, then the position after it |
| Redis.RedisService.RemoveFromQueue | src/redis/redis.service.ts:92-94 | ZREM |
| Redis.RedisService.GetNextInQueue | src/redis/redis.service.ts:96-99 | Nobody if and only if nobody waits; otherwise the user in position 1, whose joining time is the least, ties going to the lesser user; nothing is removed |
| Redis.RedisService.SetActiveUser | src/redis/redis.service.ts:102-109 | SETEX then INCR: the key lives 300 s and the count goes up even if the key existed; a rejected INCR leaves the key uncounted |
| Redis.RedisService.RemoveActiveUser | src/redis/redis.service.ts:116-121 | DEL; the count goes down by one if and only if the key was there and its time was not over |
| Redis.RedisService.SetReservationExpired | src/redis/redis.service.ts:129-139 | Succeeds if and only if there is no lock, or one with a time to live that is over; then holds it for 3600 s; otherwise changes nothing |
| Database.Tables.GroupByStatus | src/events/events.service.ts:92-98 | Each status that some row has, once, with the number of the rows that have it, in no particular order |
| Database.Tables.FindAllEvents | src/events/events.service.ts:33-44 | Every event once, in no particular order |
| Services.QueueService.JoinQueue | src/queue/queue.service.ts:42-89 | Result and all stores of the event are those of the join specification, with the answers of Answers.JoinAnswers stated outright; no other event changes |
| Services.QueueService.PromoteNextUser | src/queue/queue.service.ts:141-163 | Result and stores are those of the promotion specification; outright: the head is promoted with one seat less, or dropped if no seat is left, and a rejected save changes nothing; no other event changes |
| Services.QueueService.HandleSuccessfulPromotion | src/queue/queue.service.ts:169-224 | With the seat already taken: row, job, entry, queue and active key of the promoted user; or, whichever of these commands is rejected, what was done before it stays, what comes after it is not done, and the seat is put back |
| Services.QueueService.HandleSoldOut | src/queue/queue.service.ts:229-257 | The seat put back, the entry EXPIRED, the user off the queue, all else as before |
| Services.QueueService.PromoteUsers | src/queue/queue.service.ts:263-285 | The loop computes the batch for any script of failing saves; outright: never past the limit, nothing at the limit, and min(max(0, limit - activeCount), waiting, seats) promotions in queue order, one drop on a shortage of seats, or the promotions up to the first failing save and an exception, from any ordered queue with entries and a counter that is not negative |
| Services.ReservationsService.CreateReservation | src/reservations/reservations.service.ts:40-74 | One pending row that expires in 300 s and one job due in 300 s; nothing when the save is rejected, the row alone when the job submission is |
| Services.ReservationsService.ProcessPayment | src/reservations/reservations.service.ts:99-153 | Result and stores are those of the payment specification; outright: which of the four refusals, from row, owner, status and clock, and paidAt the time of payment |
| Services.ReservationsService.ExpireReservation | src/reservations/reservations.service.ts:164-234 | Result and stores are those of the expiry specification; outright: which of the three refusals, and after a release row and entry EXPIRED, one seat more, and the count down by one if and only if the active key had not lapsed |
| Processors.QueuePromotionProcessor.PromoteUsersForEvent | src/queue/processors/queue-promotion.processor.ts:57-84 | The batch of one event, within the limit and with as many promotions as slots, users and seats allow or up to the first failing save; its exception goes no further |
| Processors.QueuePromotionProcessor.HandlePromotionCheck | src/queue/processors/queue-promotion.processor.ts:33-51 | Whatever the order of the events and whatever saves fail: an event that is unknown or outside its sales period is untouched; on every other one min(max(0, limit - activeCount), waiting, seats) users are promoted in queue order and one more dropped on a shortage, or as many as came before its own first failing save |
| Processors.ReservationExpirationProcessor.Process | src/queue/processors/reservation-expiration.processor.ts:34-64 | A row that is absent, settled or locked leaves the event unchanged; else row and owner EXPIRED and the first min(slots after the expiry, waiting, seats + 1) waiting users hold new pending rows in queue order, or as many as came before the first failing save; no other event changes |
| Processors.OpenEvents | src/queue/processors/queue-promotion.processor.ts:41-43 | The filtered list holds exactly the events on sale, each once |
| Processors.EventsService.Create | src/events/events.service.ts:23-31 | A fresh identifier, the event stored, its counter set to totalSeats, no other event changed |
| Processors.EventsService.GetReservationCountsByStatus | src/events/events.service.ts:89-117 | The fold over the grouped rows yields, for each status, the size of the set of rows that have it, in whatever order the groups come |
| Processors.EventsService.GetStats | src/events/events.service.ts:65-87 | Counter, queue length and, for each status, the number of rows that have it; nothing for an unknown event |
| Application.System.CreateEvent | src/events/events.service.ts:23-31 | Creation keeps every event coupled and starts the new one with all seats free, nobody queued, nothing reserved and a count of zero |
| Application.System.Join | src/queue/queue.service.ts:42-89 | Joining through the services keeps every event coupled, gives the answers of Answers.JoinAnswers and changes one event |
| Application.System.Pay | src/reservations/reservations.service.ts:99-153 | Payment through the services keeps every event coupled, gives the answers of Answers.PayAnswers and changes one event |
| Application.System.ExpiryJob | src/queue/processors/reservation-expiration.processor.ts:34-64 | An expiry job, at any time and any number of times, keeps every event coupled; a row absent or settled leaves the stores unchanged, a pending one ends EXPIRED with its owner, and its seat and the others go to the first min(slots after the expiry, waiting, seats + 1) waiting users |
| Application.System.PromotionTick | src/queue/processors/queue-promotion.processor.ts:33-51 | The tick keeps every event coupled; events off sale are unchanged, and each event on sale gets min(max(0, limit - activeCount), waiting, seats) promotions and one drop on a shortage, or the promotions before its first failing save |
| Application.System.Statistics | src/events/events.service.ts:65-87 | In every coherent state the reported counts are those of the rows by status, and remainingSeats + PENDING_PAYMENT + PAID = totalSeats with remainingSeats not negative |

## Left out

- ActiveLimit.CountCoversLiveKeys: states at least, not equal, because keys lapse silently and a payment leaves its key in place.
- LimitAttained.LimitIsSharp: speaks of limits of at least one; with a limit of zero nobody is ever promoted.
- TimelyRelease.ReleasedExactlyOnce: states at most once, and at least once for completed runs; that a run completes is not claimed.
- AtRest.UsersAgreeAtRest: says nothing of locks, jobs and active keys; ActiveLimit.CountCoversLiveKeys bounds the keys in every state.
- Hazards.DeniedThoughFree: the entry ends EXPIRED and a later join does not revive it (OperationRuns.RepeatedJoinsAreIdle); that the free seat then stays unsold is not claimed.
- SerialSteps.PromotionIsSerial: the whole promotion at one reading of the clock; so are all operations of the whole-operation layer.
- Liveness: after a fault past SETNX every retry within the life of the lock reports already_processed and the row stays pending; only safety is stated.
- A join split between ZADD and the save of its entry, with a promotion in between.
- A payment split between its read and its save: neither its save nor the status update of the expiry checks the status again, so the split is not safe; payment is one step.
- Replies lost after a command took effect; a rejected command is taken to have had no effect.
- The three attempts and the backoff of the job queue: delivery any number of times covers them.
- Failures of commands outside a promotion in the whole-operation layer, and of commands after the save of a row beyond handleSuccessfulPromotion itself; the interleaved layer has them all.
- Several events in the interleaved layer: each step touches the keys and rows of one event only.
- getQueueStatus, findAll, findById, findByEventAndUser, isInQueue, isActiveUser: views that read and return.
- Event names and descriptions, user rows, creation timestamps.
- The CANCELED status is never created by the code; it is a value of the status type only.
- Notifications and the WebSocket gateway: output only.
- Authentication, roles, guards, validation and serialization of requests.
- Connections, backoff, configuration, module wiring and the seed script.
