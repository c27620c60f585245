# Verification of the session, outbox, registration and access protocols

This project models the concurrent protocols and the algorithmic cores of an Express/Prisma backend in
Dafny 4.11 and proves what they promise. `dafny verify dfyconfig.toml` checks all of it.

## How the model is built

**Protocols are step machines.** Each protocol has a `State` (the committed rows, the transactions or
requests in flight, and a log of what happened), a total function `Next` that is one statement of one
session, and `Run`, which applies any sequence of statements. A statement that is not enabled, or that
waits for a row lock, changes nothing. A theorem about `Run` therefore holds for every interleaving of any
number of sessions, including crashes: a crashed session just has no further statements. `Inv` is what every
statement keeps (`NextInv`) and hence every run (`RunInv`).

**Code that changes rows is imperative.** The methods of `RefreshStore`, `OutboxStore`, `OtpStore`,
`AccessGate`, `EmailWorker`, `TemplateService` and `Paginator` follow the source statement by statement. Where
the source awaits between two statements of a protocol, a parameter says what the other sessions do in the
meantime; the contracts hold for all values of those parameters. A ghost `trace` ties the state a method leaves
to a run of the machine, so the run theorems apply to it. A method that can be kept waiting for a row lock says
what it waits for. The paginator, slugs and rendering work on one snapshot.

| files | what they model |
|---|---|
| `RefreshTables`, `RefreshInvariant`, `RefreshFamily` | refresh_tokens, its transactions, one chain per login family |
| `RefreshRevocation`, `RefreshRotation`, `RefreshRace`, `RefreshMissed` | the revocation loop, one refresh exchange, the race with a second deleter and exactly when it is possible |
| `OutboxTables`, `OutboxInvariant`, `OutboxTheorems`, `OutboxRelay`, `OutboxRedrive` | outbox, relay runs and passes, dead letters, re-drive, retention |
| `EmailJobs` | the email worker and its sent marker |
| `OtpTables`, `OtpInvariant`, `OtpAccounts`, `OtpGuessing`, `OtpService` | registration codes, tickets, accounts, attempt limits |
| `RbacCache` | the versioned permission cache |
| `PaginatorSearch`, `PaginatorPages` | relational search filters, ordering and pages |
| `Slugs`, `Html`, `TemplateText`, `EmailTemplates` | slugs, escaping, placeholders, template edits and rendering |
| `Options`, `Decimals`, `Characters`, `FreshNumbers` | shared definitions |

## What was found

- **Revocation and a second deleter.** Revocation stops at the first DELETE that counts nothing. That is complete
  if that DELETE also saw nothing when it started (`RevokedForGood`), which holds whenever nobody else deletes rows
  of the session. With other deleters about, expiry cleanup or a second revocation, it can report success while a new
  token stays live; that is possible exactly if the session can still be rotated, or is being rotated, when the
  revocation starts (`MissesExactlyFromSource`).
- **Two accounts for one address.** users.email has no unique constraint; registration relies on the ticket. A
  verification stores the time it read before its update runs, on whatever has become of the row. If a code that was
  consumed is replaced and then verified under the time of its first verification, a second registration can redeem
  the same ticket. `OtpAccounts` proves that this is the only way: the condition `Safe` is sufficient for all runs,
  and after every insert that violates it the requests in flight can go on to a second account. Such inserts are
  reachable also after the clock has moved and before the cooldown has ended.
- **Codes sent too early.** Cleanup deletes rows by id. A row that was issued again after cleanup took its snapshot is
  deleted too, and the next code then goes out without a cooldown. `OtpGuessing` proves that codes go out too early
  only after such removals, that each of them can be followed by one, and what remains of the bound on guesses.
- **Retention that stops early.** A pruning DELETE that loses rows of its batch to another pruner counts fewer than the
  batch size and ends the loop with prunable rows left (`DisputedPassStopsEarly`).
- **Repeated mails.** The sent marker bounds the mails of a job exactly while no run starts beside another one or
  after a finished one whose marker is gone: `SafeStart` is sufficient for all runs, and from every state an
  unsafe start can be continued to one mail too many (`EmailJobs`).
- **from/to beyond the last page.** A page past the last one has no rows but non-null bounds;
  `BoundsExactUpToLastPage` says exactly when the bounds are right.

## Assumptions

- PostgreSQL READ COMMITTED: a statement sees the rows committed when it starts; an UPDATE or DELETE waits for
  a locked row and looks at it again afterwards, a DELETE by a list of ids at the id alone. Redis MGET and INCR are atomic, and the version key is never
  evicted. Adding a queue job with an existing id does nothing.
- One clock that never runs backwards, for the application and the database; lifetimes, lease, cooldown and limits are
  constant during a run. Times that the code reads before a statement are read in steps of their own: verification
  times, the terminal and retry times of outbox rows, and the starts of transactions, which is what now() is in the
  statements of registration. Transactions that issue a code or create an account last at most `timeout` (Prisma's
  limit for interactive transactions, five seconds), which is shorter than every configurable expiry.
- Generated tokens, ids and uuids are new. Hashes are injective, a sealed successor opens only with its own
  token and hash, a registration ticket cannot be presented before it was handed out, and a refresh token is
  presented only after the request that made it committed.

## Model

| member | source | states |
|---|---|---|
| `RefreshTables.OpenSuccessor` | src/modules/auth/refresh-successor.ts:49-56 | A sealed successor opens to a token exactly if it was sealed under the presented token and its hash |
| `RefreshInvariant.NextInv` | src/modules/auth/refresh-rotation.ts:33-111 | Every statement of every session (login, claim, insert, commit, rollback, delete pass, expiry cleanup, clock) keeps the table invariant: one chain per family, rows as the history says, no gap among unexpired rows, disjoint row locks |
| `RefreshInvariant.RunInv` | src/modules/auth/refresh-rotation.ts:33-111 | The table invariant holds after every interleaving of any number of sessions |
| `RefreshInvariant.SnapshotClosed` | src/modules/auth/auth.repository.ts:25-43 | The rows a revocation sees when it starts can be deleted together without leaving a gap in any chain |
| `RefreshInvariant.ExpiredClosed` | src/modules/auth/auth.repository.ts:241-265 | Deleting expired rows never removes the successor of an unexpired row, because expiry does not decrease along a chain |
| `RefreshFamily.FamilyIsOneRun` | src/modules/auth/refresh-rotation.ts:42-68 | In every reachable state the unexpired rows of a family are one contiguous run of successor links ending in its only unrotated row, with expiry and rotation times that never decrease |
| `RefreshFamily.Link` | src/modules/auth/refresh-rotation.ts:42-68 | The successor of a stored, unexpired token is stored and unexpired, of the same session, and one link nearer to the newest token |
| `RefreshFamily.RunLater` | src/modules/auth/refresh-rotation.ts:33-111 | History only grows in every run: owners and links stay, and a deleted row never comes back |
| `RefreshRotation.WalkIsInTurn` | src/modules/auth/refresh-rotation.ts:84-111 | The walk grants exactly what presenting each successor in turn, each under its own expiry and grace check, would grant |
| `RefreshRotation.WalkAnswers` | src/modules/auth/refresh-rotation.ts:84-111 | On one table state the walk ends at the newest token of the family if that is within reach of the hops, else it is invalid |
| `RefreshRotation.HopDecides` | src/modules/auth/refresh-rotation.ts:96-109 | One read of the walk decides: a missing or expired successor means the presented token no longer stands, an unrotated one is the live token, a rotated one is the next hop |
| `RefreshRotation.LatestSuccessor` | src/modules/auth/refresh-rotation.ts:84-111 | The walk with other sessions at work between its reads: relative to the state it returns in, it hands out the family's live token, and a standing token gets exactly the newest token at most five links ahead or invalid |
| `RefreshRotation.DeleteExpired` | src/modules/auth/refresh-rotation.ts:42-45 | Presenting an expired token deletes its row, or waits for rows that other transactions hold |
| `RefreshRotation.InsertAndCommit` | src/modules/auth/refresh-rotation.ts:55-68 | A committed rotation replaces the presented token by its successor, the one live token of the family |
| `RefreshRotation.ClaimAndRotate` | src/modules/auth/refresh-rotation.ts:47-68 | Exactly the request that finds the row unrotated wins the claim |
| `RefreshRotation.RereadLost` | src/modules/auth/refresh-rotation.ts:70-74 | A request that lost the claim finds the winner's rotation, or the row gone and answers invalid |
| `RefreshRotation.RevokeReused` | src/modules/auth/refresh-rotation.ts:76-79 | Reuse after the grace window leaves the whole family dead when its transaction commits, fails only after nine committed rotations, and waits only for rows that others hold |
| `RefreshRotation.AnswerRotated` | src/modules/auth/refresh-rotation.ts:76-81 | A row read rotated at most the grace period ago is answered issued or invalid, an older one by revocation |
| `RefreshRotation.RotateRefreshToken` | src/modules/auth/refresh-rotation.ts:33-82 | One whole exchange under every schedule of the others: which answer is given follows from what the statements find; issued means the family's live token, invalid changes no row, expired deletes the row, reused kills the family, failed is out of grace after nine rotations, waiting names a lock of somebody else, and a standing token is answered exactly |
| `RefreshRotation.RequestsAgree` | src/modules/auth/refresh-rotation.ts:70-81 | All requests with one standing token, winners, losers and retries, get the same answer while no newer rotation commits |
| `RefreshRevocation.RefreshStore.DeleteMany` | src/modules/auth/auth.repository.ts:31-43 | One DELETE against concurrent rotations: exactly what it removes and counts, or that it waits for a row that another transaction holds |
| `RefreshRevocation.RefreshStore.RevokeRefreshTokens` | src/modules/auth/auth.repository.ts:25-43 | The loop ends exactly as its passes say: a normal return whose last pass saw nothing seals off every matching family that existed at the start (always so when nobody else deletes matching rows), it gives up only if at least nine matching rows were committed while it ran, and it waits only for rows that others hold |
| `RefreshRevocation.RevokedForGood` | src/modules/auth/auth.repository.ts:25-43 | For both filters, inside a transaction or not: after a normal return whose last pass saw nothing, and the commit, the family has no row and no rotation in flight in any continuation |
| `RefreshRevocation.EmptySnapshotSeals` | src/modules/auth/auth.repository.ts:25-43 | A pass that sees no row of a family leaves no in-flight rotation of it |
| `RefreshRevocation.NewRowsAreRotations` | src/modules/auth/auth.repository.ts:25-43 | The only events that add a row to an existing family are committed rotations of that family |
| `RefreshRevocation.SealedCommits` | src/modules/auth/auth.repository.ts:31-43 | When the revoking transaction commits, the sealed-off family has no row and no rotation in flight |
| `RefreshRevocation.DeadForever` | src/modules/auth/auth.repository.ts:25-43 | A family without rows and rotations in flight stays so in every continuation |
| `RefreshRace.SecondDeleterLeavesLiveToken` | src/modules/auth/auth.repository.ts:31-43 | From every reachable state in which another deleter can take the family's rows once a rotation in flight commits, revocation can return normally while the family keeps a live token |
| `RefreshRace.CleanupCanTake` | src/modules/auth/auth.repository.ts:241-265 | Expiry cleanup is such a deleter: when the rotated token expires while its rotation is in flight, all rows of the family are in one batch |
| `RefreshRace.RevocationCanTake` | src/modules/auth/auth.repository.ts:31-43 | A second revocation of the same family is such a deleter |
| `RefreshRace.RaceIsReachable` | src/modules/auth/refresh-rotation.ts:47-68 | Such a state is reached by a login and a rotation that is in flight when its token expires |
| `RefreshMissed.MissesExactlyFromSource` | src/modules/auth/auth.repository.ts:25-43 | From every reachable state: some schedule with other deleters lets a revocation return normally and leave the family a live token if and only if a token of the family can be rotated, or is being rotated, into an unexpired one when the revocation starts |
| `OutboxTables.OutboxJobIdInjective` | src/modules/outbox/outbox.repository.ts:31-34 | One job id belongs to one outbox row |
| `OutboxInvariant.NextInv` | src/modules/outbox/outbox.repository.ts:39-161 | Every statement of producers, relays, workers, re-drives and retention keeps the outbox invariant: rows carry their intents until a job or dead letter does, and only retention removes rows and letters |
| `OutboxInvariant.RunInv` | src/modules/outbox/outbox.repository.ts:39-161 | The outbox invariant holds after every interleaving, with crashes, timeouts and stale claims |
| `OutboxTheorems.NoIntentLost` | src/modules/outbox/outbox.repository.ts:39-161 | Every committed, unpruned intent is pending with its own payload, or published after its job was added with that payload, or failed with its payload kept and exactly one relay-written dead letter that holds it until retention removes that letter |
| `OutboxTheorems.JobsCarryIntents` | src/jobs/relay/outbox-relay.ts:46-54 | Every job ever added under an intent's job id carries that intent's queue, name and original payload |
| `OutboxTheorems.StatusSteps` | src/modules/outbox/outbox.repository.ts:72-161 | No statement removes a pending row or changes a finished one, and only retention removes rows |
| `OutboxTheorems.TerminalForever` | src/modules/outbox/outbox.repository.ts:72-133 | A finished row never changes again in any run, until retention removes it for good |
| `OutboxTheorems.ClaimedWasDue` | src/modules/outbox/outbox.repository.ts:48-70 | A claim returns only pending, available rows, as they are, and makes them unavailable for the lease |
| `OutboxTheorems.ClaimsAreALeaseApart` | src/modules/outbox/outbox.repository.ts:48-70 | Two claims of one row are at least one lease apart unless a retry of that row came between |
| `OutboxTheorems.SkippedClaim` | src/modules/outbox/outbox.repository.ts:51-70 | A claim that leaves out a due row nobody else has locked takes a full batch of rows that were available no later |
| `OutboxTheorems.DueRowIsClaimed` | src/modules/outbox/outbox.repository.ts:48-70 | A due row with r rows no later than it is returned by one of the next ceil(r / limit) claims that do not find it locked, whatever other rows those claims skip, while enqueues and retries that land meanwhile are dated after it |
| `OutboxTheorems.RedrivenAtMostOnce` | src/modules/dead-letter/dead-letter.service.ts:76-121 | Stamped letters and committed re-drive rows match one to one, with the same queue, job and payload, over all interleavings |
| `OutboxRelay.RetryDelaySeconds` | src/jobs/relay/outbox-relay.ts:38-41 | The delay starts at 5 seconds and never exceeds one hour |
| `OutboxRelay.RetryDelayDoubles` | src/jobs/relay/outbox-relay.ts:38-41 | Each further attempt waits twice as long up to the cap, so waits never get shorter |
| `OutboxRelay.RelayRunIsRun` | src/jobs/relay/outbox-relay.ts:102-141 | Every run of one relay process, with its passes, crashes and all other sessions, is a run of the outbox |
| `OutboxRelay.RelayRunInv` | src/jobs/relay/outbox-relay.ts:56-141 | In every such run the copies at hand are those of the stored pending rows, and attempts are completed calls and failed publishes; enqueues, re-drives, retention and late publishes keep this |
| `OutboxRelay.AttemptsAreFailures` | src/jobs/relay/outbox-relay.ts:56-100 | In every run of one relay process a pending row with a known queue has as many attempts as failed publishes whose mark ran (a crash between the two leaves no trace), and fewer than the maximum |
| `OutboxRelay.FinishedWithinMaxAttempts` | src/jobs/relay/outbox-relay.ts:56-100 | In every run of one relay process, claims, leases and crashes included, no row gets more completed processRow calls than the maximum, and after that many it is finished |
| `OutboxRelay.GivenUpOnlyAtMaximum` | src/jobs/relay/outbox-relay.ts:56-100 | In every run of one relay process a row with a known queue has failed, or has a dead letter, only after exactly the maximum of failed publishes |
| `OutboxRelay.OutboxStore.ProcessRow` | src/jobs/relay/outbox-relay.ts:56-100 | With any number of relays at work before the publish lands, before the clock is read and before the mark: skipped exactly if the row is no longer pending when the mark runs, else published exactly on a delivered publish, retried exactly on a refused one with attempts left, failed on the last attempt or an unknown queue; and what became of the row, its job, its dead letter and its times, also for a stale copy; nothing else changes |
| `OutboxRelay.OutboxStore.RelayOnce` | src/jobs/relay/outbox-relay.ts:102-119 | One pass of one relay among all other sessions is a run that keeps its invariant; every processed row ends as its publish says, a retry ends the pass and leaves the rest of the batch pending with payload and attempts unchanged, and the count is the rows published |
| `OutboxRedrive.RefuseReplay` | src/modules/dead-letter/dead-letter.service.ts:37-73 | The guards refuse exactly the mails whose link or code is not the stored one, was used or verified, or has expired, and name the first such reason |
| `OutboxRedrive.RedriveLetter` | src/modules/dead-letter/dead-letter.service.ts:76-121 | Success needs a mail that may be replayed and stamps the letter with a new pending row carrying its job; every refusal says why and changes nothing; a lost race leaves no row, no stamp and no transaction |
| `OutboxRedrive.PruneOutbox` | src/modules/outbox/outbox.repository.ts:135-161 | The loop runs DELETEs that each pick the oldest prunable rows of the table as it then is and remove what others have left of them, until one is short; without late marks the count is at most the prunable rows that went and exact when nobody else is at work, and a short DELETE that lost no row to others leaves nothing prunable |
| `OutboxRedrive.DisputedPassStopsEarly` | src/modules/outbox/outbox.repository.ts:144-160 | The condition is needed: whenever more rows are prunable than fit the batch, another pruner that takes one row of it ends the loop with prunable rows left |
| `OutboxRedrive.PrunableGrows` | src/modules/outbox/outbox.repository.ts:74-113 | Exactly a mark that lands with a terminal time before the limit makes a further row prunable |
| `OutboxRedrive.PrunableShrinks` | src/modules/outbox/outbox.repository.ts:135-161 | No run without such late marks makes a further row prunable |
| `EmailJobs.BalancedNext` | src/jobs/workers/email.processor.ts:86-108 | Every step keeps that balance of mails |
| `EmailJobs.BalancedRun` | src/jobs/workers/email.processor.ts:86-108 | In every run, orderly or not, every mail sent belongs to a run that finished, died before writing the marker, or is still between the two |
| `EmailJobs.SentAtMostOnce` | src/jobs/workers/email.processor.ts:86-108 | If every start is safe (no other run in flight, none finished), the mails for a job, with or without an id, are at most one more than the runs that sent and died before writing the marker |
| `EmailJobs.LateStartsAfterExpiry` | src/jobs/workers/email.processor.ts:86-108 | In every run, a job with an id starts again after a finished run only when the marker that run wrote has expired |
| `EmailJobs.UnsafeStartCanRepeat` | src/jobs/workers/email.processor.ts:86-108 | The condition is exact: from every balanced state a start beside another run, or after a finished one, can be continued to more mails than that |
| `EmailJobs.UnsafeStartsReachable` | src/jobs/workers/email.processor.ts:86-108 | Both kinds of unsafe start are reachable: two overlapping runs, and a run after the marker has expired |
| `EmailJobs.GivenUpOnlyForGood` | src/jobs/workers/email.processor.ts:86-108 | However often the queue runs a job again, exactly after each failure to retry, and whatever other runs do: it is not given up before a mail went out unless the last dispatch failed for good |
| `EmailJobs.EmailWorker.ProcessEmailJob` | src/jobs/workers/email.processor.ts:86-108 | Among other runs of the job before the dispatch ends and before the marker is written: a marked job is skipped; it is given up exactly after a failure for good, run again exactly after any other failure of the dispatch or the marker write, and done otherwise; a mail that went out is finished with the marker written, or counted as unfinished; a failed dispatch without a mail changes nothing |
| `OtpInvariant.NextInv` | src/modules/otp/otp.repository.ts:26-117 | Every statement, with the clock reads and snapshots that precede it, keeps that verified rows, tickets and accounts go back to a code issued to that address and presented correctly, and that one registration at a time holds a consumed row |
| `OtpInvariant.RunInv` | src/modules/otp/otp.repository.ts:26-117 | The same after every interleaving of sends, verifications, registrations, rollbacks and cleanups |
| `OtpAccounts.AccountNeedsMatchedCode` | src/modules/auth/auth.service.ts:46-98 | In every reachable state, whatever runs next, an account appears only if a code issued to that address had already been presented correctly |
| `OtpAccounts.OneAccountPerAddress` | src/modules/auth/auth.service.ts:46-98 | No address ever has two active accounts made from codes, in every run whose inserts are safe |
| `OtpAccounts.SettledIsSafe` | src/modules/otp/otp.repository.ts:66-97 | An insert is safe when the clock has moved since the verifications of all registrations for the address and no verification in flight still has a time to store |
| `OtpAccounts.CooldownIsSafe` | src/modules/otp/otp.repository.ts:24-48 | An insert is safe when more of the cooldown of its code is left than a transaction may last |
| `OtpAccounts.UnsafeInsertCanDouble` | src/modules/otp/otp.repository.ts:24-97 | The condition is exact: after every unsafe insert, in any reachable state, a request for a code that was already past its account check, a verification and the waiting registration can go on to a second active account |
| `OtpAccounts.UnsafeInsertReachable` | src/modules/otp/otp.repository.ts:66-97 | Unsafe inserts are reachable, for every verification time from 55 seconds on and up to 5 seconds later, so also with a moved clock and before the cooldown ends |
| `OtpAccounts.TwoAccounts` | src/modules/otp/otp.repository.ts:24-97 | From each of them an address gets two active accounts |
| `OtpGuessing.GuessesPerCode` | src/modules/otp/otp.repository.ts:50-63 | At most maxAttempts comparisons are ever made against one issued code |
| `OtpGuessing.CloseIssues` | src/modules/otp/otp.repository.ts:24-48 | In every run, no more codes of an address go out before the cooldown of the one before is over than cleanups have removed its row early |
| `OtpGuessing.IssuesApart` | src/modules/otp/otp.repository.ts:24-48 | Without early removals, issues for one address, dated by the start of their transactions, are at least the cooldown apart, even when cleanup removes rows in between |
| `OtpGuessing.EarlyRemovalBreaksSpacing` | src/modules/otp/otp.repository.ts:101-117 | The condition is exact: after every early removal, in any reachable state, requests can make the next code go out too early |
| `OtpGuessing.EarlyRemovalReachable` | src/modules/otp/otp.repository.ts:101-117 | Early removals are reachable: a cleanup whose snapshot holds an old code deletes the one that replaced it |
| `OtpGuessing.GuessesInSpan` | src/services/system.service.ts:47-50 | In every run, the comparisons for one address in any time span are at most maxAttempts times the issues that fit in it a cooldown apart, once and once more for every early removal |
| `OtpService.OtpStore.SendCode` | src/modules/otp/otp.service.ts:29-58 | Exactly when a request for a code is refused (account, cooldown), waits for the row, runs out of time or stores the new code, dated from the start of its transaction, with no attempts and no verification |
| `OtpService.OtpStore.VerifyCode` | src/modules/otp/otp.service.ts:62-88 | An unlocked code that is unconsumed, unexpired and has attempts left is tried, which counts exactly one attempt; in all other cases the request changes nothing and says whether attempts ran out; a wrong code is invalid, the right one gets the ticket of the verification stored before, else of the one stored when it is read again, and fails only if the row is gone or its code was replaced |
| `OtpService.TicketsAgree` | src/modules/otp/otp.service.ts:60-61 | Correct submits of one code, one after the other or at once, get the same ticket while the code is not replaced |
| `OtpService.OtpStore.Register` | src/modules/otp/otp.service.ts:93-107 | Exactly when a registration is refused, waits, runs out of time or creates the account, that the ticket's verification is then consumed, and that the account is the only one in a safe run |
| `RbacCache.NextInv` | src/services/rbac-cache.service.ts:24-55 | Every step of readers, late refills and writers keeps each entry at least as new as the floor of the version stamped on it |
| `RbacCache.RunInv` | src/services/rbac-cache.service.ts:24-55 | The same after every interleaving |
| `RbacCache.DecisionsSeeFinishedChanges` | src/middleware/resolve-role.ts:23-46 | Every request decides with data the database held in revisions no older than any change whose bump had finished when the request started |
| `RbacCache.RequestAfterBump` | src/modules/role/role.service.ts:25-37 | A change whose bump has returned is seen by every later request: a hit holds data that includes it, a miss reads no older revision |
| `RbacCache.QuietCacheAgrees` | src/services/rbac-cache.service.ts:52-55 | When every committed change has been bumped, a hit is exactly what the database holds |
| `RbacCache.AccessGate.ResolveRole` | src/middleware/resolve-role.ts:15-52 | From revisions that include every change bumped before the request: 401 exactly without a subject or for a missing or deleted user, 403 exactly for a live user without an existing role, else that role as stored; exactly a current entry spares the database, and a miss refills the cache under the version read first |
| `RbacCache.DeletedUserStaysOut` | src/middleware/resolve-role.ts:26-43 | Once the bump of a deletion has returned and nothing undoes it, there is no hit for the user, no later request decides on their data, and every resolution is 401 |
| `PaginatorSearch.Split` | src/utils/paginator.ts:72-73 | The segments join back to the path and hold no dot |
| `PaginatorSearch.NestMeansChain` | src/utils/paginator.ts:89-97 | The nested filter holds at a row exactly when some chain of related rows along the path ends in a row whose leaf matches |
| `PaginatorSearch.Paginator.ModelFields` | src/utils/paginator.ts:47-62 | The memory cache never changes what a model's fields are |
| `PaginatorSearch.Paginator.FollowHops` | src/utils/paginator.ts:74-83 | The loop succeeds exactly if every hop is a relation of a known model, and else names the first segment that is not |
| `PaginatorSearch.Paginator.WrapHops` | src/utils/paginator.ts:89-97 | Wrapping from the inside out builds the nested filter |
| `PaginatorSearch.Paginator.RelationalCondition` | src/utils/paginator.ts:67-98 | Compilation succeeds exactly on paths of relations ending in a String column; the filter then uses the to-many wrapper exactly for list relations and selects the rows from which a chain reaches a match |
| `PaginatorSearch.Paginator.SearchConditions` | src/utils/paginator.ts:100-114 | The OR of all search fields selects the rows from which some field reaches a match; it fails exactly if some dotted field cannot be compiled |
| `PaginatorPages.PageNumber` | src/utils/paginator.ts:176-176 | A positive page number is kept, anything else is page 1 |
| `PaginatorPages.PerPage` | src/utils/paginator.ts:177-177 | The page size is the nearest number in 1..100, and 15 for zero or garbage |
| `PaginatorPages.OrderBy` | src/utils/paginator.ts:179-188 | Only whitelisted or default columns are sorted by, all in the requested or default direction, and the ordering ends with the tie-breaker |
| `PaginatorPages.ResultIsUnique` | src/utils/paginator.ts:185-188 | With a unique tie-breaker the ORDER BY has at most one sorted result |
| `PaginatorPages.ResultExists` | src/utils/paginator.ts:185-188 | Every finite set of rows has a sorted result |
| `PaginatorPages.OrderIsOpenWithoutTieBreaker` | src/utils/paginator.ts:40-41 | Without a tie-breaker, duplicates in the sort column leave two results |
| `PaginatorPages.PagesPartition` | src/utils/paginator.ts:208-224 | Pages 1..last_page fetched separately concatenate to the one sorted result, no row repeated or skipped |
| `PaginatorPages.BoundsExactUpToLastPage` | src/utils/paginator.ts:222-224 | from and to are the exact bounds of a page if and only if the page is not beyond the last one or there are no rows |
| `Slugs.SlugIsOnePass` | src/utils/sluggable.ts:16-24 | The chain of replacements is one pass that keeps letters and digits and puts one hyphen exactly where a gap stood between two of them |
| `Slugs.SlugCanonical` | src/utils/sluggable.ts:16-24 | Every slug is canonical, and making a slug of a slug changes nothing |
| `Slugs.SlugKeepsPlain` | src/utils/sluggable.ts:16-24 | A slug keeps every letter and digit of the lower-cased text in order |
| `Slugs.CandidatesDistinct` | src/utils/sluggable.ts:43-53 | All candidates base, base-1, base-2, ... are distinct |
| `Slugs.MakeUniqueSlug` | src/utils/sluggable.ts:34-56 | The search ends within one check more than there are taken slugs and returns the first free candidate |
| `Html.EscapeIsEach` | src/modules/email-template/email-template.render.ts:16-23 | The five sequential replacements are one substitution per character |
| `Html.EscapeIsSafe` | src/modules/email-template/email-template.render.ts:16-23 | An escaped value holds no raw metacharacter and unescapes to the original |
| `TemplateText.MatchSound` | src/modules/email-template/email-template.render.ts:14-14 | What the scanner matches is a placeholder with that name |
| `TemplateText.MatchComplete` | src/modules/email-template/email-template.render.ts:14-14 | Every placeholder at a position is matched there, in one way only |
| `TemplateText.SegmentsExact` | src/modules/email-template/email-template.render.ts:25-35 | The scan cuts a text into placeholders and literals that contain none |
| `TemplateText.SegmentsWeave` | src/modules/email-template/email-template.render.ts:25-35 | Literals and placeholders together are the text |
| `TemplateText.SubstituteFills` | src/modules/email-template/email-template.render.ts:25-35 | Substitution keeps the literal text in order and puts the encoded value, or an unknown placeholder itself, in each place |
| `TemplateText.PlaceholdersIn` | src/modules/email-template/email-template.catalog.ts:113-115 | Each placeholder name of the text once |
| `EmailTemplates.TemplateProblems` | src/modules/email-template/email-template.catalog.ts:119-136 | Exactly the problems there are, so none for exactly the templates with allowed variables everywhere and all required ones in the body |
| `EmailTemplates.RunInv` | src/modules/email-template/email-template.service.ts:70-95 | Over any interleaving of edits stored templates stay valid and pending edits stay valid field by field |
| `EmailTemplates.StoredTemplatesValid` | src/modules/email-template/email-template.service.ts:70-95 | From valid seeds no interleaving of edits stores a template with problems |
| `EmailTemplates.SubjectIsOneLine` | src/modules/email-template/email-template.render.ts:42-42 | A rendered subject has no line break, whatever the values |
| `EmailTemplates.CollapseKeepsVisible` | src/modules/email-template/email-template.render.ts:42-42 | Collapsing lines changes nothing but spaces |
| `EmailTemplates.CollapseRun` | src/modules/email-template/email-template.render.ts:42-42 | A word stays, and the run of spaces after it becomes one space exactly if it holds a line break |
| `EmailTemplates.NothingToCollapse` | src/modules/email-template/email-template.render.ts:42-42 | A subject without line breaks is left alone |
| `EmailTemplates.ValidSubjectFills` | src/modules/email-template/email-template.render.ts:25-42 | A valid subject rendered with all allowed variables is its literal text with the plain value in the place of every placeholder, collapsed to one line without outer spaces, and exactly that text when it needs no collapsing |
| `EmailTemplates.ValidBodyFills` | src/modules/email-template/email-template.render.ts:37-45 | A valid body rendered with all allowed variables is its literal text in order with a safely escaped value in the place of every placeholder |
| `EmailTemplates.SendersCoverTheirTemplates` | src/services/email.service.ts:30-66 | Every sender provides every variable its template may use, with the value that belongs there |
| `EmailTemplates.TemplateService.Update` | src/modules/email-template/email-template.service.ts:70-95 | An edit is rejected exactly for the problems of the merged text; otherwise the fields it names, and only those, change in the row as it is when written |
| `EmailTemplates.TemplateService.Render` | src/modules/email-template/email-template.service.ts:50-60 | Every mail is made of the active stored template, else the built-in one: a one-line subject with the plain values, and a body in which all placeholders are filled safely |

## Left out

- Cryptography (token hashes, AES-GCM sealing, HMAC of codes and tickets) is symbolic; a refresh row's id is identified with its token hash.
- RefreshRevocation.RefreshStore.RevokeRefreshTokens: outside a transaction the returned count is only the sum of what the passes counted, because there each pass commits on its own and no caller uses the count.
- RefreshRevocation.RefreshStore.RevokeRefreshTokens: user-level revocation is claimed only for families that existed when it began, because a login may start a new family at any time.
- RefreshRotation.LatestSuccessor: the branch for a successor that does not open is not in the method, because every stored successor opens; a change of the server secret is not modelled.
- The batch loops of deleteExpiredRefreshTokens and of the registration-code deleteExpired: each DELETE, from its snapshot to its end, is two steps of the machine; the loop shape is the one proved for outbox retention.
- login, logout and resetPassword beyond their effect on refresh_tokens: password checks, access tokens and profile-cache invalidation.
- OutboxRelay.OutboxStore.RelayOnce: the theorems about attempts are for one relay process at a time, as the source promises them; with several relays a stale copy may add an attempt, and what then holds is in ProcessRow and the run theorems.
- runOutboxRelayOnce joining a pass in progress, the interval timer and shutdown.
- OutboxRedrive.RedriveLetter: the fields that the replay guards read in the payload and the token tables they look up are parameters; reading them is one step with the letter.
- EmailJobs.EmailWorker.ProcessEmailJob: dispatching by job name and checking required fields is part of the outcome of the dispatch.
- OtpService.OtpStore.SendCode: the outbox intent recorded in the same transaction is not part of the registration state.
- OtpService.OtpStore.VerifyCode: an attempt that waited for the row is counted at the time it gets the row; PostgreSQL's now() would be the start of that statement.
- Email normalization: addresses stand for their normalized form.
- RbacCache.AccessGate.ResolveRole: the role-users tracking sets, used only to drop cached profiles, and the unversioned profile cache are not modelled.
- RbacCache.RequestAfterBump: entries may disappear at any time, so the cache's time to live needs no clock.
- PaginatorSearch.Paginator.RelationalCondition: case-insensitive containment is a parameter of the filter's meaning.
- PaginatorPages.PagesPartition: the rows do not change between the page requests, and the row query and the count see the same rows.
- PaginatorPages.PageNumber: parsing the query string is a parameter, and page numbers are unbounded integers.
- URLs and links of the paginated response.
- Slugs.SlugCanonical: Unicode lower-casing is a parameter of which only its effect on ASCII text is assumed.
- Slugs.MakeUniqueSlug: the set of taken slugs does not change during the search.
- EmailTemplates.TemplateService.Render: the shared HTML layout is not modelled, and the built-in texts are a parameter that is required to be valid.
- The edit sanitizer, activity log, mail transports, HTTP layer, validation schemas, rate limits, uploads, seeders and scripts.
