# Verified core of the seedbox platform

This project models the stateful core of the seedbox platform (accounts, torrents, imports, backups,
notices and the formats they exchange) and proves what holds over all of its inputs and runs.

Each component is a value state with step functions, an invariant, and theorems over whole runs; where
the program updates rows, tables or buffers in place, a class carries the same fields and each of its
methods is proved equal to its step function. `dafny verify dfyconfig.toml` checks everything.

| module | component | main theorems |
|---|---|---|
| `Credentials` | logins, password changes, resets, suspension, split at the unlocked hashing wait | `OpenSessionsAreCurrent`, `TokensAreSingleUse`, `PasswordsChangeByRight` |
| `RateLimit` | login budgets | `GlobalBound`, `NetworkBound`, `IdentityBound`, each shown to be reached; `WaitIsLeast` |
| `V1Import` | legacy import: plan, apply, roll back | `RollbackUndoesApply`, `ReplayIffNoMixedHistory`, `EachHashCreatedOnce`, `RollbacksAreLastInFirstOut`, `ChangedRunStays` |
| `AdminLifecycle` | purge, forced resume, orphan recovery | `AccountsStayBalanced`, `ClampsNeverBind`, `JobsStayUnique`, `SnapshotRecoversOnce`, `RecoveredIff` |
| `Retention` | backup retention by ISO 8601 week | `IncrementalIsOneShot`, `WeeklyMeansEightLatestWeeks` |
| `Delivery` | Discord notices across crashes | `WarningSentOnce`, `ReadyResentOnlyAfterLapse`, `NoReadyAfterWarning`, `SentOnlyToTheWilling` |
| `AccountRouting` | tracker and qBittorrent accounts of a torrent | `RoutingIsSticky`, `SlotsAreFinalIff`, `LegacyMovesToItsPasskey`, `ControlsAreConserved` |
| `PasswordPool` | bounded password work | `PendingIsOutstanding`, `WorkIsBounded`, `ReleasedExactlyOnce`, `AbandonedNeverRuns` |
| `Bencode` | torrent metadata | `RoundTrip`, `OnlyEncodingsRead`, `EncodingIsCanonical`, `PrefixFree` |
| `IniSettings` | qBittorrent settings file | `RenderReadsBack`, `RenderIsIdempotent`, `ParseIff` |
| `Cursor`, `Json`, `Base64` | opaque reconciliation cursor | `RoundTripIff`, `EncodingFits`, `RaisedIff` |
| `HttpRange` | byte ranges and streaming | `AcceptedRange`, `StreamDownload`, `AdjacentRangesCover` |

`Common`, `Numerals`, `Texts`, `Lexical` and `TorrentStates` hold shared definitions.

## How things are modelled

- Password hashes carry a salt that no two hashing results share; tokens, session and job identifiers
  are fresh; identifiers derived from an inventory fingerprint are injective and distinct from all others.
  Bucket indices of the limiter may collide arbitrarily. Row locks make each half of an operation atomic.
- `epoch`, `published`, `issued`, `latest` and `uses` in `Credentials` are history variables: no branch
  depends on them.
- Clocks, random draws, lookups without an order and outcomes of calls to other services are parameters,
  so the theorems hold for all of them.

## What the code does differently from what it promises

- Replaying an import is meant to be idempotent. Planning reads requests without an order and keeps one
  per owner, and only active requests are unique per owner and torrent, so an owner with both an active and
  a closed request may plan as a conflict. `ReplayCanFail` gives such an import; `ReplayIffNoMixedHistory`
  proves that replay is the idempotent branch under every row order exactly when no inventory row concerns
  such an owner.
- A cursor whose text holds a high surrogate directly followed by a low one decodes to another text;
  `RoundTripIff` proves that this is the only case.
- Decoding a cursor is meant to answer every bad text with its own error. A snapshot identifier that is
  neither text nor null raises another one, which the route that calls it does not catch. `NumberIdRaises`
  gives such a text; `RaisedIff` proves that this happens exactly when every check up to the number of
  identifiers passes and such an item comes before any unreadable one.
- If the legacy tracker reference is itself a slot reference, a slot-assigned torrent can move to another
  slot; `SlotsAreFinalIff` proves that this is exactly when it can.
- Login windows open at a granted call, which makes the interval bounds one or two calls smaller than two
  and three budgets. `GlobalBoundIsReached`, `NetworkBoundIsReached`, `OwnBoundIsReached` and
  `IdentityBoundIsReached` give runs that reach each of them.

## Model

| member | source | states |
|---|---|---|
| `Credentials.OpenSessionsAreCurrent` | backend/app/auth/service.py:125-502 | in every state reachable by any interleaving of the two halves of logins, changes, resets, recoveries, suspensions and deletions, an open session belongs to an active, undeleted account and was opened with its current password in its current epoch |
| `Credentials.TokensAreSingleUse` | backend/app/auth/password_reset.py:36-128 | over any interleaving each reset token changes a password at most once, only as the latest token of its account, unexpired, and against the very hash and epoch in force when it was issued |
| `Credentials.StepKeeps` | backend/app/auth/service.py:89-512 | every half of every operation preserves the protocol invariant: snapshots, issued tokens, unpublished hashes, sessions, grants and token uses |
| `Credentials.ExecutionKeeps` | backend/app/auth/service.py:89-512 | the protocol invariant holds in every state of every execution from an initial database |
| `Credentials.TakeHash` | backend/app/auth/service.py:231-252 | the hash computed during an unlocked wait has never been stored and is not shared with any other waiting operation |
| `Credentials.SetPasswordKeeps` | backend/app/auth/service.py:343-369 | storing a new hash under a new epoch keeps the invariant |
| `Credentials.SetPasswordRevokes` | backend/app/auth/service.py:357-364 | storing a new hash leaves every session of the account revoked and every other session as it was |
| `Credentials.RehashKeeps` | backend/app/auth/service.py:196-197 | an upgrade of the stored hash for the same password keeps all open sessions current without moving the epoch |
| `Credentials.RedeemKeeps` | backend/app/auth/password_reset.py:98-113 | recording the use of an unconsumed grant and consuming it keeps grants and uses consistent |
| `Credentials.FinishLoginKeeps` | backend/app/auth/service.py:163-202 | the locked half of a login keeps the invariant on its refusing, failing and succeeding branches |
| `Credentials.FinishCredentialChangeKeeps` | backend/app/auth/service.py:255-300 | renaming, storing the new hash, revoking and opening one new session together keep the invariant |
| `Credentials.FinishResetConfirmKeeps` | backend/app/auth/password_reset.py:96-128 | the locked half of a reset confirmation keeps the invariant |
| `Credentials.FinishInitialRecoveryKeeps` | backend/app/api/external/users.py:233-292 | recovering initial credentials of a never used account keeps the invariant |
| `Credentials.SetActiveKeeps` | backend/app/auth/service.py:393-425 | suspension and reactivation keep the invariant, by which an account with a grant is active unless it was deleted |
| `Credentials.DeleteUserKeeps` | backend/app/auth/service.py:428-502 | deletion keeps the invariant: a deleted account has no open session |
| `Credentials.SuspendedHoldsNothing` | backend/app/auth/service.py:393-502 | in every reachable state a suspended account has neither an open session nor a grant, and a deleted one no open session |
| `Credentials.FailuresAreNotLost` | backend/app/auth/service.py:89-122 | over any execution, until a success or the end of the window, the failures on record for a key grow by exactly the failed answers, however first failures race |
| `Credentials.LimitLocks` | backend/app/auth/service.py:107-122 | wherever a failure is counted, on an existing row, a first row or the row of a racing first failure, the count that reaches the limit locks the key for the whole lock time |
| `Credentials.RowsChangeByFailures` | backend/app/auth/service.py:89-202 | the row of a key changes only by its own failures, or disappears with a success |
| `Credentials.LockedAdmitsNobody` | backend/app/auth/service.py:163-174 | a login that finds its key locked changes no account, session or count, and is told to wait exactly until the lock ends |
| `Credentials.LoginWorks` | backend/app/auth/service.py:125-202 | undisturbed, the right password of a live account opens a session, clears the failures and leaves a strong hash of the same password |
| `Credentials.WrongPasswordFails` | backend/app/auth/service.py:176-195 | a login whose password does not match the stored hash when it commits opens no session |
| `Credentials.ChangeWorks` | backend/app/auth/service.py:343-369 | undisturbed, a password change that presents the current password stores the new one under a new epoch and leaves no session open; the refusals are `WrongCurrentIsRefused` and `PasswordChangeIff` |
| `Credentials.ResetWorks` | backend/app/auth/password_reset.py:36-128 | undisturbed and in time, an issued token sets the new password and is spent |
| `Credentials.RaceHasOneWinner` | backend/app/auth/service.py:239-252 | of two waiting password changes of one account at most the first to commit succeeds |
| `Credentials.PasswordsChangeByRight` | backend/app/auth/service.py:231-369 | over any execution the stored password of an account is replaced only at the end of a change whose caller presented that very password, by the account's own unspent, unexpired reset token while it is eligible, or by the recovery of an eligible account that never logged in and must change its password |
| `Credentials.WaitingChangeIsProved` | backend/app/auth/service.py:255-275 | over any execution a password or credential change waits only for an operation that presented the password in force when its snapshot was taken |
| `Credentials.WrongCurrentIsRefused` | backend/app/auth/service.py:343-353 | a missing account or a wrong current password leaves the database as it was and fails, for password and credential changes alike; the right one goes on |
| `Credentials.BeginLoginIff` | backend/app/auth/service.py:125-160 | the first half of a login is refused exactly while its key is locked; otherwise it waits with the account found, its hash and the password presented, hashed anew exactly when it is right and its hash weak |
| `Credentials.LoginIff` | backend/app/auth/service.py:163-195 | a login opens a session if and only if its key is not locked and the account found still has the hash and the name looked up, the password presented, and is active and not deleted |
| `Credentials.LoginEffect` | backend/app/auth/service.py:196-229 | the session belongs to that account and ends after the session lifetime; the failures of the key are cleared, and no other account or session changes |
| `Credentials.WindowRestarts` | backend/app/auth/service.py:95-108 | a failure within the window adds one and keeps its start and lock; after the window the count starts again at one, unlocked, unless the limit is reached |
| `Credentials.FirstFailureCounts` | backend/app/auth/service.py:98-122 | a first failure opens a window at the time it happened, or adds one to the row of a concurrent one |
| `Credentials.PasswordChangeIff` | backend/app/auth/service.py:239-252 | a password change completes if and only if its account is active, not deleted and still has the hash it started from; otherwise nothing changes, and in either case no other account does |
| `Credentials.CredentialChangeIff` | backend/app/auth/service.py:255-300 | a credential change completes if and only if, besides, no other account has the new name, which is otherwise refused; it stores name and password, lifts the duty to change them, revokes the old sessions and opens one that ends after the session lifetime |
| `Credentials.CredentialChangeWorks` | backend/app/auth/service.py:255-300 | both halves of an undisturbed credential change with a free name succeed with that effect |
| `Credentials.RenameIff` | backend/app/auth/service.py:303-340 | a name is changed if and only if the account exists and nobody else has the name, and nothing else changes |
| `Credentials.SetActiveIff` | backend/app/auth/service.py:393-425 | an account gets the requested status if and only if it exists, is not deleted and is no administrator; suspension takes its grant and its sessions, reactivation nothing |
| `Credentials.DeleteUserIff` | backend/app/auth/service.py:428-502 | under the same conditions a deletion leaves the account inactive and marked with every session revoked; nothing else changes |
| `Credentials.CreateUserIff` | backend/app/auth/service.py:377-390 | an account is created if and only if its identifier and name are free; it is active and must change its first password |
| `Credentials.TokenIssuedIff` | backend/app/auth/password_reset.py:36-75 | a token is issued if and only if the client is authorised, the linked account is active, not deleted and no administrator, and its last grant is at least sixty seconds old; the grant lasts 900 seconds and is bound to client and stored hash |
| `Credentials.TokenPresentedIff` | backend/app/auth/password_reset.py:78-95 | a token that no grant carries is refused; any other starts a confirmation for the account of its grant |
| `Credentials.ResetIff` | backend/app/auth/password_reset.py:96-128 | a reset completes if and only if the client is authorised, the account eligible and its grant unspent, unexpired, of this token and client and for the stored hash; it consumes the grant and revokes the sessions |
| `Credentials.InitialRecoveryIff` | backend/app/api/external/users.py:233-292 | initial credentials are replaced if and only if the account is eligible, never logged in and must change its password |
| `Credentials.RevokedIff` | backend/app/auth/service.py:372-374 | revoking a session ends it and no other |
| `Credentials.PurgedSessions` | backend/app/auth/service.py:505-512 | purging deletes exactly the expired sessions |
| `Credentials.AuthService.CountFailure` | backend/app/auth/service.py:89-108 | a failure restarts or raises the count of its throttle row, locks at the limit, and leaves a first failure to be committed |
| `Credentials.AuthService.CommitFailure` | backend/app/auth/service.py:110-122 | a first failure inserts its row, or counts on the row that made the insert fail, and locks at the limit |
| `Credentials.AuthService.Authenticate` | backend/app/auth/service.py:163-202 | the locked half of a login is exactly its step: re-checked lock, snapshot, name and status, throttle cleared, hash upgraded, session opened |
| `Credentials.AuthService.ChangePassword` | backend/app/auth/service.py:343-369 | the locked half of a password change is exactly its step |
| `Credentials.AuthService.ChangeCredentials` | backend/app/auth/service.py:255-300 | the locked half of a credential change is exactly its step |
| `Credentials.AuthService.SetManagedUserActive` | backend/app/auth/service.py:393-425 | status change, with grants deleted and sessions revoked on suspension |
| `Credentials.AuthService.DeleteManagedUser` | backend/app/auth/service.py:428-502 | deletion with all sessions revoked; missing and protected accounts refused |
| `Credentials.AuthService.IssuePasswordReset` | backend/app/auth/password_reset.py:36-75 | a grant is replaced unless the client is not authorised, no account is linked, the account is ineligible or its last grant is under sixty seconds old |
| `Credentials.AuthService.ConfirmPasswordReset` | backend/app/auth/password_reset.py:96-128 | the locked half of a confirmation is exactly its step: every re-check, then new hash, grant consumed, sessions revoked |
| `RateLimit.GlobalBound` | backend/app/auth/rate_limit.py:64-130 | over any run with a nondecreasing clock, any half-open interval of one window admits at most 2 * global maximum - 1 calls |
| `RateLimit.NetworkBound` | backend/app/auth/rate_limit.py:64-130 | such an interval admits at most 3 * maximum - 2 calls of one network, and 2 * maximum - 1 if no other calling network shares its overflow bucket |
| `RateLimit.IdentityBound` | backend/app/auth/rate_limit.py:64-130 | such an interval admits at most 2 * fallback maximum - 1 overflow calls per identity bucket |
| `RateLimit.GlobalBoundIsReached` | backend/app/auth/rate_limit.py:64-130 | for every global budget there is a run and an interval with 2 * global maximum - 1 grants |
| `RateLimit.NetworkBoundIsReached` | backend/app/auth/rate_limit.py:87-130 | for every budget of at least two there is a run in which a network that shares its overflow bucket gets 3 * maximum - 2 grants in one interval |
| `RateLimit.OwnBoundIsReached` | backend/app/auth/rate_limit.py:64-130 | for every budget there is a run in which a network alone in its bucket gets 2 * maximum - 1 grants in one interval |
| `RateLimit.IdentityBoundIsReached` | backend/app/auth/rate_limit.py:87-130 | for every fallback budget of at least two there is a run that charges one identity bucket 2 * fallback maximum - 1 times in one interval |
| `RateLimit.WalkIsRun` | backend/app/auth/rate_limit.py:70-130 | granted calls chained step by step are a run of the limiter with exactly those grants |
| `RateLimit.MeterStep` | backend/app/auth/rate_limit.py:70-130 | how one call changes the live window of each budget: spent from if charged, otherwise unchanged |
| `RateLimit.AtMostThreeWindows` | backend/app/auth/rate_limit.py:87-101 | the calls of one network within an interval come from at most three windows: primary, overflow, primary |
| `RateLimit.RunKeeps` | backend/app/auth/rate_limit.py:70-130 | every run keeps the table in creation order, the windows of each slot disjoint, and their counts equal to the grants charged to them |
| `RateLimit.RefusalSpendsNothing` | backend/app/auth/rate_limit.py:108-130 | a refused call leaves the start and count of every live window as they were |
| `RateLimit.ExhaustedBudgetsRefuse` | backend/app/auth/rate_limit.py:64-130 | a call that must pay from an exhausted live budget is refused and told to wait until that budget has expired |
| `RateLimit.GrantedIff` | backend/app/auth/rate_limit.py:70-130 | a call is granted if and only if none of the budgets it must pay from is exhausted and, if it overflows, it has an identity |
| `RateLimit.WaitIsLeast` | backend/app/auth/rate_limit.py:67-113 | the wait announced to a refused call is the least whole number of seconds, at least one, after which every window in its way has expired: those of its exhausted budgets and, for an overflowing call without identity, that of its bucket or the oldest of the full table |
| `RateLimit.TableIsBounded` | backend/app/auth/rate_limit.py:87-101 | the primary table never holds more than its maximum of networks |
| `RateLimit.LoginIpRateLimiter.constructor` | backend/app/auth/rate_limit.py:21-56 | a new limiter has no window open |
| `RateLimit.LoginIpRateLimiter.DropExpired` | backend/app/auth/rate_limit.py:77-82 | expired windows leave from the front of the table, up to the first live one |
| `RateLimit.LoginIpRateLimiter.Weigh` | backend/app/auth/rate_limit.py:74-112 | the windows a call would be charged to, or the longest wait of its exhausted budgets, without spending anything |
| `RateLimit.LoginIpRateLimiter.Pay` | backend/app/auth/rate_limit.py:114-130 | a granted call is charged to its primary or overflow window, its identity window and the global window, and to nothing else |
| `RateLimit.LoginIpRateLimiter.Consume` | backend/app/auth/rate_limit.py:70-130 | the table, both overflow arrays, the global window and the answer after a call are those of the step function |
| `V1Import.RollbackUndoesApply` | backend/app/v1_import.py:423-623 | from any consistent state a fresh apply followed at once by its rollback succeeds and restores exactly the torrents and requests |
| `V1Import.ReplayIffNoMixedHistory` | backend/app/v1_import.py:289-394 | after a fresh apply, replay is the idempotent branch under every row order if and only if no inventory row concerns an owner with both active and closed requests |
| `V1Import.ReplayCanFail` | backend/app/v1_import.py:310-322 | a concrete import that succeeds and whose replay can be refused |
| `V1Import.EachHashCreatedOnce` | backend/app/v1_import.py:327-394 | in a successful apply each new infohash has exactly one creating action; every row of that hash, whether it creates a request or finds one unchanged, comes with or after it and uses the created torrent, and a row of a stored hash uses the stored torrent |
| `V1Import.PlanFitsIff` | backend/app/v1_import.py:327-394 | a plan has no conflict if and only if every row has a live account, a torrent of the agreed name that is not being purged, and no closed request found for its owner |
| `V1Import.FreshIff` | backend/app/v1_import.py:437-474 | an inventory not seen before is applied if and only if every row fits the stored rows, and otherwise nothing is written |
| `V1Import.FreshApply` | backend/app/v1_import.py:437-506 | a fresh apply adds exactly the recorded rows, all untouched, under identifiers of its own run, and gives every inventory row its active request |
| `V1Import.WrittenForRow` | backend/app/v1_import.py:475-506 | what a fresh apply writes for a row: a request of the row's account with the row's creation time, on the torrent of its hash, and for a new hash an empty placeholder in Error with the row's name and creation time |
| `V1Import.ConflictMeans` | backend/app/v1_import.py:327-394 | each conflict names its cause: no such account, an inactive one, another name for the hash in a stored row or an earlier one, a torrent being purged, or a closed request of the owner |
| `V1Import.ApplyAnswers` | backend/app/v1_import.py:437-474 | which of the five answers an apply gives, and that only a fresh one writes |
| `V1Import.PlanAndWrite` | backend/app/v1_import.py:327-394 | writing the planned actions in order makes the stored rows agree with the overlay that planning read |
| `V1Import.RollbackRemovesOwnRows` | backend/app/v1_import.py:509-623 | a successful rollback deletes only requests and placeholders recorded for its run, changes no other, and leaves no request pointing to a missing torrent |
| `V1Import.UndoneIff` | backend/app/v1_import.py:509-600 | a run is undone if and only if it is applied, no newer run is, each of its requests is still Requested, never updated and without a job, and each placeholder still in Error, of size zero, awaiting reconciliation, never updated, unused and with no request but the run's own; every refusal changes nothing |
| `V1Import.UndoneRemoves` | backend/app/v1_import.py:600-623 | a successful rollback removes exactly the requests and placeholders recorded for its run and marks the run |
| `V1Import.ChangedRunStays` | backend/app/v1_import.py:545-600 | over any history, once a request or placeholder that an import wrote is gone or changed, rolling that import back is blocked and changes nothing |
| `V1Import.ChangedRowStays` | backend/app/v1_import.py:545-600 | and no rollback of any run removes or alters a request or placeholder that changed since its import |
| `V1Import.HistoryConsistent` | backend/app/v1_import.py:423-623 | any history of applies, rollbacks and other consistent writes stays consistent |
| `V1Import.EntersIffImports` | backend/app/v1_import.py:437-474 | a run enters the record at a step exactly when that step is a fresh apply of its inventory |
| `V1Import.RollbacksAreLastInFirstOut` | backend/app/v1_import.py:509-545 | an import undone after a later import was applied is undone only after that later one was undone |
| `V1Import.LoadRows` | backend/app/v1_import.py:157-216 | rows are accepted exactly when there are at most 100000 and no record and no ownership repeats, and come back as the same rows in ascending order |
| `V1Import.OrderIsCanonical` | backend/app/v1_import.py:166-216 | two loaded inventories with the same rows are equal, whatever order the files had |
| `V1Import.PlanV1Import` | backend/app/v1_import.py:289-394 | the planning loop produces the specified plan for every row order of the request query |
| `V1Import.ImportStore.ApplyV1Import` | backend/app/v1_import.py:423-506 | fresh, replayed, conflicting, no longer matching or rolled back: the tables and the answer are the specified ones, and a conflict writes nothing |
| `V1Import.ImportStore.WriteRows` | backend/app/v1_import.py:475-506 | placeholders, requests and items are written in plan order |
| `V1Import.ImportStore.RollbackV1Import` | backend/app/v1_import.py:509-623 | a rollback removes the run's rows exactly under the condition of `UndoneIff`, and otherwise changes nothing |
| `AdminLifecycle.AccountsStayBalanced` | backend/app/admin/cleanup.py:154-234 | if usages equal the sizes of active requests and the ledger those of unpurged torrents, any run of purges, resumes, recoveries and worker steps keeps both equalities |
| `AdminLifecycle.ClampsNeverBind` | backend/app/admin/reconciliation.py:407-471 | over any run from balanced accounts no clamp binds: in no refund of any torrent within a purge, and in no refund or ledger update of a recovery |
| `AdminLifecycle.RefundFits` | backend/app/admin/cleanup.py:176-200 | a balanced usage row holds at least the refunds of a torrent's active requests, and what is left is the sum over the others |
| `AdminLifecycle.ClampsDoNotBind` | backend/app/admin/cleanup.py:192-200 | while enough is charged, repeated clamped refunds take off exactly their total |
| `AdminLifecycle.CancelKeepsBalance` | backend/app/admin/reconciliation.py:407-430 | cancelling all active requests of a torrent refunds each user exactly and keeps the balance |
| `AdminLifecycle.SettleKeepsBalance` | backend/app/admin/reconciliation.py:407-471 | settling a recovery keeps the balance, and the ledger holds at least the purged size, so its clamp does not bind |
| `AdminLifecycle.JobsStayUnique` | backend/app/admin/cleanup.py:203-234 | over any run each torrent has at most one queued or running purge job and no administrative idempotency key is issued twice |
| `AdminLifecycle.PurgeEffect` | backend/app/admin/cleanup.py:176-234 | a purge leaves its torrent without active requests, one generation up, otherwise as it was, with exactly one open purge job that is due now unless it already runs; no other job changes |
| `AdminLifecycle.PurgeReports` | backend/app/admin/cleanup.py:152-241 | a torrent is reported as scheduled if and only if in the state the call started from it exists, its state is eligible and its live requests are as many as expected; a skipped one keeps its row and requests |
| `AdminLifecycle.FirstsInOrder` | backend/app/admin/cleanup.py:138-152 | torrents are taken in the order in which the call first names them |
| `AdminLifecycle.ReportsInOrder` | backend/app/admin/cleanup.py:152-241 | and reported in that order |
| `AdminLifecycle.ResumeEffect` | backend/app/admin/qbittorrent.py:68-115 | a resumed torrent without requests keeps at least the retention time before its purge and has exactly one open purge job |
| `AdminLifecycle.ResumedIff` | backend/app/admin/qbittorrent.py:58-72 | a torrent is resumed if and only if one to 2160 hours are asked for and it is downloading or paused on some account; each refusal has its cause and changes nothing |
| `AdminLifecycle.ResumedRow` | backend/app/admin/qbittorrent.py:73-115 | while requests are live the purge time, the generation and the jobs stay; otherwise the purge time is the later of the old one and the end of the hours asked for; no other torrent, request or balance moves |
| `AdminLifecycle.ResumeKeepsJobs` | backend/app/admin/qbittorrent.py:80-115 | a forced resume, whether it queues, reschedules or leaves a purge job, keeps jobs and keys unique |
| `AdminLifecycle.GenerationsGrow` | backend/app/admin/qbittorrent.py:80-115 | no run ever decreases a torrent's generation or forgets a torrent |
| `AdminLifecycle.SnapshotRecoversOnce` | backend/app/admin/reconciliation.py:343-474 | over any run one recovery snapshot authorises at most one recovery that changes anything |
| `AdminLifecycle.RecoveryWorks` | backend/app/admin/reconciliation.py:328-530 | an undisturbed recovery with a snapshot just taken succeeds, leaves no active request and no queued work, and spends the snapshot |
| `AdminLifecycle.RecoveredIff` | backend/app/admin/reconciliation.py:343-405 | a recovery is accepted if and only if the torrent exists, is not purged and not wholly present, the snapshot names it, its generation, exactly its live requests and exactly its open work, at most 1000 requests are live and, to purge metadata, nothing is present and no work is open; each refusal has its cause and changes nothing |
| `AdminLifecycle.RecoveredEffect` | backend/app/admin/reconciliation.py:407-483 | an accepted recovery cancels exactly the live requests, aborts queued and stops running work, and sets the torrent to Error or purges it under a new generation; other rows, jobs and usages stay |
| `AdminLifecycle.RecoveryFindsWhatWasSeen` | backend/app/admin/reconciliation.py:343-376 | over any run a recovery on a snapshot is accepted only if the generation stayed the same since it was taken and it finds the very requests and work that were seen |
| `AdminLifecycle.SnapshotIff` | backend/app/admin/reconciliation.py:486-530 | a snapshot is taken exactly of a torrent with at most 1000 live requests and 1000 open jobs, and shows them |
| `AdminLifecycle.AdminService.CancelRequests` | backend/app/admin/reconciliation.py:407-430 | closing requests one by one with clamped refunds gives the specified cancellation |
| `AdminLifecycle.AdminService.PurgeTorrent` | backend/app/admin/cleanup.py:176-234 | one torrent is purged as specified: requests closed and refunded, generation raised, purge job queued or brought forward |
| `AdminLifecycle.AdminService.ScheduleAdminPurge` | backend/app/admin/cleanup.py:125-241 | every distinct identifier is purged or reported as skipped, in order |
| `AdminLifecycle.AdminService.ForceResumeAdminTorrent` | backend/app/admin/qbittorrent.py:51-122 | the new rows, the job and the answer of a forced resume are the specified ones, refusals included |
| `AdminLifecycle.AdminService.RecoverOrphanedTorrent` | backend/app/admin/reconciliation.py:328-483 | the rows and the answer are those of the recovery step, which `RecoveredIff` and `RecoveredEffect` pin down |
| `Retention.IncrementalIsOneShot` | scripts/rise2_v2_database_backup.py:275-296 | with a clock that never goes back, pruning after every batch leaves exactly what one prune of the whole history at the last time leaves |
| `Retention.PruneThenPrune` | scripts/rise2_v2_database_backup.py:286-296 | pruning early makes no difference to a later prune, whatever points are added in between |
| `Retention.PruningKeepsWeeks` | scripts/rise2_v2_database_backup.py:286-296 | pruning forgets a week newer than a point only if eight newer weeks stay represented |
| `Retention.WeeklyMeansEightLatestWeeks` | scripts/rise2_v2_database_backup.py:287-291 | a point outside fourteen days is kept exactly when it is the newest of its ISO week and fewer than eight later weeks have a point |
| `Retention.KeptIff` | scripts/rise2_v2_database_backup.py:286-296 | a point is kept if and only if it is at most fourteen days old, or the newest of its calendar week with fewer than eight later weeks that have a point |
| `Retention.SameIsoWeek` | scripts/rise2_v2_database_backup.py:288 | two days have the same ISO year and week exactly when they lie in the same Monday-to-Sunday span, across year ends |
| `Retention.BackupRoot.Retention` | scripts/rise2_v2_database_backup.py:275-296 | the loop leaves exactly the kept points and every unverified entry |
| `Delivery.WarningSentOnce` | discord-bot/app.py:336-367 | across crashes, aborted and repeated pages a warning for one request, ready time and deadline is sent at most once ever |
| `Delivery.ReadyResentOnlyAfterLapse` | discord-bot/app.py:336-367 | two READY messages for one request and ready time need an advance in between at which every deadline claimed so far had lapsed by over a day |
| `Delivery.NoReadyAfterWarning` | discord-bot/app.py:348-356 | no READY follows the warning of the same period unless such an advance forgot the period |
| `Delivery.DueNoticeIsSent` | discord-bot/app.py:338-356 | a member who wants notices and has access left is sent the due kind of notice, unless its key is on record |
| `Delivery.SentOnlyToTheWilling` | discord-bot/app.py:336-367 | over any run a message is sent only for an item that was looked at since its page was fetched and the bot last crashed, whose member had notices on at that look, whose deadline was ahead, and as a warning exactly when its time had come |
| `Delivery.MutedGetsNothing` | discord-bot/app.py:338-345 | a member who keeps notices off from the fetch of a page on is sent nothing from it |
| `Delivery.CursorFollowsWholePages` | discord-bot/app.py:336-367 | over any run the cursor moves only to the end of a fetched page whose every item was looked at since without a crash; broken off cycles leave it |
| `Delivery.AdvanceForgets` | discord-bot/downloads.py:106-111 | an advance forgets exactly the notices whose expiry is over a day past |
| `Delivery.ToggleFlips` | discord-bot/downloads.py:88-100 | a toggle flips the notices of its member and of no one else |
| `Delivery.CoversStep` | discord-bot/downloads.py:106-129 | a claim up to a deadline stays on record until that deadline lapsed by over a day |
| `Delivery.LeavesByLapse` | discord-bot/downloads.py:106-111 | a key leaves the table only at an advance that finds its expiry over a day past |
| `Delivery.SendingStarts` | discord-bot/app.py:353-356 | sending starts only from a claim of a key that was not in the table |
| `Delivery.KeyTextsDiffer` | discord-bot/downloads.py:113-119 | different notices never share a key text, if request identifiers have no colon and ready times no lower-case letters |
| `Delivery.KeyTextsCanCollide` | discord-bot/downloads.py:113-119 | with a colon in a request identifier or lower-case letters in a ready time, different notices can share a key text |
| `Delivery.DeliveryState.ToggleMember` | discord-bot/downloads.py:88-100 | a toggle negates the member's preference, on by default, and nothing else |
| `Delivery.DeliveryState.AdvanceCursor` | discord-bot/downloads.py:106-111 | the cursor is set and exactly the keys over a day past are deleted |
| `Delivery.DeliveryState.ClaimKey` | discord-bot/downloads.py:113-129 | a claim inserts or raises the expiry, and is new exactly when the key was absent |
| `Delivery.RegistrationBot.NotificationCycle` | discord-bot/app.py:336-367 | a cycle over any page is an uninterrupted run of the step machine between two idle positions and sends what that run sends; it stores the end of the page if it completes and leaves the cursor otherwise |
| `Delivery.RegistrationBot.VisitItem` | discord-bot/app.py:338-356 | a member with notices off or a deadline gone by is passed over with nothing sent or recorded, unreadable data ends the cycle, and anyone else is sent the notice due unless it is on record |
| `AccountRouting.RoutingIsSticky` | backend/app/integrations/account_routing.py:189-255 | over any calls with arbitrary slot edits, in any deployment, a routed torrent keeps its qBittorrent account, its tracker reference only climbs from unknown to legacy to another slot, so at most twice, and a torrent on a slot other than the legacy account, or explicitly routed, never moves |
| `AccountRouting.ReferencesSetTogether` | backend/app/integrations/account_routing.py:208-223 | both references of a torrent are set or unset together in every state |
| `AccountRouting.SlotsAreFinalIff` | backend/app/integrations/account_routing.py:228-252 | slot assignments never move if and only if the legacy reference is not itself a slot reference |
| `AccountRouting.LegacySlotMoves` | backend/app/integrations/account_routing.py:228-243 | a legacy account under a slot's reference moves when that slot is emptied and another holds its passkey |
| `AccountRouting.ResolvedRoute` | backend/app/integrations/account_routing.py:189-255 | a success answers with the route whose references the row then holds; a refusal changes nothing |
| `AccountRouting.SelectableRoutes` | backend/app/integrations/account_routing.py:291-314 | in shared mode every selectable route runs on the shared account and is a slot's, or the legacy one when no slot is filled |
| `AccountRouting.SharedResolves` | backend/app/integrations/account_routing.py:189-255 | in shared mode a torrent on a slot other than the legacy account resolves exactly while that slot is filled, any other on the shared account exactly while some account is selectable |
| `AccountRouting.LegacyKeepsPasskey` | backend/app/integrations/account_routing.py:228-243 | a torrent on the legacy references that are not on offer is answered with a route of the legacy passkey: the last occupied slot that holds it, or the legacy account where none does |
| `AccountRouting.LegacyMovesToItsPasskey` | backend/app/integrations/account_routing.py:189-255 | over any run with any slot edits, if the legacy reference is no slot, a torrent of the legacy account is still there or on the slot that held the legacy passkey when it was moved |
| `AccountRouting.OffersSelectable` | backend/app/integrations/account_routing.py:291-314 | what a session offers is exactly the occupied slots in slot order with the passkeys they hold, or the legacy account where there is none |
| `AccountRouting.UnassignedIsDrawn` | backend/app/integrations/account_routing.py:211-223 | a torrent without references gets exactly the drawn route of those on offer, and is refused where there is none |
| `AccountRouting.UnknownIsDrawn` | backend/app/integrations/account_routing.py:244-253 | so does one of the shared account under a reference that is neither on offer, nor legacy, nor a slot's |
| `AccountRouting.AssignedIsKept` | backend/app/integrations/account_routing.py:224-227 | a torrent whose references are on offer is answered with them and the passkey they have now |
| `AccountRouting.RefusedIff` | backend/app/integrations/account_routing.py:209-213 | a call is refused for its options exactly when some are no texts, as incomplete exactly when one reference is missing, and as unconfigured exactly when nothing is on offer for a new torrent |
| `AccountRouting.UnavailableIff` | backend/app/integrations/account_routing.py:224-255 | references are refused as unavailable exactly when no route on offer has them and they belong to another qBittorrent account, to an explicit deployment, or name neither the legacy account nor an unknown one that some route could replace |
| `AccountRouting.ResolveIff` | backend/app/integrations/account_routing.py:189-206 | a call is refused as invalid exactly when its hash is malformed or not that of a stored torrent; it touches no other torrent |
| `AccountRouting.ControlsAreConserved` | backend/app/integrations/account_routing.py:346-355 | no control is lost or doubled: each is sent to its own account once or skipped |
| `AccountRouting.BatchesJoin` | backend/app/integrations/account_routing.py:346-377 | the batches come in account order |
| `AccountRouting.OneBatch` | backend/app/integrations/account_routing.py:346-355 | an account gets a batch exactly when some control is its own, and it holds its own controls and no others |
| `AccountRouting.WhereJoins` | backend/app/integrations/account_routing.py:346-355 | controls are chosen in the caller's order |
| `AccountRouting.AnswersInOrder` | backend/app/integrations/account_routing.py:356-377 | the joined answer is, field by field, the answers of the accounts in order, after the controls that were skipped |
| `AccountRouting.DeploymentAccountRouter.RoutesForSession` | backend/app/integrations/account_routing.py:291-314 | the routes of the filled slots in order, the legacy fallback, and the last slot holding the legacy passkey |
| `AccountRouting.DeploymentAccountRouter.ResolveTorrent` | backend/app/integrations/account_routing.py:189-255 | the rows and the answer are those of the resolution step, which `ResolveIff`, `UnassignedIsDrawn`, `AssignedIsKept`, `LegacyKeepsPasskey`, `UnknownIsDrawn`, `RefusedIff` and `UnavailableIff` pin down |
| `AccountRouting.DeploymentAccountRouter.ApplyManagedControls` | backend/app/integrations/account_routing.py:336-377 | oversized and repeating sets are refused; otherwise each account is asked once, in reference order, and the answers are joined after the skipped |
| `PasswordPool.PendingIsOutstanding` | backend/app/auth/passwords.py:32-82 | in every reachable state the counter is the number of counted submissions whose callback has not run, within zero and the maximum, and no submission can go to an executor that is shut down |
| `PasswordPool.WorkIsBounded` | backend/app/auth/passwords.py:42-60 | across timeouts, cancellations, closing and restarting never more than the maximum is queued or running |
| `PasswordPool.ReleasedExactlyOnce` | backend/app/auth/passwords.py:36-40 | a counted submission has been released zero times while outstanding and once afterwards |
| `PasswordPool.AbandonedNeverRuns` | backend/app/auth/passwords.py:43-50 | work abandoned before its dequeued check never runs |
| `PasswordPool.ReleaseIsReachable` | backend/app/auth/passwords.py:36-62 | every outstanding submission has an enabled step towards release, and a held lock can be let go |
| `PasswordPool.OutstandingStep` | backend/app/auth/passwords.py:32-82 | only counting adds an outstanding submission and only its callback removes it |
| `PasswordPool.ClosedUntilRestart` | backend/app/auth/passwords.py:32-82 | a closed pool refuses every submission until it is restarted, and keeps counting the outstanding ones |
| `PasswordPool.PasswordWorkPool.Admit` | backend/app/auth/passwords.py:52-60 | admission refuses when closed or full, and otherwise is queueing followed by counting |
| `PasswordPool.PasswordWorkPool.OnCompleted` | backend/app/auth/passwords.py:36-40 | a completion callback takes one submission off the counter |
| `PasswordPool.PasswordWorkPool.Close` | backend/app/auth/passwords.py:77-80 | closing detaches the executor before it is shut down |
| `PasswordPool.PasswordWorkPool.Start` | backend/app/auth/passwords.py:32-34 | restarting reopens the pool and nothing else |
| `Bencode.RoundTrip` | scripts/rise2_v2_scheduler_load.py:88-100 | for every nested value and any bytes after it a strict reader gives back the value in key order and exactly those bytes |
| `Bencode.OnlyEncodingsRead` | scripts/rise2_v2_scheduler_load.py:88-100 | whatever the strict reader accepts is the encoding of the value it gives |
| `Bencode.EncodingIsCanonical` | scripts/rise2_v2_scheduler_load.py:88-100 | two values have one encoding if and only if they are equal up to insertion order |
| `Bencode.PrefixFree` | scripts/rise2_v2_scheduler_load.py:88-100 | no encoding is a proper prefix of another |
| `Bencode.InsertionOrderIsIrrelevant` | scripts/rise2_v2_scheduler_load.py:95-99 | dictionaries with the same entries have the same key-ordered form |
| `Bencode.EncodeNormal` | scripts/rise2_v2_scheduler_load.py:95-99 | putting all dictionaries in key order changes no encoding, and nothing unsupported is ever encoded |
| `IniSettings.RenderReadsBack` | scripts/rise2_v2_qb_bootstrap.py:178-200 | reading the rendered file gives the old settings without the two legacy password keys, overridden by policy, username, hash and migration marker |
| `IniSettings.RenderIsIdempotent` | scripts/rise2_v2_qb_bootstrap.py:178-200 | if the written hash matches its password, rendering the rendered file gives the same text, whatever a new salt would give |
| `IniSettings.MergedSettles` | scripts/rise2_v2_qb_bootstrap.py:182-193 | the policy holds to the letter, the credential is set, no legacy password is left, and every other setting is as found |
| `IniSettings.TextReadsBack` | scripts/rise2_v2_qb_bootstrap.py:193-200 | any clean settings survive rendering and reading |
| `IniSettings.ParsedIsClean` | scripts/rise2_v2_qb_bootstrap.py:127-146 | whatever can be read is clean: no stray whitespace or line break, no comment or header look-alike |
| `IniSettings.ParseIff` | scripts/rise2_v2_qb_bootstrap.py:127-146 | a file is refused if and only if some line has no sign, repeats a header, sets a key outside a section or sets a key again; otherwise exactly the keys it sets are read, with their values |
| `IniSettings.CommentsAreSkipped` | scripts/rise2_v2_qb_bootstrap.py:132-134 | comments and blank lines may stand anywhere and change nothing |
| `IniSettings.HeaderMeans` | scripts/rise2_v2_qb_bootstrap.py:135-136 | a header is exactly a text in brackets |
| `IniSettings.SettingMeans` | scripts/rise2_v2_qb_bootstrap.py:141-145 | any other line is split at its first sign, blanks dropped around key and value |
| `IniSettings.RenderIff` | scripts/rise2_v2_qb_bootstrap.py:178-182 | a file is rendered if and only if the policy is the contract and the existing file can be read |
| `IniSettings.RenderedHash` | scripts/rise2_v2_qb_bootstrap.py:183-188 | the stored hash is kept while it matches the password, and replaced otherwise |
| `IniSettings.UsernameIsClean` | scripts/rise2_v2_qb_bootstrap.py:107-110 | the user names that the registry admits are clean |
| `IniSettings.GeneratedIsClean` | scripts/rise2_v2_qb_bootstrap.py:166-175 | generated hashes are clean |
| `IniSettings.ReadSettings` | scripts/rise2_v2_qb_bootstrap.py:127-146 | the line loop computes the specified settings, and refuses repeated sections, repeated keys, keys outside a section and lines without a sign |
| `IniSettings.RenderSettings` | scripts/rise2_v2_qb_bootstrap.py:178-200 | the dictionary updates and the line list give the specified text; a policy that breaks its contract is refused |
| `Cursor.RoundTripIff` | backend/app/admin/reconciliation.py:59-110 | for every cursor within decode's bounds, decoding its encoding gives it back if and only if its text has no adjacent surrogate pair |
| `Cursor.DecodedCursor` | backend/app/admin/reconciliation.py:59-110 | decoding an encoded cursor always succeeds and changes at most adjacent surrogates, which are joined |
| `Cursor.EncodingFits` | backend/app/admin/reconciliation.py:59-77 | every encoding fits the 4096-character limit, whatever escapes it needs |
| `Cursor.SurrogatesJoin` | backend/app/admin/reconciliation.py:59-110 | two lone surrogates that pair up come back as one character |
| `Cursor.AcceptedInBounds` | backend/app/admin/reconciliation.py:74-110 | whatever is accepted is within the field bounds |
| `Cursor.AcceptedIff` | backend/app/admin/reconciliation.py:74-110 | a text is accepted if and only if its payload passes the checks on keys, version, phase, text and index, its identifiers are texts of distinct UUIDs, and the index is at most their number |
| `Cursor.RaisedIff` | backend/app/admin/reconciliation.py:74-110 | decoding raises something other than its own error if and only if length, base64, JSON, keys, version, phase, text, index and number of identifiers are in order and an item that is neither text nor null comes before any unreadable one |
| `Cursor.NumberIdRaises` | backend/app/admin/reconciliation.py:105 | a page whose only snapshot identifier is the number five raises |
| `Cursor.PageRaises` | backend/app/admin/reconciliation.py:105 | so does every short enough page with an identifier that is neither text nor null before any unreadable one |
| `Cursor.UuidReads` | backend/app/admin/reconciliation.py:65-105 | the hyphenated text of a UUID parses back to it |
| `Json.DumpLoads` | backend/app/admin/reconciliation.py:60-79 | every JSON value reads back from its compact ASCII text, with adjacent surrogates joined |
| `Json.JoinedSame` | backend/app/admin/reconciliation.py:60-79 | joining changes a text exactly when it holds an adjacent pair, and never lengthens it |
| `Base64.RoundTrip` | backend/app/admin/reconciliation.py:71-79 | every byte string survives encoding, stripping the padding, restoring it and decoding |
| `Base64.EncodeIsUnpadded` | backend/app/admin/reconciliation.py:71 | the stripped encoding is the unpadded one, of four letters for three bytes |
| `HttpRange.AcceptedRange` | backend/app/http_downloads.py:61-89 | a well-formed header is accepted if and only if it selects a position, and the range then holds exactly the selected ones, 0 <= start <= end < size, for closed, open and suffix forms |
| `HttpRange.RefusedUnlessWritten` | backend/app/http_downloads.py:61-73 | any header that is not a bytes unit with one range of bounded numbers is refused |
| `HttpRange.AdjacentRangesCover` | backend/app/http_downloads.py:61-139 | the bytes of two adjacent accepted ranges that span a file concatenate to the file |
| `HttpRange.OpenedDownload.Close` | backend/app/http_downloads.py:39-43 | the descriptor is closed once, however often this is called |
| `HttpRange.OpenedDownload.StreamDownload` | backend/app/http_downloads.py:113-139 | under arbitrary short reads streaming ends; an undisturbed consumer gets exactly the bytes of the range, one that stops or is stopped by a read that raises a prefix; and the descriptor is closed once, unless the chunk size is refused |

## Left out

- Inventory reconciliation: `reconcile_inventory` and its anomaly report, which classify rows without changing any.
- A bound on failed answers before a lock: concurrent first failures skip the lock check, so none is claimed.
- First halves of the credential operations: they store nothing, so they are step functions without a class method.
- Session and reset authorisation by client keys: a client and its key are one identifier, and whether it is still authorised is a parameter.
- Parsing of client addresses into networks and the hashing of identities into buckets: networks and bucket indices are given, and may collide.
- Reading of inventory files (permissions, JSON shape, field formats): `LoadRows` takes parsed rows.
- Byte accounting of imports: an apply writes no usage rows, so balance is assumed of the admin operations' first state only.
- Torrent, job and download workers: a worker step may move an open job to any state, and touches nothing else.
- Verification of backup archives and manifests: a directory entry is verified or unknown; an archive and its manifest are one entry.
- Delivery.KeyTextsDiffer: takes request identifiers without a colon and timestamps without lower-case letters, as the service sends them.
- Multi-service routing details: gateways, secrets and the parsing of deployment specifications; account references are slot references or opaque identifiers.
- Worker threads of the password pool: any queued task may be dequeued at any time, so the number of workers does not appear.
- PasswordPool.PasswordWorkPool.constructor: takes valid limits; the source raises for others.
- RateLimit.LoginIpRateLimiter.constructor: takes valid limits; the source raises for others.
- HttpRange.OpenedDownload.StreamDownload: takes an open descriptor on a file that does not change and a start that is not negative.
- Credentials.AuthService.DeleteManagedUser: does not model the cancellation of the account's active requests, which touches neither sessions nor passwords.
- Cursor.Decode: reads ASCII JSON with integer numbers and UUID texts of hexadecimal digits and hyphens; fractions, other encodings, other UUID spellings and the interpreter's limit on nesting are not modelled.
- Password hashing, PBKDF2 matching and base64 of hashes in the settings file: parameters.
- `If-Range`, content disposition and response headers of downloads.
- Lone surrogates in settings files and range headers: their texts are sequences of Unicode scalar values.
- SQL, Redis, HTTP and Discord transport, the frontend, deployment scripts, probes and configuration parsing.
