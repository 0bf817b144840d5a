# Verification model of the to-do list service

A Dafny model of the parts of the service that are hard to get right by reading them, with proofs
about every input, every run and every reachable state. `dafny verify dfyconfig.toml` checks it.

**Refresh sessions** (`Session*.dfy`). Users, refresh-token rows and their families change under
concurrent logins, refreshes, logouts, password changes, user deletions and cleanup.
`SessionModel` is a step system: every call in progress has a program counter, one step is one SQL
statement or one commit under Read Committed, buffered writes appear at the commit, and row locks
(`FOR SHARE`, `FOR UPDATE`, updated token rows) follow from the program counters. The clock is
monotone, any statement may fail. History variables record, for each token, the login its chain
began with, the password that login verified, and its parent; no statement reads them.
`SessionInvariant`, `SessionSteps`, `SessionWrites`, `SessionEnds` and `SessionSafety` prove one
invariant for every step; `SessionTheorems`, `SessionReuse`, `SessionFamilies` and
`SessionAccounting` draw the guarantees from it, with the concrete runs of `SessionRuns`;
`SessionEffects` says row by row what each commit writes. `SessionService` is a `Database` object whose
methods are the repository and use-case methods, statement by statement, with arbitrary steps of
other callers between any two statements.

**Tasks** (`Task*.dfy`). The bounded compare-and-set loop of the status toggle over a cycle of three
(so a status can leave and come back between read and swap), partial edits, and a delete that checks
the owner in one statement and deletes by id alone in another.

**Shutdown** (`Shutdown.dfy`). `awaitStop`, `Drain` and the deferred actions of `run` against
listeners, shutdown calls and the cleanup goroutine that finish in any order.

**Configuration** (`Text.dfy`, `DotEnv*.dfy`, `Environment.dfy`). The `.env` reader and the exact grammar
it accepts, the environment merge of envexec, and the resolver they must agree with.

**Pages** (`Pagination.dfy`). Clamped page requests and independent queries that tile one order.

Two results differ from what the documentation suggests:

- README.md:461-465 of the service reasons that once a chain is dead an old token is harmless. Both halves
  fail while a refresh is in flight. A family can have no live token in the committed table and get one
  later: its token expires between the consume and the commit of a refresh that consumed it in time
  (`SessionFamilies.DeadFamilyCanRevive` is such a run). And a token of a dead family can still be reported
  as reused and end the user's other sessions: the live token is logged out between the classification of a
  replay and its revocation (`SessionFamilies.DeadFamilyCanHarm`). `SessionFamilies.DeadFamilyRevivesExactlyIf`
  and `SessionFamilies.DeadFamilyHarmsExactlyIf` give the exact conditions. When no refresh is past its decision
  on one of its tokens and able to act on it, a dead family is dead for good and harmless.
- `internal/usecase/ports.go:42-44` promises reuse for a token that "was already rotated and its chain
  still has a live token". That holds exactly while the spent row is stored
  (`SessionTheorems.ReplayIsReuse`); cleanup keeps the row for the retention period after its expiry
  (`SessionReuse.ReplayWithinRetentionIsReuse`). `SessionRuns.SweptReplayIsUnknown` is a run in which the row
  is swept while the chain is live.

## Model

| member | source | states |
|---|---|---|
| SessionSafety.StepInv | internal/repository/postgres/refresh_token_repo.go:56-315 | Each statement or commit of each call keeps the invariant: row well-formedness, chains, lineage, versions, locks and what each call in progress knows. |
| SessionSafety.ReachableInv | internal/repository/postgres/refresh_token_repo.go:56-315 | Every state any number of concurrent calls can reach from empty tables satisfies the invariant. |
| SessionTheorems.RunExtends | internal/repository/postgres/user_repo.go:18-31 | Between any two points of a run, history only grows: events, births and the password of a version are never rewritten, and the clock never goes back. |
| SessionTheorems.CredentialFreshness | internal/usecase/auth_usecase.go:150-173 | In every committed state each unrevoked token descends by rotation from a login that verified the owner's current password. |
| SessionTheorems.VersionPinsPassword | internal/repository/postgres/user_repo.go:26-31 | One credentials version is never paired with two password hashes, at any two points of a run. |
| SessionTheorems.StaleLoginRefused | internal/repository/postgres/refresh_token_repo.go:64-75 | A login whose verified password has been replaced ends at the version check and stores nothing. |
| SessionTheorems.ChainShape | internal/repository/postgres/refresh_token_repo.go:216-252 | Two stored tokens of a family have one owner and different depths; the older is revoked as rotated, a successor's parent is its predecessor, at most one is unrevoked. |
| SessionTheorems.SpentAtMostOnce | internal/usecase/ports.go:37-39 | In every run a token hash is exchanged successfully at most once. |
| SessionTheorems.SpentIsRotated | internal/repository/postgres/refresh_token_repo.go:216-219 | An exchanged token is on a chain, is not its newest, and its row, while stored, says rotated. |
| SessionTheorems.ReplayIsReuse | internal/repository/postgres/refresh_token_repo.go:283-300 | For an exchanged token whose family is live, inspection says reuse if and only if the spent row is still stored. |
| SessionRuns.SweptReplayIsUnknown | internal/repository/postgres/refresh_token_repo.go:175-181 | A concrete run in which the row of an exchanged token is swept while its chain is live, and the token is then answered as unknown. |
| SessionReuse.FailedConsumeMatchesTable | internal/repository/postgres/refresh_token_repo.go:283-300 | For any two tables with a logout or sweep between them and any ordered clock readings, the two-stage classification gives exactly the decision table's answer, and the catch-all branch is not taken. |
| SessionReuse.InspectMatchesTable | README.md:452-459 | In every run the inspecting statement of a refresh answers what the decision table says at that instant, and nothing else. |
| SessionReuse.ReuseEndsEverything | internal/repository/postgres/refresh_token_repo.go:220-242 | The commit of a detected reuse leaves the user no unrevoked token, changes no other user's row, and reports exactly the rows it moved to reason reuse. |
| SessionReuse.LaterRefreshNeedsLaterLogin | internal/repository/postgres/refresh_token_repo.go:311-315 | After sessions were ended, every later successful refresh of that user descends from a login stored after that event. |
| SessionReuse.RefreshWritesAtCommit | internal/usecase/ports.go:41-49 | A refresh changes the tables only in the commit of a success or of a reuse. |
| SessionReuse.InsertFindsItsSource | internal/repository/postgres/refresh_token_repo.go:244-261 | Once a consume succeeded its source row and its owner stay there until the commit, whatever cleanup, logout and user deletion do. |
| SessionReuse.LiveTokenCanBeExchanged | internal/repository/postgres/refresh_token_repo.go:183-268 | From any reachable table a live token whose owner is not locked has a run that exchanges it for an unrevoked token of the same family. |
| SessionReuse.CollisionLeavesTokenUsable | internal/repository/postgres/refresh_token_repo.go:254-261 | A replacement hash that is already stored ends the call without a write, and the presented token can be exchanged again while it lasts. |
| SessionReuse.SweepSparesLive | internal/repository/postgres/refresh_token_repo.go:175-181 | A sweep deletes no live row and no row within retention of its expiry, and changes none it keeps. |
| SessionReuse.SweepTakesPrefix | internal/repository/postgres/refresh_token_repo.go:175-181 | With a token a sweep deletes all its ancestors on the chain. |
| SessionReuse.ReplayWithinRetentionIsReuse | internal/usecase/session_cleanup.go:49-64 | An exchanged token replayed within retention after its own expiry while its family is live is still classified as reuse. |
| SessionFamilies.DeadFamilyRevivesExactlyIf | internal/repository/postgres/refresh_token_repo.go:216-219 | A family without a live token can have one again if and only if some call consumed its last token in time, has not committed, and drew a replacement still in date. |
| SessionFamilies.DeadFamilyCanRevive | internal/repository/postgres/refresh_token_repo.go:244-248 | A concrete run in which a dead family comes to life. |
| SessionFamilies.DoomedRun | internal/repository/postgres/refresh_token_repo.go:270-300 | With no such exchange in flight a dead family stays dead in every run from there. |
| SessionFamilies.SettledFamilyIsHarmless | internal/repository/postgres/refresh_token_repo.go:270-300 | Once no refresh past its decision on one of its tokens can still act on it, a dead family stays so, and every refresh presenting one neither succeeds nor reports reuse and changes no row of any user. |
| SessionFamilies.DeadFamilyHarmsExactlyIf | internal/repository/postgres/refresh_token_repo.go:270-300 | A token of a dead family can still be exchanged or reported as reused if and only if some refresh has consumed or classified one of its tokens and its next statements can still be carried out. |
| SessionFamilies.DeadFamilyCanHarm | internal/repository/postgres/refresh_token_repo.go:283-308 | A concrete run in which the replay of a token of a dead family is reported as reuse and ends a session of another family. |
| SessionAccounting.StepBalances | internal/usecase/auth_usecase.go:195-216 | Each step moves counters, amounts still due and rows by matching amounts. |
| SessionAccounting.CountersEqualRowsMoved | internal/usecase/auth_usecase.go:195-249 | At every point of every run each counter plus what is due to it equals the rows ever moved to its reason. |
| SessionAccounting.RowsEqualLoginsLessEnds | internal/repository/postgres/refresh_token_repo.go:119-181 | Unrevoked rows plus rows logged out, ended by reuse or password change, or lost equal the logins stored. |
| SessionAccounting.SessionAccounts | internal/usecase/user_usecase.go:118-127 | Whenever no call is between commit and counter, the four counters equal the rows moved and unrevoked rows equal logins minus those ends. |
| SessionService.Database.Rotate | internal/repository/postgres/refresh_token_repo.go:183-268 | A success exchanged the presented token, which was live during the call, for exactly the drawn one; a reuse ended its owner's sessions after the decision table said so; a refusal gives the table's answer; a failure ended in a failed statement or a colliding replacement; refusals and failures wrote nothing. |
| SessionService.Database.HandleUnusable | internal/repository/postgres/refresh_token_repo.go:278-308 | After a consume that matched nothing the call never issues a token: it answers by the decision table, ends every session only if the table says reuse, or fails in a failed statement. |
| SessionService.Database.Refresh | internal/usecase/auth_usecase.go:175-229 | A success exchanged the presented token, live during the call, for one that expires a lifetime after the call began, and counts one rotation; a reuse ended and counts the owner's sessions; a refusal agrees with the decision table; a failure has its failed statement or collision; refusals and failures wrote nothing. |
| SessionService.Database.Logout | internal/repository/postgres/refresh_token_repo.go:119-130 | When done, one step of the call revoked exactly the presented token as a logout if it was active, and changed nothing else; when not, a statement failed and nothing was written. |
| SessionService.Database.Login | internal/usecase/auth_usecase.go:128-173 | A stored session is the only new row, expires a lifetime after it was drawn, and the password that was verified is still the user's; credentials are called invalid only for an unknown user, a rejected password or a version that moved; a failure has its reason; without a session nothing was written. |
| SessionService.Database.StoreSession | internal/repository/postgres/refresh_token_repo.go:56-97 | Create stores the session only with the owner's password still the verified one, and reports a conflict only if the version moved. |
| SessionEffects.CommittedSession | internal/repository/postgres/refresh_token_repo.go:77-97 | The commit of a login in any run finds the verified password still current, and adds exactly one row, the first of its family. |
| SessionEffects.CommittedExchange | internal/repository/postgres/refresh_token_repo.go:216-252 | The commit of an exchange revokes the presented token as rotated, stores the drawn one with its user, family and the drawn expiry, and changes nothing else. |
| SessionEffects.CommittedReuse | internal/repository/postgres/refresh_token_repo.go:278-315 | The commit of a detected reuse revokes every session of the presented token's owner with reason reuse, counts them, and changes nothing else. |
| SessionService.Database.ChangePassword | internal/usecase/user_usecase.go:101-118 | When it succeeds, one step of the call wrote the new password, the profile if given and the next version to the row the user had at that moment, ended all and only that user's sessions and touched nobody else, and the counter grew by the sessions that step ended; otherwise the user was missing or a statement failed, and nothing was written. |
| SessionService.Database.RevokeAllForUser | internal/repository/postgres/refresh_token_repo.go:132-173 | A success logged out exactly the user's sessions and returns how many; otherwise the user was missing or a statement failed, and nothing was written. |
| SessionEffects.ChangedByCommit | internal/repository/postgres/user_repo.go:179-223 | The commit of a password change in any run writes the new password, the profile if given and the next version to the user's row, ends and counts exactly that user's sessions, and leaves every other user and token alone. |
| SessionEffects.DeleteWrites | internal/repository/postgres/user_repo.go:225-234 | Deleting a user deletes that user and that user's tokens and nothing else. |
| SessionEffects.RegisterWrites | internal/repository/postgres/user_repo.go:63-86 | A new user has the given password, version 1 and an id no user and no token ever had. |
| SessionEffects.ProfileWrites | internal/repository/postgres/user_repo.go:18-31 | An edit without a password keeps password, version and every session, writes the profile if given, and touches no other user. |
| SessionEffects.BulkRevokedByCommit | internal/repository/postgres/refresh_token_repo.go:132-173 | RevokeAllForUser revokes exactly its user's sessions as logged out, as many as it returns, and changes nothing else. |
| SessionService.Database.CleanupOnce | internal/usecase/session_cleanup.go:49-64 | A sweep keeps, unchanged, every row that is live or expired no longer ago than retention, and leaves none that expired before its cutoff; a failed one wrote nothing. |
| TaskTheorems.StepInv | internal/usecase/task_usecase.go:203-241 | Every step keeps: statuses are valid and follow from the log of writes, and a toggle that retries has been interfered with once per attempt. |
| TaskTheorems.TogglesNeverLost | internal/usecase/task_usecase.go:203-241 | While no update sets the status, it is exactly as many transitions on as toggles succeeded, for every interleaving, ABA included. |
| TaskTheorems.StatusIsBasePlusToggles | internal/domain/task.go:15-26 | Every stored status is valid and equals the last absolute write moved on by the toggles since. |
| TaskTheorems.GivesUpOnlyUnderInterference | internal/usecase/task_usecase.go:212-240 | A toggle gives up only after at least 50 writes by others changed that task's status during the call. |
| TaskTheorems.StaysGone | internal/repository/postgres/task_repo.go:176-185 | A task present now was present, with the same creator, at every earlier point since its id was given out. |
| TaskTheorems.OnlyTheOwnerTouches | internal/usecase/task_usecase.go:172-199 | No interleaving lets a call change or delete a row created by anyone but its actor. |
| TaskEdits.AcceptedEdit | internal/usecase/task_usecase.go:141-170 | An accepted edit mentions the requested fields, keeps a stored task within the limits, and is accepted unchanged when sent again. |
| TaskEdits.EditAnswers | internal/usecase/task_usecase.go:139-170 | An edit is refused for the first thing wrong with it, case by case, and accepted exactly if nothing is; then it writes the trimmed texts and the status that are present and keeps the rest. |
| TaskEdits.AcceptedTask | internal/usecase/task_usecase.go:256-267 | A new task is refused for the first thing wrong with it, case by case; an accepted one has the trimmed texts of the request, within the limits. |
| TaskEdits.TitleStays | internal/repository/postgres/task_repo.go:143-156 | Between two points of a run a title changes only by an update that writes a title: edits of other fields do not overwrite it. |
| TaskEdits.DescriptionStays | internal/repository/postgres/task_repo.go:143-156 | The same for descriptions. |
| TaskService.TaskTable.ToggleRound | internal/repository/postgres/task_repo.go:187-222 | A round moves the status of the actor's row on by one (created, in progress, completed, created) in its swap, ends because the row is not the actor's or a statement failed, or misses and goes on to the next attempt; only a success writes. |
| TaskService.TaskTable.ToggleStatus | internal/usecase/task_usecase.go:203-241 | A success moved the status of the actor's row on by one in the call's last step and in no other; any other answer wrote nothing; not found means the row was absent or another's during the call; a conflict comes after exactly 50 missed swaps and at least 50 interfering writes. |
| TaskService.TaskTable.Create | internal/usecase/task_usecase.go:34-64 | The new task is the actor's, has status created, the trimmed texts of the request and an id that was never in the table; every refusal has its input. |
| TaskService.TaskTable.Update | internal/usecase/task_usecase.go:113-137 | A success wrote the trimmed texts and the status that are present to the actor's row and nothing else; not found means the row was absent or another's during the call; every refusal has its input. |
| TaskService.TaskTable.Delete | internal/usecase/task_usecase.go:172-199 | A success removed a row that was the actor's when it was removed, and no other row; not found means the row was absent or another's during the call; any other answer wrote nothing. |
| Shutdown.StepInv | cmd/server/main.go:266-316 | Every arrival and every step of the shutdown keeps the invariant on servers, listener reports, exit error, deferred actions and problems. |
| Shutdown.ShutdownOrder | cmd/server/main.go:56-151 | In every run: one drain, each report received at most once, requests cancelled only when every shutdown call returned, pool closed only after drain, reports and cleanup goroutine. |
| Shutdown.ExitIsComplete | cmd/server/main.go:266-316 | An exited run received each started listener's report exactly once, collected every shutdown result, and kept exactly the failures collected. |
| Shutdown.CleanExit | cmd/server/main.go:303-315 | The result is clean if and only if neither the report that woke the run nor any shutdown call was an error. |
| Shutdown.ResultsAreReal | internal/transport/httpserver/lifecycle.go:26-33 | In every run a server's result is what its own shutdown call returned; only a missing server counts as shut down without a call. |
| Shutdown.WokenBy | cmd/server/main.go:273-290 | In every run that stopped selecting the exit error is the one the select took with a report, or none for a signal. |
| Shutdown.NeverStuck | cmd/server/main.go:292-301 | After a reason to stop some step other than a signal is always possible until the exit. |
| Shutdown.AlwaysTerminates | internal/transport/httpserver/lifecycle.go:21-46 | A run with n servers has at most 3n + 18 steps, and one to which nothing is owed any more has exited completely. |
| Shutdown.Process.Drain | internal/transport/httpserver/lifecycle.go:21-46 | The drain collects every shutdown result, each of them returned by that server's own shutdown call, reports exactly the failures, and then cancels the requests. |
| Shutdown.Process.AwaitStop | cmd/server/main.go:266-316 | awaitStop answers with the failure of the listener report that its select took, else with exactly the failed shutdowns if any failed, else cleanly. |
| Shutdown.Process.Run | cmd/server/main.go:53-216 | However events arrive, the process ends, completely, and answers with the failure of the report that woke it, else with exactly the failed shutdowns, else cleanly. |
| Text.TrimmedOnce | internal/usecase/task_usecase.go:146-163 | Trimmed text has no white space around it, and trimming again changes nothing. |
| Text.SpaceChars | internal/config/config.go:700-700 | White space is exactly the 25 characters with the White_Space property, written out. |
| DotEnv.ReadEnvFile | internal/config/config.go:690-725 | A file is accepted if and only if every line is blank, a comment or an assignment and no key repeats; the map holds exactly the assignments, as many as there are; an error names the first bad line and the first reason. |
| DotEnv.HoldsOne | internal/config/config.go:690-725 | The lines determine the map. |
| DotEnvRoundTrip.RoundTrip | internal/config/config.go:690-736 | Settings with distinct keys spelled in letters, digits and underscores, printed with either quote or none, any padding, and blank and comment lines anywhere, are read back exactly. |
| DotEnvRoundTrip.ValidKeys | internal/config/config.go:726-736 | A key is valid exactly if it is non-empty, does not begin with a digit and consists of the 26 lower-case and 26 upper-case letters, the ten digits and the underscore. |
| DotEnvRoundTrip.Rewritten | internal/config/config.go:690-736 | Whatever a readable file says can be printed as quoted settings alone and reads the same. |
| DotEnvGrammar.LineForms | internal/config/config.go:700-723 | What every line says, case by case: blank or remark, no equals sign, a key with a foreign character, an unclosed quote, a NUL, or the assignment it makes. |
| DotEnvGrammar.ReadableExactly | internal/config/config.go:690-725 | A file is readable exactly if it is settings with distinct keys, remarks and gaps printed one a line. |
| DotEnvRoundTrip.WhatIsReadFits | internal/config/config.go:726-736 | Every key read is valid and every value fits a line and holds no NUL. |
| Environment.CommandEnvironment | internal/config/config.go:741-759 | The result lists, one entry a key, the file's values merged with the environment; it fails exactly when the file cannot be read. |
| Environment.MergedAt | internal/config/config.go:746-753 | For every name the merge gives the non-empty environment value, else the file's value, else the empty environment value. |
| Environment.EntryAt | internal/config/config.go:267-267 | A name has the value of the first environment entry that names it, and none if no entry does. |
| Environment.NamesMeans | internal/config/config.go:747-747 | An entry gives a name a value exactly if it is the name, an equals sign and the value. |
| Environment.Transparent | internal/config/config.go:266-280 | Every setting and secret resolves under the merged environment as under the original sources, with or without reading the file again. |
| Environment.MergedOnce | internal/config/config.go:739-759 | Merging the same file into the merged environment gives the same map. |
| Environment.Resolver.Str | internal/config/config.go:282-291 | The non-empty environment value, else the non-empty .env value, else the non-empty YAML value, else the empty string and one more problem. |
| Environment.Resolver.OptionalStr | internal/config/config.go:293-296 | The same without a problem. |
| Environment.Resolver.Secret | internal/config/config.go:388-407 | The non-empty environment value, else the non-empty .env value, never YAML, else the empty string and exactly one more problem. |
| Environment.Resolver.OptionalSecret | internal/config/config.go:409-415 | The non-empty environment value, else the .env value, else the empty string, without a problem. |
| Pagination.ArrangedOnce | internal/repository/postgres/task_repo.go:124-141 | The id tie-break makes the sorted arrangement of the matching rows unique. |
| Pagination.ListByCreator | internal/repository/postgres/task_repo.go:87-122 | A page is a window of an arrangement of the matching rows, and the total is the number of the creator's rows with the status asked for; a negative limit or offset is refused. |
| Pagination.List | internal/usecase/task_usecase.go:87-111 | Lists the actor's own tasks exactly if the actor is a user and the status is known, with the limit and offset clamped case by case; the refusals have their inputs. |
| Pagination.PagesTile | internal/repository/postgres/task_repo.go:87-122 | However each query sorts, pages at offsets 0, L, 2L and so on follow each other without gap or overlap and each reports the length of the list. |
| Pagination.PagesShowEverything | internal/repository/postgres/task_repo.go:87-122 | Enough pages show every task of the creator with the status asked for exactly once, nothing else, in the column, direction and id order the listing promises. |

## Left out

- Foreign code: JWT signing, bcrypt, SHA-256, randomness and Postgres itself. A password hash is a value a login verified, a token hash is a value, the random source returns values never drawn or presented before, or one that collides with a stored hash (the collision branches are modelled).
- Lock subtleties: deadlock detection, key-share locks and the row-by-row progress of one statement. Only user-row and token-row locks are modelled and one statement is one step; `DeleteExpired` and the revocation of all of a user's rows each act at once.
- Start and ids: tables start empty, serial ids and family ids are never reused, the token lifetime and the retention are positive constants, and a commit whose acknowledgement is lost counts as not committed.
- Rows stored before reasons or families existed: a revoked row without a reason appears only in the classification lemmas.
- SessionReuse.LiveTokenCanBeExchanged: progress is shown for a caller nobody blocks; fairness among callers that wait for a lock is Postgres's.
- SessionTheorems.ReplayIsReuse: has the stored row as a condition, because a replay long after retention finds its row swept and is answered as unknown.
- SessionFamilies.DeadFamilyRevivesExactlyIf: replaces "a dead family stays dead", which is false of the code.
- SessionFamilies.DeadFamilyHarmsExactlyIf: replaces "a dead family is harmless", which is false of the code.
- SessionAccounting.SessionAccounts: counts rows of `RevokeAllForUser`, which no use case calls and no counter counts, as a quantity of their own.
- Refresh counters for refused outcomes, login counters, metrics registry, logging and health checks: plain increments and plumbing.
- Users: usernames, emails, their validation and uniqueness, administrator login and `authorizeUser`. Username and email are one opaque value; a unique violation is a failed statement.
- User pages: sorted by id alone, an easier case of the task pages.
- Startup: the failure paths of `run` before both listeners serve, and the time limits of the shutdown calls, which return at some time with some error.
- Shutdown.Process.Drain: results are collected in any order, where the buffered channel hands them over in the order they were sent; only the order inside the joined error is lost.
- Shutdown.Process.Run: a listener error received after the drain is discarded, as in the code; waits end because what they wait for arrives; that each shutdown call returns and each listener reports once is assumed, as the service's comments do.
- HTTP handlers, transfer objects, middleware, rate limiting, YAML decoding, the list of range checks in `validate`, DSN building and migrations.
- Text is a sequence of Unicode characters: files and values that are not valid UTF-8 are not modelled, and trimming takes the characters with the White_Space property.
- Environment.Transparent: assumes that no two entries of the environment give one name different values, as `os.Environ` guarantees.
- Reading and writing of the file itself and the operating system's environment: parameters of the model.
