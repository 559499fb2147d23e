# Account stores of Token Proxy, verified

Token Proxy keeps the credentials of its Codex, xAI and Kiro accounts in one SQLite table.  Each provider
has a store with an in-memory cache over its part of the table, a provider-wide gate for writers, and one
refresh permit per account.  Many asynchronous tasks run over a store at once: token refresh, quota refresh,
late 401 answers, settings changes, imports, deletes, snapshots and rollbacks.  Every `await` lets other
tasks in, and most of them are points where a task may be dropped.  This project models the stores as
concurrent state machines and proves what survives every interleaving.

`dafny verify dfyconfig.toml` checks everything.

## How the model is built

A machine state holds table, cache, permits, clock and, for every task, a program counter.  One step is at
most one section of code without an `await`; taking a refresh permit is a step of its own although nothing is
awaited before it, since other threads run on meanwhile.  Time passes in steps of its own.  What the outside
answers (token and usage endpoints, failing database calls, the order in which a hash map is searched) is any
event the step relation admits.  A guard lives exactly while the program counter is in its scope, so dropping
a task drops what it holds; for the Codex gate and for all refresh permits the holder is recorded too, and this
is proved.  Each machine also keeps its history, the list of completed operations, and a sequential
specification (`Perform`, `Replay`) that runs them one at a time.

What a task decides, what an operation writes and what a caller is told is stated once more over the fields of
records and stores, apart from the functions the machines run on: predicates such as `Servable`, `Shows`,
`LandsRight` or `Tells` occur in statements only.

* **Codex** (`Codex*.dfy`).  Records and decisions; the machine; the rules every step obeys and the invariant
  it keeps (`CodexRules`, `CodexInvariant`, `CodexSteps`); then the theorems: refinement of the sequential
  store and of separate folds per field, compare-and-swap of credential generations, marks on rejected
  tokens, failure cooldowns, rollback sessions, single flight, import identity.  `CodexDecisions` says over the
  fields of records and store what a task decides at each turning point, `CodexContents` what every committed
  update consists of and what caused it, and `CodexResolve` builds the runs in which a resolve refreshes.
  `CodexStore.dfy` holds the store as a class, its methods proved against the functions the machine uses.
* **xAI** (`Xai*.dfy`, `LockTable.dfy`).  Four kinds of locks are held across awaits.  Theorems: cache
  coherence with saves and deletes dropped at any await, loads that are exact if and only if they run under
  the gate, lock order and deadlock freedom, compare-and-swap, separate folds per field, rollback sessions,
  no resurrection after a delete, the table of weak mutex references, the quota merge algebra, the login
  sessions, and the device polling loop.  Unlike the other two stores the xAI store does not read the record
  again under its permit, so it may send credentials that have been replaced: exactly when a response to them
  was committed between the load and the permit, and without any effect on the store (`XaiExchanges`).
  `XaiDecisions` and `XaiContents` do for this store what their Codex namesakes do, and `XaiLoginAnswers` says
  what the polls of a login are told over every run.
* **Kiro** (`Kiro*.dfy`).  `refresh_record_with`, saves, imports, deletes and mutation sessions; decisions and
  contents in `KiroContents`.
* **All three** (`CompareAndSwap.dfy`, `Since.dfy`).  What follows from compare-and-swap commits when responses
  are fresh, and going back along a run to where a wait or a refresh began.
* **Shared table** (`Records.dfy`, `Migration.dfy`).  One row per account id, owned by one provider; the
  operations as transactions, and the one-time cleaning of stored records.

Findings worth knowing. The xAI store can start an exchange for credentials that have been replaced
(`XaiOvertaken.StaleExchangeHappens`), which with fresh responses the other two stores cannot
(`CodexGenerations.NeverSendsReplacedGeneration`, `KiroRuns.NeverSendsReplacedCredentials`). An upsert is
keyed by the account id alone and takes over a row of another provider (`Records.UpsertMayTakeOver`). A load
of the xAI store can report an account as missing whose row is there all the time exactly when it does not run
under the provider gate (`XaiMiss.LoadIsExactIffGated`). The empty quota snapshot is a right unit of merging
exactly where no error is kept. Grouping matters to quota merges exactly when the middle list repeats a name
(`XaiQuota.AssociativeIffUnique`); no list the store makes does: fetched windows and headers are built by
upserts and imports start from an empty quota (`XaiQuota.BuiltListsAreUnique`, `XaiHistory.QuotasStayUnique`).

"Fresh responses", where a theorem asks for them, means that what an operation installs as the credentials of
an account was never its credentials before.

## Model

| member | source | states |
|---|---|---|
| `CodexTypes.ThresholdReleasedIff` | crates/token_proxy_account_codex/src/types.rs:220-240 | time alone never holds an account back, and it releases an account that has reached its configured threshold exactly when the reset times of all windows over that threshold have passed |
| `CodexDecisions.ResolveDecides` | crates/token_proxy_account_codex/src/store.rs:910-958 | a resolve goes on to refresh exactly when the account is OAuth, not invalid, may be refreshed, has a refresh token, and either its access token carries a mark or it is due within a day; otherwise it answers at once, with the record exactly when that is usable, unmarked and below its threshold |
| `CodexDecisions.FallbackDecides` | crates/token_proxy_account_codex/src/store.rs:948-956 | after a failed refresh a resolve is still served exactly when the record as it is now is usable, unmarked and below its threshold |
| `CodexDecisions.HeaderDecides` | crates/token_proxy_account_codex/src/store.rs:310-331 | a header is built exactly from an OAuth account whose access token is neither marked nor blank |
| `CodexDecisions.ManualDecides` | crates/token_proxy_account_codex/src/store.rs:419-427 | a refresh asked for by the user starts for every OAuth account with a refresh token |
| `CodexDecisions.DueDecides` | crates/token_proxy_account_codex/src/store.rs:970-985 | the due loop takes exactly the accounts that may be refreshed, are due and whose refresh token was not refused |
| `CodexDecisions.LateDecides` | crates/token_proxy_account_codex/src/store.rs:437-470 | a late 401 marks the token exactly when it is the access token of the account as cached, which is not invalid, and a refresh follows exactly when the store may renew the account |
| `CodexDecisions.ReloadDecides` | crates/token_proxy_account_codex/src/store.rs:1023-1032 | with the permit a refresh goes on exactly when the credentials are those it was started for, the account is not invalid and its refresh token was not refused; otherwise the caller is told the new record or that a login is needed |
| `CodexDecisions.CoolingDecides` | crates/token_proxy_account_codex/src/store.rs:1033-1043 | an exchange is sent exactly when no failure cools off, no success stands in the way, the account may be refreshed or the user asked, and its client is known |
| `CodexDecisions.FailureDecides` | crates/token_proxy_account_codex/src/store.rs:1111-1143 | after a failed exchange: replaced credentials win; a permanent refusal marks the refresh token, and invalidates the account exactly when its access token is of no use any more |
| `CodexDecisions.NoteDecides` | crates/token_proxy_account_codex/src/store.rs:1045-1075 | the outcome of a refresh sets a cooldown of 30 seconds, of 300, or none, drops the permit and is told to the caller |
| `CodexDecisions.FollowedDecides` | crates/token_proxy_account_codex/src/store.rs:1369-1379 | a follower takes over new credentials, and gives up on missing or marked ones |
| `CodexDecisions.UpdateDecides` | crates/token_proxy_account_codex/src/store.rs:487-555 | under the gate an update is refused for a missing or unfit account, dropped when the credentials it is about are gone, and written otherwise |
| `CodexDecisions.ImportDecides` | crates/token_proxy_account_codex/src/store.rs:659-693 | an import ends the account's cooldown exactly when it brings an access or refresh token the account did not have |
| `CodexResolve.ResolveServesTheAnswer` | crates/token_proxy_account_codex/src/store.rs:1245-1286 | from every reachable state in which a resolve has loaded an account that calls for a refresh and nothing stands in its way, and for every answer of the endpoint, the run goes on to serve the new access token, stored field by field in table and cache |
| `CodexResolve.ResolveOfDueAccountServesTheAnswer` | crates/token_proxy_account_codex/src/store.rs:304-308 | in particular the first resolve of a fresh store, for every account that is due and may be refreshed, and every answer |
| `CodexFields.FoldIsFieldwise` | crates/token_proxy_account_codex/src/store.rs:1171-1199 | any sequence of refresh commits, quota commits, settings, invalidations and re-imports, run one at a time on whole records, yields each field as its own operations alone would |
| `CodexFields.OtherOpsNeverChangeCredentials` | crates/token_proxy_account_codex/src/store.rs:615-627 | leaving out every quota, settings and invalidation operation changes neither credentials nor identity |
| `CodexFields.OtherOpsNeverChangeQuota` | crates/token_proxy_account_codex/src/store.rs:1171-1199 | leaving out every refresh, settings and invalidation operation changes no quota |
| `CodexFields.InvalidIsAbsorbing` | crates/token_proxy_account_codex/src/store.rs:1187-1189 | an invalid account is not invalid later only if a re-import in between brought an access or refresh token it did not have |
| `CodexInvariant.FrameKeepsInv` | crates/token_proxy_account_codex/src/store.rs:165-172 | a step that changes only what its own gate and permit cover keeps every other task's assumptions |
| `CodexSteps.StepGood` | crates/token_proxy_account_codex/src/store.rs:1010-1200 | every step of every task changes only what its gate and permit cover and leaves the cache inside the sequential store |
| `CodexSteps.RunKeepsInv` | crates/token_proxy_account_codex/src/store.rs:1010-1200 | in every reachable state gate, permits, table, cache, sessions and program counters agree with the sequential store |
| `CodexHistory.StepIsAtomic` | crates/token_proxy_account_codex/src/store.rs:566-597 | a step either completes exactly one sequential operation or leaves table contents and history as they are |
| `CodexHistory.TableIsReplay` | crates/token_proxy_account_codex/src/store.rs:566-597 | refinement: table and cache of every reachable state are those of the completed operations run one at a time, up to the one operation in progress |
| `CodexHistory.AccountIsFold` | crates/token_proxy_account_codex/src/store.rs:629-636 | what other accounts do never shows in an account's record |
| `CodexHistory.AccountRunIsFieldwise` | crates/token_proxy_account_codex/src/store.rs:615-627 | between any two quiet moments of any run a surviving OAuth account is assembled field by field from the operations that own each field, in gate order |
| `CodexHistory.InvalidIsAbsorbingOverRuns` | crates/token_proxy_account_codex/src/store.rs:659-670 | along every run an invalid account becomes valid only through an import with new tokens, a delete, or a restore |
| `CodexContents.CommittedRefreshShowsItsAnswer` | crates/token_proxy_account_codex/src/store.rs:1145-1199 | every committed refresh goes back to one answer of the token endpoint to an exchange of the credentials sent; the row after it has the access token of that answer, its refresh and id token where not blank and those sent otherwise, its lifetime counted from the answer, the identity of its claims where they say any, and setting, device, quota, threshold and health as the row had them |
| `CodexContents.NextExchangeSendsTheRotatedToken` | crates/token_proxy_account_codex/src/store.rs:1147-1151 | when the last operation on an account was a refresh, the next exchange sends the refresh token that came with it |
| `CodexContents.CommittedUpdatesHaveCauses` | crates/token_proxy_account_codex/src/store.rs:487-627 | every other update in the history goes back to its cause: a quota to the answer of the usage endpoint or, after a failed request, to the quota known with only its error changed; an invalidation to a refusal of the very credentials it names; a setting to the user |
| `CodexGenerations.RefreshCommitsOntoItsGeneration` | crates/token_proxy_account_codex/src/store.rs:1171-1176 | compare-and-swap: a committed refresh replaced exactly the generation that was sent, by the one that came back |
| `CompareAndSwap.ReplacedForever` | crates/token_proxy_account_codex/src/store.rs:1171-1176 | for all three stores: with fresh responses credentials once replaced never come back |
| `CompareAndSwap.CurrentIsUnspent` | crates/token_proxy_account_codex/src/store.rs:1023-1026 | for all three stores: with fresh responses the credentials in place were never spent on a refresh |
| `CodexGenerations.AtMostOneCommitPerGeneration` | crates/token_proxy_account_codex/src/store.rs:1171-1176 | with fresh responses each generation is replaced by at most one committed refresh |
| `CodexGenerations.NeverSendsReplacedGeneration` | crates/token_proxy_account_codex/src/store.rs:1023-1026 | no exchange is sent for a generation an earlier refresh already replaced |
| `CodexMarks.RunKeepsMarks` | crates/token_proxy_account_codex/src/store.rs:572-595 | without restores every mark names the token of a cached account as it is now |
| `CodexMarks.AccessMarkStays` | crates/token_proxy_account_codex/src/store.rs:572-584 | one step removes an access mark only by saving a record with another access token or deleting the account |
| `CodexMarks.RefreshMarkStays` | crates/token_proxy_account_codex/src/store.rs:585-595 | one step removes a refresh mark only by saving a record with another refresh token or deleting the account |
| `CodexMarks.AccessMarkPersists` | crates/token_proxy_account_codex/src/store.rs:437-458 | over any stretch of a run without such a save or delete the access mark is still there |
| `CodexMarks.RefreshMarkPersists` | crates/token_proxy_account_codex/src/store.rs:1117-1121 | over any stretch of a run without such a save or delete the refresh mark is still there |
| `CodexReplies.RepliesAreGood` | crates/token_proxy_account_codex/src/store.rs:1245-1286 | whoever is handed a record or a header gets a usable one whose access token carries no mark at that moment |
| `CodexReplies.RejectedTokenIsNeverServed` | crates/token_proxy_account_codex/src/store.rs:310-324 | a token marked by a 401 is returned neither as a record nor as a header while the mark stays |
| `CodexReplies.RejectedRefreshIsNeverSent` | crates/token_proxy_account_codex/src/store.rs:1030-1032 | a refresh token recorded as rejected is not sent while the mark stays |
| `CodexCooldown.NothingIsSentAfterFailure` | crates/token_proxy_account_codex/src/store.rs:1057-1072 | after a refresh ended in a transient failure no refresh of the account is sent for 300 seconds, unless an import with new tokens comes in between |
| `CodexCooldown.FailureCooldownRuns` | crates/token_proxy_account_codex/src/store.rs:683-689 | a failure cooldown is neither shortened nor replaced except by an import with new tokens |
| `CodexCooldown.NothingIsSentDuringCooldown` | crates/token_proxy_account_codex/src/store.rs:1033-1040 | no refresh is sent before a recorded failure cooldown has run out |
| `CodexSessions.RollbackIsSerializable` | crates/token_proxy_account_codex/src/store.rs:1427-1435 | a rolled back session leaves table and cache as the snapshot; every operation since the snapshot is the session's own |
| `CodexSessions.SessionIsExclusive` | crates/token_proxy_account_codex/src/store.rs:158-163 | while a session holds the gate no other task changes table, cache or history |
| `CodexSessions.PermitIsUnique` | crates/token_proxy_account_codex/src/store.rs:118-129 | an id is marked as refreshing exactly while one task holds its permit, so at most one exchange per account is in flight |
| `CodexSessions.FollowerWaits` | crates/token_proxy_account_codex/src/store.rs:1353-1379 | a follower's whole wait: it began with a deadline 35 seconds ahead that never moved since, and every look that let it wait on came before the deadline |
| `CodexImport.ImportKeepsWorkspaces` | crates/token_proxy_account_codex/src/store.rs:1662-1674 | an import changes at most one record and no account's workspace |
| `CodexImport.ImportKeepsPairsUnique` | crates/token_proxy_account_codex/src/store.rs:1554-1616 | an import never creates a second account for a known user in a workspace |
| `CodexImport.RunImportsWell` | crates/token_proxy_account_codex/src/store.rs:649-705 | every import in the history of a run landed where the rules of the store say |
| `CodexImport.ImportsLandRight` | crates/token_proxy_account_codex/src/store.rs:1554-1616 | every import in the history of a run landed on an account of the same trimmed user id and workspace, else of the same trimmed, lower-cased e-mail and workspace where at most one side knows its user, and made a new account exactly when there was none; so it never replaced another user, nor another e-mail where no user is known |
| `CodexIdentity.ImportedRow` | crates/token_proxy_account_codex/src/store.rs:655-705 | an import writes credentials, identity and quota of the import, keeps the threshold, the refresh setting and the health unless it brings new tokens, and changes no other account |
| `CodexImport.HistoryKeepsIdentity` | crates/token_proxy_account_codex/src/store.rs:1662-1674 | over any history of imports, settings, quota, invalidations and deletes, and of refreshes whose tokens name the same user and workspace, pairs stay unique and surviving accounts keep their workspace |
| `CodexImport.RunKeepsIdentity` | crates/token_proxy_account_codex/src/store.rs:1554-1616 | the same for the table at any two quiet moments of any run |
| `CodexStore.SectionIsPerform` | crates/token_proxy_account_codex/src/store.rs:557-597 | a gated section performs one sequential operation on table and cache alike |
| `CodexStore.StepsRunTheSection` | crates/token_proxy_account_codex/src/store.rs:557-597 | the machine's gated steps, run without a pause, change the store as the section does |
| `CodexStore.CodexAccountStore.SaveRecordUnlocked` | crates/token_proxy_account_codex/src/store.rs:566-597 | a save writes row and entry and lifts exactly the marks that name another token; a failed write changes nothing |
| `CodexStore.CodexAccountStore.SetAutoRefresh` | crates/token_proxy_account_codex/src/store.rs:487-501 | sets only the flag of an OAuth account in the cache, else fails |
| `CodexStore.CodexAccountStore.SetQuotaThreshold` | crates/token_proxy_account_codex/src/store.rs:503-525 | sets only the threshold, and only within 0 to 100 |
| `CodexStore.CodexAccountStore.MarkInvalidIfCredentialMatches` | crates/token_proxy_account_codex/src/store.rs:540-555 | marks the account invalid only while its credentials are those that failed |
| `CodexStore.CodexAccountStore.PersistQuotaCache` | crates/token_proxy_account_codex/src/store.rs:615-627 | replaces only the quota of the record as it is now |
| `CodexStore.CodexAccountStore.CommitRefreshed` | crates/token_proxy_account_codex/src/store.rs:1169-1199 | merges only new credentials and identity onto the current record, or discards them; stored credentials that have already run out are an error |
| `CodexStore.CodexAccountStore.RejectAccessToken` | crates/token_proxy_account_codex/src/store.rs:442-465 | marks the failed token only if it is still current, and says whether a refresh follows |
| `CodexStore.CodexAccountStore.DeleteAccount` | crates/token_proxy_account_codex/src/store.rs:768-783 | removes row, entry and both marks; an absent row is an error that changes nothing |
| `CodexStore.CodexAccountStore.RestoreAllRecords` | crates/token_proxy_account_codex/src/store.rs:1427-1435 | replaces table and cache together, or neither |
| `CodexStore.CodexAccountStore.ReloadCacheUnlocked` | crates/token_proxy_account_codex/src/store.rs:1412-1417 | the cache becomes the table |
| `CodexStore.CodexAccountStore.StartTokenRefresh` | crates/token_proxy_account_codex/src/store.rs:1331-1344 | grants the permit exactly when nobody holds it |
| `CodexStore.CodexAccountStore.NoteOutcome` | crates/token_proxy_account_codex/src/store.rs:1045-1075 | 30 seconds after success, 300 after a transient failure, none when a new login is needed |
| `CodexStore.CodexAccountStore.FindExistingImportTarget` | crates/token_proxy_account_codex/src/store.rs:1554-1616 | finds an account of the same user and workspace first, else of the same e-mail and workspace, and reports none exactly when there is none |
| `CodexStore.CodexAccountStore.UniqueAccountId` | crates/token_proxy_account_codex/src/store.rs:1537-1552 | finds the first free name of the series within as many probes as there are accounts plus one |
| `CodexStore.CodexAccountStore.SaveNewAccount` | crates/token_proxy_account_codex/src/store.rs:649-705 | an import performs the sequential import on a legal target and clears the cooldown exactly for new tokens |
| `CodexStore.NamesDiffer` | crates/token_proxy_account_codex/src/store.rs:1541-1551 | the series never repeats a name |
| `CodexStore.NamesOfTheSeries` | crates/token_proxy_account_codex/src/store.rs:1541-1546 | new accounts are named codex-part.json, then codex-part-n.json with n in digits |
| `Decimals.TakenNamesAreFew` | crates/token_proxy_account_codex/src/store.rs:1541-1551 | a series that never repeats a name outruns any finite set of accounts |
| `CodexStore.WaitForTokenRefresh` | crates/token_proxy_account_codex/src/store.rs:1353-1379 | at most 701 looks, each but the last with the permit taken and the deadline ahead |
| `XaiTypes.UpdatesKeepOtherFields` | crates/token_proxy_account_xai/src/store.rs:964-1012 | each kind of completion stays inside its own fields; a token response makes the account active |
| `XaiTypes.RefreshCommutesWithSettings` | crates/token_proxy_account_xai/src/store.rs:964-985 | a token response and a settings or quota change give the same record in either order |
| `XaiSteps.StepIsGood` | crates/token_proxy_account_xai/src/store.rs:431-452 | every step of every task, cancelled or not, changes only what its locks cover and keeps cache and table in step |
| `XaiSteps.RunKeepsInv` | crates/token_proxy_account_xai/src/store.rs:431-452 | in every reachable state locks exclude, permits are unique and the cache shows the table |
| `XaiCache.CacheIsCoherent` | crates/token_proxy_account_xai/src/store.rs:431-452 | with saves and deletes cancellable at every await, every cached entry is its row in every state outside a half-done restore |
| `XaiCache.LoadReturnsARowOfTheTable` | crates/token_proxy_account_xai/src/store.rs:661-672 | a load returns a record the table held during the call, unless the whole call fell inside one half-done restore |
| `XaiCache.GatedLoadIsExact` | crates/token_proxy_account_xai/src/store.rs:661-678 | under the provider gate a load finds the row or there is none |
| `XaiMiss.LoadIsExactIffGated` | crates/token_proxy_account_xai/src/store.rs:661-678 | for whatever purpose a load can be entered: no run has it report an account as missing whose row is there throughout if and only if it runs under the provider gate; if not, such a run exists in which nothing is committed, deleted, restored or dropped meanwhile |
| `XaiLocks.WaitForGraphIsAcyclic` | crates/token_proxy_account_xai/src/store.rs:41-43 | locks are requested in the order provider, index, account, cache_sync, so no chain of waiting tasks closes or is longer than the ranks allow |
| `XaiLocks.BlockedByATaskThatMoves` | crates/token_proxy_account_xai/src/store.rs:513-517 | every blocked task waits, directly or through others, for a task that can move now |
| `XaiLocks.SomeTaskCanStep` | crates/token_proxy_account_xai/src/store.rs:558-566 | deadlock freedom: while a task is unfinished some unfinished task can move |
| `XaiLocks.AccountSectionsExclude` | crates/token_proxy_account_xai/src/store.rs:964-972 | two tasks are never inside the locked section of the same account |
| `XaiLocks.PermitIsUnique` | crates/token_proxy_account_xai/src/store.rs:1028-1037 | an id is marked as refreshing exactly while one task holds its permit, so one exchange per account is in flight at most |
| `XaiLocks.FollowerWaits` | crates/token_proxy_account_xai/src/store.rs:1039-1063 | a follower's whole wait: it began with a deadline 35 seconds ahead that never moved since, and every look that let it wait on came before the deadline |
| `XaiHistory.LoggedAreEffective` | crates/token_proxy_account_xai/src/store.rs:964-985 | an update enters the history only by writing the row it was decided on |
| `XaiHistory.TableIsReplay` | crates/token_proxy_account_xai/src/store.rs:431-452 | the table is the committed operations run one at a time |
| `XaiHistory.TokenLandsOnItsBasis` | crates/token_proxy_account_xai/src/store.rs:1226-1230 | compare-and-swap: a committed response replaced exactly the access token, refresh token and endpoint it was exchanged for, by its own access token and its refresh token, or by the one sent where it has none |
| `XaiContents.CommittedResponseShows` | crates/token_proxy_account_xai/src/store.rs:1168-1205 | every committed response was the answer to an exchange of the credentials it replaced; the row after it has its tokens where not blank and those of the row before otherwise, its lifetime counted from the moment the row was read under its locks, the identity of its claims where they say any, and endpoint, setting and quota of the row before |
| `XaiContents.CommittedUpdatesHaveCauses` | crates/token_proxy_account_xai/src/store.rs:934-1012 | every update in the history goes back to what caused it: an answer or an invalid grant for the credentials it names, headers for the token in place, or a call |
| `XaiContents.ImportsLandRight` | crates/token_proxy_account_xai/src/store.rs:481-511 | every import or login in the history of a run landed on an account of the same trimmed subject or the same trimmed, lower-cased e-mail, made a new account exactly when there was none, and kept setting and quota of the account it took over |
| `XaiDecisions.RefreshDecides` | crates/token_proxy_account_xai/src/store.rs:904-931 | a read refreshes exactly when the account is not invalid, is due within five minutes, may be refreshed and has a refresh token, and is served as it is otherwise; a user's refresh needs a refresh token only; the due loop wants the account active |
| `XaiDecisions.FollowDecides` | crates/token_proxy_account_xai/src/store.rs:1039-1063 | a follower is served exactly when the credentials or their times changed, and looks again exactly while the permit was taken and its deadline is ahead |
| `XaiDecisions.HeadersDecide` | crates/token_proxy_account_xai/src/store.rs:341-392 | headers are stored only for the token in place, at most every 30 seconds, and when they say anything |
| `XaiDecisions.ImportLoadDecides` | crates/token_proxy_account_xai/src/store.rs:490-505 | what an import saves over an account takes it over as it is under the locks: all of the import, with setting and quota of the account |
| `XaiDecisions.UpdateDecides` | crates/token_proxy_account_xai/src/store.rs:964-1012 | under its locks an update is written exactly when it still applies to the row as it is, and otherwise ends with that row |
| `XaiHistory.AtMostOneCommitPerBasis` | crates/token_proxy_account_xai/src/store.rs:964-985 | with fresh responses one set of credentials is spent on at most one committed refresh |
| `XaiExchanges.ExchangeIsStaleIff` | crates/token_proxy_account_xai/src/store.rs:904-931 | every exchange in flight goes back to a load and a later permit; nobody commits a response for the account once the permit is taken, and with fresh responses the credentials sent have been replaced if and only if a response to them was committed between the load and the permit |
| `XaiExchanges.StaleExchangeIsHarmless` | crates/token_proxy_account_xai/src/store.rs:964-1012 | with fresh responses nothing comes of such a stale exchange in the store: neither a response nor a refusal for the credentials it sent is ever committed afterwards |
| `XaiOvertaken.StaleExchangeHappens` | crates/token_proxy_account_xai/src/store.rs:919-931 | it does happen: for every record that calls for a refresh and every response with other credentials, some run in which nothing fails ends with an exchange for replaced credentials |
| `XaiHistory.NoResurrection` | crates/token_proxy_account_xai/src/store.rs:340-405 | after a delete nothing that completes late brings the account back; only an import, login or restore can |
| `XaiHistory.CompletionsKeepSettings` | crates/token_proxy_account_xai/src/store.rs:964-1012 | however many completions arrive, the auto-refresh setting and the endpoint stay |
| `XaiHistory.QuotasStayUnique` | crates/token_proxy_account_xai/src/quota.rs:405-426 | unless an import or a restore brings one in, no stored quota list of any reachable state repeats a name, whatever is merged into it |
| `XaiFields.FoldIsFieldwise` | crates/token_proxy_account_xai/src/store.rs:964-1012 | any sequence of responses, refusals, settings, quota snapshots and re-imports, run one at a time on whole records, yields each field as its own operations alone would |
| `XaiFields.AccountRunIsFieldwise` | crates/token_proxy_account_xai/src/store.rs:341-406 | between any two moments of any run a surviving account is assembled field by field from the operations that own each field |
| `XaiSessions.SessionIsExclusive` | crates/token_proxy_account_xai/src/store.rs:47-67 | every operation committed since a session's snapshot is the session's own |
| `XaiSessions.RollbackGivesTheSnapshotBack` | crates/token_proxy_account_xai/src/store.rs:696-706 | a rollback ends with table and cache as at the snapshot |
| `XaiStore.XaiAccountStore.SaveRecordLocked` | crates/token_proxy_account_xai/src/store.rs:431-452 | a failed save leaves the row as it was and the entry dropped, never an old entry beside a new row |
| `XaiStore.XaiAccountStore.DeleteAccount` | crates/token_proxy_account_xai/src/store.rs:513-529 | drops the entry first; an absent row is an error |
| `XaiStore.XaiAccountStore.LoadAccount` | crates/token_proxy_account_xai/src/store.rs:661-672 | returns the row of the table, and none only if there is none or the reload failed |
| `XaiStore.XaiAccountStore.PersistTokenResponse` | crates/token_proxy_account_xai/src/store.rs:964-985 | merges the response into the record as it is now, field by field, or discards it when the credentials are others by now |
| `XaiStore.XaiAccountStore.MarkInvalidIfCredentialsMatch` | crates/token_proxy_account_xai/src/store.rs:987-1012 | performs the invalidation only while the credentials are those that were refused |
| `XaiStore.XaiAccountStore.SetAutoRefresh` | crates/token_proxy_account_xai/src/store.rs:394-406 | performs the settings update of an existing account |
| `XaiStore.XaiAccountStore.PersistQuotaCache` | crates/token_proxy_account_xai/src/store.rs:454-467 | merges the fetched windows into the quota as it is now |
| `XaiStore.XaiAccountStore.RecordQuotaHeaders` | crates/token_proxy_account_xai/src/store.rs:370-392 | stores header windows only for the current token and at most every 30 seconds |
| `XaiStore.XaiAccountStore.FindExistingAccount` | crates/token_proxy_account_xai/src/store.rs:1065-1086 | finds an account of the same subject or e-mail and reports none only if there is none |
| `XaiStore.XaiAccountStore.UniqueAccountId` | crates/token_proxy_account_xai/src/store.rs:1088-1102 | the first free of 10,000 names; it fails exactly when all are taken, hence never below 10,000 accounts |
| `XaiStore.XaiAccountStore.SaveNewAccount` | crates/token_proxy_account_xai/src/store.rs:481-511 | an import reuses a matching account and keeps its setting and quota, or creates a new one |
| `XaiStore.XaiAccountStore.RestoreAccountRecord` | crates/token_proxy_account_xai/src/store.rs:558-581 | table and cache take the restored record, or its absence, together |
| `XaiStore.XaiAccountStore.RestoreAllRecords` | crates/token_proxy_account_xai/src/store.rs:696-706 | table and cache become the snapshot, or stay |
| `XaiStore.WaitForTokenRefresh` | crates/token_proxy_account_xai/src/store.rs:1039-1063 | at most 700 looks; each outcome is tied to what the last look saw |
| `XaiStore.NamesOfTheSeries` | crates/token_proxy_account_xai/src/store.rs:1088-1102 | new accounts are named xai-part, then xai-part-2, xai-part-3 and so on, the suffix in digits |
| `LockTable.OneMutexPerAccount` | crates/token_proxy_account_xai/src/store.rs:1014-1026 | all live holders and waiters of an account share one mutex and accounts never share one, although entries are pruned and made again |
| `LockTable.SectionsExclude` | crates/token_proxy_account_xai/src/store.rs:1014-1026 | so locked sections of one account exclude each other |
| `LockTable.SectionLasts` | crates/token_proxy_account_xai/src/store.rs:964-972 | a locked section lasts until its own task ends it |
| `LockTable.GrantedIffFree` | crates/token_proxy_account_xai/src/store.rs:964-972 | a waiting task is let in exactly when no other task is in the section |
| `LockTable.ReleasedIsFree` | crates/token_proxy_account_xai/src/store.rs:1014-1026 | a task that drops out, inside or waiting, leaves every other task where it was |
| `LockTable.ObtainPrunes` | crates/token_proxy_account_xai/src/store.rs:1019 | after a lookup the table only names accounts somebody waits for or holds |
| `LockTable.AccountLocks.AccountMutationLock` | crates/token_proxy_account_xai/src/store.rs:1014-1026 | hands out the mutex everybody else of that account has |
| `XaiQuota.UpsertQuotaItem` | crates/token_proxy_account_xai/src/quota.rs:405-412 | replaces the first window of that name in place or appends |
| `XaiQuota.MergeQuotaCache` | crates/token_proxy_account_xai/src/quota.rs:414-426 | the loop computes the merge the laws below are about; plan and time of the incoming snapshot win where it has them, its error always |
| `XaiQuota.ObserveQuotaHeaders` | crates/token_proxy_account_xai/src/quota.rs:87-111 | requests and tokens each go to the window of their own name and to no other; plan, error and time are those of the response; no header, no change |
| `XaiQuota.MergeKeepsUnique` | crates/token_proxy_account_xai/src/quota.rs:414-419 | names stay unique |
| `XaiQuota.MergeIsOverride` | crates/token_proxy_account_xai/src/quota.rs:414-419 | merging is map override by name, the incoming side winning |
| `XaiQuota.MergeOrder` | crates/token_proxy_account_xai/src/quota.rs:405-412 | known windows keep their places, new ones follow in arrival order |
| `XaiQuota.MergeAssociative` | crates/token_proxy_account_xai/src/quota.rs:414-419 | merges may be grouped either way when the middle list repeats no name |
| `XaiQuota.AssociativeIffUnique` | crates/token_proxy_account_xai/src/quota.rs:405-419 | merges may be grouped either way around a list, whatever the other lists are, if and only if it repeats no name |
| `XaiQuota.BuiltListsAreUnique` | crates/token_proxy_account_xai/src/quota.rs:183-256 | a list built from nothing by upserts, as the fetched windows are, repeats no name |
| `XaiQuota.EmptyIsLeftUnit` | crates/token_proxy_account_xai/src/quota.rs:414-419 | merging into nothing returns the list exactly when it repeats no name |
| `XaiQuota.DisjointMergesLoseNothing` | crates/token_proxy_account_xai/src/quota.rs:414-419 | merges that name different windows keep all of each other's windows, in either order |
| `XaiQuota.CacheMergeAlgebra` | crates/token_proxy_account_xai/src/quota.rs:414-426 | whole snapshots: associative, the empty one is a left unit, and a right unit exactly where no error is kept |
| `XaiLogin.RunKeepsInv` | crates/token_proxy_account_xai/src/login.rs:40-51 | in every reachable state flags, prepared credential, background task and worker agree |
| `XaiLoginRuns.FinishedIsFinal` | crates/token_proxy_account_xai/src/login.rs:124-232 | Success and Error are final until the session is removed for good |
| `XaiLoginRuns.GoneForever` | crates/token_proxy_account_xai/src/login.rs:255-274 | a session that left the map never comes back |
| `XaiLoginRuns.PreparedStays` | crates/token_proxy_account_xai/src/login.rs:174-183 | a prepared credential stays, however often it is claimed and the claimer dropped, until complete or fail |
| `XaiLoginRuns.SaveIsGrantedOnce` | crates/token_proxy_account_xai/src/login.rs:358-372 | the save claim is granted at most once, to a waiting session, strictly before the deadline |
| `XaiLoginRuns.CancelIsFinal` | crates/token_proxy_account_xai/src/login.rs:255-274 | after a successful cancel the session never reappears, so nothing is ever prepared in it |
| `XaiLoginRuns.SavingWasGranted` | crates/token_proxy_account_xai/src/login.rs:358-372 | nothing is saved, prepared or committed without a claim granted before |
| `XaiLoginRuns.SuccessWasGrantedInTime` | crates/token_proxy_account_xai/src/login.rs:198-214 | a login succeeds only by committing the prepared credential, whose save was granted before the deadline |
| `XaiLoginAnswers.SuccessIsToldOnlyWhenCommitted` | crates/token_proxy_account_xai/src/login.rs:143-148 | over every run a poll is told of a success with an account only after a step that completed the commit of the credential prepared in that session with that account |
| `XaiLoginAnswers.FailureIsToldOnlyWhenFailed` | crates/token_proxy_account_xai/src/login.rs:128-141 | it is told of a failure only when the time is up, with the expiry message, or after the step that failed the session, with the message of that step |
| `XaiLoginAnswers.WaitingIsTold` | crates/token_proxy_account_xai/src/login.rs:124-157 | a poll is told to wait exactly while the session waits and is saved, committed or not yet due, and then changes nothing |
| `XaiLoginAnswers.PreparedIsTold` | crates/token_proxy_account_xai/src/login.rs:160-196 | a claim gets the credential exactly when one is prepared, and the claimer then commits that one |
| `XaiLoginAnswers.EndIsToldOnce` | crates/token_proxy_account_xai/src/login.rs:150-157 | once a poll was told the end, every later poll finds no session |
| `XaiLoginAnswers.CommitIsTold` | crates/token_proxy_account_xai/src/login.rs:198-214 | after a completed commit the first poll, unless the session was cleaned up, is told its account |
| `XaiLoginDevice.LoginSucceeds` | crates/token_proxy_account_xai/src/login.rs:276-347 | for every credential the provider may grant and every account it may become, a login can run from its start to the poll that is told of the success and the account |
| `XaiLoginDevice.SaveDecides` | crates/token_proxy_account_xai/src/login.rs:358-372 | an authorized task may save exactly when its session waits, nobody claimed the save and neither deadline has come; only time in its way is told as expiry |
| `XaiLoginDevice.CancelDecides` | crates/token_proxy_account_xai/src/login.rs:255-274 | a login can be cancelled exactly as long as no account of it is being saved |
| `XaiLoginManagers.XaiLoginManager.StartLogin` | crates/token_proxy_account_xai/src/login.rs:73-95 | opens a waiting session that expires within 1 to 1800 seconds |
| `XaiLoginManagers.XaiLoginManager.PollLogin` | crates/token_proxy_account_xai/src/login.rs:124-157 | tells phase, error and account of the session exactly, except that a session whose time is up with nobody saving or committing is told as failed with the expiry message; the final answer takes the session away |
| `XaiLoginManagers.XaiLoginManager.ClaimPreparedLogin` | crates/token_proxy_account_xai/src/login.rs:160-196 | hands out a copy of the prepared credential and keeps it; without one it tells the session as a poll does |
| `XaiLoginManagers.XaiLoginManager.CompleteLoginCommit` | crates/token_proxy_account_xai/src/login.rs:198-214 | ends the commit with Success |
| `XaiLoginManagers.XaiLoginManager.FailLoginCommit` | crates/token_proxy_account_xai/src/login.rs:216-232 | ends the commit with Error |
| `XaiLoginManagers.XaiLoginManager.CancelLogin` | crates/token_proxy_account_xai/src/login.rs:255-274 | refused exactly while the account is being saved; idempotent otherwise |
| `XaiLoginManagers.XaiLoginManager.ClaimAccountSave` | crates/token_proxy_account_xai/src/login.rs:358-372 | grants, finds inactive, or finds late, in that order of tests |
| `XaiLoginManagers.XaiLoginManager.PrepareSession` | crates/token_proxy_account_xai/src/login.rs:399-415 | stores the credential for the commit to come |
| `XaiLoginManagers.XaiLoginManager.SweepTerminalSession` | crates/token_proxy_account_xai/src/login.rs:435-450 | removes a finished session and no other |
| `XaiLoginManagers.RunDeviceLogin` | crates/token_proxy_account_xai/src/login.rs:276-347 | one request each time the loop comes round with the session waiting and the deadline ahead; the pauses are exactly those of the provider, at least 5 seconds and 5 more per slow_down, cut at the deadline, so with s slow_down replies polls are 5 + 5 s seconds apart (section 3.5 of RFC 8628) and there are at most ceil(expires/5), hence 360; the loop ends exactly where a look finds the session gone, the deadline come, or a final answer |
| `KiroInvariant.RunKeepsInv` | crates/token_proxy_account_kiro/src/store.rs:472-549 | in every reachable state gate, permits, sessions, table and cache agree |
| `KiroRuns.RefreshLandsOnItsCredentials` | crates/token_proxy_account_kiro/src/store.rs:525-542 | compare-and-swap: a committed refresh replaced exactly the credentials that were sent, by those that came back, and kept the quota |
| `KiroContents.CommittedRefreshShowsItsResult` | crates/token_proxy_account_kiro/src/store.rs:519-549 | every committed refresh was the answer to an exchange of the credentials it replaced, and the row after it is that answer with the quota of the row before, and its e-mail where it has one |
| `KiroContents.GetDecides` | crates/token_proxy_account_kiro/src/store.rs:438-451 | a record is served as it is exactly while it has not expired and nobody asked to refresh it |
| `KiroContents.ReloadDecides` | crates/token_proxy_account_kiro/src/store.rs:519-523 | with the permit the credentials are sent exactly when they are still those the refresh was started for |
| `KiroContents.FollowedDecides` | crates/token_proxy_account_kiro/src/store.rs:508-517 | a follower is served exactly when the credentials changed, or their times did and they have not expired |
| `KiroContents.CommitDecides` | crates/token_proxy_account_kiro/src/store.rs:525-542 | a result is written exactly when the credentials that were sent are still in place |
| `KiroContents.SaveDecides` | crates/token_proxy_account_kiro/src/store.rs:543-548 | a written refresh is served, unless it brought a token that has already run out |
| `KiroContents.ImportsLandRight` | crates/token_proxy_account_kiro/src/store.rs:330-359 | every import in the history of a run landed on an account of the same provider and e-mail, or without an e-mail of the same provider and profile, made a new account exactly when there was none, and kept the quota of the account it took over |
| `KiroRuns.AtMostOneCommitPerCredentials` | crates/token_proxy_account_kiro/src/store.rs:525-542 | with fresh responses one set of credentials is spent on at most one committed refresh |
| `KiroRuns.NeverSendsReplacedCredentials` | crates/token_proxy_account_kiro/src/store.rs:519-523 | no exchange in flight was sent for credentials an earlier refresh replaced |
| `KiroRuns.NoResurrection` | crates/token_proxy_account_kiro/src/store.rs:523-532 | a refresh that completes after a delete does not bring the account back |
| `KiroRuns.PermitIsUnique` | crates/token_proxy_account_kiro/src/store.rs:45-51 | the flag of an account stands for exactly one live permit |
| `KiroRuns.FollowerWaits` | crates/token_proxy_account_kiro/src/store.rs:494-507 | a follower's whole wait: it began with a deadline 35 seconds ahead that never moved since, and every look that let it wait on came before the deadline |
| `KiroRuns.SessionIsExclusive` | crates/token_proxy_account_kiro/src/store.rs:73-78 | every operation since a session's snapshot is the session's own |
| `KiroRuns.RollbackGivesTheSnapshotBack` | crates/token_proxy_account_kiro/src/store.rs:670-686 | a rollback ends with table and cache as at the snapshot |
| `KiroStore.KiroAccountStore.CommitRefresh` | crates/token_proxy_account_kiro/src/store.rs:525-549 | drops the result if the account is gone, keeps the record if the credentials changed, else stores the result with quota and known e-mail of the record |
| `KiroStore.KiroAccountStore.SaveRecordUnlocked` | crates/token_proxy_account_kiro/src/store.rs:277-298 | writes row and entry, or nothing |
| `KiroStore.KiroAccountStore.DeleteAccount` | crates/token_proxy_account_kiro/src/store.rs:362-369 | removes row and entry; an absent row is an error |
| `KiroStore.KiroAccountStore.RestoreAllRecords` | crates/token_proxy_account_kiro/src/store.rs:678-686 | table and cache become the snapshot, or stay |
| `KiroStore.KiroAccountStore.StartTokenRefresh` | crates/token_proxy_account_kiro/src/store.rs:482-493 | grants the permit exactly when nobody holds it |
| `KiroStore.WaitForPermit` | crates/token_proxy_account_kiro/src/store.rs:494-507 | at most 1751 looks, each but the last with the permit taken and the deadline ahead |
| `Records.AccountTable.UpsertRecord` | crates/token_proxy_account_store/src/records.rs:66-119 | the row shows the record column by column; the provider's view gets it and every other provider's view loses the id |
| `Records.AccountTable.DeleteRecord` | crates/token_proxy_account_store/src/records.rs:220-245 | deletes exactly the provider's own row; otherwise an error that changes nothing |
| `Records.AccountTable.DeleteRows` | crates/token_proxy_account_store/src/records.rs:248-272 | removes the named rows of any provider together, or none if a database call fails |
| `Records.AccountTable.ReplaceProviderSnapshot` | crates/token_proxy_account_store/src/records.rs:277-340 | all or nothing, each record in its row column by column; it succeeds exactly when no id repeats or belongs to another provider and no database call of the transaction fails |
| `Records.AccountTable.ReplaceSingleRecord` | crates/token_proxy_account_store/src/records.rs:343-439 | sets or removes one account, or changes nothing if a database call fails; removing an absent account is fine |
| `Records.RestoreGivesTheSnapshotBack` | crates/token_proxy_account_store/src/records.rs:277-340 | restoring a listing gives it back and leaves other providers alone; it fails exactly where another provider took an id |
| `Records.UpsertKeepsOthersIff` | crates/token_proxy_account_store/src/records.rs:85-103 | an upsert leaves the other providers alone exactly when none of them owns the id |
| `Records.UpsertMayTakeOver` | crates/token_proxy_account_store/src/records.rs:90-98 | the other case: an upsert takes over another provider's row, and that provider's restore then fails |
| `Migration.Database.MigrateProviderAccounts` | crates/token_proxy_account_store/src/database.rs:91-121 | every row is cleaned and the column gone, or nothing has changed; it succeeds exactly when every row can be cleaned and none of the calls it makes fails |
| `Migration.CleanKeepsEverythingElse` | crates/token_proxy_account_store/src/database.rs:244-253 | cleaning removes the three routing keys, keeps every key but the status, and leaves the status it had, trimmed, or active where it was missing or disabled |
| `Migration.CleanIsIdempotent` | crates/token_proxy_account_store/src/database.rs:255-257 | a cleaned record is left as it is |
| `Migration.MigrateTwice` | crates/token_proxy_account_store/src/database.rs:91-121 | after a migration that succeeded the next one rebuilds nothing, rewrites no row and changes nothing |

## Left out

- HTTP and OAuth clients, signing, sealed boxes and JWT decoding: answers of the endpoints and claims of tokens are arbitrary inputs.
- SQL text, connection pools and the write-ahead log: a database call is one atomic step that happens or fails; a dropped xAI save is dropped before or after its commit.
- File and directory discovery and the parsing of imports: imports start from parsed records whose identity is filled in.
- Time formats: instants are integer seconds (milliseconds in the wait loops, real seconds in the polling loop); text that does not parse as a time is kept as such, and two spellings of one instant count as equal.
- One clock stands for the wall clock and the monotonic clock.
- Unicode: trimming and lower-casing are those of ASCII.
- The 32-bit overflow of the numeric suffix in new Codex account names.
- Agent Identity task registration and recovery, which saves a whole earlier record; the field-wise theorems are about accounts that stay OAuth accounts.
- Dropping a Codex or Kiro save or delete, or any restore, between its table write and its cache write: these writes are taken as uninterrupted.
- CodexImport.HistoryKeepsIdentity: histories with restores, or with refreshes whose tokens name another user or workspace, are not covered, because these bring other identities.
- CodexGenerations.NeverSendsReplacedGeneration: assumes fresh responses and no Agent Identity record under the id.
- CodexResolve.ResolveServesTheAnswer: a resolve that finds the gate, the permit or a running failure cooldown in its way waits or is refused instead; what then happens is stated step by step in CodexDecisions.
- CodexReplies.RejectedTokenIsNeverServed: runs with a restore are not covered, because a restore replaces records without touching marks.
- CodexMarks.RefreshMarkPersists: asks that the account is an OAuth account whenever it is cached, as the code compares OAuth credentials only.
- XaiCache.LoadReturnsARowOfTheTable: says nothing about a load that runs wholly inside one half-done restore, where the cache still shows the rows before it.
- Threads that run at the same instant: apart from taking a refresh permit, a section without an `await` is one step.
- CodexMarks.RunKeepsMarks: takes the reload after a refused exchange and the mark it leads to as one step; an import on another thread in between may leave a refresh mark for the token before it, which no longer names the cached one and refuses nothing.
- XaiExchanges.ExchangeIsStaleIff: the condition for staleness assumes fresh responses; what the token endpoint makes of a replaced token is outside the model.
- XaiExchanges.StaleExchangeIsHarmless: assumes fresh responses, so that replaced credentials are not installed again.
- XaiHistory.AtMostOneCommitPerBasis: assumes fresh responses, which also shuts out a restore of old credentials.
- The retry with other connection settings inside one Codex usage request, and the windows built from its answer: an answer is any list of windows.
- The sets that keep quota refreshes and header writes of one account from running twice at a time: they only drop work.
- The import of several records, refresh-token lines and the refresh of an expired import record: a session imports one prepared record after another.
- The name a new Kiro account gets: any that is free.
- Kiro quota persistence and the deletion of accounts through the cross-provider facade, which write rows without the compare-and-merge of the stores.
- The Codex and Kiro login managers, whose sessions can return from Error to Waiting.
- The search and raw listing of rows, and the failure to decode a stored record.
- Tray, windows, user interface, routing, retries and protocol conversion.
