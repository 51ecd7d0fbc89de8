# Verified model of the account-access platform

A Dafny model of the parts of the platform whose correctness depends on several files at
once: the OAuth consent and refresh-token flow, payments handled concurrently, the
transactional outbox and its publisher, and the small stateful or textual components beside
them (rate limiters, circuit breaker, keyset pagination, money and scope text).

    dafny verify dfyconfig.toml

## How it is put together

| files | what they hold |
|---|---|
| `Basics`, `Ordering` | an option type; sorted enumeration of a finite set |
| `ScopeSets`, `Money` | scope and money values with their text forms |
| `ConsentMachine`, `PaymentMachine` | status tables, the mutable `Consent` and `Payment` objects, the shapes they keep, scope-grant rows, the access decision |
| `IdentityStore`, `IdentityUseCases` | the OAuth tables as values, and each use case as a function from tables to tables and a reply |
| `RefreshLedger`, `IdentityInvariants`, `IdentityRuns` | the invariant of each table, its preservation by each use case, and how rows may change along a run |
| `IdentityTheorems`, `IdentityOutcomes` | the main results about serial runs; and for each use case when it goes ahead, which refusal it gives, and the store it leaves, in terms of rows |
| `IdentityPlatform` | the same tables as one mutable object, with the repository operations and use cases written as the program performs them and proved equal to the functions |
| `IdentityRaces`, `IdentityRaceTheorems`, `IdentityRaceSingleUse`, `IdentityRaceSerial`, `IdentityRaceRuns` | the OAuth use cases cut at every database access: what every interleaving keeps, exactly when a stale transaction does harm, and when an interleaved run is a serial one |
| `PaymentRaces`, `PaymentTheorems`, `PaymentOutcomes`, `PaymentPlatform` | payment handlers cut at every database access, all interleavings of them, what survives; what each does to a row, text by text, and where every stored status came from; and the handlers over a mutable database |
| `OutboxPublisher`, `OutboxTheorems`, `OutboxPlatform` | publisher ticks cut at every database access and publish call, what holds over all schedules; and one tick as a loop |
| `RateLimiters`, `CircuitBreaker`, `Pagination` | the remaining components |

"Serial" below means one use case at a time, each with any request, any clock reading and a
transaction that may fail. "Interleaved" means any number of handlers, each stopping at every
database access.

Conventions. Generated ids come from a counter, so they are new; an interleaved handler takes
them in its transaction, before which nobody can see them. A hash is a free constructor:
injective, otherwise unknown. The S256 transform is an arbitrary function and a JWT arrives
already verified or refused. Clients and institutions do not change. Times are integers. A
transaction applies wholly or not at all: this is assumed of the database, and a flag of the
request or step says whether it let the transaction commit. An exception is a `Refused` reply, `None`, or a handler that stops.

## What the model shows about the code

- `save` checks no version, `OptimisticConcurrencyError` is never raised, and no transaction
  compares the rows it was computed from with the stored ones. If it did, every interleaving
  would be a serial run (`UnchangedRunIsSerial`). As it does not:
  - a transaction of any kind that works under a revoked consent makes it un-revoked or puts a
    live token under it, and no other transaction does (`RevokedConsentsKeptExactly`,
    `StaleCommitKeepsRevokedExactly`); it happens (`UndoneRevocationIsReachable`);
  - a refresh is answered for a used token exactly when the stored current hash is no longer the
    one that was read, and for a locked family exactly when the revocation columns are no longer
    those that were read (`DeadTokenAnsweredExactly`); no token is answered twice in a run if and
    only if every refresh finds the hash it read (`SingleUseExactly`), and from empty tables one
    is answered twice (`DoubleAnswerIsReachable`);
  - no request is granted twice and no code exchanged twice if and only if each grant finds the
    request, and each exchange the code, that it read (`SpentOnceExactly`); two codes and two live
    families under one consent are reached (`SecondCodeIsReachable`, `SecondFamilyIsReachable`);
  - a terminal consent or payment is overwritten exactly when a differing copy is committed over
    it (`TerminalConsentsKeptExactly`, `TerminalPaymentsKeptExactly`): SETTLED can go back to
    ACCEPTED (`StaleCommitUndoesSettlement`);
  - the event versions keep no gap exactly when the stored version is the saved one or the one
    before (`VersionsKeptExactly`, `CommitKeepsNoGapExactly`), which fails in reachable runs
    (`VersionGapIsReachable`, `StaleCommitLeavesGap`).
- The documents speak of a dead-letter topic and exponential backoff; the code sets the status
  DEAD_LETTER and grows the delay by 30 seconds per attempt. The code is followed.
- A row locked by a tick that died is never claimed again (`RowsOfADeadTickAreLost`).
- Expiring a consent leaves its tokens unrevoked (`ExpiryTouchesNoToken`), although nothing can
  be exchanged or refreshed under it any more (`TerminalConsentGrantsNothing`).
- The text of a transaction cursor never decodes to the row it was made from
  (`IssuedCursorNeverDecodes`): the separator is searched from the left and an ISO time contains
  one. Pagination itself is correct when the cursor is taken as the pair (`EveryRowOnce`).
- The two rate limiters agree exactly when no single call can cost more than a whole window
  (`LimitersAgreeExactly`).
- The payment status table permits statuses that would break the row's own consistency; the
  guards of the use cases are what excludes them (`TableAlonePermitsMore`).

## Model

| member | source | states |
|---|---|---|
| `IdentityTheorems.RefreshAcceptedExactly` | src/application/use-cases/identity/refresh-tokens.use-case.ts:32-78 | a refresh succeeds if and only if the client is registered, active and, when confidential, presents the secret whose hash is stored, and the token is the unused newest-generation row of an unrevoked, unexpired family of that client under an active consent |
| `IdentityTheorems.AuthenticatedExactly` | src/application/use-cases/identity/refresh-tokens.use-case.ts:33-46 | the client check passes if and only if the client is registered and active and, when confidential, the hash of the presented secret is the stored one |
| `IdentityTheorems.RefreshRefusedExactly` | src/application/use-cases/identity/refresh-tokens.use-case.ts:33-78 | which refusal is given, if and only if: the order revoked, expired, used, consent, in terms of the token's own row and not of the lookup |
| `IdentityTheorems.RotationHandsOver` | src/application/use-cases/identity/refresh-tokens.use-case.ts:80-154 | after a rotation the returned token is acceptable exactly until its 30 days are over, the presented one never, and a new unrevoked access token carries the returned scopes and expiry |
| `IdentityTheorems.AcceptanceRetires` | src/application/use-cases/identity/refresh-tokens.use-case.ts:80-154 | an accepted token was unused, of an unrevoked unexpired family under an active consent, and its row is used afterwards |
| `IdentityTheorems.EachTokenAcceptedOnce` | src/application/use-cases/identity/refresh-tokens.use-case.ts:48-78 | serial: over a whole run a refresh token is accepted at most once |
| `IdentityTheorems.ReusedTokenLocks` | src/application/use-cases/identity/refresh-tokens.use-case.ts:56-73 | presenting a used token of one's own family is answered by reuse detected or expired, and leaves the family dead, marked and revoked in the first case |
| `IdentityTheorems.ReuseLocksFamily` | src/application/use-cases/identity/refresh-tokens.use-case.ts:156-189 | serial: after an accepted token is presented again by its authenticated owner, no token of that family, old or newest, is ever accepted again |
| `IdentityTheorems.DeadForever` | src/domain/entities/index.ts:404-406 | a revoked or expired family stays so and is never refreshed in the rest of a run |
| `IdentityTheorems.ExpiryMovesOnlyByRotation` | src/infrastructure/persistence/prisma/token.repository.ts:237-273 | no use case but a successful refresh of the same family moves the expiry of a family |
| `IdentityTheorems.TerminalConsentGrantsNothing` | src/domain/policies/state-machines.ts:41-47 | serial: under a consent once terminal no code is exchanged and no family refreshed, and the consent never changes |
| `IdentityTheorems.RevokedConsentIsDead` | src/application/use-cases/consents/revoke-consent.use-case.ts:38-57 | serial: from a revocation on, every access token and family of the consent is revoked, the consent stays REVOKED and no access decision on it is allowed |
| `IdentityTheorems.ExpiryTouchesNoToken` | src/application/use-cases/consents/expire-consents.use-case.ts:31-47 | expiring consents leaves families, token rows, access tokens, codes and requests as they were |
| `IdentityTheorems.ExpiryBatchCompletes` | src/application/use-cases/consents/expire-consents.use-case.ts:17-56 | over any distinct due candidates the batch never throws half way, expires exactly those and reports them in order |
| `IdentityTheorems.OneCodePerConsent` | src/application/use-cases/consents/authorize-consent.use-case.ts:41-79 | serial: a consent is authorized at most once, so it yields at most one code |
| `IdentityTheorems.OneExchangePerConsent` | src/application/use-cases/identity/exchange-authorization-code.use-case.ts:53-93 | serial: at most one exchange succeeds per consent |
| `IdentityTheorems.OneFamilyPerConsent` | src/application/use-cases/identity/exchange-authorization-code.use-case.ts:144-161 | serial: at most one refresh-token family exists per consent |
| `IdentityTheorems.ExchangeHandsOver` | src/application/use-cases/identity/exchange-authorization-code.use-case.ts:95-160 | a successful exchange leaves the consent active and the code used; the refresh token it returns is acceptable exactly until its 30 days are over, and a new access token carries scopes, consent and expiry |
| `IdentityTheorems.ExchangeProvenance` | src/application/use-cases/identity/exchange-authorization-code.use-case.ts:53-93 | serial: each successful exchange goes back to one authorization by the consent's user and one earlier request by the same client, which proves itself, with the same redirect URI; the verifier is the requested challenge under "plain", and its S256 transform is the challenge under any other method; the scopes are granted times requested, non-empty and allowed to the client |
| `IdentityTheorems.TokenScopesBounded` | src/application/use-cases/consents/authorize-consent.use-case.ts:41-79 | serial: every access token and family has exactly the granted scopes of its consent, non-empty, requested, within the client's allowed scopes; every family has offline_access |
| `IdentityTheorems.OriginOfRequest` | src/application/use-cases/identity/create-authorization-request.use-case.ts:35-118 | every stored authorization request was made by one earlier request of a valid client, and its fields are that request's |
| `IdentityTheorems.OriginOfCode` | src/application/use-cases/consents/authorize-consent.use-case.ts:53-95 | every stored code was issued by one earlier authorization that found an open request |
| `IdentityTheorems.PlainConsentOnlyExpires` | src/application/use-cases/consents/create-consent.use-case.ts:21-58 | serial: a consent made without an authorization request never leaves AWAITING_AUTHORIZATION except by expiry |
| `IdentityTheorems.ConsentVersionsHaveNoGap` | src/infrastructure/persistence/prisma/unit-of-work.ts:24-54 | serial: at every point of a run the outbox holds, for each consent, exactly the versions 2 to the current one |
| `IdentityTheorems.StaleExchangeUndoesRevocation` | src/application/use-cases/identity/exchange-authorization-code.use-case.ts:86-161 | one stale transaction in full: a revocation that commits between the reads and the transaction of any successful exchange is undone, with a live access token under it; the exact condition for all kinds is in the next rows |
| `IdentityOutcomes.RefreshWrites` | src/application/use-cases/identity/refresh-tokens.use-case.ts:80-154 | the whole store and the reply of an accepted refresh, row by row: the presented row used, the family moved to the next generation for 30 days, its new row, the access token, the event |
| `IdentityOutcomes.RefusedRefreshWrites` | src/application/use-cases/identity/refresh-tokens.use-case.ts:156-189 | a refused refresh leaves the store as it was, unless it detects reuse: then it marks and revokes that family, with two events, and nothing else |
| `IdentityOutcomes.ExchangeAcceptedExactly` | src/application/use-cases/identity/exchange-authorization-code.use-case.ts:38-93 | an exchange succeeds if and only if the client proves itself, the code is stored, unused, unexpired, of that client and redirect URI, the verifier answers its challenge, and the consent is AUTHORIZED or ACTIVE |
| `IdentityOutcomes.ExchangeRefusedExactly` | src/application/use-cases/identity/exchange-authorization-code.use-case.ts:38-93 | otherwise the store is as it was and the reply is the first failing check |
| `IdentityOutcomes.ExchangeWrites` | src/application/use-cases/identity/exchange-authorization-code.use-case.ts:95-200 | the whole store and the reply of a successful exchange, row by row |
| `IdentityOutcomes.AuthorizeAcceptedExactly` | src/application/use-cases/consents/authorize-consent.use-case.ts:26-58 | an authorization succeeds if and only if the consent is the actor's and waits, has an unexpired open request, and the granted scopes meet the requested ones |
| `IdentityOutcomes.AuthorizeRefusedExactly` | src/application/use-cases/consents/authorize-consent.use-case.ts:26-58 | otherwise the store is as it was and the reply is the first failing check |
| `IdentityOutcomes.AuthorizeWrites` | src/application/use-cases/consents/authorize-consent.use-case.ts:53-95 | the whole store and the reply: exactly the accounts named, the scopes granted out of those requested, the request consumed, the code with its fields for 10 minutes |
| `IdentityOutcomes.OriginOfGrant` | src/domain/entities/index.ts:160-173 | serial: the accounts and scopes a consent carries in any state of a run are those of one earlier authorization by its user |
| `IdentityOutcomes.AccountAccessExactly` | src/domain/policies/access-policy.ts:26-93 | serial: access to an account is allowed under a consent if and only if the one authorization of that consent named the account and granted the scope, and token, institution, status and time agree |
| `IdentityOutcomes.UngrantedOpensNothing` | src/domain/policies/access-policy.ts:26-93 | serial: under a consent that no authorization granted, no access is allowed |
| `IdentityOutcomes.CreateRequestExactly` | src/application/use-cases/identity/create-authorization-request.use-case.ts:35-118 | when a request is accepted, which refusal it gets otherwise, and the whole store it leaves: a consent waiting for 90 days and an open request for 10 minutes |
| `IdentityOutcomes.CreateConsentExactly` | src/application/use-cases/consents/create-consent.use-case.ts:21-58 | the reply and the whole store of plain creation |
| `IdentityOutcomes.ActivateExactly` | src/application/use-cases/consents/activate-consent.use-case.ts:21-53 | activation goes ahead for the consent's user on an AUTHORIZED consent only; reply and whole store in every case |
| `IdentityOutcomes.RevokeConsentExactly` | src/application/use-cases/consents/revoke-consent.use-case.ts:23-57 | revocation goes ahead for the consent's user on an AUTHORIZED or ACTIVE consent only, and revokes exactly the families and access tokens under it that were live; reply and whole store in every case |
| `IdentityOutcomes.ExpireExactly` | src/application/use-cases/consents/expire-consents.use-case.ts:17-50 | over any candidates, due or not, repeated or not: the batch expires exactly the due ones, reports each once and leaves one event for each in that order |
| `IdentityOutcomes.RevokeTokenExactly` | src/application/use-cases/identity/revoke-token.use-case.ts:25-121 | a refresh token with a row in a family of the calling active client revokes exactly that family, a JWT that verifies for the caller exactly the access token of its jti, when the hint allows it; anything else is refused and changes nothing |
| `IdentityOutcomes.RevokedFamilyIsDead` | src/application/use-cases/identity/revoke-token.use-case.ts:34-66 | serial: after a token revocation no token of that family is live at any time, and none is refreshed in the rest of the run |
| `IdentityOutcomes.RevokedAccessIsDead` | src/application/use-cases/identity/revoke-token.use-case.ts:69-117 | serial: a revoked access token stays revoked |
| `IdentityRaceTheorems.InterleavedInv` | src/infrastructure/persistence/prisma/token.repository.ts:187-273 | interleaved: rows stay bound to each other, the current row of a family is its own and its only unused one, every answered token is used, and every handler is bound to stored rows |
| `IdentityRaceTheorems.RevokedConsentsKeptExactly` | src/infrastructure/persistence/prisma/consent.repository.ts:26-66 | interleaved, over every schedule and for every kind of transaction: all consents revoked with everything under them stay so, if and only if the one the transaction works under is not among them |
| `IdentityRaceTheorems.StaleCommitKeepsRevokedExactly` | src/application/use-cases/consents/revoke-consent.use-case.ts:38-57 | a transaction computed from one serial state and committed in a later one keeps every revoked consent dead if and only if the consent it works under is not REVOKED in the later one: activation, expiry, authorization, exchange and refresh |
| `IdentityRaceTheorems.RevocationInBetweenIsUndone` | src/application/use-cases/consents/activate-consent.use-case.ts:21-53 | any transaction that works under a consent undoes a revocation of it that commits first |
| `IdentityRaceTheorems.TerminalConsentsKeptExactly` | src/infrastructure/persistence/prisma/consent.repository.ts:26-66 | interleaved: terminal consents stay as they are if and only if the consent being saved is not terminal by then, or is stored as it is saved |
| `IdentityRaceTheorems.VersionsKeptExactly` | src/infrastructure/persistence/prisma/unit-of-work.ts:24-54 | interleaved, for every kind of transaction: the outbox keeps the consent versions without gap if and only if the stored version of the consent being saved is the saved one or the one before |
| `IdentityRaceTheorems.RotationKeepsInvExactly` | src/application/use-cases/identity/refresh-tokens.use-case.ts:74-135 | a rotation computed from an earlier read keeps all table invariants if and only if its family has not been rotated and its consent not revoked since |
| `IdentityRaceSingleUse.DeadTokenAnsweredExactly` | src/application/use-cases/identity/refresh-tokens.use-case.ts:48-102 | interleaved: a refresh about to commit answers a used token if and only if the stored current hash is not the one it read, and a token of a locked family if and only if the stored revocation columns are not those it read |
| `IdentityRaceSingleUse.GenerationTellsHash` | src/infrastructure/persistence/prisma/token.repository.ts:237-273 | between serial states, comparing generations says the same as comparing hashes |
| `IdentityRaceSingleUse.SecondAnswerIsStale` | src/application/use-cases/identity/refresh-tokens.use-case.ts:66-102 | interleaved: a token is answered a second time only over a changed hash |
| `IdentityRaceSingleUse.HashComparisonRestoresSingleUse` | src/application/use-cases/identity/refresh-tokens.use-case.ts:66-102 | interleaved: if every refresh finds the hash it read, no token is answered twice |
| `IdentityRaceSingleUse.SingleUseExactly` | src/application/use-cases/identity/refresh-tokens.use-case.ts:48-102 | over every schedule: no token is answered twice if and only if every refresh finds, when it commits, the current hash it read |
| `IdentityRaceSingleUse.SpentRowTakenExactly` | src/application/use-cases/identity/exchange-authorization-code.use-case.ts:53-161 | interleaved: an exchange redeems a used code, and a grant a consumed request, if and only if the stored row is not the one it read; it issues a further token and family, or code, under the consent all the same |
| `IdentityRaceSingleUse.SpentAreMarked` | src/infrastructure/persistence/prisma/token.repository.ts:117-123 | interleaved: a code is used, and a request consumed, if and only if a transaction of the schedule spent it |
| `IdentityRaceSingleUse.SpentOnceExactly` | src/application/use-cases/identity/exchange-authorization-code.use-case.ts:53-146 | over every schedule: no code is exchanged twice and no request granted twice if and only if every exchange finds the code and every grant the request that it read |
| `IdentityRaceSerial.CommitIsSerial` | src/infrastructure/persistence/prisma/unit-of-work.ts:24-54 | committing over unchanged rows is the serial use case, for each kind of transaction |
| `IdentityRaceSerial.UnchangedRunIsSerial` | src/infrastructure/persistence/prisma/unit-of-work.ts:24-54 | a schedule whose transactions all find the rows they were computed from leaves the tables of the serial run of their commands in commit order |
| `IdentityRaceSerial.UninterruptedIsSerial` | src/infrastructure/persistence/prisma/unit-of-work.ts:24-54 | a handler of any use case that runs without interruption, from any state, leaves the tables of the serial use case whether it goes ahead or is refused, and answers a token exactly when that refreshes |
| `IdentityRaceSerial.FailedTransactionEnds` | src/application/use-cases/consents/expire-consents.use-case.ts:22-50 | a transaction that throws ends its handler, for an expiry the whole batch, and leaves nothing |
| `IdentityRaceSerial.UninterruptedExpiryIsSerial` | src/application/use-cases/consents/expire-consents.use-case.ts:17-56 | the same for the expiry batch over distinct candidates |
| `IdentityRaceRuns.TwoReadersBothAnswered` | src/application/use-cases/identity/refresh-tokens.use-case.ts:48-102 | wherever a refresh would be accepted, two that read before either commits are both answered, and leave two rows of one generation |
| `IdentityRaceRuns.DoubleAnswerIsReachable` | src/application/use-cases/identity/refresh-tokens.use-case.ts:48-102 | a schedule from empty tables in which one token is answered twice |
| `IdentityRaceRuns.TwoGrantersBothServed` | src/application/use-cases/consents/authorize-consent.use-case.ts:41-79 | wherever a grant would be accepted, two that read before either commits leave two codes of one consent |
| `IdentityRaceRuns.SecondCodeIsReachable` | src/application/use-cases/consents/authorize-consent.use-case.ts:41-79 | a schedule from empty tables that ends with two codes of one consent |
| `IdentityRaceRuns.TwoExchangersBothServed` | src/application/use-cases/identity/exchange-authorization-code.use-case.ts:53-161 | wherever an exchange would hand out a refresh token, two that read before either commits leave two live families under one consent |
| `IdentityRaceRuns.SecondFamilyIsReachable` | src/application/use-cases/identity/exchange-authorization-code.use-case.ts:53-161 | a schedule from empty tables that ends with two live families under one consent |
| `IdentityRaceRuns.VersionGapIsReachable` | src/infrastructure/persistence/prisma/consent.repository.ts:26-66 | a schedule from empty tables whose last step takes a consent back below a version the outbox holds |
| `IdentityRaceRuns.LockedFamilyStillAnswered` | src/application/use-cases/identity/refresh-tokens.use-case.ts:156-189 | a refresh that read before its family was locked is answered all the same |
| `IdentityRaceRuns.UndoneRevocationIsReachable` | src/application/use-cases/consents/revoke-consent.use-case.ts:38-57 | a schedule from empty tables whose last step puts a live token under a consent revoked before |
| `IdentityRuns.ReachableInv` | src/infrastructure/persistence/prisma/token.repository.ts:19-295 | the invariant of every table holds in every state a serial run reaches, failed transactions included |
| `IdentityRuns.RunEvolves` | src/infrastructure/persistence/prisma/token.repository.ts:64-295 | along a run rows are only added, and change only forward: consumption, use and revocation are never undone, scopes and owners never change |
| `IdentityInvariants.StepKeepsInv` | src/infrastructure/persistence/prisma/unit-of-work.ts:24-54 | every use case keeps the invariants across the tables, whether its transaction commits or fails |
| `RefreshLedger.OneRowPerGeneration` | src/infrastructure/persistence/prisma/token.repository.ts:187-273 | the rows of a family are exactly one per generation 1 to g, and only row g is unused |
| `RefreshLedger.LookupIsScan` | src/infrastructure/persistence/prisma/token.repository.ts:221-235 | the lookup by current hash and then by row finds the same family as a scan of all rows |
| `RefreshLedger.RotateKeeps` | src/infrastructure/persistence/prisma/token.repository.ts:237-273 | rotating to a fresh hash keeps that ledger |
| `RefreshLedger.RotationKeepsLedgerExactly` | src/infrastructure/persistence/prisma/token.repository.ts:237-273 | a rotation computed from an earlier read keeps the ledger if and only if the family has not been rotated since; otherwise two rows share a generation |
| `RefreshLedger.SaveFamilyKeeps` | src/infrastructure/persistence/prisma/token.repository.ts:187-212 | so does saving a new family |
| `IdentityPlatform.Database.RefreshTokens` | src/application/use-cases/identity/refresh-tokens.use-case.ts:32-154 | the imperative use case changes the tables and replies exactly as the function the theorems speak of, and keeps the invariants |
| `IdentityPlatform.Database.RotateFor` | src/application/use-cases/identity/refresh-tokens.use-case.ts:80-135 | the same for its transaction |
| `IdentityPlatform.Database.Reuse` | src/application/use-cases/identity/refresh-tokens.use-case.ts:156-189 | the same for the reuse transaction |
| `IdentityPlatform.Database.ExchangeCode` | src/application/use-cases/identity/exchange-authorization-code.use-case.ts:35-216 | the same for the code exchange |
| `IdentityPlatform.Database.CheckExchange` | src/application/use-cases/identity/exchange-authorization-code.use-case.ts:38-93 | the same for its checks, in their order |
| `IdentityPlatform.Database.IssueFor` | src/application/use-cases/identity/exchange-authorization-code.use-case.ts:95-200 | the same for its transaction |
| `IdentityPlatform.Database.AuthorizeConsent` | src/application/use-cases/consents/authorize-consent.use-case.ts:26-112 | the same for the user's authorization |
| `IdentityPlatform.Database.CreateAuthorizationRequest` | src/application/use-cases/identity/create-authorization-request.use-case.ts:35-137 | the same for the client's request |
| `IdentityPlatform.Database.CreateConsent` | src/application/use-cases/consents/create-consent.use-case.ts:21-71 | the same for plain consent creation |
| `IdentityPlatform.Database.ActivateConsent` | src/application/use-cases/consents/activate-consent.use-case.ts:21-67 | the same for activation |
| `IdentityPlatform.Database.RevokeConsent` | src/application/use-cases/consents/revoke-consent.use-case.ts:23-71 | the same for consent revocation |
| `IdentityPlatform.Database.ExpireConsents` | src/application/use-cases/consents/expire-consents.use-case.ts:17-56 | the loop over the batch loaded before it equals the specification on the candidates before the first transaction that throws, or on all |
| `IdentityPlatform.Database.ExpireLoaded` | src/application/use-cases/consents/expire-consents.use-case.ts:22-50 | one turn of it: skipped, expired in a transaction of its own, or thrown |
| `IdentityPlatform.Database.RevokeToken` | src/application/use-cases/identity/revoke-token.use-case.ts:25-121 | the same for token revocation: families first, then access tokens, by hint |
| `IdentityPlatform.Database.StoreConsent` | src/infrastructure/persistence/prisma/consent.repository.ts:26-88 | storing a consent as row, scope rows and account rows is saving the consent, however stale the copy, as long as the columns never updated agree |
| `IdentityPlatform.Database.OpenRequestOf` | src/infrastructure/persistence/prisma/token.repository.ts:38-62 | any unconsumed request of the consent is the newest one |
| `IdentityPlatform.Database.FamilyOfHash` | src/infrastructure/persistence/prisma/token.repository.ts:221-235 | the two-stage lookup |
| `IdentityPlatform.Database.RotateRefreshToken` | src/infrastructure/persistence/prisma/token.repository.ts:237-273 | retire the row, move the family, insert the next row |
| `IdentityPlatform.Database.RevokeRefreshTokenFamiliesForConsent` | src/infrastructure/persistence/prisma/token.repository.ts:289-295 | exactly the live families of the consent are revoked |
| `IdentityPlatform.Database.RevokeAccessTokensOfConsent` | src/infrastructure/persistence/prisma/token.repository.ts:180-185 | exactly the live access tokens of the consent are revoked |
| `IdentityPlatform.StoredConsentRoundTrips` | src/infrastructure/persistence/prisma/mappers.ts:98-124 | loading a stored consent gives it back |
| `ConsentMachine.GrantRowsRoundTrip` | src/infrastructure/persistence/prisma/mappers.ts:220-234 | the scope rows give back requested and granted scopes if and only if the grant is none, or non-empty and within the request |
| `ConsentMachine.ConsentScopeGrantRows` | src/infrastructure/persistence/prisma/mappers.ts:220-234 | the loop computes one row per requested or granted scope, marked when granted |
| `ConsentMachine.TransitionsEvolve` | src/domain/entities/index.ts:153-196 | every transition method leaves no terminal status, raises the version by one, and keeps identity, request and consistency of the consent |
| `ConsentMachine.TableExactly` | src/domain/policies/state-machines.ts:13-47 | which status may follow which, if and only if, and that the terminal ones are those nothing follows |
| `ConsentMachine.TransitionsExactly` | src/domain/policies/state-machines.ts:13-47 | from which statuses each transition is allowed and every column it writes |
| `ConsentMachine.Consent.Authorize` | src/domain/entities/index.ts:160-173 | grants the intersection with the request, or throws and changes nothing |
| `ConsentMachine.Consent.SubmitForAuthorization` | src/domain/entities/index.ts:153-158 | one step of the status table, or throws and changes nothing |
| `ConsentMachine.Consent.Activate` | src/domain/entities/index.ts:175-181 | the same |
| `ConsentMachine.Consent.Revoke` | src/domain/entities/index.ts:183-189 | the same |
| `ConsentMachine.Consent.Expire` | src/domain/entities/index.ts:191-196 | the same |
| `ConsentMachine.AccessAllowedExactly` | src/domain/policies/access-policy.ts:26-93 | access is allowed if and only if consent, institution, scope, account, status and expiry all agree |
| `ConsentMachine.AccessDeniedExactly` | src/domain/policies/access-policy.ts:26-93 | which denial is given, if and only if: the first binding that fails |
| `ScopeSets.ParsePrinted` | src/domain/value-objects/index.ts:117-155 | parsing the printed form of a scope set gives the set back |
| `ScopeSets.PrintedIsCanonical` | src/domain/value-objects/index.ts:117-155 | two texts denote the same set exactly when they have the same words, and then print alike |
| `ScopeSets.WordsExactly` | src/domain/value-objects/index.ts:117-120 | the words of a text are exactly its maximal stretches without a space |
| `ScopeSets.SpacesExactly` | src/domain/value-objects/index.ts:117-120 | which characters separate words, by code |
| `ScopeSets.ParsedExactly` | src/domain/value-objects/index.ts:103-120 | a text is accepted if and only if its words consist of small letters, digits and the five marks, and then stands for exactly its words |
| `ScopeSets.ContainsAll` | src/domain/value-objects/index.ts:134-141 | the loop decides inclusion |
| `ScopeSets.ReduceTo` | src/domain/value-objects/index.ts:143-151 | the loop computes the intersection |
| `PaymentTheorems.ReachableInv` | src/application/use-cases/payments/create-payment.use-case.ts:41-109 | interleaved: the invariants of rows, keys, receipts, handlers, answers and events hold after every schedule |
| `PaymentTheorems.OnePaymentPerKey` | src/application/use-cases/payments/create-payment.use-case.ts:41-109 | interleaved: at most one payment per client and idempotency key, and every answer for the pair carries its id, whichever of the three ways it took |
| `PaymentTheorems.CreatorAnswersItsKey` | src/application/use-cases/payments/create-payment.use-case.ts:41-122 | interleaved: a creator answers only for its own client and key, with a payment that then exists |
| `PaymentTheorems.CallbackCommitsOnce` | src/application/use-cases/payments/process-provider-callback.use-case.ts:43-134 | interleaved: for each provider event at most one handler commits, its two events are both there, stand together and occur once, every receipt is processed, and the branch for an existing receipt is never reached |
| `PaymentTheorems.RowsAlwaysConsistent` | src/domain/entities/index.ts:343-387 | interleaved: provider id, timestamps, status and version of every stored row agree; never CREATED, version 2 to 6 |
| `PaymentTheorems.RowChangesExactly` | src/infrastructure/persistence/prisma/payment.repository.ts:45-85 | interleaved: a stored row changes if and only if a handler commits a differing copy over it |
| `PaymentTheorems.TerminalPaymentsKeptExactly` | src/infrastructure/persistence/prisma/payment.repository.ts:45-85 | interleaved: a step leaves terminal payments as they are if and only if the row it commits over is not terminal by then, or is stored as it is saved |
| `PaymentTheorems.StaleCommitUndoesSettlement` | src/infrastructure/payments/payment-reconciliation.service.ts:46-85 | a run of two reconciliations in which a settled payment goes back to accepted |
| `PaymentTheorems.SerialHandlerIsCurrent` | src/infrastructure/persistence/prisma/payment.repository.ts:45-85 | a handler that commits right after its read commits over the row it read |
| `PaymentTheorems.SerialIsCurrent` | src/infrastructure/persistence/prisma/payment.repository.ts:45-85 | in every schedule that runs one handler at a time, every commit is over the row that was read |
| `PaymentTheorems.SerialRunHasNoGap` | src/infrastructure/persistence/prisma/unit-of-work.ts:24-54 | serial: the outbox holds for each payment exactly the versions 2 to the current one |
| `PaymentTheorems.SerialRunAbsorbsTerminal` | src/domain/policies/state-machines.ts:104-111 | serial: a terminal payment never changes again |
| `PaymentTheorems.CurrentRunHasNoGap` | src/infrastructure/persistence/prisma/unit-of-work.ts:24-54 | the same versions for every interleaving whose commits are all over the rows that were read |
| `PaymentTheorems.CurrentRunAbsorbsTerminal` | src/domain/policies/state-machines.ts:104-111 | and the same for terminal payments |
| `PaymentTheorems.CommitKeepsNoGapExactly` | src/infrastructure/persistence/prisma/payment.repository.ts:45-85 | interleaved, for every step: the outbox keeps the payment versions without gap if and only if the stored version of the row committed over is the copy's or the one before |
| `PaymentTheorems.StaleCommitLeavesGap` | src/application/use-cases/payments/cancel-payment.use-case.ts:27-68 | a run in which a late cancellation takes a submitted payment back below the versions already in the outbox |
| `PaymentOutcomes.CallbackDecides` | src/application/use-cases/payments/process-provider-callback.use-case.ts:43-134 | a new provider event about a stored payment: "completed" and "settled" settle it, "failed" and "cancelled" fail it, "rejected" rejects it, "processing" and "accepted" accept it, "pending" (or no text) asks for SUBMITTED; exactly when its status allows it, with receipt and both events; otherwise receipt alone, or nothing |
| `PaymentOutcomes.ReconciliationDecides` | src/infrastructure/payments/payment-reconciliation.service.ts:46-98 | the same texts for a reconciliation: a submitted payment takes a status if and only if the text says it; "pending", unknown texts and other statuses change nothing |
| `PaymentOutcomes.StatusWasAsked` | src/domain/policies/state-machines.ts:122-131 | interleaved, over every schedule: each stored payment's order is that of a creation, and its status was asked for by a handler of the schedule: authorized by its own user, submitted with its provider id, accepted, settled, rejected or failed by a callback or reconciliation whose text says so, with that reason |
| `PaymentOutcomes.ChangeExactly` | src/application/use-cases/payments/submit-payment.use-case.ts:27-61 | when authorizing, submitting, cancelling and reconciling go ahead, and every column they write |
| `PaymentOutcomes.EventExactly` | src/application/use-cases/payments/authorize-payment.use-case.ts:26-62 | the type of event each of them leaves |
| `PaymentOutcomes.OnlyCommitsWrite` | src/infrastructure/persistence/prisma/unit-of-work.ts:24-54 | interleaved: tables are written and callbacks counted only by a transaction that commits |
| `PaymentOutcomes.ChangeRunsExactly` | src/application/use-cases/payments/cancel-payment.use-case.ts:27-68 | each of them run without interruption leaves one changed row and one event, or nothing |
| `PaymentOutcomes.IdleCallback` | src/application/use-cases/payments/process-provider-callback.use-case.ts:43-63 | an event that was handled before, or that no payment matches, changes nothing |
| `PaymentOutcomes.CreationExactly` | src/application/use-cases/payments/create-payment.use-case.ts:41-97 | creation without interruption: the holder of the key is answered and nothing stored, or a waiting payment with the order as given is stored with its event and answered |
| `PaymentOutcomes.LoserAnswersWinner` | src/application/use-cases/payments/create-payment.use-case.ts:97-109 | interleaved: a creator whose key was taken while it ran answers with the payment that took it and stores nothing |
| `PaymentOutcomes.FailedCreatorAnswersNothing` | src/application/use-cases/payments/create-payment.use-case.ts:97-109 | interleaved: one whose transaction fails with the key still free stores and answers nothing |
| `PaymentMachine.ChangesKeepShape` | src/domain/entities/index.ts:343-387 | every change a use case makes keeps a row consistent and moves its version by one |
| `PaymentMachine.TransitionsExactly` | src/domain/entities/index.ts:343-387 | from which status each transition is allowed and every column it writes |
| `PaymentMachine.ProviderTransitionExactly` | src/domain/policies/state-machines.ts:77-91 | a payment with the provider moves on from SUBMITTED, and from ACCEPTED to an end, and nowhere else |
| `PaymentMachine.TableAlonePermitsMore` | src/domain/policies/state-machines.ts:65-96 | any open payment without a provider id has a permitted transition that would break it |
| `PaymentMachine.CancellableIsTable` | src/domain/policies/state-machines.ts:104-119 | the cancellable statuses are exactly those the table lets be cancelled, the terminal ones exactly those it lets nowhere |
| `PaymentMachine.Payment.RequestAuthorization` | src/domain/entities/index.ts:343-348 | one step of the status table, or throws and changes nothing |
| `PaymentMachine.Payment.Authorize` | src/domain/entities/index.ts:350-356 | the same |
| `PaymentMachine.Payment.Submit` | src/domain/entities/index.ts:358-365 | the same |
| `PaymentMachine.Payment.ApplyProviderStatus` | src/domain/entities/index.ts:367-376 | the same |
| `PaymentMachine.Payment.Cancel` | src/domain/entities/index.ts:378-387 | the same |
| `PaymentPlatform.PaymentDatabase.CreateLookup` | src/application/use-cases/payments/create-payment.use-case.ts:41-74 | this stretch of the handler, on the mutable database, is the step of the race model |
| `PaymentPlatform.PaymentDatabase.CreateCommit` | src/application/use-cases/payments/create-payment.use-case.ts:76-97 | the same |
| `PaymentPlatform.PaymentDatabase.CreateRaced` | src/application/use-cases/payments/create-payment.use-case.ts:97-109 | the same |
| `PaymentPlatform.PaymentDatabase.ChangeRead` | src/application/use-cases/payments/submit-payment.use-case.ts:27-61 | the same, for submitting, authorizing, cancelling and reconciling |
| `PaymentPlatform.PaymentDatabase.ChangeCommit` | src/application/use-cases/payments/submit-payment.use-case.ts:63-80 | the same: row and event commit together or neither |
| `PaymentPlatform.PaymentDatabase.CallbackReceipt` | src/application/use-cases/payments/process-provider-callback.use-case.ts:43-53 | the same |
| `PaymentPlatform.PaymentDatabase.CallbackRead` | src/application/use-cases/payments/process-provider-callback.use-case.ts:55-82 | the same |
| `PaymentPlatform.PaymentDatabase.CallbackCommit` | src/application/use-cases/payments/process-provider-callback.use-case.ts:85-134 | the same: receipt, row and both events commit together or none does |
| `PaymentPlatform.PaymentDatabase.ReconcilePending` | src/infrastructure/payments/payment-reconciliation.service.ts:34-44 | the batch loop computes the specified tables, and its count of updates is the number of events it added |
| `PaymentPlatform.PaymentDatabase.ReconcilePayment` | src/infrastructure/payments/payment-reconciliation.service.ts:46-98 | one payment: changed with one event, or left alone when nothing differs or something throws |
| `PaymentPlatform.ReconciliationIsSchedule` | src/infrastructure/payments/payment-reconciliation.service.ts:34-98 | an undisturbed batch is a schedule of the race model |
| `PaymentPlatform.ReconciledExactly` | src/infrastructure/payments/payment-reconciliation.service.ts:46-98 | what one check of the batch does to its payment, text by text |
| `PaymentPlatform.PaymentDatabase.SavePayment` | src/infrastructure/persistence/prisma/payment.repository.ts:45-85 | the upsert overwrites the mutable columns only |
| `PaymentPlatform.PaymentDatabase.CreateReceipt` | src/infrastructure/persistence/prisma/provider-callback.repository.ts:37-50 | inserting fails exactly when the provider event has a receipt |
| `PaymentPlatform.PaymentDatabase.FindByProviderPaymentId` | src/infrastructure/persistence/prisma/payment.repository.ts:17-22 | some payment with the provider id, of whatever provider, or none if there is none |
| `OutboxPublisher.ReachableInv` | src/infrastructure/messaging/kafka/outbox.publisher.service.ts:32-117 | the invariant of rows, claims and ticks holds after every schedule of workers, overlapping ticks, throws and crashes |
| `OutboxTheorems.NoRowHeldTwice` | src/infrastructure/messaging/kafka/outbox.publisher.service.ts:66-95 | no row is held by two claims at once, and a held row is locked |
| `OutboxTheorems.StatusFitsAttempts` | src/infrastructure/messaging/kafka/outbox.publisher.service.ts:97-117 | attempts count the claims; PENDING means at most 9, DEAD_LETTER exactly 10, PUBLISHED that a publish call returned; FAILED never occurs |
| `OutboxTheorems.FinalStatuses` | src/infrastructure/messaging/kafka/outbox.publisher.service.ts:40-61 | PUBLISHED and DEAD_LETTER rows never change again, whatever runs afterwards |
| `OutboxTheorems.RowsOfADeadTickAreLost` | src/infrastructure/messaging/kafka/outbox.publisher.service.ts:66-95 | every row a tick holds when it dies stays PUBLISHING forever |
| `OutboxTheorems.ClaimsBounded` | src/infrastructure/messaging/kafka/outbox.publisher.service.ts:66-117 | any n rows are claimed at most 10 n times in all |
| `OutboxTheorems.BackoffBound` | src/infrastructure/messaging/kafka/outbox.publisher.service.ts:103-116 | the k-th claim of a row comes at least 15 k (k - 1) seconds after its first, so dead-lettering takes at least 1350 seconds |
| `OutboxTheorems.RetryIsDueBy` | src/infrastructure/messaging/kafka/outbox.publisher.service.ts:103-116 | and from above: a row put back after its k-th claim is due between 30 k seconds after that claim and 30 k seconds from now |
| `OutboxTheorems.FailureExactly` | src/infrastructure/messaging/kafka/outbox.publisher.service.ts:97-117 | over every schedule: recording a failure dead-letters the row at its tenth attempt, else puts it back, unlocked, with the message and a delay of 30 seconds per attempt |
| `OutboxTheorems.EnqueueExactly` | src/infrastructure/persistence/prisma/unit-of-work.ts:24-54 | a new event's row is PENDING, unclaimed and due from its timestamp on |
| `OutboxTheorems.DeliveryExactly` | src/infrastructure/messaging/kafka/outbox.publisher.service.ts:40-53 | a row whose publish and update return is PUBLISHED and unlocked |
| `OutboxTheorems.ClaimExactly` | src/infrastructure/messaging/kafka/outbox.publisher.service.ts:66-95 | a batch can be claimed if and only if it has 1 to 50 different rows, PENDING and due, and what it becomes |
| `OutboxPlatform.OutboxDatabase.PublishPendingBatch` | src/infrastructure/messaging/kafka/outbox.publisher.service.ts:32-64 | the loop over a claimed batch is a schedule of the state machine; it settles every row or throws, delivers exactly the rows whose publish and update succeed, and counts them |
| `OutboxPlatform.OutboxDatabase.ClaimPendingEvents` | src/infrastructure/messaging/kafka/outbox.publisher.service.ts:66-95 | exactly the selected rows are locked and counted |
| `OutboxPlatform.OutboxDatabase.MarkFailed` | src/infrastructure/messaging/kafka/outbox.publisher.service.ts:97-117 | the row goes back with its delay or is dead-lettered, unless a database call throws |
| `OutboxPlatform.RowSteps` | src/infrastructure/messaging/kafka/outbox.publisher.service.ts:40-61 | the steps of one row, for each combination of throws, add up to one settled row or the end of the tick |
| `RateLimiters.LimitersAgreeExactly` | src/infrastructure/rate-limiting/redis-rate-limiter.ts:13-47 | both limiters give the same answers on every monotone call sequence with costs up to a bound if and only if the bound fits a window, or windows last one millisecond |
| `RateLimiters.RefusedCallOpensWindow` | src/infrastructure/rate-limiting/memory-rate-limiter.ts:39-47 | two calls on which they differ when a call costs too much |
| `RateLimiters.RedisIgnoresOversized` | src/infrastructure/rate-limiting/redis-rate-limiter.ts:13-47 | for any costs, the Redis limiter answers a call as the one in memory would if no earlier call had cost more than a whole window |
| `RateLimiters.WindowBound` | src/infrastructure/rate-limiting/memory-rate-limiter.ts:27-57 | the counter is the cost accepted in the open window, never above the maximum |
| `RateLimiters.AnswerSaysHowMuch` | src/infrastructure/rate-limiting/memory-rate-limiter.ts:27-57 | a call is allowed if and only if its cost fits what the current window has left; remaining, reset and retry times say exactly what is left and for how long |
| `RateLimiters.RateBound` | src/infrastructure/rate-limiting/memory-rate-limiter.ts:27-57 | over any half-open stretch of one window's length at most twice the maximum is accepted |
| `RateLimiters.RateBoundIsTight` | src/infrastructure/rate-limiting/memory-rate-limiter.ts:27-57 | and twice the maximum does occur |
| `RateLimiters.RedisRateBound` | src/infrastructure/rate-limiting/redis-rate-limiter.ts:13-47 | the same bound for the Redis limiter |
| `RateLimiters.MemoryRateLimiter.Consume` | src/infrastructure/rate-limiting/memory-rate-limiter.ts:27-57 | the method updates bucket and answers as specified |
| `RateLimiters.RedisRateLimiter.Consume` | src/infrastructure/rate-limiting/redis-rate-limiter.ts:13-47 | the script updates the entry and answers as specified |
| `CircuitBreakers.NoStartBeforeTimeout` | src/infrastructure/resilience/circuit-breaker.ts:29-94 | with any overlap of operations, after a trip and until reset from outside nothing starts before the timeout is over |
| `CircuitBreakers.AdmittedExactly` | src/infrastructure/resilience/circuit-breaker.ts:53-62 | a call is let in if and only if the breaker has no opening time or its timeout has passed |
| `CircuitBreakers.LateFailureReopens` | src/infrastructure/resilience/circuit-breaker.ts:77-94 | a late failure can trip an open breaker again and postpone the next start |
| `CircuitBreakers.LateFailureReopensExactly` | src/infrastructure/resilience/circuit-breaker.ts:77-94 | an open breaker is opened anew by a late failure if and only if it completes the threshold since the trip |
| `CircuitBreakers.TripLastsExactly` | src/infrastructure/resilience/circuit-breaker.ts:53-94 | a failure that opens a breaker keeps calls out for exactly the timeout |
| `CircuitBreakers.OneSuccessCloses` | src/infrastructure/resilience/circuit-breaker.ts:64-75 | without a success threshold one success while half open closes the breaker |
| `CircuitBreakers.CountersBelowExactly` | src/infrastructure/resilience/circuit-breaker.ts:64-94 | both counters stay below their thresholds over every run if and only if the thresholds are at least 1 |
| `CircuitBreakers.HalfOpenDecidesExactly` | src/infrastructure/resilience/circuit-breaker.ts:64-81 | half open, a failure opens the breaker and a success closes it if and only if it completes the required number since half opening |
| `CircuitBreakers.ClosedCountsTrailingFailures` | src/infrastructure/resilience/circuit-breaker.ts:64-87 | while closed the count is the trailing run of failed outcomes, overlapping or not |
| `CircuitBreakers.ClosedTripsExactly` | src/infrastructure/resilience/circuit-breaker.ts:77-87 | a failure while closed opens the breaker if and only if that run reaches the threshold |
| `CircuitBreakers.CircuitBreaker.Begin` | src/infrastructure/resilience/circuit-breaker.ts:29-34 | the object takes the modelled step |
| `CircuitBreakers.CircuitBreaker.OnSuccess` | src/infrastructure/resilience/circuit-breaker.ts:64-75 | the same |
| `CircuitBreakers.CircuitBreaker.OnFailure` | src/infrastructure/resilience/circuit-breaker.ts:77-87 | the same |
| `CircuitBreakers.CircuitBreaker.GetState` | src/infrastructure/resilience/circuit-breaker.ts:24-27 | the same |
| `CircuitBreakers.CircuitBreaker.Reset` | src/infrastructure/resilience/circuit-breaker.ts:46-51 | back to the initial state |
| `Pagination.EveryRowOnce` | src/infrastructure/persistence/prisma/account.repository.ts:72-110 | over fixed rows, following the cursors lists every row exactly once, newest first, in max(1, ceil(n / limit)) pages, all full but the last |
| `Pagination.LastingRowsOnce` | src/infrastructure/persistence/prisma/account.repository.ts:72-110 | when rows come and go between requests, nothing is listed twice and every row that was there all along is listed once the listing ends |
| `Pagination.CursorContinues` | src/infrastructure/persistence/prisma/account.repository.ts:77-100 | the query from a page's cursor finds exactly what the page left over |
| `Pagination.CursorRoundTripsExactly` | src/infrastructure/persistence/prisma/account.repository.ts:16-35 | decoding a cursor text gives the pair back if and only if the date text has no colon and nothing is empty |
| `Pagination.DecodesExactly` | src/infrastructure/persistence/prisma/account.repository.ts:20-35 | which cursor texts decode, if and only if, and to which pair |
| `Pagination.IssuedCursorNeverDecodes` | src/infrastructure/persistence/prisma/account.repository.ts:16-35 | so a cursor with an ISO time never does |
| `Moneys.PrintThenRead` | src/domain/value-objects/index.ts:46-78 | reading a printed amount gives it back, for every currency and amount up to 2^53 - 1; beyond it the program's numbers are not exact |
| `Moneys.ReadThenPrintExactly` | src/domain/value-objects/index.ts:46-78 | an accepted text in that range is printed back as itself if and only if it is canonical: no sign, no leading zero, exactly the currency's places |
| `Moneys.CanonicalIsUnique` | src/domain/value-objects/index.ts:46-78 | in that range equal amounts have one canonical text |
| `Moneys.AcceptedExactly` | src/domain/value-objects/index.ts:46-67 | which texts are accepted, if and only if, and that the amount read is exactly the number the digits spell; for texts that spell at most 2^53 - 1 minor units, beyond which the text is not read exactly |
| `Moneys.AmountExactly` | src/domain/value-objects/index.ts:51-60 | the pattern accepts exactly an optional minus, digits, and perhaps a dot and more digits, and splits the text into those parts |
| `Moneys.DigitsExactly` | src/domain/value-objects/index.ts:60-64 | each digit counts what it says |
| `Moneys.PlacesExactly` | src/domain/value-objects/index.ts:5-18 | which currencies are supported, and with how many places |
| `Moneys.PrintedIsCanonical` | src/domain/value-objects/index.ts:69-78 | what is printed of an amount up to 2^53 - 1 is canonical and spells the amount |

## Left out

- HTTP controllers, validation of DTOs, modules, filters, metrics, logging, tracing, health checks and deployment: plumbing.
- JWT signing and verification, SHA-256, scrypt, HMAC and key handling: uninterpreted, as described above; the JWT helper services are not part of this model.
- Audit records: written after the commit and outside the transaction.
- Introspection: it reports a rotated-out refresh token as active, so it says nothing about acceptance.
- Provider adapters: a provider is any source of ids, statuses and event ids; a webhook that fails verification stops before the model begins.
- Kafka and Prisma clients: publishing returns or throws, tables are maps with the unique keys of the schema. With Kafka disabled `publish` returns, so PUBLISHED means only that the call returned.
- Eventual publication and eventual reconciliation: false of the code, so not claimed. The selection of the oldest submitted payments is a given list of candidates.
- Money beyond 2^53 - 1 minor units: the program rounds or refuses there; the model's functions do not follow it, and every result is stated up to that bound.
- Access and amount checks before a payment is created, and client and consent checks before one is submitted or cancelled: the model lets more requests through than the code, and its results hold for all of them.
- PaymentPlatform.PaymentDatabase.ChangeRead: lookup of the provider status treats a status named like an inherited object property as unknown, because the table is modelled as the entries it lists.
- IdentityPlatform.Database.ExpireConsents: the query's order and batch size are a given list of distinct stored candidates.
- OutboxPlatform.OutboxDatabase.PublishPendingBatch: the query's order by creation time is not modelled, because rows locked elsewhere are skipped; any due batch is allowed.
- RateLimiters.RedisRateLimiter.Consume: the stored text of window start and count is taken as the pair; number formatting in Lua is not modelled.
- IdentityTheorems.RotationHandsOver: the program reads the clock twice during a rotation; the model reads it once.
- Retry helper, redaction, the production guard, account and balance mapping, money addition and subtraction: easy members.
