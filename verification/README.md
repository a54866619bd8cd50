# AgentPay Sentinel: a verified model

AgentPay Sentinel is a gateway that decides whether an AI agent's payment may happen and then
makes it happen at most once. This project models the parts of it whose correctness is not
visible in any one function, and proves what the repository promises about them. It is a set of
Dafny modules; `dafny verify dfyconfig.toml` checks all of it.

## What is modelled

**The payment protocol** (`Lifecycle`, `Canonical`, `Provider`, `Protocol`, `Invariant`, `Safety`,
`Charging`, `Spending`, `AuditTrail`, `AuditOnce`, `Sections`, `Fences`, `Grants`, `Replies`, `Provenance`,
`Answers`, `Retries`, `Stranded`, `Refusals`). Any number of requests,
reconciliation sweeps and expiry sweeps interleave. Each database session, each store call and each
message to or from the provider is one atomic step; a request's program counter says which comes
next, in the order of `create_payment_intent` and `_run_pipeline`. A step that is not enabled leaves
the state alone, so a run is any sequence of steps and a reachable state is the end of any run.
Exceptions can strike at every await; time passes only in `Tick` steps. Two kinds of fields are
auxiliary and not in the source: a row's `history`, and the number of `posts` of a payment.

**The payment service as an object** (`Payments`, `Refinement`, `SweepRuns`). The same rows, transition table and
provider, with methods that update the table in place: `set_state`, `submit`, and the two sweeps as
loops. One call of `submit`, of reconciliation or of expiry is proved to be a run of the protocol.

**The store and the locks** (`TimedStore`, `Locks`). `MemoryStore` as a class, against a map of timed
entries that never forgets; leased locks as a state machine over any number of processes.

**The audit log** (`AuditChain`, `AuditWriters`, `Checkpoint`). The hash is a function parameter.
`verify_chain` is a loop over the stored rows; concurrent appenders are a state machine; the anchor
store is a class.

**Algorithms**: the sliding window of `similarity.py` and its caller (`Similarity`), the edge
rate limiter (`RateLimit`), the classifier's circuit breaker (`Breaker`), the stage events and the
browser's fold (`Pipeline`), the event relay and the two together (`Relay`), minor units (`Money`), approval binding
(`Approvals`), detector confidence (`Confidence`). `Options` and `Sums` are helpers.

## What is assumed

These are facts about the environment that the code relies on. Where one of them can be dropped, a
lemma says exactly what happens without it.

- `Environment` names seven facts, each of which may hold or not. The numeric settings are any positive
  numbers (any at all for the two that may be zero). Every result says exactly which facts it needs:
  - at most one POST per key: none of them;
  - a charged payment is never written off, and spend-to-date covers what was charged: no POST arrives
    after the client gave up on it (`Charging.NeverWrittenOffIff`, `Spending.SpendCoversIff`);
  - CONFIRMED means charged: a hanging provider hangs longer than the client waits
    (`Charging.NeverInventedIff`);
  - one request at a time inside the section of a fingerprint: the fingerprint lock holds
    (`Grants.SectionsExcludeIff`);
  - one grant per fingerprint: moreover no exception ends a granted section, the duplicate checks come within
    one window of arrival, and the token does not run out under a section (`Grants.GrantsUniqueIff`). The
    lock holds if its own lease outlasts the section, or the idempotency
    lock's does and is no longer, or the lease is nearly two windows long; the token lasts if one of
    these three is no longer than its lifetime. With the shipped settings this comes down to the first
    two facts and either lease (`Grants.ShippedProtects`). One grant for the same money also needs that
    amounts are written in one way only (`Grants.PaymentsUniqueIff`);
  - what a client is told is true of its row, FAILED means never charged, and a replay is as true as what it
    repeats: none of them (`Replies.AnswersAreTrue`, `Replies.ToldFailedNeverCharged`,
    `Provenance.ReplaysAreTrue`);
  - CONFIRMED in an answer means charged: a hanging provider hangs longer than the client waits
    (`Replies.ToldConfirmedMeansChargedIff`);
  - stored answers are never overwritten, and retries of completed requests get them: the idempotency lock
    holds (`Answers.AnswersKeptIff`, `Answers.RetriesGetStoredAnswerIff`, `Retries.RetriesGetTheAnswerIff`).
    It holds if its own lease outlasts the wait for the second lock and the section, or the fingerprint
    lock's does, is taken in time and ends no later. With the shipped settings (10 and 15 seconds, window 300) only its own lease will do;
  - nothing is stranded in SUBMITTED or TIMEOUT: no exception ends a granted section
    (`Stranded.NobodyStrandedIff`);
  - a request told that another is in flight was never POSTed: the same (`Refusals.RefusedMeansUnsentIff`).

  For each fact a run shows what happens without it.
- Only `submit` posts to the provider. Payment ids are fresh. The clock does not go back.
- The policy engine is an oracle with one known rule: a duplicate conflict is never allowed
  (`policies/duplicates.rego`).
- Fingerprints, cart hashes and payload hashes are compared for equality only, and the hash of the
  fingerprint text is injective. The joined text determines its fields if and only if at most one field
  may contain the separator (`Canonical.DeterminesIffAtMostOne`); merchant ids may, and the others but
  the user id cannot, so user ids are assumed not to (`Canonical.FingerprintTextDeterminesIff`).
- Stored answers and idempotency locks are kept under pairs of user and key. The source joins the two with
  a colon (`gateway/payments.py:76-77`, `gateway/routes/payments.py:188`) and restricts neither; the text
  stands for the pair if and only if one of them never contains a colon, so user ids are assumed not to
  (`Canonical.IdemTextDeterminesIff`). Otherwise user "a" with key "b:12345678" and user "a:b" with key
  "12345678" share one record.
- The limiter's counting and recording are one atomic check. With the in-process store they are, since
  its awaits never suspend; with the shared one, requests that count before any of them records can
  exceed a ceiling.
- The circuit breaker is driven by one classification after another. Calls already under way when it
  opens come on top of the bound.
- `AuditChain.Ideal` (the hash is injective and never yields the genesis value) is a hypothesis of the
  lemmas that name it. `SameHeadSameLog` and `AgreementPinsPrefix` do without: they show equality or
  exhibit the broken hash.

## Where the code and its documentation differ

The model follows the code.

- The unique index on user and idempotency key exempts only BLOCK rows (`gateway/models.py:87-95`), so
  a transaction parked for approval claims its key for good: no later request under that key is ever
  allowed, although the documentation of `remember_outcome` speaks of an approved retry. The retry
  needs a new key (`Charging.ParkedKeyIsSpent`).
- The fingerprint is said to cover the amount. It covers the amount's text: nothing in the gateway
  normalises a decimal, so "12.5" and "12.50" take different locks and slots and both can be allowed
  (`Canonical.RenderingsReadDifferently`, `Grants.RewrittenAmountLetsRivalIn`).
- Reconciliation is said to resolve what was never heard of. It looks at UNKNOWN only, so a payment whose
  request ends by an exception after SUBMITTED, charged or not, stays there for good and counts as spend
  (`Stranded.ChargedAndStranded`, `Stranded.StuckForGood`).
- CONCURRENT_REQUEST_IN_FLIGHT is said to mean that another request holds the lock of this key. Any
  TimeoutError raised inside the section gets the same answer, that of an audit append which cannot take its
  own lock for one, so a client can be told BLOCK and FAILED about a payment that is CONFIRMED and charged
  (`Refusals.RefusedThoughCharged`).
- Anchoring an empty log stores a count of zero, which `verify_chain` reads as "no limit"; the first
  event appended afterwards looks like tampering (`Checkpoint.NoFalseAlarmIff`).
- The comment on `severedAt` says the audit stage is excluded from the break; the loop includes it
  (`Pipeline.SeveredAt`).
- The comment on the breaker describes a single trial request after the cooldown; the failure count is
  reset when the breaker opens, so a whole threshold of calls follows each cooldown
  (`Breaker.BoundIsReached`).
- `combine` is said to set a floor under the confidence. Rounding can take it below the strongest layer
  for arguments finer than a thousandth (`Confidence.FaintSignalVanishes`, exactly when:
  `Confidence.FloorHoldsIff`); the detectors report thousandths, where the floor holds
  (`Confidence.ClassifierCannotLower`).

## Model

| member | source | states |
|---|---|---|
| Lifecycle.RankDescends | gateway/payments.py:45-62 | every legal transition costs rank, so a later state of any history ranks below an earlier one by at least the distance |
| Lifecycle.OriginsOf | gateway/payments.py:45-62 | what a payment can have been before it is in a given state, for every state, and that exactly three states are final |
| Lifecycle.HistoryIsSimple | gateway/payments.py:45-73 | a payment makes at most five transitions and never returns to a state |
| Lifecycle.EdgesDetermineHistory | gateway/payments.py:45-73 | the unordered set of from/to pairs determines the whole history |
| Lifecycle.ExtendHistory | gateway/payments.py:71-73 | a legal transition extends a history by exactly its own edge |
| Canonical.DeterminesIffAtMostOne | gateway/canonical.py:107-108 | the joined text of any number of fields determines them if and only if at most one of them may contain the separator |
| Canonical.SameFingerprintIff | gateway/canonical.py:104-108 | two orders share a fingerprint if and only if they agree in user, merchant, cart, amount as written and currency and arrive in the same window |
| Canonical.FingerprintTextDeterminesIff | gateway/canonical.py:104-108 | with merchant ids unrestricted, the six-field text determines its fields if and only if user ids contain no separator |
| Canonical.PieceMovesUnnoticed | gateway/canonical.py:107-108 | otherwise any piece can move from the merchant to the user with the same fingerprint text |
| Canonical.RenderingsReadDifferently | gateway/canonical.py:107-108 | the same money written as 12.5 and as 12.50 has different fingerprint texts |
| Canonical.IdemTextDeterminesIff | gateway/payments.py:76-77 | the name of a stored answer determines user and key if and only if one of the two never contains a colon |
| Canonical.TextsInFull | gateway/canonical.py:107-108 | the order of the fields in either text, by example |
| Provider.MockProvider.CreateCharge | mock_provider/main.py:94-174 | each check in order, with its status; the token is spent and the charge recorded only when all pass and the provider neither hangs nor errors |
| Provider.NotFoundMeansNeverDecided | mock_provider/main.py:177-184 | over any run of calls, a payment without a record is exactly one for which no call was ever confirmed or declined |
| Provider.SpentTokenIsInert | mock_provider/main.py:116-119 | no run of calls with a spent token ever records or changes a charge |
| Provider.ChargeIsBoundToToken | mock_provider/main.py:94-174 | a call is decided, spends the token and records something if and only if the token is live and unspent, names the payment, merchant, amount, currency and cart of the body, and the provider succeeds or declines; what is recorded is what the token says |
| Provider.RefusalsInOrder | mock_provider/main.py:105-154 | exactly when each refusal is given: token, then single use, then any disagreement in the five fields, then the provider's own failure; none changes more than the list of calls |
| Safety.StepPayments | gateway/routes/payments.py:208-438 | every step of every request and sweep keeps the per-payment invariant, and rows only evolve along legal transitions |
| Safety.StepUniqueKeys | gateway/models.py:87-95 | no step ever produces two rows that are not BLOCK for one user and key |
| Safety.InsertRefusedIff | gateway/models.py:87-95 | an insert is refused if and only if the same user has a row under the same key that is not BLOCK and this one is not either |
| Safety.RunInv | gateway/routes/payments.py:109-438 | the whole invariant holds after any run |
| Charging.AtMostOnePost | gateway/payments.py:277-309 | in every reachable state at most one POST was ever made for a user and idempotency key, leases or not |
| Charging.MoneyMatchesTheOrder | gateway/payments.py:250-309 | token, POST and charge name exactly the payment, merchant, amount, currency and cart of the order, and the row remembers the token's id and deadline |
| Charging.ParkedKeyIsSpent | gateway/models.py:87-95 | a key parked for approval never authorizes a later request |
| Charging.RunEvolves | gateway/payments.py:207-225 | along any run a row keeps its transaction and decision and never regains rank |
| Charging.NeverWrittenOffIff | gateway/payments.py:277-422 | in every reachable state a charged payment is SUBMITTED, TIMEOUT, UNKNOWN or CONFIRMED, if and only if no POST arrives late |
| Charging.NeverInventedIff | gateway/payments.py:318-336 | in every reachable state CONFIRMED means charged, if and only if no hanging provider answers in time |
| Charging.AgreementIffOrderly | gateway/payments.py:277-397 | that agreement holds in every reachable state if and only if the environment is orderly |
| Charging.LateDeliveryDisagrees | gateway/payments.py:369-374 | a run: reconciliation asks, then the POST arrives; the row is FAILED and the customer charged |
| Charging.ShortHangDisagrees | mock_provider/main.py:147-151 | a run: a provider that hangs briefly says confirmed without recording a charge |
| Charging.SomeRunConfirms | gateway/routes/payments.py:208-438 | under any settings some run ends CONFIRMED and charged, so the safety results are not empty |
| Spending.SpendIsConserved | gateway/context.py:106-119 | the spend of a user rises by the amount exactly when a row of that user created inside the window goes from CREATED to AUTHORIZED, falls by it exactly when such a row leaves a counted state for FAILED or EXPIRED, and no other step moves it |
| Spending.OthersDoNotCount | gateway/context.py:110-117 | a step about another user's payment, or about an older one, leaves it as it is |
| Spending.NothingSettledNothingSpent | gateway/context.py:106-119 | a user whose rows in the window are all CREATED, FAILED or EXPIRED has spent nothing |
| Spending.SpendCoversIff | gateway/context.py:72-119 | for every user and window the counted spend is at least what the provider charged, if and only if no POST arrives late |
| AuditTrail.StepTrail | gateway/payments.py:207-247 | commit and audit append are separate steps; at every point a transition of an authorized payment is logged, lost or still held by its writer, and nothing else is logged |
| AuditTrail.AuditTellsTheStory | gateway/payments.py:207-247 | with none lost or pending, the logged edges are one simple path from CREATED to the current state, and only one history fits them |
| AuditOnce.StepPlaced | gateway/payments.py:207-247 | every step keeps that a transition is in at most one of log, lost appends and hands of a single writer, and is logged at most once |
| AuditOnce.LoggedAtMostOnce | gateway/payments.py:227-246 | in every reachable state no transition is logged twice, or logged and also lost or pending |
| AuditOnce.LogIsHistoryIff | gateway/payments.py:207-247 | the logged edges of an authorized payment are exactly those of its history, if and only if none of them is lost or pending |
| AuditOnce.DecisionIsLogged | gateway/routes/payments.py:393-416 | a request gets past its decision or replay event only by writing it or by a swallowed failure to |
| Sections.StepStoreOk | gateway/store.py:51-63 | every step keeps that leases mean what they say, that locks and slots end no later than they were meant to, and that every entry belongs to some request |
| Sections.LocksAreGivenBack | gateway/store.py:201-203 | whatever ends a section, its locks are given back in turn; only an exception in a release leaves one, until its lease runs out |
| Fences.StepFenced | gateway/routes/payments.py:188-192 | if the fingerprint lock holds, every step keeps that whoever is inside the section of a fingerprint that can still be checked owns its lock |
| Fences.OneSectionPerFingerprint | gateway/routes/payments.py:188-192 | if the fingerprint lock holds, at most one request is inside the section of a fingerprint that can still be checked, in every reachable state |
| Grants.SectionsExcludeIff | gateway/routes/payments.py:188-192 | that exclusion holds in every reachable state if and only if the fingerprint lock holds; exceptions, late checks and expired tokens make no difference |
| Grants.StepSeparates | gateway/routes/payments.py:188-438 | under the condition of the next row, every step keeps the slot of a granted payment reserved until nobody checks it any more, and that of one fingerprint at most one request is granted or cleared |
| Grants.GrantsUniqueIff | gateway/payments.py:130-167 | no two requests of the same user to the same merchant for the same cart, amount as written and currency in the same window are both allowed, whatever their keys, if and only if granted sections complete, checks come in time, and the fingerprint lock and the token last |
| Grants.PaymentsUniqueIff | gateway/canonical.py:104-108 | nor are they with the amount written differently, if and only if moreover amounts are written in one way only |
| Grants.ExceptionLetsRivalIn | gateway/routes/payments.py:193-205 | a run: a section that raises after authorizing leaves no reservation, and a rival is allowed |
| Grants.SlowSectionLetsRivalIn | gateway/routes/payments.py:188-192 | a run, for any settings under which the lock does not hold: the lease ends inside a granted section and a rival is allowed |
| Grants.LateCheckLetsRivalIn | gateway/payments.py:163-167 | a run: a rival waits until the slot has run out and is allowed |
| Grants.RewrittenAmountLetsRivalIn | gateway/canonical.py:107-108 | a run: the same money written differently is allowed twice |
| Grants.ExpiryLetsRivalIn | gateway/payments.py:400-422 | a run, for any settings under which the token does not last: an expiry sweep ends a granted payment inside its section, the next transition raises, and a rival is allowed |
| Grants.ShippedProtects | gateway/routes/payments.py:188-192 | with the shipped settings the condition is completion, timely checks and one of the two leases |
| Replies.StepReplies | gateway/routes/payments.py:296-438 | every step of anybody keeps that an answer, ready or in preparation, fits its row |
| Replies.AnswersAreTrue | gateway/routes/payments.py:296-380 | in every reachable state a request that has concluded told its client the row's decision, a state the row is or was in, CONFIRMED or FAILED only if that is where it stays, the provider's reference just with CONFIRMED, and the message that goes with it |
| Replies.NobodyLeavesUnanswered | gateway/routes/payments.py:190-205 | a concluded request has such an answer, a replay, a refusal or an error |
| Replies.ToldFailedNeverCharged | gateway/routes/payments.py:364-375 | whoever is told FAILED was not charged and is not in any later run, whatever network and provider do |
| Replies.ToldConfirmedMeansChargedIff | gateway/payments.py:318-336 | whoever is told CONFIRMED was charged, if and only if no hanging provider answers in time |
| Provenance.RequestsAreKept | gateway/routes/payments.py:110-120 | a request keeps its order, arrival and wish for execution along any run, and one that does not wish it is never POSTed or charged |
| Provenance.StepRecords | gateway/payments.py:142-167 | every step keeps that a stored answer was given to that user, key and payload and is true of its payment, that a slot belongs to an allowed payment of that fingerprint, and that locks are held by namesakes |
| Provenance.ConflictHasCause | gateway/payments.py:110-140 | a request is called a duplicate only if its key was used for another payload, or an allowed payment agrees in user, merchant, cart, amount as written, currency and window |
| Provenance.ReplaysAreTrue | gateway/routes/payments.py:217-236 | a replayed answer was given to the same user, key and payload, was no interim one, and is true of that payment |
| Provenance.WaitsForSameKey | gateway/routes/payments.py:188-191 | whoever waits for the first lock waits for a request of the same user and key |
| Provenance.WaitsForSamePurchase | gateway/routes/payments.py:188-191 | whoever waits for the second waits for a request for the same purchase in the same window |
| Answers.OneSectionPerKey | gateway/routes/payments.py:188-192 | in every reachable state at most one request is inside the section of a key, if the idempotency lock holds |
| Answers.AnswersKeptIff | gateway/payments.py:142-160 | a stored answer is never overwritten while it lives, if and only if the idempotency lock holds |
| Answers.ToRecorded | gateway/routes/payments.py:188-192 | a run, for any settings under which it does not: a request dawdles past its lease while another stores its answer |
| Answers.RetryIsInert | gateway/routes/payments.py:215-236 | a step of a retry touches only its own request, its locks and one audit event |
| Answers.RetriesGetStoredAnswerIff | gateway/payments.py:100-123 | every later request with the stored key and payload gets that answer or is refused, without row, POST or charge, if and only if the idempotency lock holds |
| Retries.CompletionIsStored | gateway/routes/payments.py:425-437 | the step that completes a request, allowed or denied, that is neither a duplicate nor parked stores exactly its client's answer under user, key and payload, for the idempotency lifetime |
| Retries.AnswerStaysStored | gateway/payments.py:142-160 | with the idempotency lock it stays stored that long, whatever happens |
| Retries.RetriesGetTheAnswerIff | gateway/payments.py:100-123 | whoever repeats a completed request meanwhile is told what its client was told, or is refused, without row, POST or charge, if and only if the idempotency lock holds |
| Retries.RetryIsAnswered | gateway/routes/payments.py:215-236 | where the locks are free a retry gets the stored answer and is done |
| Answers.ShippedLockHolds | gateway/store.py:186-190 | with the shipped settings only the idempotency lease itself will do |
| Stranded.MovesIffPicked | gateway/payments.py:339-422 | of finished payments on no sweep's list, exactly those a sweep starting now would pick can still change state without time passing |
| Stranded.StuckForGood | gateway/payments.py:350-422 | a finished payment in CREATED, SUBMITTED or TIMEOUT is never moved by any later run, whatever sweeps are under way, and in the latter two it counts as spend for as long as the window reaches back to it |
| Stranded.TooOldForGood | gateway/payments.py:350-358 | so does one in UNKNOWN beyond the age limit, provided no sweep under way has it on its list |
| Stranded.ListedSettles | gateway/payments.py:349-395 | which is needed: a reconciliation that listed an UNKNOWN payment earlier can still settle it, however old it is |
| Stranded.ChargedAndStranded | gateway/payments.py:297-316 | a run: an exception leaves a charged payment in SUBMITTED |
| Stranded.NobodyStrandedIff | gateway/payments.py:277-336 | no finished request leaves its payment in SUBMITTED or TIMEOUT, if and only if no exception ends a granted section |
| Refusals.RefusedThoughCharged | gateway/routes/payments.py:193-205 | a run: the last audit append times out, and the client is told that another request is in flight about a payment that is CONFIRMED and charged |
| Refusals.RefusedMeansUnsentIff | gateway/routes/payments.py:193-205 | no request answered as in flight was ever POSTed, if and only if no exception ends a granted section |
| Payments.PaymentService.SetState | gateway/payments.py:207-247 | unknown payment, illegal transition, a commit whose audit event fails, one without an event, or both; new table and log in full |
| Payments.PaymentService.WriteDown | gateway/payments.py:312-336 | timeout, refusal, confirmation and decline each leave the row and trail they should |
| Payments.PaymentService.Submit | gateway/payments.py:277-336 | the single use is spent first; each error leaves the provider uncalled; otherwise the row is what the network and provider made of it |
| Payments.SubmitIsTruthful | gateway/payments.py:277-336 | after a submit the row fits the provider's books, whatever the network did, except exactly when a hanging provider answers in time |
| Refinement.SubmitIsARun | gateway/payments.py:277-336 | one call of submit leaves row, trail, charge, spent tokens and POST count as some run of the protocol does, so what every run keeps every call keeps |
| SweepRuns.ReconcileIsARun | gateway/payments.py:339-397 | one call of reconciliation leaves table and trail as some run of the protocol does, and changes nothing else |
| SweepRuns.ExpiryIsARun | gateway/payments.py:400-422 | so does one expiry sweep |
| Refinement.MovesAndAudits | gateway/payments.py:207-247 | one set_state is a commit step and an append step |
| Payments.PaymentService.AskAbout | gateway/payments.py:362-395 | one query: unreachable leaves the row, otherwise the provider's answer decides |
| Payments.PaymentService.ReconcileUnknown | gateway/payments.py:339-397 | exactly the recent UNKNOWN rows that were reached are settled, one audit event each in the order asked; the three counters count them |
| Payments.PaymentService.ListUnknown | gateway/payments.py:349-362 | lists each recent UNKNOWN payment once and no other |
| Payments.InTurnIsAtOnce | gateway/payments.py:364-395 | asking one by one settles and counts what asking all at once would |
| Payments.ReconcileIsExact | gateway/payments.py:339-397 | every payment reached ends Confirmed if charged and Failed if not, and the table still fits the books |
| Payments.PaymentService.ExpireStale | gateway/payments.py:400-422 | exactly the stale authorizations expire, one audit event each, none remains, and the count is theirs |
| TimedStore.EvictionIsInvisible | gateway/store.py:31-89 | over any run under a monotone clock, with one window per set, the evicting store answers like one that never forgets |
| TimedStore.FromEmptyNothingShows | gateway/store.py:25-89 | in particular over any run that starts with an empty store |
| TimedStore.OpSimulates | gateway/store.py:31-89 | each operation answers alike and keeps the correspondence |
| TimedStore.MemoryStore.CheckAlive | gateway/store.py:31-39 | looking at a dead entry removes it and nothing else |
| TimedStore.MemoryStore.Get | gateway/store.py:44-45 | the live value, if any |
| TimedStore.MemoryStore.Set | gateway/store.py:47-49 | overwrites, with a deadline unless the lifetime is zero |
| TimedStore.MemoryStore.SetNx | gateway/store.py:51-56 | sets only if no live entry is there |
| TimedStore.MemoryStore.DeleteIfValue | gateway/store.py:58-63 | removes only a live entry with that value |
| TimedStore.MemoryStore.ZAddWindow | gateway/store.py:77-84 | purge, add, count |
| TimedStore.MemoryStore.ZCountWindow | gateway/store.py:86-89 | counts what is inside the window and changes nothing |
| Locks.OneLiveHolder | gateway/store.py:182-203 | no lock ever has two live holders |
| Locks.LockedIffHeld | gateway/store.py:192-203 | a lock is taken if and only if some process holds it: whoever leaves leaves nothing locked behind |
| Locks.PhaseTellsLocks | gateway/routes/payments.py:188-192 | exactly which locks a request has taken wherever it stands |
| Locks.NobodyElseLoses | gateway/store.py:201-203 | whatever a process does, a late release included, other live holds survive it |
| Locks.NoCycle | gateway/routes/payments.py:188-192 | no chain of waiting processes, of any length, closes: the lock order excludes deadlock |
| Locks.RunInv | gateway/store.py:192-203 | live holds are backed by the store and properly nested after any run |
| Locks.DistributedLock.Enter | gateway/store.py:192-199 | takes the lock at the first attempt that finds it free, or raises after fifty having changed nothing |
| Locks.DistributedLock.Exit | gateway/store.py:201-203 | only its own live entry can disappear |
| AuditChain.VerifyChain | gateway/audit.py:166-207 | valid if and only if every link recomputes; otherwise the first broken event, with expected and stored hash |
| AuditChain.SameHeadSameLog | gateway/audit.py:63-64 | two logs that verify with one head are the same event for event, or display a collision or a genesis hit |
| AuditChain.HeadPinsHistory | gateway/audit.py:166-207 | with an ideal hash, equal heads if and only if equal logs |
| AuditWriters.AlwaysVerifiesIffTimely | gateway/audit.py:121-161 | any number of concurrent appenders leave one chain that verifies, if and only if leases outlast the section |
| AuditWriters.LeaseLastsFifteen | gateway/audit.py:121-121 | a second appender gets the lock of one that has not left if and only if more than fifteen seconds have passed |
| AuditWriters.OvertakeForks | gateway/audit.py:121-161 | a run: an appender slower than its lease forks the chain |
| Checkpoint.CheckpointStore.AnchorCheckpoint | gateway/checkpoint.py:97-122 | appends one row, or nothing if there is no store or it is down, and says which |
| Checkpoint.CheckpointStore.VerifyAgainstCheckpoints | gateway/checkpoint.py:143-179 | the verdict on the prefix the last anchor counted |
| Checkpoint.CheckpointStore.AuditVerify | gateway/routes/payments.py:553-566 | checks against the previous anchor, then lays down a new one |
| Checkpoint.AgreesIffStillThere | gateway/checkpoint.py:143-179 | the check passes if and only if the anchored events are all still there, unaltered and in place |
| Checkpoint.AgreementPinsPrefix | gateway/checkpoint.py:143-179 | the same without an ideal hash: or a broken hash is on display |
| Checkpoint.NoFalseAlarmIff | gateway/audit.py:168-172 | appending raises no false alarm if and only if the anchor counted an event or nothing was appended |
| Checkpoint.QuietMeansAppendOnly | gateway/routes/payments.py:553-566 | a run of calls without an alarm means the log was only ever appended to |
| Similarity.WithinWindow | gateway/analyzer/similarity.py:64-85 | true if and only if one position per facet can be chosen within the window, and there is a facet |
| Similarity.Sweep | gateway/analyzer/similarity.py:70-85 | the sweep finds a full window if and only if one ends at some mark |
| Similarity.WindowIsFull | gateway/analyzer/similarity.py:76-84 | the distinct counter reaches the number of facets exactly when every facet has a mark in reach |
| Similarity.FitsIsFullSomewhere | gateway/analyzer/similarity.py:64-85 | any choice that fits makes a full window at its rightmost mark |
| Similarity.IntentScore | gateway/analyzer/similarity.py:88-114 | the best matching cluster, the first among equals, or none |
| Similarity.ConfidenceIsLinear | gateway/analyzer/similarity.py:103-110 | 0.30 plus 0.45 times the share of facets that occur; the cap of 0.75 is reached if and only if all occur |
| RateLimit.EnforceEdgeRateLimit | gateway/ratelimit.py:44-74 | all ceilings are checked before anything is recorded; result and windows in full |
| RateLimit.NoSpanExceedsCeiling | gateway/ratelimit.py:62-70 | no sixty-second span, wherever it starts, admits more than any ceiling, over any run of atomic checks |
| RateLimit.RefusalIsFounded | gateway/ratelimit.py:62-70 | a refused scope had its whole ceiling admitted in the last sixty seconds, and the refusal records nothing |
| Breaker.CircuitBreaker.RecordTransportFailure | gateway/analyzer/llm.py:60-72 | counts, and opens with a fresh count at the threshold |
| Breaker.CircuitBreaker.RecordSuccess | gateway/analyzer/llm.py:75-78 | closes |
| Breaker.CircuitBreaker.Classify | gateway/analyzer/llm.py:222-273 | calls the network if and only if the breaker is closed; new state in full |
| Breaker.OutageCallsBounded | gateway/analyzer/llm.py:45-78 | in a sequential outage of length D at most threshold * (D / cooldown + 1) calls are made, from any state |
| Breaker.OutageAfterAnything | gateway/analyzer/llm.py:45-78 | and whatever calls, answered or not, came before it |
| Breaker.AnswerStartsOver | gateway/analyzer/llm.py:60-78 | one answered call clears the count: a whole threshold of failures after it is called, and the last of them opens the breaker for the cooldown |
| Breaker.BoundIsReached | gateway/analyzer/llm.py:60-72 | for every number of rounds some outage makes exactly that many |
| Pipeline.ReducePipeline | apps/web/src/lib/pipeline.ts:125-136 | the fold of the events in stable sequence order |
| Pipeline.DeliveryDoesNotMatter | apps/web/src/lib/pipeline.ts:117-136 | any reordering and repetition gives the state of the emitted order |
| Pipeline.StageShowsItsLast | apps/web/src/lib/pipeline.ts:101-136 | a stage shows status and elapsed time of the last event about it |
| Pipeline.StageShowsLastLatency | apps/web/src/lib/pipeline.ts:101-136 | and the last latency that was reported |
| Pipeline.StageShowsLastDetail | apps/web/src/lib/pipeline.ts:101-136 | and for each detail what was last said about it |
| Pipeline.UnheardOfIsIdle | apps/web/src/lib/pipeline.ts:101-136 | a stage nothing was heard of is idle and blank |
| Pipeline.SeveredAt | apps/web/src/lib/pipeline.ts:145-151 | the first blocked or failed stage, all seven included, or none |
| Pipeline.PipelineEmitter.Publish | gateway/events.py:103-136 | takes the next number even if the event cannot be written; published numbers strictly increase |
| Pipeline.PipelineEmitter.Start | gateway/events.py:73-75 | remembers the start and publishes |
| Pipeline.PipelineEmitter.Finish | gateway/events.py:77-85 | publishes the latency since the start, if there was one |
| Pipeline.PipelineEmitter.SkipRemaining | gateway/events.py:87-101 | one event for every later stage, in stage order, each with its own clock reading |
| Pipeline.BlockShowsWhereItHappened | gateway/events.py:87-101 | after a stop, however its events travel, the view breaks there, is unchanged before and skipped after |
| Relay.Hub.FanOut | apps/event-relay/event_relay/main.py:117-131 | the buffer is the last events in order; each subscriber that wants the event is offered it once, and the outcome depends on its own queue alone |
| Relay.Subscriber.PutOrDrop | apps/event-relay/event_relay/main.py:126-131 | a full queue costs its client the event and counts it; otherwise it is enqueued, and no bound means never full |
| Relay.Hub.Replay | apps/event-relay/event_relay/main.py:83-86 | the wanted events of the buffer, in order |
| Relay.Hub.Add | apps/event-relay/event_relay/main.py:75-77 | one more subscriber |
| Relay.Hub.Remove | apps/event-relay/event_relay/main.py:79-81 | one fewer |
| Relay.NothingGoesMissing | apps/event-relay/event_relay/main.py:117-131 | after any run received plus dropped is everything wanted since joining, in order, complete if nothing was dropped |
| Relay.JoinsAsAsked | apps/event-relay/event_relay/main.py:75-77 | a client keeps its filter, bound and starting point for as long as it stays |
| Relay.FirehoseGetsAll | apps/event-relay/event_relay/main.py:53-54 | a client without a filter from which nothing was dropped got every event since joining, in order |
| Relay.WatcherWantsItsOwn | apps/event-relay/event_relay/main.py:53-54 | a client with one wants just what is about its request |
| Relay.LatecomersSeeTheRun | apps/event-relay/event_relay/main.py:179-200 | a client that watches one request, even if it joined late, folds to the view of the emitted order, if nothing was dropped for it, the request was still buffered and every event reached the relay |
| Relay.OthersDoNotMatter | apps/event-relay/event_relay/main.py:124-131 | a client stands exactly where it would had it been alone |
| Money.RoundsToNearest | gateway/money.py:34-34 | the nearest whole number, away from zero on a tie |
| Money.MinorUnitsAreMonotone | gateway/money.py:24-34 | more money is never fewer minor units |
| Money.ExactIffInCents | gateway/money.py:24-34 | nothing is lost exactly on amounts of at most two decimals |
| Money.CentsAreInjective | gateway/money.py:24-34 | two such amounts agree in minor units if and only if they are equal |
| Money.FinerAmountsCollide | gateway/money.py:18-21 | two finer amounts that do not |
| Approvals.CreateRequest | gateway/approvals.py:53-71 | parks exactly the shown terms for the approval lifetime |
| Approvals.LoadRequest | gateway/approvals.py:74-78 | the parked request while it lives |
| Approvals.Grant | gateway/approvals.py:81-99 | a token for the stored terms, if and only if the request is still alive |
| Approvals.GrantedInTimeIff | gateway/approvals.py:53-99 | a parked request is granted if and only if that happens within fifteen minutes, and the token is for what was parked, for another fifteen |
| Approvals.DecisionIff | policies/approvals.rego:16-34 | the decision for anything presented, or nothing: an approval only turns the request for one into ALLOW, outweighs no other deny, and one that is not ours, expired or about something else denies |
| Approvals.ApprovalCoversExactlyWhatWasShown | policies/approvals.rego:16-34 | with nobody else denying, a granted token leads to ALLOW if and only if it has not expired and all four bound fields are the parked ones |
| Approvals.EveryTokenCoversWhatWasParked | gateway/approvals.py:53-129 | over any history of parking and granting, a token names the user of what was parked under its request and leads to ALLOW for exactly the transactions that agree with it, until it expires |
| Confidence.RoundReaches | gateway/analyzer/__init__.py:72-72 | exactly when rounding reaches a value, ties to even |
| Confidence.CombineInRange | gateway/analyzer/__init__.py:54-72 | the result is a confidence in [0, 1] on the thousandth grid |
| Confidence.CombineMonotone | gateway/analyzer/__init__.py:54-72 | more evidence in any layer never lowers the result, rounding included |
| Confidence.LessTrustNeverLowers | gateway/analyzer/__init__.py:54-72 | less trust in the source never lowers the result |
| Confidence.EightTenthsTrusted | gateway/analyzer/__init__.py:54-72 | what a lone 0.8 comes to from each trusted source |
| Confidence.EightTenthsUntrusted | gateway/analyzer/__init__.py:54-72 | and from each untrusted one |
| Confidence.EightTenthsCorroborated | gateway/analyzer/__init__.py:54-72 | and with a faint second layer beside it |
| Confidence.FloorHoldsIff | gateway/analyzer/__init__.py:54-72 | the result is not below the strongest layer if and only if two layers saw something, or that layer is a whole number of thousandths, or its amplification reaches the middle of its grid step |
| Confidence.FaintSignalVanishes | gateway/analyzer/__init__.py:72-72 | an input for which it is below |
| Confidence.ClassifierCannotLower | gateway/analyzer/__init__.py:105-138 | the injection confidence is never below the deterministic one, nor either below its layers |

## Left out

- Policy evaluation: the rules other than duplicates, approval binding and the final aggregation, so nothing is claimed about budgets or velocity limits.
- Token signing and parsing, the hash function itself, JSON encoding, decimal parsing and the decimal context's 28 digits.
- HTTP, SQL and Redis as transports; only their outcomes appear (answered, lost, timed out, raised).
- `RedisStore`: a key whose deadline is exactly now is already gone there, while `MemoryStore` still shows it.
- The revocation sets of the store, and `publish` and `ping`.
- Concurrent sessions on one row: each session is one atomic step, so a lost update between the read and the commit of `set_state` is not captured.
- The pipeline as imperative code: `create_payment_intent` and `_run_pipeline` are steps of a state machine, because what matters about them is what happens between their awaits.
- The velocity record and the edge limiter inside the protocol; they do not touch rows, locks or the provider.
- RateLimit.NoSpanExceedsCeiling: is about atomic checks, as stated above.
- Breaker.OutageCallsBounded: is about sequential classifications, as stated above.
- RateLimit.EnforceEdgeRateLimit: does not model a failing store, in which case the source admits the request unrecorded.
- Locks.DistributedLock.Enter: has the store to itself between its attempts; interference is in the state machine, where each attempt is a step of its own.
- Payments.PaymentService.Submit: covers the provider of this repository, not arbitrary status texts another provider could answer with; its audit appends succeed (a failing append is modelled in SetState and as a step of the protocol).
- Confidence.CombineMonotone: is about exact reals, not binary floating point.
- Relay: the per-client drop counter is reset when it is reported; the accounting is for the time before.
- Regex rules, shingle overlap and its thresholds, the attack corpus, the risk engine's weights.
- Development resets and the provider's control endpoints, which break every invariant on purpose.
- The agent graph, Telegram linking, the control plane, the web pages and scripts.
