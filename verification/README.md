# Dating coach: verified model

This project models the stateful cores of the dating coach backend, its app and its
analyzer in Dafny, and proves what they are meant to guarantee. `dafny verify
dfyconfig.toml` checks everything.

Protocols that interleave (deletion, sessions, the app's renewal, sockets against
revocation, analysis runs) are state machines: one action is one SQL statement or
transaction end, one broker or Redis call, or the code between two awaits. Calls fail
with or without effect and processes stop anywhere. Code that runs through is a method
with the program's loops, proved against a specification; where it belongs to a
protocol it drives the state machine, so all that is proved of runs holds of it. How
its calls go is a parameter of such a method, so its contract says which answers lead
to which result.

| file | what it models |
|---|---|
| `Deletion.dfy`, `DeletionConvergence.dfy`, `DeletionService.dfy` | account deletion: request, outbox, relay, work, retry and dead-letter queues, worker |
| `Sessions.dfy`, `SessionsService.dfy` | refresh tokens on the server: families, rotation, replay, revocation |
| `RotationSteps.dfy` | the rotation transaction statement by statement, against a revocation and a mark |
| `AppSession.dfy` | the app's session handling composed with that server |
| `Slots.dfy` | open slots of a coach against the booking check |
| `NotifyHub.dfy` | the notification hub, in the heap |
| `Handshake.dfy` | a socket's register-then-check against a revocation, and the hub's index |
| `EmailOutbox.dfy` | the email relay: delays, attempts, fairness |
| `RateLimit.dfy` | the fixed-window limiter |
| `Text.dfy`, `Citations.dfy` | word splitting; blanking of proven citations |
| `Heuristic.dfy` | the scorer without a model: runs, windows, averages |
| `Analysis.dfy`, `AnalysisOutcomes.dfy`, `AnalysisStranding.dfy`, `AnalysisConvergence.dfy`, `AnalysisExamples.dfy` | analysis runs of a conversation, their queue and workers |
| `Common.dfy`, `Sums.dfy` | optional values, call outcomes; sums for progress measures |

## Assumptions

- Random tokens and UUIDs are fresh and hashing is injective: a token is its place in the log of everything issued.
- The clock does not go back. The limiter's window is a whole number of seconds, and reading the clock and counting happen at one moment.
- `Sessions` takes the token rotation transaction as one step, behind a lookup of its own. `RotationSteps` takes that transaction apart and proves what the one step leaves open: a successor that is committed while a revocation runs survives it, and a rotation that read the account before the mark may still commit.
- The deletion queue carries only jobs this system published.
- In `AppSession` the stored session is written with the refs, the answer of an exchange the server committed reaches the app, and a restart happens with nothing in flight. Its runs are those in which no profile is stored with another account's tokens; `ProfileKeepsExactly` says when that happens and `LateProfileMixes` shows that it can.
- `Slots` counts whole seconds. A zone is any pair of functions (local reading of an instant, instant picked for a reading) that satisfies the predicates a lemma names; UTC and a zone with a spring gap are shown to satisfy them. `OpenSlots` requires that its loop over days ends. Durations are unbounded integers; the handler's cap of 240 minutes (backend/internal/coaching/handler.go:298) keeps the program's 32 bits from wrapping.
- The lemmas on analysis runs that need it speak of runs in which no read is misled, that is, none finds a finished run as the latest one while the newest is not finished. Rows created in the order of insertion never mislead (`LatestIsLast`).
- In `EmailOutbox` one relay works on the table. An email is due from the moment it is inserted.
- Scores are exact real numbers; white space, lower case and the open-question pattern are given functions, and the starts of citations a given ordered list.

## Findings

- **Email attempts.** backend/internal/notify/outbox.go:18-21 says the attempts span more than a day. The thirty-one delays sum to 84,310 s, and `EmailOutbox.LastAttemptWithinADay` gives a row whose last attempt comes less than a day after its first.
- **Startup restore.** Exchanging tokens is safe because the app shows nothing but a loading screen until the restore is over (app/src/navigation/RootNavigator.tsx:226-238). `AppSession.UngatedCanReplay` is a run without that gate in which the server takes the app for a thief.
- **Late profile.** `refresh` (app/src/state/auth.tsx:278-281) stores the profile it gets without the check of the principal that `updateDatingProfile` makes. An answer that arrives after a sign-in as someone else is stored with that one's tokens (`AppSession.LateProfileMixes`); it does no harm exactly if the tokens on hand are those of the account it was asked for (`AppSession.ProfileKeepsExactly`).
- **Revocation against rotation.** A successor committed while the revocation runs survives it (`RotationSteps.SuccessorSurvives`); `RotationSteps.LeavesExactlyTheLate` and `RotationSteps.LateExactly` say which tokens those are.
- **Outcome of an analysis.** `FailAnalysis` and `CompleteAnalysis` have no status guard, so either outcome can overwrite the other (`AnalysisExamples.BothOutcomesCanBeOverwritten`). `AnalysisOutcomes.FinalExactlyWhenClosed` says when an outcome is final.
- **Abandoned analysis.** Nothing republishes a run. A request that stops before it publishes blocks its conversation for good (`AnalysisStranding.StopBeforePublishBlocks`), and `AnalysisStranding.AbandonedExactly` lists the steps that abandon a run.
- **Overlapping reanalyses.** `created_at` is the start of the transaction, before the row lock. If the request that began first inserts last, the latest row is not the newest one (`AnalysisExamples.MisleadingIsReached`), and from exactly such rows a second unfinished run gets in (`Analysis.ReadKeeps`, `AnalysisOutcomes.MisleadingLetsIn`).
- **Slots.** A listed slot is refused for a duration outside fifteen minutes to four hours, for a coach who does not accept clients, for a session that starts after the listed range, or after a clock change of a whole day; `Slots.OfferedIsBookable` is the exact answer and `Slots.SkippedDayIsRefused` an instance of the last.

## Model

| member | source | states |
|---|---|---|
| Deletion.StepKeeps | backend/internal/account/queue.go:249-295 | every step of every request, relay pass, consumer and broker, failing or not, keeps the protocol's invariant |
| Deletion.NeverStranded | backend/internal/auth/service.go:148-173 | in every reachable state a marked account has an outbox row, an outbox row marked published has a job at the broker, and an account a job was ever accepted for is fully gone or still has one |
| Deletion.NeverMisapplied | backend/internal/account/worker.go:49-83 | no job exists for a live unmarked account, a dead-lettered job failed twenty times along its lineage, and sessions were revoked before the account row went |
| Deletion.AppliedForGood | backend/internal/store/db/account_deletions.sql.go:14-79 | an account whose deletion is applied never comes back, nor does its outbox row |
| Deletion.RequestKeeps | backend/internal/store/db/account_deletions.sql.go:66-79 | writing the mark and the outbox row in one statement keeps the invariant |
| Deletion.FinishKeeps | backend/internal/store/db/account_deletions.sql.go:14-19 | clearing the outbox row of an account that is gone keeps the invariant |
| Deletion.RepublishKeeps | backend/internal/account/queue.go:280-287 | a republish that fails with or without effect falls back to a requeue and loses no job |
| DeletionConvergence.QuietStepShrinks | backend/internal/account/queue.go:249-295 | without failures and new requests every step lowers one measure of the work that is left |
| DeletionConvergence.SettledOutcome | backend/internal/account/worker.go:49-83 | where no such step is left, every recorded deletion is applied in full or its only jobs are dead-lettered after twenty failures |
| DeletionConvergence.Converges | backend/internal/account/relay.go:66-81 | from any reachable state every quiet schedule ends within a bound known beforehand, in that outcome |
| DeletionService.System.DeleteAccount | backend/internal/auth/service.go:148-173 | reports an error exactly when the statement that marks and records does; otherwise the account is gone, or marked and recorded whatever the later calls answer, its sessions revoked and its job queued and noted as far as they work; nobody else is touched |
| DeletionService.System.PendingDeletions | backend/internal/store/db/account_deletions.sql.go:38-64 | the oldest unpublished rows, in order, at most a hundred |
| DeletionService.System.Drain | backend/internal/account/relay.go:66-81 | fails exactly if the read reports an error or the calls about some row do; n counts the rows before that one, each published with a job, so without an error all of the oldest hundred are |
| DeletionService.System.Handle | backend/internal/account/worker.go:49-83 | succeeds exactly if the account was revoked and deleted, or could not be revoked and was found gone, and the outbox was cleared; a failure is to be republished, or dead-lettered on the twentieth attempt |
| DeletionService.System.ConsumeOne | backend/internal/account/queue.go:256-295 | by the answers of its calls one delivery ends applied, replaced by a retry with one attempt more, back in the queue, dead-lettered on the twentieth attempt, or unanswered; other jobs are untouched |
| Sessions.FamiliesAreLinear | backend/internal/auth/refresh.go:58-152 | each family has at most one unspent token and one user, each token has at most one successor, and a stored token is spent exactly if it has one |
| Sessions.RevocationIsFinal | backend/internal/auth/refresh.go:98-137 | after an account's tokens are revoked none issued before is exchanged again, not even by a request that had looked it up |
| Sessions.DeletedStaysOut | backend/internal/store/db/users.sql.go:129-131 | after the mark no refresh succeeds for the account, not even with a token a racing sign-in stored later |
| Sessions.RevokedOnlyOnReplay | backend/internal/auth/refresh.go:98-111 | only a token that had been exchanged triggers the revocation, which leaves the account no token |
| Sessions.ExchangeKeeps | backend/internal/store/db/refresh_tokens.sql.go:91-97 | spending a token together with inserting its successor keeps families linear |
| Sessions.RotatesExactly | backend/internal/auth/refresh.go:122-143 | a rotation issues a successor exactly for a stored, unspent, unexpired token of an account that is there and not marked; it then spends that token, stores the successor for its own lifetime and changes no other token |
| Sessions.NeverAfterItsTime | backend/internal/store/db/refresh_tokens.sql.go:91-97 | in every run a token issued for a lifetime is never exchanged at or after its end |
| Sessions.RemovesExactly | backend/internal/store/db/refresh_tokens.sql.go:48-81 | a revocation takes all tokens of its account, a purge all expired ones, and neither any other |
| RotationSteps.StepKeeps | backend/internal/auth/refresh.go:113-143 | every statement of rotations, revocations, sign-ins and marks keeps locks, committed rows and pending successors consistent |
| RotationSteps.GetsOnExactly | backend/internal/auth/refresh.go:122-137 | a rotation gets on exactly with a stored unspent token and an account that is not marked |
| RotationSteps.LeavesExactlyTheLate | backend/internal/store/db/refresh_tokens.sql.go:79-81 | a revocation leaves the account exactly the tokens committed since it began |
| RotationSteps.LateExactly | backend/internal/auth/refresh.go:122-143 | those come from a sign-in or from a rotation that commits while the revocation runs, and in no other way |
| RotationSteps.SeenIsFinal | backend/internal/auth/refresh.go:105-111 | after a revocation no rotation commits with a token that was committed when it began |
| RotationSteps.LateRefreshWasChecked | backend/internal/auth/refresh.go:130-143 | after the mark a refresh commits only in a rotation that had read the account before |
| RotationSteps.CheckedCanCommit | backend/internal/auth/refresh.go:130-143 | and every such rotation still can |
| RotationSteps.SuccessorSurvives | backend/internal/auth/refresh.go:105-111 | a run in which a successor outlives a revocation |
| SessionsService.Service.Refresh | backend/internal/auth/refresh.go:94-152 | with the answers of its calls: unknown, spent, exchangeable and other tokens each get their answer and whole effect, expiry and account written out; unavailable is answered exactly if a call reported an error, and an exchange happens as a whole or not at all |
| SessionsService.Service.SignIn | backend/internal/auth/service.go:530-556 | a session with a fresh family for an account that is there and not marked, for no other, and unavailable exactly if a call reported an error |
| AppSession.StepKeeps | app/src/state/auth.tsx:94-232 | every interleaving of renewals, sign-ins, sign-outs, restores, calls, paired profile writes and server steps keeps the composition's invariant |
| AppSession.NeverTakenForAReplay | app/src/state/auth.tsx:120-232 | the server never reaches its replay branch for the app, whatever is presented is unspent, and no token is exchanged twice |
| AppSession.CallsStayWithTheirAccount | app/src/api/client.ts:127-164 | an API call is sent at most twice and both times for the same account |
| AppSession.StaleRotationIsIgnored | app/src/state/auth.tsx:141-176 | a rotation that resolves after its session was replaced or dropped leaves the session on hand and the stored one untouched |
| AppSession.RenewedKeeps | app/src/state/auth.tsx:141-157 | a rotation that is still wanted keeps the account and the principal |
| AppSession.RefusalsAnswered | app/src/api/client.ts:127-164 | a first 401 of a call with a token, under an unchanged principal, is resent at once if the token was replaced and else waits for a renewal; after that it is resent exactly if the renewal worked and the principal is the same; every other reply ends the call |
| AppSession.RenewalInstalls | app/src/state/auth.tsx:141-157 | an answered renewal that is still wanted leaves the new tokens on hand and in storage |
| AppSession.ForgetsExactly | app/src/state/auth.tsx:181-232 | a stored session is thrown away exactly by a sign-out, or by a restore whose token is refused or missing |
| AppSession.ProfileKeepsExactly | app/src/state/auth.tsx:234-249 | a profile answer keeps the invariant if and only if it is not written or the tokens on hand belong to its account, for which an unchanged principal is enough |
| AppSession.LateProfileMixes | app/src/state/auth.tsx:278-281 | a run of the gated app in which a profile arrives for another account's tokens |
| AppSession.UngatedCanReplay | app/src/state/auth.tsx:181-218 | without the loading gate a run exists that reaches the replay branch |
| Slots.OverlapsBooked | backend/internal/coaching/service.go:650-662 | true exactly if some session other than the excluded one overlaps the interval |
| Slots.WindowsInRange | backend/internal/coaching/service.go:502-507 | accepts exactly the windows that lie within one day of the week and are not empty |
| Slots.Expand | backend/internal/coaching/service.go:589-638 | the loops over days, windows and minutes give the specified list of starts |
| Slots.OpenSlots | backend/internal/coaching/service.go:557-639 | every error by its own condition, 45 minutes by default, nothing for an unapproved coach; otherwise every listed start is free in every zone, and where midnights exist and no gap takes a day every free start is listed: grid point of a window, shown, in range, overlapping no session but the excluded one, with payments five minutes ahead |
| Slots.AssertBookable | backend/internal/coaching/service.go:943-993 | answers as `VerdictExactly` spells out, and accepts, calls the input invalid or the coach unknown exactly under the stated conditions |
| Slots.VerdictExactly | backend/internal/coaching/service.go:943-993 | every refusal by its own guard, in the order of the code: fifteen minutes to four hours, a coach that exists, is approved, accepts if that matters and has a window of that weekday around the interval, and no other session that meets it |
| Slots.OnlyOffered | backend/internal/coaching/service.go:603-638 | in every zone each listed start is a window's grid point that is shown, in range and free |
| Slots.ListsExactlyTheOffered | backend/internal/coaching/service.go:603-638 | where midnights exist and no gap takes a day, a start is listed if and only if a window offers it |
| Slots.EndsFromMidnight | backend/internal/coaching/service.go:615-638 | where midnights exist the loop over days ends |
| Slots.SpringForwardMeetsAll | backend/internal/coaching/service.go:619-626 | a zone whose clocks go forward meets every condition on zones |
| Slots.StartsIncrease | backend/internal/coaching/service.go:603-638 | with ordered disjoint windows the list is strictly increasing |
| Slots.OfferedIsBookable | backend/internal/coaching/service.go:943-993 | the booking check's exact answer for a listed start |
| Slots.EndingInRangeIsBookable | backend/internal/coaching/service.go:548-556 | a listed slot that ends within the range is accepted, for an approved accepting coach and fifteen minutes or more |
| Slots.BookableIsOffered | backend/internal/coaching/service.go:943-993 | conversely an accepted grid start in the range is listed |
| Slots.NoDoubleBooking | backend/internal/coaching/service.go:981-991 | an accepted interval overlaps no session that holds its slot |
| Slots.SkippedDayIsRefused | backend/internal/coaching/service.go:606-617 | a clock that skips a day lists a start that is then refused |
| NotifyHub.Hub.Subscribe | backend/internal/notify/hub.go:124-138 | joins the user's current feed or starts one; the socket starts with what is broadcast from then on |
| NotifyHub.Hub.Unsubscribe | backend/internal/notify/hub.go:143-160 | closes the channel once, drops the feed with its last socket, and is a no-op for a socket already out |
| NotifyHub.Feed.Deliver | backend/internal/notify/hub.go:238-246 | every socket gets the event or, with a full buffer, is cut off |
| NotifyHub.Hub.BroadcastLocal | backend/internal/notify/hub.go:232-251 | a stale feed delivers nothing; a current one delivers or cuts off, and goes with its last socket |
| NotifyHub.Hub.Next | backend/internal/notify/hub.go:34-37 | a socket takes its events in order |
| NotifyHub.Hub.NoGaps | backend/internal/notify/hub.go:124-251 | what a socket took is a contiguous prefix of what its feed broadcast since it joined, all of it once drained unless it left or was cut off; feeds are cancelled and channels closed at most once |
| Handshake.StepKeeps | backend/internal/chat/handler.go:246-306 | every step of sockets, account mark, announcements and drops keeps the invariant |
| Handshake.NoRevocationIsLost | backend/internal/chat/hub.go:86-132 | once an announcement was handled, each socket of the account is gone or going, signalled or about to be, or ahead of its first check |
| Handshake.TheFirstCheckSeesIt | backend/internal/chat/handler.go:252-257 | that first check lets nobody in |
| Handshake.ServedExactly | backend/internal/chat/handler.go:343-353 | a check lets a socket serve exactly if it is answered and the account is not marked |
| Handshake.DropsRunOnce | backend/internal/chat/hub.go:115-132 | a drop runs at most once, never before the registration, and a closed socket is not listed |
| Handshake.AtMostOneLateEvent | backend/internal/chat/handler.go:395-403 | at most one client event is dispatched after the mark, none after a check that saw it |
| Handshake.ClosesWithinSevenTurns | backend/internal/chat/handler.go:343-353 | even with every announcement lost, a socket of a marked account makes at most seven more turns |
| Handshake.NeverStuck | backend/internal/chat/handler.go:273-306 | a socket that is not closed always has a turn to take |
| Handshake.Hub.Register | backend/internal/chat/hub.go:86-98 | lists one connection of the account and leaves the others |
| Handshake.Hub.Deregister | backend/internal/chat/hub.go:102-113 | removes exactly that connection, and the account's entry with the last one |
| Handshake.Hub.EndSessions | backend/internal/chat/hub.go:123-132 | forgets the account and calls each of its drops exactly once |
| EmailOutbox.RetryDelay | backend/internal/notify/outbox.go:128-134 | the doubling loop gives ten seconds times a power of two, at most an hour |
| EmailOutbox.AttemptKeeps | backend/internal/store/db/email_outbox.sql.go:63-89 | recording or losing an attempt keeps the row's attempts counted, bounded and apart |
| EmailOutbox.SentExactlyWhenAccepted | backend/internal/notify/outbox.go:80-98 | with nothing unrecorded a row is sent exactly if some attempt was accepted, and then it is never due again; a row is due exactly while unsent, short of thirty-two attempts and past its delay |
| EmailOutbox.LastAttemptAfter84310 | backend/internal/notify/outbox.go:18-29 | with every attempt recorded the thirty-second comes at least 84,310 s after the first |
| EmailOutbox.LastAttemptWithinADay | backend/internal/notify/outbox.go:18-22 | and may come exactly then, which is less than a day |
| EmailOutbox.LeftAloneBounded | backend/internal/store/db/email_outbox.sql.go:99-104 | a due email that n passes leave alone had a hundred n others due no later, or joining at the moment it was due |
| EmailOutbox.AttemptedInTime | backend/internal/notify/outbox.go:69-101 | with k such emails it is attempted within k / 100 + 1 passes |
| EmailOutbox.NobodyJoins | backend/internal/store/db/email_outbox.sql.go:99-104 | nobody joins an email that was due before the first pass |
| EmailOutbox.Relay.PendingEmails | backend/internal/store/db/email_outbox.sql.go:99-104 | the due, unexhausted rows in the order they are due, at most a hundred, the earliest ones |
| EmailOutbox.Relay.Attempt | backend/internal/notify/outbox.go:75-98 | what the mail server answered is what is recorded, as far as the database works: accepted mail is sent for good, refused mail waits its delay |
| EmailOutbox.Relay.Drain | backend/internal/notify/outbox.go:69-101 | the picked rows are worked on up to the first outcome that cannot be recorded, each as the mail server answered; `sent` counts those of them it accepted, and an error is reported exactly if a database call reported one |
| RateLimit.RateLimiter.Allow | backend/internal/auth/ratelimit.go:32-44 | unavailable exactly if a call reported an error; an answered request is allowed exactly if it is among the first `limit` of its key and window; and what becomes of the counter and its expiry |
| RateLimit.KeptOk | backend/internal/auth/ratelimit.go:38-42 | a counter that expired belongs to a window that is over |
| RateLimit.WindowBound | backend/internal/auth/ratelimit.go:32-44 | one window of the clock allows at most `limit` requests of a key |
| RateLimit.SlidingBound | backend/internal/auth/ratelimit.go:17-22 | any stretch of one window's length allows at most twice that |
| RateLimit.BoundIsTight | backend/internal/auth/ratelimit.go:17-22 | and twice the limit can pass within two neighbouring moments |
| Text.SplitJoined | ml-analyzer/app/coaching/agency.py:281-283 | splitting joined words gives the words back |
| Citations.SquashComparesWords | ml-analyzer/app/coaching/agency.py:281-283 | two texts squash to the same exactly if they have the same words in lower case |
| Citations.FoldsAlikeExactly | ml-analyzer/app/coaching/agency.py:173 | two texts fold to the same exactly if they differ in straight and curly apostrophes alone |
| Citations.CitesExactly | ml-analyzer/app/coaching/agency.py:260-265 | a citation spelled out: the message exists, a straight or closing curly quote ends it, and its three or more words, in lower case and with single spaces, are a piece of that message |
| Citations.CitationEnd | ml-analyzer/app/coaching/agency.py:260-265 | the last closing quote that makes the text a quotation of three words or more from the source, if any |
| Citations.StripNormalised | ml-analyzer/app/coaching/agency.py:257-278 | each proven span is replaced by one space, all spans are proven and disjoint, and no other start cites anything; without sources the text is unchanged |
| Citations.SameSpans | ml-analyzer/app/coaching/agency.py:257-278 | those properties leave only one possible list of spans |
| Citations.KeptVerbatim | ml-analyzer/app/coaching/agency.py:267-278 | every character outside the spans is kept, at its place less what was saved before it |
| Citations.NoSources | ml-analyzer/app/coaching/agency.py:238-249 | without sources the text is unchanged |
| Heuristic.EvidenceConserved | ml-analyzer/app/scoring/heuristic.py:109-135 | the opening run of the match, then each customer message with the run it drew, make up the sorted conversation, nothing lost or repeated |
| Heuristic.InOneRun | ml-analyzer/app/scoring/heuristic.py:109-135 | a match message after the first customer message lies in exactly one run |
| Heuristic.MergedHasAllWords | ml-analyzer/app/scoring/heuristic.py:96-106 | a merged reply has the words of all its bubbles and the first one's position |
| Heuristic.MergedAsks | ml-analyzer/app/scoring/heuristic.py:96-106 | a question in any bubble is one in the merged reply |
| Heuristic.ScoreExactly | ml-analyzer/app/scoring/heuristic.py:54-93 | the score in words, question marks and fillers: 0.15, 0.4, 0.6 or 0.85 by the reply, and 0.05, 0.05 and -0.1 by the own wording |
| Heuristic.BetterRepliesScoreHigher | ml-analyzer/app/scoring/heuristic.py:74-79 | for one and the same message no reply, a short one, an ordinary one and a full one score apart by exactly 0.25, 0.2 and 0.25 |
| Heuristic.EveryOwnMessageReviewed | ml-analyzer/app/scoring/heuristic.py:109-135 | each customer message is reviewed once, in order, by the run that follows it, and no other message is |
| Heuristic.ReviewSelfMessages | ml-analyzer/app/scoring/heuristic.py:109-135 | the loops review every customer message once, in order, each with the score that its and its reply's words, question marks and fillers give it |
| Heuristic.Chunk | ml-analyzer/app/scoring/base.py:25-32 | the windows concatenate to the sorted conversation, and all but the last are full |
| Heuristic.ReviewClampIsNoOp | ml-analyzer/app/scoring/heuristic.py:73-93 | a review's score lies between 0.05 and 0.95 before it is clamped |
| Heuristic.MeanClampIsNoOp | ml-analyzer/app/scoring/heuristic.py:256-270 | so do means, so clamping them changes nothing |
| Heuristic.Analyze | ml-analyzer/app/scoring/heuristic.py:248-283 | a segment per window with the mean of its reviews, and the mean of all overall |
| Heuristic.OverallIsWeightedAverage | ml-analyzer/app/scoring/heuristic.py:248-283 | with distinct positions the overall score is the segments' average weighted by customer messages |
| Analysis.StepKeeps | backend/internal/analysis/worker.go:33-134 | every step of submissions, locked reanalyses, both publish attempts, deliveries and workers keeps the invariant, unless it is a misled read |
| Analysis.ReadKeeps | backend/internal/analysis/service.go:214-224 | a read keeps the invariant if and only if it does not find a finished latest run while the newest one is unfinished |
| Analysis.PublishKeeps | backend/internal/analysis/queue.go:109-126 | a publish that fails, with or without a message left behind, is tried once more or handed to the cleanup |
| AnalysisOutcomes.PublishExactly | backend/internal/analysis/queue.go:109-126 | which publishes leave a message, are tried once more, end the request or go to the cleanup |
| AnalysisOutcomes.AtMostOneUnfinished | backend/internal/analysis/service.go:203-254 | only the newest run of a conversation can be pending or running |
| AnalysisOutcomes.ReadExactly | backend/internal/analysis/service.go:214-224 | a reanalysis adds a run exactly if there is none or the one created last is finished |
| AnalysisOutcomes.LatestIsLast | backend/internal/store/db/analysis.sql.go:301-306 | rows created in the order of insertion never mislead |
| AnalysisOutcomes.MisleadingLetsIn | backend/internal/analysis/service.go:207-231 | from every state with misleading rows a second unfinished run follows |
| AnalysisOutcomes.PublishedByOne | backend/internal/analysis/queue.go:109-126 | one client publishes a run, at most twice, and twice only after the first was reported failed; every message stems from one of these |
| AnalysisOutcomes.FinishedStaysFinished | backend/internal/store/db/analysis.sql.go:16-52 | no finished run becomes unfinished again, in any run |
| AnalysisOutcomes.StatusStepExactly | backend/internal/store/db/analysis.sql.go:16-52 | the status every step leaves a run with |
| AnalysisOutcomes.SecondFailureIsRecorded | backend/internal/analysis/worker.go:125-134 | a scoring that fails is redelivered the first time and recorded as the failure the second time |
| AnalysisOutcomes.StatusChangesExactly | backend/internal/store/db/analysis.sql.go:42-52 | the steps that change a finished run's status, exactly |
| AnalysisOutcomes.FinalExactlyWhenClosed | backend/internal/store/db/analysis.sql.go:198-205 | some continuation changes a recorded outcome if and only if a worker, or the Submit that made the run, may still write the other one |
| AnalysisStranding.AbandonedForever | backend/internal/analysis/service.go:229-254 | no step touches a run that is unfinished and in nobody's hands |
| AnalysisStranding.AbandonedExactly | backend/internal/analysis/queue.go:201-213 | a step leaves such a run behind if and only if it is one of four, by the guards of the failing branches |
| AnalysisStranding.AbandonedBySomeStep | backend/internal/analysis/service.go:229-254 | every abandoned run was abandoned by one of these |
| AnalysisStranding.BlockedForever | backend/internal/analysis/service.go:214-224 | if the latest run is abandoned, every later reanalysis returns it and the conversation gets no other |
| AnalysisStranding.StopBeforePublishBlocks | backend/internal/analysis/service.go:229-239 | every request that stops between its commit and its first publish brings this about |
| AnalysisConvergence.QuietStepShrinks | backend/internal/analysis/queue.go:174-216 | without failures and new requests every step lowers one measure |
| AnalysisConvergence.QuietDoomsNothing | backend/internal/analysis/worker.go:33-134 | a quiet step neither dooms a run nor saves a doomed one |
| AnalysisConvergence.Converges | backend/internal/analysis/worker.go:33-134 | every quiet schedule ends within a known bound, with a run finished if and only if it was not doomed when the quiet began |
| AnalysisExamples.BothOutcomesCanBeOverwritten | backend/internal/analysis/service.go:173-185 | failure and success are both reached as outcomes that the other may still overwrite |
| AnalysisExamples.MisleadingIsReached | backend/internal/store/db/analysis.sql.go:301-306 | overlapping reanalyses reach misleading rows |

## Left out

- Paid bookings and the response lifecycle of sessions: decided by queries outside the modelled statements, and no payment provider can be enabled.
- AMQP, Redis, PostgreSQL, HTTP, SMTP and WebSocket transports: only their effects, as steps that may fail.
- JWT signing, bcrypt, SHA-256, Google keys and randomness: fresh tokens and an injective hash stand for them.
- Deletion jobs that do not decode or carry no user id, header integer widths, expiry of denylist entries, and what an operator does with the dead-letter queue.
- The chat hub's event channels: the notification hub is modelled instead, which has the same shape and more branches.
- The Redis subscription inside a notification feed and the moment it becomes ready: a broadcast is what the pump hands to the hub.
- Presence refreshes and outgoing events of a chat socket, which change nothing about its session, and failures of the socket before it registers.
- What the limiter does when Redis is down: the middleware lets the request pass, and such requests are not counted as allowed.
- The agency rules' patterns, prompts, vision calls and the trained model: there is no specification to prove.
- The reciprocity patterns, comments and summary texts of the heuristic scorer: wording only.
- Reading, listing and projecting analysis results, and the notification sent when one is ready.
- Profile validation, prices, response deadlines, calendar escaping and image headers: true but easy next to the above.
- AppSession.StepKeeps: leaves out runs in which a profile is stored with another account's tokens, beyond the step that does it, because what the app then shows and does belongs to no one account.
- Expiry and families in the statement-by-statement rotation: a rotation of an expired token is one that aborts, and families are in `Sessions`.
