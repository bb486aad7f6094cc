# Protocols of the triage platform, modelled and proved in Dafny

The project models six protocols of the platform and proves what each keeps over every run. Redis
commands and MULTI blocks are single atomic steps, the clock only moves forward, and everything outside
the code (the broker's answers, the model's answers, failing calls, fresh ids, crashes, the deny-list) is
an arbitrary input. State machines are a `Step` datatype with `Enabled`, an effect function and an `Exec`
over sequences of steps, so a lemma about `Exec` is about every interleaving. Beside them, classes with the
source's fields give the same calls run one at a time; their methods are proved equal to specification
functions, and the `*Alone*`/`*IsARun` lemmas tie those functions to the machines.

| files | what they are |
|---|---|
| RefreshStore, SessionProtocol, SessionSafety, SessionTheorems | refresh tokens: logins, rotations, logouts and burns interleaved one Redis command at a time |
| Glob, BurnPattern | the patterns of SCAN, and which keys a burn deletes |
| SessionService, SessionAlone | the same calls one at a time, as a map from users to their valid token |
| SessionLife, SessionKeys | how long tokens are accepted and keys live, one call at a time and interleaved, and why tokens are refused |
| WalStore, WalProtocol, WalLedger, WalHistory, WalSweep, WalLease | write-ahead log: ingests and any number of reconcilers, with expiry, failing commands, lost replies and crashes |
| WalBounds, WalDeadline, WalFaults, WalSubjects | how often, how close together and for how long publishes of an alert can fail over those runs, under which faults, and which values are given up |
| WalReconciler, WalAlone | one reconciler's scan, and its tie to the protocol |
| Router, Triage, TriageNodes, TriageTheorems | tool routing, the burst, and the budgeted triage graph against any model |
| Base64Url, CompactJwt | base64url and the gateway's compact tokens |
| ServiceSecrets, JwtService, JwtAgreement | secret rotation, the verify cache, and when the cache agrees with verifying afresh |
| WatcherRegistry | four redundant indices refining one relation |
| CancelProtocol, CancelTheorems, CancelRegistry | the debounced cancel |
| WorkerJob, WorkerDispatch, WorkerEvents | permits, settlements and event numbers of the triage worker |
| Strings, Subjects | splitting, and the subjects of triage messages |

## What is false of the code, and the exact condition

- A burn takes exactly its own family's tokens only for some family ids, since SCAN reads the id as a
  pattern and a presented token's family is not checked: `BurnPattern.Exact` decides it from the id alone,
  and `SessionService.BurnExactIff` proves that it is the exact condition. Every id newId draws is exact, and
  so is every text without `*`, `?`, `[` or `\` (`BurnPattern.PlainIsExact`); among ids with stars and
  question marks none is (`BurnPattern.WildcardsIff`); a star takes every user's token
  (`SessionService.StarTakesAll`); but a special character alone decides nothing
  (`BurnPattern.EmptyClassIsExact`). The interleaved results hold for every id. Redis matches the UTF-8 bytes of
  these texts, so a char of the model is one byte; for classes with bytes above 127 the condition depends on
  whether C's char is signed where Redis is built (`BurnPattern.SignDecides`), which is a constant of the model.
- A value just written to the log can be lost to a process that still holds an earlier value of its alert
  (`WalSweep.RewriteCanBeLost`), exactly when at that moment one is under way at a stage that may still delete
  (`WalSweep.SweptIff`); otherwise it never is (`WalSweep.NoLoss`). This is for a max_age above the longest
  backoff of eight hours; the default is a day.
- A request whose own write failed still clears what it finds under its alert once the broker has
  acknowledged it, and so can lose a value nobody acknowledged (`WalSweep.RefusedWriteCanLose`). While no
  further write of the alert is refused, that can happen to a value exactly when such a request is under way
  at the moment it is written (`WalSweep.ClearedIff`).
- A WAL entry without a subject is not moved to the DLQ after max_age, as the resolver's comment says: over
  every run it is neither given up nor dropped (`WalSubjects.NoSubjectStays`), and a fresh entry can be given
  up exactly if it has a subject (`WalSubjects.GivenUpIff`). The resolver raises, and the scan stops there
  (`WalReconciler.ScanStopsAtFirstRaise`).
- An entry's publishes can fail more than seven times exactly if INCR, EXPIRE or the SETEX of the next key may
  fail or seem to, the DEL of giving up may fail, a lease may be lost between acquire and release, or a reconciler
  may die between a failed publish and its record: each of the six alone is enough, and without them the bound holds in every
  run (`WalFaults.SevenFailuresIff`, for a max_age above 48935 s and eight leases; the defaults are a day and
  30 s). While that SETEX fails there is no bound at all (`WalFaults.FailuresUnbounded`). The counter counts
  scans, not publishes, so even without a fault an entry can be given up after any number of publishes from two
  to seven (`WalFaults.GivenUpAfter`).
- A value given up is lost unless the DLQ publisher takes it: the ledger's `delivered` says which did
  (`WalHistory.LedgerMeans`).
- The next key of one alert is the attempts key of an alert whose id is the first one's with ":next" after
  it; otherwise no two keys of the log coincide (`WalStore.KeysEqualIff`).
- The verify cache changes verdicts if rotations come less than 360 seconds apart
  (`JwtAgreement.AgreeableIff`); for a token to be accepted through its leeway the exact bound is 390
  (`JwtAgreement.LastingIff`).
- Popping a revoked jti from the verify cache does nothing, since the cache is keyed by token; a revoked
  token is refused all the same (`JwtService.PopTouchesNothing`, `JwtService.RevokedIff`).
- The cancel debounce can fire within the grace of the latest request, or after a revoke, exactly when
  callers let a call start while another is under way or while the registered timer is awake
  (`CancelTheorems.FiresWronglyIff`); the worker's cancel loop makes its calls one at a time, and a caller can
  tell by the clock that the timer is asleep (`CancelTheorems.AsleepByTheClock`).
- Registering an object under another user, ending a watch under another tenant, and refreshing a missing
  meta each break the registry's indices, and nothing else does (`WatcherRegistry.StepRefines`).
- A worker can publish an alert's events out of order exactly if deliveries of the alert may overlap and it has
  two permits or more (`WorkerEvents.MisordersIff`). From one state on, while no further delivery overlaps, it
  still can exactly when two of them may still publish (`WorkerEvents.OutOfOrderIff`); numbers are never
  repeated (`WorkerEvents.NumbersAreUnique`).

## Model

| member | source | states |
|---|---|---|
| SessionTheorems.Conservation | frontend/lib/session.ts:46-149 | in every interleaving a family's live refresh keys plus its rotations past a successful DEL and unfinished are at most one |
| SessionTheorems.OneChain | frontend/lib/session.ts:99-149 | no refresh token is exchanged twice, and a family's exchanges form one chain from its login's token, each with the login's identity |
| SessionTheorems.AbsoluteLifetime | frontend/lib/session.ts:69-74 | rotation never extends a family's life: every successful exchange read the index before login plus the refresh TTL |
| SessionKeys.TokenLives | frontend/lib/session.ts:69-80 | in every interleaving a refresh key is there for exactly ttl from the command that set it, up to a rotation presenting it or a burn whose scan returned it |
| SessionKeys.IndexLives | frontend/lib/session.ts:69-74 | and a family's index for exactly ttl from its login, up to a burn of the family |
| SessionTheorems.BurnIsFinal | frontend/lib/session.ts:117-149 | once a completed login's index is gone it stays gone, and the successes still to come are at most the rotations that had read it |
| SessionTheorems.AtMostOneAfterBurn | frontend/lib/session.ts:210-220 | after a burn, logout or expiry at most one more exchange of the family succeeds, and none if no rotation was past the index |
| SessionTheorems.LateExchangeHappens | frontend/lib/session.ts:117-149 | a run in which that one exchange does happen, after a logout has burnt the family |
| SessionSafety.RunKeeps | frontend/lib/session.ts:46-165 | every run of interleaved commands keeps the slot, index, record and chain invariants |
| SessionSafety.StepKeeps | frontend/lib/session.ts:46-165 | every single command of a login, rotation, logout or burn keeps them |
| SessionSafety.Loses | frontend/lib/session.ts:155-165 | time, logouts and burns only take keys away and advance no rotation |
| SessionSafety.BurnEffect | frontend/lib/session.ts:210-220 | a burn's command deletes at most its family's index key and refresh keys that SCAN's pattern returned, and touches no other process |
| SessionAlone.RotationIsSequential | frontend/lib/session.ts:99-149 | a rotation nobody interferes with, taken command by command with its burn, its pattern and any SCAN batches, leaves the store and returns the outcome of the sequential call |
| SessionAlone.LoginIsSequential | frontend/lib/session.ts:46-82 | a login nobody interferes with leaves the store of the sequential login |
| SessionAlone.LogoutIsSequential | frontend/lib/session.ts:155-165 | a logout nobody interferes with leaves the store of the sequential logout, whichever of its deletion and its burn comes first and whatever SCAN returns |
| SessionService.SerialRunRefines | frontend/lib/session.ts:46-165 | every serial run of the keys is a run of a map from users to at most one valid token, a burn taking from it what its pattern hits |
| SessionService.SerialRuns | frontend/lib/session.ts:46-165 | from the empty store on |
| SessionService.RotationRefines | frontend/lib/session.ts:99-149 | a rotation succeeds exactly on some user's valid token and replaces it; reuse takes what the family's pattern hits, which for an exact id is its family; any other refused token changes nobody's |
| SessionService.LoginReplaces | frontend/lib/session.ts:46-82 | a login gives its user a new valid token in place of any old one and touches nobody else's |
| SessionService.LogoutClears | frontend/lib/session.ts:155-165 | a logout takes exactly the user's token |
| SessionService.BurnClearsFamily | frontend/lib/session.ts:210-220 | a burn takes exactly the tokens its pattern hits, and for an exact id exactly its family's |
| SessionService.BurnExactIff | frontend/lib/session.ts:210-220 | a burn takes exactly its family's tokens in every store exactly when its id is exact: an id newId draws, or one whose pattern matches no two ids |
| SessionService.StarTakesAll | frontend/lib/session.ts:102-115 | a presented family of a star is refused as reused and leaves nobody a valid token |
| BurnPattern.ExactHits | frontend/lib/session.ts:215 | the pattern of an exact id hits exactly the keys of its family |
| BurnPattern.InexactHits | frontend/lib/session.ts:215 | the pattern of any other id hits some key of another family |
| BurnPattern.PlainIsExact | frontend/lib/session.ts:215 | ids without a special character are exact |
| BurnPattern.WildcardsIff | frontend/lib/session.ts:215 | among texts of id characters, stars and question marks, exactly those without either are exact |
| BurnPattern.SignDecides | frontend/lib/session.ts:215 | whether an id with a class that ends beyond ASCII is exact can depend on whether chars are signed where Redis is built |
| BurnPattern.KeysAreTexts | frontend/lib/session.ts:29-33 | a presented key is a stored one exactly when their texts are equal |
| Glob.StarIff | frontend/lib/session.ts:215 | a star of a pattern stands for any stretch of text |
| Glob.OneIff | frontend/lib/session.ts:215 | a question mark stands for any one character and an escaped character for itself |
| Glob.SpanIff | frontend/lib/session.ts:215 | a bracketed span takes the ASCII characters within it, and with a caret those outside |
| Glob.PlainPrefix | frontend/lib/session.ts:215 | characters that are not special match themselves at the front of a pattern |
| SessionLife.LoginLasts | frontend/lib/session.ts:46-82 | from any serial store at any time a login's token is accepted exactly if presented less than ttl after it, and else refused as reused |
| SessionLife.RotationLasts | frontend/lib/session.ts:117-149 | a rotated token is accepted exactly if presented less than ttl after the rotation and before its index runs out, with the reason where it is refused |
| SessionLife.ChainLasts | frontend/lib/session.ts:46-149 | a login and any number of rotations after waits of any length all succeed exactly if the waits add up to less than ttl |
| SessionLife.WaitingIff | frontend/lib/session.ts:69-80 | after waiting d exactly the users keep their token whose key and index live longer than d |
| SessionLife.RefusalIff | frontend/lib/session.ts:107-139 | which refused token is reused, of an unknown user, or expired |
| SessionLife.RefusalCosts | frontend/lib/session.ts:107-139 | reuse takes the family's index and what its pattern hits; the other refusals take the presented key only |
| SessionLife.LogoutEnds | frontend/lib/session.ts:155-165 | after a logout the user's token is refused as reused, and neither its key nor its index is left |
| SessionLife.OlderLogin | frontend/lib/session.ts:99-139 | of two logins of one user the older token is refused as reused at nobody's cost, and after a logout as expired |
| SessionLife.TokenShapes | frontend/lib/session.ts:102-105 | a token's first two parts name its family and jti; without a dot or with an empty part it is missing |
| SessionService.ReplayBurns | frontend/lib/session.ts:107-115 | presenting a rotated token again is refused as reuse and costs its user the token it was rotated to, and nobody else's |
| SessionService.WaitingOnlyExpires | frontend/lib/session.ts:69-74 | time gives nobody a token |
| SessionService.TokenRoundTrip | frontend/lib/session.ts:34-36 | a token made of two ids reads back as those ids |
| SessionService.Sessions.StartSession | frontend/lib/session.ts:46-82 | leaves the record, index and refresh key of the login and returns a token that names them |
| SessionService.Sessions.RotateRefresh | frontend/lib/session.ts:99-149 | leaves exactly the store, and returns exactly the outcome or error, of the rotation specification, for every token string |
| SessionService.Sessions.BurnFamily | frontend/lib/session.ts:210-220 | whatever the SCAN batches, deletes the index and every refresh key the pattern hits and nothing else |
| SessionService.Sessions.Wait | frontend/lib/session.ts:67-80 | time passing leaves exactly the index and refresh keys whose time to live has not run out, and every record |
| SessionService.Sessions.EndSession | frontend/lib/session.ts:155-165 | deletes the record and burns its family, or does nothing for an unknown user |
| WalLedger.Ledger | services/_runtime/ingest_reconciler.py:135-184 | over every run each value ever stored is pending, acked, given up, corrupt, past max_age, replaced, swept by a process done with an earlier value of its alert, or cleared by a request whose own write failed once its alert was acked |
| WalSweep.SweptIff | app/_runtime_glue.py:203-222 | from the moment a value is written some continuation sweeps it exactly when a request or reconciler holding an earlier value of the alert is under way at a stage that may still delete |
| WalSweep.NoLoss | app/_runtime_glue.py:203-222 | a value written while nobody holds an earlier one is, whatever follows, pending, acked, given up, corrupt, past max_age, or replaced by a later write; only if a write of its alert is refused later, or was in a request then under way, may it be cleared after an ack of the alert instead |
| WalSweep.ClearedIff | app/_runtime_glue.py:203-222 | from the moment a value is written some continuation without a refused write of its alert clears it exactly when a request for the alert is under way whose own write was refused |
| WalSweep.RefusedWriteCanLose | services/_runtime/ingest_reconciler.py:135-151 | a concrete run in which a request whose write was refused clears an earlier value that nobody acknowledged |
| WalSweep.RewriteCanBeLost | app/_runtime_glue.py:203-222 | a concrete run in which a second write of an alert is lost |
| WalLedger.RemovalCause | services/_runtime/ingest_reconciler.py:201-255 | each step that removes a pending value, with what entitles it: expiry, an acknowledgement of the value or of its alert, the DLQ or corrupt JSON |
| WalLedger.RunKeeps | services/_runtime/ingest_reconciler.py:135-255 | the ledger invariant holds over every interleaving of ingests, their writes failing or not, and reconcilers with crashes, failing commands and lost replies |
| WalProtocol.UnansweredIs | services/_runtime/ingest_reconciler.py:246-301 | a lost reply to INCR, EXPIRE or the SETEX of next leaves Redis as after success and the reconciler as after failure |
| WalLedger.IngestKeeps | app/_runtime_glue.py:203-222 | an inline publish and its clearing keep the ledger |
| WalLedger.JobKeeps | services/_runtime/ingest_reconciler.py:201-255 | each command of a reconciler keeps the ledger |
| WalLease.Exclusion | services/_runtime/ingest_reconciler.py:170-184 | of two owners inside acquire..release for one alert the earlier one's lease has expired or a mark_published for the alert came since |
| WalLease.LeaseLoss | services/_runtime/ingest_reconciler.py:261-290 | a lease goes only by expiry, by a mark_published for its alert or by its own holder's release |
| WalAlone.VisitIsSequential | services/_runtime/ingest_reconciler.py:170-255 | a reconciler's visit taken alone through the protocol leaves the keys of the sequential visit |
| WalReconciler.Reconciler.WriteAhead | services/_runtime/ingest_reconciler.py:135-151 | stores the value with max_age to live and touches nothing else |
| WalReconciler.Reconciler.MarkPublished | services/_runtime/ingest_reconciler.py:153-164 | deletes pending, lease and attempts, and leaves the next key |
| WalReconciler.Reconciler.IncrementAttempts | services/_runtime/ingest_reconciler.py:292-301 | counts one more and renews the counter's time to live |
| WalReconciler.Reconciler.MoveToDlq | services/_runtime/ingest_reconciler.py:303-318 | deletes pending, attempts and next |
| WalReconciler.Reconciler.AcquireLease | services/_runtime/ingest_reconciler.py:261-270 | succeeds exactly when there is no lease, and then holds it |
| WalReconciler.Reconciler.ReleaseLease | services/_runtime/ingest_reconciler.py:272-290 | deletes the lease only if it is its own |
| WalReconciler.Reconciler.ProcessOne | services/_runtime/ingest_reconciler.py:201-255 | leaves the keys and comes to the result of the processing specification in each of its branches |
| WalReconciler.Reconciler.RunOnce | services/_runtime/ingest_reconciler.py:170-184 | does what the scan specification does with every alert found, up to an exception |
| WalReconciler.ProcessIsLocal | services/_runtime/ingest_reconciler.py:201-255 | processing one alert touches no other alert's keys |
| WalReconciler.RetryDueIff | services/_runtime/ingest_reconciler.py:214-255 | after the n-th failed publish processing passes the alert over for exactly 5, 30, 300, 1800, 3600, 14400 or 28800 s, and then tries again |
| WalStore.KeysLive | services/_runtime/ingest_reconciler.py:135-151 | the pending, lease, attempts and next keys live for exactly the span they are set for |
| WalStore.KeysEqualIff | services/_runtime/ingest_reconciler.py:57-66 | two keys of the log coincide only if they are the same, or one alert's next key is the attempts key of the alert with that suffix |
| WalReconciler.ProcessIsDecided | services/_runtime/ingest_reconciler.py:201-255 | processing is decided by the alert's own keys |
| WalReconciler.ScanStopsAtFirstRaise | services/_runtime/ingest_reconciler.py:170-184 | a scan visits each alert as if alone up to the first without a subject, and leaves the rest as they were |
| WalBounds.SevenFailures | services/_runtime/ingest_reconciler.py:214-255 | over runs of any number of reconcilers in which INCR, EXPIRE and SETEX of next succeed and are answered, the giving-up DEL succeeds, no lease is lost, no reconciler dies between a failed publish and its record, and the alert is not written again, a fresh entry fails at most seven publishes |
| WalFaults.SevenFailuresIff | services/_runtime/ingest_reconciler.py:214-318 | until it is written again a fresh entry can fail more than seven publishes exactly if one of those six faults may happen, each alone being enough |
| WalFaults.GivenUpAfter | services/_runtime/ingest_reconciler.py:214-255 | without any fault a fresh entry can be given up after any number of failed publishes from two to seven |
| WalSubjects.NoSubjectStays | app/_runtime_glue.py:64-76 | over every run a value without a subject is never given up nor dropped, whatever else of the ledger happens to it |
| WalSubjects.GivenUpIff | app/_runtime_glue.py:64-76 | after any run a fresh value whose alert is unleased can be given up exactly if it has a subject |
| WalHistory.LedgerMeans | services/_runtime/ingest_reconciler.py:135-318 | over every run each cause in the ledger is there exactly if what it names happened to the value, and a value given up is delivered exactly if the DLQ publisher took it |
| WalHistory.BareAcksMean | app/_runtime_glue.py:203-222 | an alert counts as acknowledged for a request that stored nothing exactly if it was |
| WalHistory.MarksMean | services/_runtime/ingest_reconciler.py:153-164 | the count of mark_published calls for an alert is the number of times it deleted the alert's keys |
| WalDeadline.GivesUpInTime | services/_runtime/ingest_reconciler.py:214-255 | in such runs, taken up and finished by some reconciler within every S with every publish failing, a fresh entry is given up within 7·S + 20135 s of its write if that is below max_age |
| WalDeadline.RunInHand | services/_runtime/ingest_reconciler.py:214-255 | until then it is still pending, the same value, and after it has gone through _move_to_dlq |
| WalFaults.FailuresUnbounded | services/_runtime/ingest_reconciler.py:246-255 | while the SETEX of next fails, publishes of an alert can fail any number of times |
| WalBounds.RetriesApart | services/_runtime/ingest_reconciler.py:54 | after a reconciler's failed publish at counter n no reconciler publishes the alert for 5, 30, 300, 1800, 3600, 14400 s for n = 1 to 6 and 28800 s from 7 on, in any run under the same conditions |
| WalBounds.DueIff | services/_runtime/ingest_reconciler.py:218-246 | recording that failure makes the alert due in exactly that many seconds, and whoever comes to it publishes exactly if it is due |
| Router.BudgetIs | services/mitre_router.py:316-318 | the budgets 3, 5, 8 and 15 of the four severities in any case, and 5 of anything else |
| Router.RoutingIs | services/mitre_router.py:272-282 | a technique's own entry, or else that of the text before its first dot, or else the fallback |
| Router.MergeInOrder | services/mitre_router.py:285-308 | priority tools come in the order of the techniques, then the others by technique and within an entry in its order |
| Router.Offer | services/mitre_router.py:285-308 | one appended tool keeps the list the first occurrences of everything offered |
| Router.GetToolsForTechniques | services/mitre_router.py:285-308 | the two-pass merge is the first-occurrence dedup of all priority tools followed by all tool lists |
| Router.FirstOccurrencesOrdered | services/mitre_router.py:285-308 | that dedup has the same elements, each once, in order of first appearance |
| Router.MergeIsASet | services/mitre_router.py:285-308 | the merge has no repeats and fires a tool exactly when some technique's entry names it |
| Router.OrderDoesNotMatter | services/mitre_router.py:285-308 | which tools are fired ignores the order and repetition of techniques |
| Router.PrioritiesFirst | services/mitre_router.py:285-308 | priority tools come before all others |
| Router.RunBurstEnrichment | agents/enrichment_node.py:355-404 | one record and one enrichment entry for each routed tool with a builder that returned, none overwritten |
| Router.BurstHasNineRecords | agents/enrichment_node.py:174-184 | a burst over the registered builders leaves at most nine records |
| Triage.AgentThink | services/triage_pipeline.py:247-389 | leaves the state of the think specification: cancel, both providers failing, or the known planned calls cut to the budget |
| Triage.ExecuteTool | services/triage_pipeline.py:393-455 | answers each call of the last message once and in order, charges the budget, and records every attempt |
| TriageNodes.ThinkCalls | services/triage_pipeline.py:350-389 | each known tool planned is called with its name and arguments, in order, as many as the budget allows, and nothing else |
| TriageNodes.ThinkGoesOnIff | services/triage_pipeline.py:572-589 | tools are executed exactly if the model wants to go on with a known tool and a budget and no cancel was seen |
| TriageNodes.ExecuteCalls | services/triage_pipeline.py:407-455 | call by call: the reply's id and name, the tool counted, the budget charged, and the enrichment left by the last call of a tool to return |
| TriageNodes.ExecuteGoesOnIff | services/triage_pipeline.py:592-596 | after an execution the model thinks again exactly if budget is left and no cancel was seen |
| TriageNodes.TriagedEnrichment | services/triage_pipeline.py:407-455 | over a whole run a tool's enrichment is what its last call to return said, or what the burst left if none did |
| TriageNodes.VerdictCancelledIff | services/triage_pipeline.py:458-560 | the verdict says cancelled exactly if a node saw the flag or the model says so |
| Triage.StepProgresses | services/triage_pipeline.py:574-650 | every pass of the graph brings it nearer its verdict, whatever the model answers |
| TriageTheorems.ReachesVerdict | services/triage_pipeline.py:604-650 | every run reaches exactly one verdict within twice the remaining budget plus two visits, and 36 counting the four nodes before |
| TriageTheorems.BudgetConserved | services/triage_pipeline.py:171-224 | the budget is never negative, and budget plus follow-up calls is what the burst left until a failure or cancel zeroes it |
| TriageTheorems.HistoryWellFormed | services/triage_pipeline.py:350-455 | at every entry to agent_think each call has been answered once, in order, and no round carries more calls than its budget |
| TriageTheorems.FormedIsAnswered | services/triage_pipeline.py:407-455 | a well-formed history, read index by index: each message with calls is followed by exactly their replies |
| TriageTheorems.FormedIsSolicited | services/triage_pipeline.py:407-455 | every reply in a well-formed history was asked for |
| TriageTheorems.VerdictCounts | services/triage_pipeline.py:443-490 | every verdict reports the calls attempted, at most the larger of budget and burst |
| TriageTheorems.NeverMoreThanFifteen | services/triage_pipeline.py:553-566 | with the burst that precedes it no verdict reports more than fifteen |
| TriageTheorems.CancelIsFinal | services/triage_pipeline.py:253-260 | after a node sees the cancel flag no tool runs and the next node is a cancelled verdict |
| TriageTheorems.CancelledIff | services/triage_pipeline.py:399-402 | the run is cancelled exactly when some node before the verdict saw the flag |
| Base64Url.B64UrlEncode | gateway/src/jwt.ts:21-27 | the byte loop and replacements compute the encoding specification |
| Base64Url.B64UrlDecode | gateway/src/jwt.ts:33-39 | the padded decode fills an array with the decoding specification, or fails where atob does |
| Base64Url.EncodeSpells | gateway/src/jwt.ts:21-27 | an encoding is the text, in the alphabet of RFC 4648 section 5, that spells the bytes as one binary number |
| Base64Url.AlphabetIs | gateway/src/jwt.ts:21-27 | that alphabet: capitals, small letters, digits, minus, underscore |
| Base64Url.ForeignFails | gateway/src/jwt.ts:33-39 | a text with any other character is not decoded |
| Base64Url.SpacesDropped | gateway/src/jwt.ts:33-39 | the decoder drops blanks, tabs, line feeds, carriage returns and form feeds wherever they stand |
| Base64Url.RoundTrip | gateway/src/jwt.ts:21-39 | decoding an encoding gives every byte string back |
| Base64Url.EncodingIsUrlSafe | gateway/src/jwt.ts:21-27 | an encoding has only the URL-safe alphabet, with no padding and no dot |
| Base64Url.ReencodesIff | gateway/src/jwt.ts:33-39 | encoding a decoding gives the text back exactly when it is URL-safe, of a possible length and without leftover bits |
| Base64Url.DecodeUrlSafe | gateway/src/jwt.ts:33-39 | URL-safe text decodes to its sextets' bytes, unless one sextet is left over |
| CompactJwt.MintHasThreeParts | gateway/src/jwt.ts:61-81 | a minted token splits into exactly its header, payload and signature |
| CompactJwt.MintVerifiesIff | gateway/src/jwt.ts:61-130 | a minted token verifies to the minted claims exactly if the tags agree and JSON keeps the claims, from leeway before issue to leeway after expiry, for its audience and issuer |
| CompactJwt.VerifyIff | gateway/src/jwt.ts:101-130 | acceptance of any string: three dot-free parts, a signature over the first two, a readable payload whose claims pass |
| CompactJwt.MintedSays | gateway/src/jwt.ts:61-81 | an accepted minted token gives back issuer, audience, user, tenant, jti, times and request id |
| CompactJwt.MintedRefusal | gateway/src/jwt.ts:116-129 | why a minted token is refused: expired, future-issued, audience, issuer, in that order |
| CompactJwt.MissingTimes | gateway/src/jwt.ts:119-124 | a signed token without exp is refused as expired, without iat as future-issued |
| CompactJwt.UnreadableIff | gateway/src/jwt.ts:101-116 | exactly which strings are malformed, badly encoded, badly signed or not JSON |
| CompactJwt.OtherSecretIff | gateway/src/jwt.ts:101-115 | under another secret the token is badly signed exactly when the tags differ |
| CompactJwt.NoSubstitution | gateway/src/jwt.ts:101-115 | a minted signature vouches for another header, payload or secret only where two tags collide |
| ServiceSecrets.SecretStore.Rotate | services/_runtime/secret_store.py:97-107 | shifts current to previous under a fresh secret, creates an unknown audience, and never shares a secret |
| ServiceSecrets.HoldsIff | services/_runtime/secret_store.py:221-253 | a secret is current until the next rotation and held until the one after |
| ServiceSecrets.SecretCache.GetSecretBundle | frontend/lib/secrets.ts:37-68 | returns a bundle the store held less than 60 seconds before |
| ServiceSecrets.SecretCache.InvalidateSecretCache | frontend/lib/secrets.ts:70-76 | forgets one audience or all |
| JwtService.DecodeWithRotation | services/_runtime/jwt_service.py:182-199 | trying current then previous accepts exactly the tokens signed by a held secret with good claims |
| JwtService.Service.Mint | services/_runtime/jwt_service.py:101-140 | signs with the current secret, or refuses another audience's bundle |
| JwtService.Service.Verify | services/_runtime/jwt_service.py:142-178 | gives the cached verdict and leaves the cache sound, changed only by storing one accepted token or popping a jti |
| JwtService.Service.CheckRevocation | services/_runtime/jwt_service.py:201-211 | refuses exactly a listed jti; a missing or failing checker refuses nothing |
| JwtService.Service.MaybeEvict | services/_runtime/jwt_service.py:213-224 | drops the expired entries when full, and then a quarter by earliest expiry if still full |
| JwtService.EvictionMakesRoom | services/_runtime/jwt_service.py:213-224 | eviction always leaves room for one more entry and keeps entries unchanged |
| JwtService.EvictionInNumbers | services/_runtime/jwt_service.py:213-224 | nothing goes below 10,000 entries; at 10,000 the expired go, or if none is the 2,500 expiring first |
| JwtService.RevokedIff | services/_runtime/jwt_service.py:201-211 | hit or miss, a good token is refused as revoked exactly if its jti is there and listed; no list, a clear one and a failing one change no verdict |
| JwtService.AcceptedIff | services/_runtime/jwt_service.py:142-199 | verifying afresh accepts exactly a token of a held secret with all six claims, in time by 30 s, for this audience alone, and not listed |
| JwtService.ListedAudience | services/_runtime/jwt_service.py:152-159 | a token naming the audience in a list is refused for its audience |
| JwtService.ServedIff | services/_runtime/jwt_service.py:142-150 | without its secret a token is served exactly from the cache, before its exp |
| JwtService.MintedDecodesIff | services/_runtime/jwt_service.py:101-199 | a minted token is accepted exactly while its secret is held, by its audience, from 30 s before issue until 330 s after |
| JwtAgreement.RunKeeps | services/_runtime/jwt_service.py:142-178 | over any interleaving the cache never exceeds its maximum and each entry is of a token once accepted |
| JwtAgreement.AgreeableIff | services/_runtime/jwt_service.py:142-211 | cached and uncached verdicts agree in every run exactly when rotations are at least 360 s apart, for tokens of bundles up to 60 s stale |
| JwtAgreement.LastingIff | frontend/lib/jwt.ts:107-131 | service tokens stay decodable through exp and leeway exactly when rotations are at least 390 s apart |
| JwtAgreement.AloneIsDecodeKeep | services/_runtime/jwt_service.py:142-178 | an uninterrupted verification of a miss is a decode and a store of the interleaved machine |
| WatcherRegistry.WatcherIndices.RegisterWatch | frontend/lib/watcher-registry.ts:42-70 | makes the registration's four updates |
| WatcherRegistry.WatcherIndices.DeregisterWatch | frontend/lib/watcher-registry.ts:72-85 | edits the given tenant's alert set, or the meta's, and the object's own set |
| WatcherRegistry.WatcherIndices.DeregisterDo | frontend/lib/watcher-registry.ts:87-100 | the loop removes the object from the alert set of each of its alerts, from its user's set, and its own keys |
| WatcherRegistry.WatcherIndices.PruneDoEverywhere | frontend/lib/watcher-registry.ts:164-166 | the same as deregistering |
| WatcherRegistry.WatcherIndices.RefreshTtl | frontend/lib/watcher-registry.ts:141-158 | stamps the meta, creating one without fields if it is missing |
| WatcherRegistry.WatcherIndices.WatchersForAlert | frontend/lib/watcher-registry.ts:106-115 | lists exactly the registered members of the alert's set, each once, with their metas |
| WatcherRegistry.WatcherIndices.DosForUser | frontend/lib/watcher-registry.ts:117-126 | lists exactly the registered members of the user's set |
| WatcherRegistry.RunRefines | frontend/lib/watcher-registry.ts:42-166 | the indices stay consistent throughout a run exactly when every operation is proper, and then they are the run's relation |
| WatcherRegistry.StepRefines | frontend/lib/watcher-registry.ts:42-166 | one operation keeps the indices consistent exactly when it is proper, and then means the relation's operation |
| WatcherRegistry.RegisterIff | frontend/lib/watcher-registry.ts:42-70 | a registration is consistent exactly when the object is new or keeps its tenant and user |
| WatcherRegistry.UnwatchIff | frontend/lib/watcher-registry.ts:72-85 | ending a watch is consistent exactly when the tenant resolves to the object's, or there was no such watch |
| WatcherRegistry.RefreshIff | frontend/lib/watcher-registry.ts:141-158 | refreshing is consistent exactly when the meta exists |
| WatcherRegistry.DeregisteredIsGone | frontend/lib/watcher-registry.ts:87-100 | after deregistering the object is in no index |
| WatcherRegistry.RepresentationIsUnique | frontend/lib/watcher-registry.ts:1-20 | a relation has exactly one representation in the four indices |
| WatcherRegistry.LookupsAreExact | frontend/lib/watcher-registry.ts:106-126 | after any proper run the lookups return exactly the relation's objects |
| WatcherRegistry.KeysAreInjective | frontend/lib/watcher-registry.ts:23-28 | for tenants without a colon different pairs have different keys |
| CancelTheorems.AsksAfterGrace | services/_runtime/cancel.py:118-137 | if calls start one at a time and only while the registered timer sleeps, a timer asks for the pending key at least the grace after the latest request began, with no revoke ended since |
| CancelTheorems.FindsInTime | services/_runtime/cancel.py:80-104 | in such runs it finds the key exactly when it asks within grace + 5 s of its setting |
| CancelTheorems.FiresWronglyIff | services/_runtime/cancel.py:80-137 | after any such run some continuation under a policy fires wrongly exactly when the policy lets calls overlap or start while the registered timer is awake |
| CancelTheorems.AsleepByTheClock | services/_runtime/cancel.py:118-122 | after any such run the registered timer is asleep before its grace has passed |
| CancelTheorems.FiredIsFlagged | services/_runtime/cancel.py:118-137 | a timer that found the key and finished has set the cancelled flag |
| CancelTheorems.FlagLasts | services/_runtime/cancel.py:118-137 | whatever interleaves, a fired alert reads as cancelled for exactly 86400 s from the last time a timer set the flag |
| CancelTheorems.OverlapFiresWrongly | services/_runtime/cancel.py:80-116 | from rest, a request and a revoke overlapping can leave a timer that fires although the revoke has ended |
| CancelTheorems.LateUnwindFiresWrongly | services/_runtime/cancel.py:118-137 | from rest, a request that cancels a timer already awake can lose its own timer to that one's finally clause, and the next request cannot stop it |
| CancelProtocol.FindsIff | services/_runtime/cancel.py:80-137 | in any run a timer finds the key exactly when it asks within grace + 5 s of the last setting and nobody has deleted it since |
| CancelProtocol.RunKeeps | services/_runtime/cancel.py:80-137 | every such run keeps at most one live timer, registered, of the latest unrevoked request |
| CancelRegistry.Registry.RequestCancel | services/_runtime/cancel.py:80-104 | cancels the alert's timer, sets the key and registers a new timer, or only cancels when Redis fails; other alerts are untouched |
| CancelRegistry.Registry.RevokeCancel | services/_runtime/cancel.py:106-116 | cancels the alert's timer and deletes its key |
| CancelRegistry.Registry.FireAfterGrace | services/_runtime/cancel.py:118-137 | sets the flag and clears the key if it is there, and leaves the registry without the timer |
| CancelRegistry.Registry.IsCancelled | services/_runtime/cancel.py:69-78 | says cancelled exactly while the flag lives and Redis answers |
| CancelRegistry.RequestIsARun | services/_runtime/cancel.py:80-104 | an uninterrupted request is a run of the protocol with the same effect |
| CancelRegistry.RevokeIsARun | services/_runtime/cancel.py:106-116 | an uninterrupted revoke is a run of the protocol with the same effect |
| CancelRegistry.FireIsARun | services/_runtime/cancel.py:118-137 | an uninterrupted fire that finds the key is a run of the protocol with the same effect |
| WorkerDispatch.PermitsConserved | services/_runtime/triage_worker.py:159-185 | over any schedule free permits, running dispatches and a permit on its way to the loop add up to max_inflight, and the loop waits only while all are in use |
| WorkerDispatch.SettledOnce | services/_runtime/triage_worker.py:225-276 | each dispatched message gets exactly one of ack, nak and term; ack exactly for handlers that returned, after announcing done or cancelled |
| WorkerDispatch.SettledAsMet | services/_runtime/triage_worker.py:225-276 | over every run a settled message is acked exactly if its job saw a cancel or a successful triage and nothing raised, terminated exactly for no token, a bad one or a poison body, and else handed back |
| WorkerDispatch.AnnouncedAsMet | services/_runtime/triage_worker.py:286-351 | queued is announced first, then cancelled, done or failed as the job met them, of the alert and tenant its message was verified for |
| WorkerDispatch.NothingUnchecked | services/_runtime/triage_worker.py:286-351 | nothing is announced before the message is verified, and nothing triaged unless the cancel flag was looked up and not set |
| WorkerDispatch.StopsClean | services/_runtime/triage_worker.py:159-185 | once the loop has stopped every dispatched message is settled and every permit free |
| WorkerDispatch.RunKeeps | services/_runtime/triage_worker.py:159-276 | every schedule keeps permits, running jobs and settlements in step |
| WorkerJob.ActFits | services/_runtime/triage_worker.py:286-351 | each step of a job keeps its phases in order and its settlement single |
| WorkerJob.JobProgresses | services/_runtime/triage_worker.py:225-276 | a job that is not released can always go on, and every step brings it nearer its release |
| WorkerEvents.NumbersAreUnique | services/_runtime/event_seq.py:52-72 | while the counter lives each delivery's events have increasing numbers and no number is published twice for an alert |
| WorkerEvents.NumbersCount | services/_runtime/event_seq.py:52-72 | an alert's numbers are 1, 2, 3 and so on |
| WorkerEvents.PublishedInOrder | services/_runtime/triage_worker.py:355-376 | when deliveries of an alert do not overlap its events are published in strictly increasing order across redeliveries |
| WorkerEvents.OutOfOrderIff | services/_runtime/triage_worker.py:355-376 | after any run in order so far with a live counter, some continuation in which no further delivery overlaps publishes an alert's events out of order exactly when two deliveries of it may still publish |
| WorkerEvents.MisordersIff | services/_runtime/triage_worker.py:159-185 | with a live counter some run of a worker publishes an alert's events out of order exactly if deliveries of the alert may overlap and max_inflight is at least two |
| WorkerEvents.OverlapPublishesOutOfOrder | services/_runtime/triage_worker.py:159-185 | a worker with two permits or more reaches a state with two deliveries of any alert under way, and from it publishes out of order |
| Subjects.CancelRoundTripIff | services/_runtime/triage_worker.py:430-441 | both parsers give a cancel subject's alert back exactly when it has no dot |
| Subjects.ForeignSubjects | frontend/lib/event-fanout.ts:232-246 | shorter subjects, and those of another service or version, name no alert |
| Subjects.EventRoundTrip | frontend/lib/event-fanout.ts:232-246 | the fan-out reads the tenant and alert of an event subject back |
| Strings.PartsAreClean | gateway/src/jwt.ts:101-104 | no part of a split holds the separator |

## Left out

- Session records: ip, user agent and last-seen fields, which no branch reads; the WebSocket tickets and the jti deny-list of session.ts, which share no key with rotation.
- SessionProtocol: user ids are taken to be non-empty; SCAN may return the keys its pattern hits in any batches; newId's ids are base64url text of any length, assumed never to repeat.
- Redis clients that are missing (the degrade-open branches of the reconciler, cancel registry and sequencer) and connection set-up.
- WalProtocol: JetStream's own deduplication and redelivery; an acknowledgement is only the broker's answer. The process that starts the API configures no DLQ publisher, so there the `delivered` history stays empty.
- WalDeadline: a reconciler's visit counts from its acquiring to its releasing the lease; how long one visit takes is bounded only by the lease.
- Triage: prompt text, prices, summaries and the parsing of arguments; checkpoint resume. LangGraph's recursion limit is taken to allow the 36 steps of ReachesVerdict; the code sets none, uv.lock pins release 1.1.6, and pyproject.toml admits older ones, whose default of 25 is too low.
- Router: the routing table's contents, which are a parameter; severities in letters beyond ASCII, which Python may upper-case to ASCII ones; caching and compression of tool results.
- Cryptography and JSON: HMAC is any function, JSON any encoder and parser (MintVerifiesIff names the claims they must keep), and a service token an opaque string whose signer and payload are given.
- JwtService: extra_claims of mint, the nbf claim, the configurable lifetime and leeway (300 and 30 here), and a verifier whose bundle is stale.
- JwtAgreement: minters and verifier share one clock, a token is stamped at the instant its bundle is returned, and a hit is one step.
- frontend/lib/jwt.ts: access tokens and verifyServiceToken, which repeats the decode of JwtService with another library.
- WatcherRegistry: key expiry, and interleavings between the read and the MULTI of deregisterDo; key strings are pairs, which KeysAreInjective justifies for colon-free tenants.
- CancelProtocol: one process, and one alert at a time; closing the registry.
- WorkerDispatch: cancellation of tasks, and redelivery by the broker, which only brings another dispatch.
- Connectors, HTTP routes, pages, tracing, cost tracking, scoring thresholds and text filters, each settled by reading one branch.
