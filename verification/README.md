# Workload trust platform: reconciler, policy transactions and value layer

A Dafny model of three parts of the platform, with proofs.

**The SPIRE reconciler.** `Service.Run` drives three stores that share no transaction: the
`registration_rules` rows, the SPIRE entry table and the append-only audit log. `Backends` gives the
stores and what each call does to them, `Protocol` one rule's pass as the points at which it waits for
a reply, and `Service` the reconciler as a class over store objects (`Stores`), each method proved to do
what the protocol says. Every call can be answered, fail before it takes effect, or take effect with
its reply lost. `Transcript` and `Accounts` hold for arbitrary replies; `AuditTrail`, `Unaudited`, `Frame`, `Goals`, `Recovery`, `Runs`,
`Convergence`, `Obstacles`, `Crashes` and `Idempotence` are about whole runs under every fault schedule;
`System`, `Histories` and `Marking` interleave single calls of a run with operator replacements, crashes
and outside changes, and `Interference` has another actor delete the entry a pass is at work on. `Witnesses` holds concrete worlds and histories.

**Audited transactions.** `Tables` gives each operator request as one atomic operation, `Transactions`
the same requests as SQL statements of many concurrent clients, with row locks and staged writes.
`Serialization` and `Interleaving` prove that every interleaving is a serial history of the atomic
operations; `PolicyHistory`, `Revisions` and `Spellings` prove what every such history keeps; `Outcomes`
says in the caller's own terms what a success stores and replies and when a request is refused; `Managers`
holds the operator's services as classes that issue the statements one by one. `OperatorSteps` and `Joint`
put the reconciler and the transactions on one database and prove that both sides' results hold there.

**The value layer.** `Text`, `Spiffe`, `Ordering`, `Entries`, `Registration` and `PolicyRules`: SPIFFE ID
and selector text, conversion to and from the wire, comparison of entries, and the validators.

## What the proofs found

- `validateSPIFFEID` (both copies) accepts one bare trailing `?`: `URL.String` writes it back, so the
  comparison with the raw text does not catch it. Such a parent ID never reads back as sent, so the
  rule is updated again in every run. Over the alphabet named below, round trips and idempotence hold
  exactly for canonical IDs (`Spiffe.FormatParse`, `Spiffe.BareQuestionMarkPasses`,
  `Idempotence.SecondRunSilent`). Outside it percent-encoded text fails in the same way and is not
  modelled.
- Both validators also let `:` and `@` stand in a path, which section 2.2 of the SPIFFE-ID standard
  excludes; this harms no later stage.
- `MarkConverged` does not look at the revision, so a replacement that commits after `List` is marked
  converged too (`Witnesses.MarkedButNotTrue`). With the missing guard the mark would be true; without
  it the mark is true exactly when the replacement asks for the entry bound (`Marking.StaleMark`), and
  the next undisturbed run repairs it (`Histories.RepairAfterAnyHistory`).
- One undisturbed run is not always enough. A rule's create can run into another rule's entry that is
  about to be written over or deleted; when the rule in need is listed first, the first run reports a
  conflict and the second converges (`Witnesses.TwoRunsNeeded`). `Crashes.CrashRecovery` says exactly
  when recovery holds, and without outside edits of entries it always does
  (`Histories.RecoveryAfterAnyHistory`).
- The update of a drifted entry can stay out of the audit log for good: when the row already says
  converged and the event is refused, the retry finds the entry in order and returns. `Unaudited` says
  exactly when.
- A pass that found its entry in order does not look again. If somebody deletes the entry after that,
  the rule is counted converged and is bound to nothing (`Interference.DeletionHeals`); the next run
  creates the entry again (`Convergence.SelfStabilises`).
- An audit event's target keeps the caller's spelling of the UUID, so an exact-text lookup of a
  policy's events misses those of callers who wrote upper case (`Spellings.ShoutingIsMissed`); when
  it does is `Spellings.SpellingMatters`. The history invariant counts events up to case.

## Assumptions

- SPIRE answers NotFound truthfully, never uses an ID twice, stores faithfully, returns selectors in
  sorted order, and returns the entry with the least ID when several match a create. The match is on
  SPIFFE ID, parent and selector set. IDs are numbers; a create may skip some.
- A reply of the wrong shape counts as a failed call. An update of a missing entry is answered NotFound
  or, since `UpdateEntry` rejects a nil entry first, fails; the second is a refused call.
- A run that is cut is one whose later calls are all refused; `Idempotence.DeadRun` shows that these
  change nothing. One reconciler runs at a time.
- PostgreSQL is read-committed; a row lock is held to the end of its transaction; a key of a unique
  index that an uncommitted row occupies blocks other inserts of it. A commit that reports an error has
  not committed. Generated UUIDs are new and in lower case, and each transaction's are drawn when it begins.
- Workload IDs are distinct as the server writes them; the unique columns give this when the IDs are
  canonical (`Runs.DistinctTexts`).
- Text is over Unicode code points. `url.Parse` is followed for ASCII letters, digits and
  `. - _ / : ? # @`; percent-encoding, brackets and other characters are outside the parser. Case folding
  is ASCII.

## Model

| member | source | states |
|---|---|---|
| Text.Cut | internal/spiremgmt/client.go:235-241 | The cut is at the first separator, and nothing of the text is lost |
| Text.SplitJoin | internal/registration/mutation.go:139-146 | Splitting undoes joining, so the segments of a path are unique |
| Text.TrimSpaceTrims | internal/policy/management.go:161-166 | Trimming takes only spaces away, all of them at both ends |
| Text.TrimsOnce | internal/policy/management.go:161-166 | Only one text is what trimming can leave |
| Spiffe.ParseExactly | internal/spiremgmt/client.go:211-226 | A SPIFFE ID parses to a pair exactly when it is a spelling of it: `spiffe` in any case, a lower-case domain without port or userinfo, an absolute path, at most a bare `?` and `#` at the end |
| Spiffe.ParseFormat | internal/spiremgmt/client.go:211-233 | Over the alphabet, parsing a formatted pair gives the pair back |
| Spiffe.FormatParse | internal/spiremgmt/client.go:211-233 | Over the alphabet, formatting a parsed ID gives the text back iff the scheme is in lower case and no `?` or `#` occurs |
| Spiffe.ValidExactly | internal/registration/mutation.go:124-147 | The validator accepts exactly canonical text of non-empty, non-dot segments up to 2048 bytes, plus one bare trailing `?` |
| Spiffe.ValidParses | internal/policy/management.go:168-191 | What a validator accepts, the SPIRE client parses; over the alphabet it reads back as sent iff no `?` occurs |
| Spiffe.ValidatorsAgree | internal/policy/management.go:185-189 | Over the alphabet the two copies of the validator accept the same IDs |
| Spiffe.BareQuestionMarkPasses | internal/registration/mutation.go:138-140 | A concrete ID that passes validation and does not read back as sent |
| Ordering.SortDecides | internal/reconcile/service.go:242-251 | Two lists have equal sorted forms iff they are permutations of each other |
| Ordering.SortStrings | internal/reconcile/service.go:242-243 | The in-place sort leaves the sorted permutation of what was there |
| Entries.SelectorRoundTrip | internal/spiremgmt/client.go:235-241 | A selector parses to a pair iff the pair is well formed and spells it |
| Entries.SelectorsRoundTrip | internal/spiremgmt/client.go:175-182 | A selector list parses iff it is the text of well-formed selectors, in order |
| Entries.ToProtoEntry | internal/spiremgmt/client.go:166-194 | The conversion loop computes the specified message or the first error |
| Entries.FromProtoEntry | internal/spiremgmt/client.go:196-209 | The conversion loop computes the specified entry |
| Entries.EntryRoundTrip | internal/spiremgmt/client.go:166-209 | An entry survives the wire iff both IDs are canonical; selectors, TTL and hint always do |
| Entries.ProtoRoundTrip | internal/spiremgmt/client.go:166-209 | A message over the alphabet survives conversion to an entry and back |
| Entries.StoredAgrees | internal/reconcile/service.go:94-105 | What reads back after storing compares equal to what was sent iff both IDs sent equal their own formatted parse |
| Entries.StoredIsCanonical | internal/spiremgmt/client.go:196-233 | Over the alphabet, what is stored reads back in canonical form |
| Entries.EntriesEquivalent | internal/reconcile/service.go:236-253 | The comparison loop returns true iff the four scalars match and the selectors are permutations |
| Registration.ValidateSelectors | internal/registration/mutation.go:107-121 | The loop with its set of seen values accepts iff every selector is acceptable and all are distinct |
| Registration.ValidateDesiredFields | internal/registration/mutation.go:93-122 | Acceptance iff state, TTL, parent, count and selectors are all as required |
| Registration.SelectorExactly | internal/registration/mutation.go:107-121 | An acceptable selector is 1 to 64 letters, digits, dots, dashes or underscores, a colon, and 1 to 512 bytes without control characters |
| Registration.FieldsExactly | internal/registration/mutation.go:25-31 | What an operator may ask for, in plain numbers: a state, 60 to 86400 seconds, a valid parent, 1 to 32 distinct acceptable selectors |
| Registration.TtlsAgree | internal/reconcile/service.go:212-214 | The TTLs an operator may ask for are exactly those the reconciler sends, 60 to 86400 |
| Registration.UuidExactly | internal/registration/mutation.go:20-21 | A UUID is 8, 4, 4, 4 and 12 hexadecimal digits between dashes, of version 1 to 5 and variant 8, 9, a or b |
| Registration.HintInjective | internal/reconcile/service.go:17-17 | Hints of different rules differ |
| Registration.AcceptedFieldsAreSendable | internal/reconcile/service.go:208-225 | Accepted fields with a parsable workload ID give a desired entry that converts to a message with the row's IDs, all its selectors in order, its TTL and the rule's hint; with a parent over the alphabet it reads back equivalent iff the workload ID is canonical and no `?` trails the parent |
| Backends.Similar | internal/spiremgmt/client.go:106-107 | A create finds an existing entry iff one has the same IDs and selector set |
| Transcript.GuardedCalls | internal/reconcile/service.go:83-107 | Whatever the replies, each Update or Delete of an ID follows a Get or Create of the same pass that replied with that ID and exactly this rule's hint |
| Transcript.ShortPass | internal/reconcile/service.go:73-206 | A pass makes at most four SPIRE calls, at most one of them a Create |
| Transcript.AuditBeforeConvergence | internal/reconcile/service.go:158-163 | MarkConverged is only called right after an acknowledged audit event that names the entry bound or released |
| Transcript.RowWriteIsLast | internal/reconcile/service.go:262-293 | A row is written at most once and last; after a failed append it is not written |
| Accounts.SentIsAskedFor | internal/reconcile/service.go:208-225 | Whatever the replies, every entry a pass sends has exactly the row's IDs, selectors and TTL, and `wtp-rule:` and the rule's ID for a hint |
| Accounts.UpdatesAreNeeded | internal/reconcile/service.go:94-107 | A pass writes over an entry exactly when the call before found that entry, of the rule's own, to differ from what the row asks for |
| Accounts.MalformedIsMarked | internal/reconcile/service.go:208-217 | A row of another state, or present without a parent, a TTL in range or a selector, and no other, is marked invalid before anything else is called |
| Accounts.EventsAreTrue | internal/reconcile/service.go:269-293 | The operation and entry an audit event names are what the call before it was and was told: created, updated, found equal in every field, deleted, gone, or another's |
| Accounts.CodesAreTrue | internal/reconcile/service.go:262-267 | The error code a row is left with names the call that failed, and `spire_update_race` only an update after a create |
| Accounts.FailureIsMarked | internal/reconcile/service.go:262-267 | After a failed call to SPIRE the next call marks the row |
| Accounts.ChangesAreCounted | internal/reconcile/service.go:115-164 | A pass that succeeds reports a change iff SPIRE acknowledged one |
| AuditTrail.ConvergenceIsAudited | internal/reconcile/service.go:158-163 | Under every fault schedule, a pass that turns its row to converged or changes its binding has left an event of this rule in the log that names the entry bound |
| Unaudited.EscapesExactly | internal/reconcile/service.go:107-119 | A pass changes SPIRE and leaves no event while its row says converged and agrees, iff a converged row's entry had drifted, its update took effect, and the event was refused or the reply lost and the error not written |
| Unaudited.EscapeIsForGood | internal/reconcile/service.go:94-105 | Over canonical IDs the next undisturbed pass then finds nothing to do, so the change is never recorded |
| Unaudited.LostEvent | internal/reconcile/service.go:94-119 | A concrete world and schedule in which that happens |
| Frame.StepTouches | internal/reconcile/service.go:73-206 | One call, with or without its effect, touches only the rule's own row, hint and workload ID, and the audit log only grows |
| Frame.PassTouches | internal/reconcile/service.go:73-206 | So does a whole pass, under every fault schedule |
| Frame.ForeignFrame | internal/reconcile/service.go:39-60 | A run leaves every entry without a listed rule's hint and every unlisted row unchanged; what is new or changed carries a listed rule's hint |
| Frame.OtherRulesEntries | internal/reconcile/service.go:232-234 | Reconciling one rule never alters an entry that carries another's hint |
| Goals.Inserted | internal/reconcile/service.go:126-165 | Creating the missing entry keeps what the rule is headed for |
| Goals.Overwritten | internal/reconcile/service.go:107-123 | Updating a drifted entry keeps what the rule is headed for |
| Recovery.FineStep | internal/reconcile/service.go:73-206 | A call without a fault keeps the pass on the way to its goal |
| Recovery.DisturbedStep | internal/reconcile/service.go:262-267 | A failed call, its effect lost or not, keeps the goal and ends the pass |
| Recovery.PassMeets | internal/reconcile/service.go:62-206 | A pass keeps its row's goal under any faults; reporting success means the goal is met; without faults it is met, and success is reported iff the goal is convergence |
| Runs.DistinctTexts | db/migrations/000001_control_plane.up.sql:29-29 | Pairwise distinct canonical workload IDs are distinct identities, which the results about whole runs ask for |
| Runs.LeftAlone | internal/reconcile/service.go:47-58 | Another rule's pass changes neither a rule's entries nor its goal |
| Runs.RunMeets | internal/reconcile/service.go:39-60 | Every run keeps every goal; a rule counted converged has met its own; after a run without faults every listed rule has |
| Obstacles.OtherPass | internal/reconcile/service.go:126-133 | Another rule's pass, whatever goes wrong, does not change what a row ends up as once its way is cleared, if that rule clears the way or nothing blocks the row |
| Obstacles.OwnPass | internal/reconcile/service.go:73-206 | Nor does the row's own pass |
| Crashes.CleanReaches | internal/reconcile/service.go:47-58 | An undisturbed run leaves each row as what it ends up as when the rows listed before it act first, and counts it converged iff it is then not blocked |
| Crashes.CrashRecovery | internal/reconcile/service.go:73-206 | After any number of faulty or interrupted runs one undisturbed run leaves the row and entries that one undisturbed run from the start would, up to the new ID and with no second entry, if and only if no row listed later is the one to clear its way |
| Crashes.UntimelyDiffers | internal/reconcile/service.go:131-133 | Otherwise one undisturbed run leaves the row an ownership conflict, and the next leaves it converged |
| Crashes.TwoRunsDo | internal/reconcile/service.go:39-60 | Two undisturbed runs always do: whatever went wrong before, they leave every row as what it ends up as once all others have acted |
| Crashes.FirmIsTimely | internal/reconcile/service.go:126-133 | A row whose create cannot run into another row's entry recovers |
| Witnesses.TwoRunsNeeded | internal/reconcile/service.go:126-133 | A concrete world in which one undisturbed run is not enough |
| Convergence.AgreesStays | internal/reconcile/service.go:47-58 | A later rule's pass does not undo agreement with SPIRE |
| Convergence.ConvergedIsTrue | internal/reconcile/service.go:54-57 | Under every fault schedule a rule counted converged has stored status converged and a binding that agrees with SPIRE |
| Convergence.ConvergedDelivers | internal/reconcile/service.go:208-225 | Under every fault schedule a present rule counted converged is bound to an entry with its row's two IDs (as given or as its parse is formatted), its selectors as a multiset, its TTL and its hint |
| Convergence.SelfStabilises | internal/reconcile/service.go:39-206 | From any statuses (a converged row carries no error code, as every write leaves it), bindings and contents in which no row is bound to another's entry, one undisturbed run brings each actionable, unconflicted rule to agreement: a present one is bound to an entry with its row's IDs, selectors, TTL and hint, and a released entry is gone |
| Convergence.ConflictIsReported | internal/reconcile/service.go:255-260 | A conflict with an entry no listed row owns ends in an ownership mismatch on the row, with nothing bound |
| Convergence.FaithfulIsFirm | internal/reconcile/service.go:218-224 | While hints sit under their own workload's ID, no create runs into another row's entry |
| Idempotence.CalmPass | internal/reconcile/service.go:94-105 | A pass over a row in agreement that compares equal makes no write and reports no change |
| Idempotence.RestlessPass | internal/reconcile/service.go:107-123 | A bound entry that agrees but does not compare equal is written again and reported changed |
| Stores.ReadBackCanonical | internal/spiremgmt/client.go:196-233 | A server in order, over the alphabet, is read back in canonical form, which idempotence starts from |
| Idempotence.RunReads | internal/spiremgmt/client.go:196-233 | Rows over the alphabet put only entries on the server that read back in canonical form |
| Idempotence.SecondRunSilent | internal/reconcile/service.go:39-60 | After any run, faulty or not, with no failure reported, an undisturbed run changes nothing and reports no change iff every present rule's IDs are canonical (rows over the alphabet) |
| Idempotence.ConvergedDeliversExactly | internal/spiremgmt/client.go:166-209 | Over the alphabet both IDs of that entry are the formatted parse of the row's |
| Idempotence.DeadRun | internal/reconcile/service.go:39-60 | From any point of any pass, once calls no longer reach the stores, the rest of the run changes nothing |
| System.StepKeepsInv | internal/reconcile/service.go:126-165 | Every single call, crash, operator mutation and outside creation or deletion keeps the invariant over bindings and orphans |
| Histories.OrphanBound | internal/reconcile/service.go:126-165 | Over every history, entries with a rule's hint that its row does not bind are at most the passes that created one and were lost before marking; none when no pass was lost |
| Histories.BindingInvariant | db/migrations/000002_registration_reconciliation.up.sql:17-19 | Over every history each bound ID is gone from SPIRE or carries its row's hint, no ID is bound twice, and marking never hits the unique index |
| Histories.OnlyMarkingBinds | internal/registration/postgres.go:102-138 | Only MarkConverged changes a binding, for the row being reconciled |
| Histories.TruthAfterAnyHistory | internal/reconcile/service.go:39-60 | After any history, edits by others included, a rule that the next run counts converged agrees with SPIRE, whatever goes wrong in the run |
| Histories.RepairAfterAnyHistory | internal/reconcile/service.go:39-206 | After any history, the next undisturbed run brings every actionable, unconflicted rule to agreement with its current revision |
| Marking.StepKnows | internal/reconcile/service.go:94-105 | Every step keeps: a row at its listed revision is as listed, and the entry about to be bound is what the listed rule asks for, unless somebody else deletes or edits that very entry |
| Marking.StaleMark | internal/registration/postgres.go:102-122 | In every history whose checked entry is undisturbed, the marked row agrees with SPIRE if it is still at the listed revision; after a replacement it agrees iff the replacement also asks for the entry bound |
| Marking.StaleMarkDecides | internal/registration/postgres_mutation.go:179-196 | Over canonical IDs it agrees iff the two versions of the rule ask for the same |
| Witnesses.MarkedButNotTrue | internal/registration/postgres.go:102-122 | A concrete history that ends converged at a revision SPIRE knows nothing of |
| Interference.DeletionHeals | internal/reconcile/service.go:94-113 | However many of its calls an undisturbed pass has made when somebody deletes the bound entry, the pass settles, and the row agrees with SPIRE at the end iff the pass had not yet seen the entry in order or written it |
| Interference.ReleaseHeals | internal/reconcile/service.go:180-205 | Whenever somebody deletes the entry an absent rule releases, the pass settles, and entry and binding are gone |
| Histories.RecoveryAfterAnyHistory | internal/reconcile/service.go:73-206 | Without outside edits of entries, every row recovers from every history |
| Stores.RuleStore.List | internal/registration/postgres.go:25-100 | The row loop returns every row once, in query order |
| Stores.RuleStore.MarkConverged | internal/registration/postgres.go:102-122 | Writes binding, status and error of the one row, unless refused or the binding is taken |
| Stores.RuleStore.MarkError | internal/registration/postgres.go:124-138 | Writes status and error of the one row and leaves its binding |
| Stores.SpireServer.BatchCreate | internal/spiremgmt/client.go:92-110 | Replies with the first matching entry, or inserts under a new ID |
| Stores.SpireClient.CreateEntry | internal/spiremgmt/client.go:87-111 | Before and after, in what the client reads: conversion errors reach no server, an existing match changes nothing, else the stored form appears under a new ID |
| Stores.SpireClient.UpdateEntry | internal/spiremgmt/client.go:113-146 | Overwrites the entry if it is there, NotFound otherwise |
| Stores.SpireClient.DeleteEntry | internal/spiremgmt/client.go:148-164 | Removes the entry; NotFound when it was not there |
| Service.Reconciler.Conflict | internal/reconcile/service.go:255-260 | Audits, then marks the error; a failed audit leaves the row |
| Service.Reconciler.CreateOrBind | internal/reconcile/service.go:126-165 | Does to stores and fault schedule what the protocol does from its create |
| Service.Reconciler.ReconcilePresent | internal/reconcile/service.go:73-124 | The same for a present rule |
| Service.Reconciler.ReconcileAbsent | internal/reconcile/service.go:167-206 | The same for an absent rule |
| Service.Reconciler.ReconcileRule | internal/reconcile/service.go:62-71 | The same for every rule |
| Service.Reconciler.Run | internal/reconcile/service.go:39-60 | The run does what the protocol says over the rows listed; the summary tallies the outcomes and the error names exactly the failed rules; a failed List changes nothing |
| Service.Tally | internal/reconcile/service.go:45-59 | Total = Converged + Failed, Changed is at most Converged, and Failed = 0 iff every rule settled |
| Service.FailedIds | internal/reconcile/service.go:49-53 | The joined error names as many rules as Failed counts, and exactly those whose pass broke |
| Service.TallyCounts | internal/reconcile/service.go:45-59 | Changed, Converged and Failed are the numbers of rules that settled with a change, settled, and broke |
| PolicyRules.NormalizeIdempotent | internal/policy/management.go:161-166 | Normalising a rule twice is normalising it once |
| PolicyRules.RuleExactly | internal/policy/management.go:142-159 | A valid rule has two valid IDs, the action connect, the effect allow or deny, and a reason of 1 to 1024 bytes without control characters |
| PolicyRules.NameExactly | internal/policy/management.go:20-23 | A policy's name is 3 to 128 ASCII letters, digits, spaces, dots, dashes or underscores, the first a letter or digit |
| Outcomes.NormalizeKeeps | internal/policy/management.go:161-166 | Normalising keeps source and destination, cuts only spaces off action, effect and reason, and folds the case of the first two |
| Outcomes.AcceptedExactly | internal/policy/management.go:101-140 | What is asked of a request before its transaction begins: UUIDs, an expected revision of at least 1, and a name and a rule that are valid once trimmed and folded |
| Outcomes.VersionIsKept | internal/policy/postgres_management.go:72-112 | After a create or append that succeeds, the stored version is the caller's but for spaces and case; its effect is the one spelled, allow or deny, and the event and the reply say the same |
| Outcomes.OtherEffectsRefused | internal/policy/management.go:152-154 | A request whose effect spells neither allow nor deny is refused |
| Outcomes.DraftIsStored | internal/policy/postgres_management.go:65-101 | A new policy is a draft at revision 1 with the caller's name and version 1; no other policy, version or rule moves |
| Outcomes.AppendIsStored | internal/policy/postgres_management.go:155-208 | An appended version is the policy's own, and of the policy only the revision moves |
| Outcomes.ActivationIsStored | internal/policy/postgres_management.go:287-315 | An activated policy is active in the version named, one revision on, under its old name; nothing else moves, and the event names the version and its number |
| Outcomes.CreationIsStored | internal/registration/postgres_mutation.go:59-85 | A new rule's row has the caller's selectors, parent and TTL, is present, pending and unbound at revision 1, and has its workload's organisation and SPIFFE ID |
| Outcomes.ReplacementIsStored | internal/registration/postgres_mutation.go:179-196 | After a replacement the row has the caller's selectors, state, parent and TTL, is pending without an error one revision on, and its binding, ID, organisation and workload are as before |
| Outcomes.RepliesTellTruth | internal/policy/postgres_management.go:300-303 | Every success reply tells what the tables then hold, field by field, up to the case of IDs |
| Outcomes.CreateRefusals | internal/policy/postgres_management.go:26-75 | An accepted create is refused as not found iff the organisation is missing and as a conflict iff it has a policy of that name, and else succeeds |
| Outcomes.AppendRefusals | internal/policy/postgres_management.go:119-153 | An accepted append is refused as not found or a conflict iff the policy is missing or at another revision, and else succeeds |
| Outcomes.ActivateRefusals | internal/policy/postgres_management.go:247-286 | An accepted activation succeeds iff the policy is at the revision expected and the version its own and valid; each refusal has its exact cause |
| Outcomes.RuleRefusals | internal/registration/postgres_mutation.go:37-157 | The same for creating a rule, one to a workload, and for replacing one |
| Tables.MaxOrZero | internal/policy/postgres_management.go:155-162 | The largest version number, or 0 without any |
| Serialization.NextIsFree | internal/policy/postgres_management.go:155-162 | MAX + 1 never collides |
| Serialization.CoveredWrites | internal/policy/postgres_management.go:141-150 | Writes behind one transaction's locks leave everything behind another's locks as it was |
| Serialization.ClientKept | internal/policy/postgres_management.go:119-223 | What others commit leaves a transaction where it stands: its reads stay true and its staged writes stay those of the atomic operation |
| Serialization.ClientSteps | internal/policy/postgres_management.go:225-318 | Every statement keeps a transaction in order, or ends it with the atomic operation's answer and effect at that moment |
| Interleaving.GoIsAtomic | internal/policy/postgres_management.go:26-117 | A statement changes the tables only by committing, and then by exactly the atomic operation with the reply given |
| Interleaving.StepKeepsInv | internal/registration/postgres_mutation.go:114-234 | Beginning, one statement, an abort and the reconciler's row write all keep the invariant of the machine |
| Interleaving.Serialisable | internal/policy/postgres_management.go:119-318 | Every interleaving amounts to a serial history with the same tables and replies; each answered client is in it once, and an aborted one left no trace |
| Interleaving.RunsNeverSurprised | internal/policy/postgres_management.go:198-208 | In no run does the INSERT under the row lock violate the unique index or the guarded UPDATE miss its row |
| Interleaving.RunsNeverDeadlock | internal/policy/postgres_management.go:141-146 | In every run, as long as a transaction is unfinished, some transaction can go on |
| OperatorSteps.ReplaceIsStep | internal/registration/postgres_mutation.go:179-191 | A committed replacement is exactly one operator step of the reconciler's system, audit event included |
| OperatorSteps.CreateIsStep | internal/registration/postgres_mutation.go:67-80 | So is a committed new rule: one rule per workload and generated IDs make its identity and its hint new |
| OperatorSteps.RequestIsSteps | internal/registration/postgres_mutation.go:114-234 | Any request amounts to at most one operator step, whatever it answers |
| Joint.StepIsBoth | internal/registration/postgres.go:102-138 | On one database, every call of the reconciler and every statement of a transaction is at most one step of each machine, the reconciler's row writes being marks, and keeps both invariants |
| Joint.JointRuns | internal/registration/postgres_mutation.go:114-234 | However calls, statements and outside steps interleave, transactions open across marks included, the reconciler's side is a history of its system, the transactions are serialisable, and both see the same rules |
| Joint.JointGuarantees | db/migrations/000002_registration_reconciliation.up.sql:17-19 | So the bounds on orphans and the uniqueness of bindings hold on the shared database |
| Joint.LockedRowIsStill | internal/registration/postgres_mutation.go:139-150 | From reading a rule's row to its end, a replacement never sees the reconciler write it |
| PolicyHistory.OpKeepsPolicies | internal/policy/postgres_management.go:54-113 | Each atomic operation keeps: versions numbered 1 to n, draft iff none active, the active version the policy's own and valid, revision = number of audit events |
| PolicyHistory.HistoryKeepsPolicies | internal/policy/postgres_management.go:103-112 | So does every history, and folding a policy's audit events gives its status, revision, latest version and active version |
| PolicyHistory.VersionsNeverChange | db/migrations/000001_control_plane.up.sql:88-100 | A version stays as first written |
| PolicyHistory.StoredStayActivatable | internal/policy/postgres_management.go:284-286 | Activating a policy's own version succeeds iff the expected revision is current, and is refused as invalid only for a revision below 1 |
| Spellings.SpellingMatters | internal/policy/postgres_management.go:320-338 | After every history, as many events are found by the exact text of a policy's ID as it has revisions iff every successful append and activation spelled the ID in lower case |
| Spellings.ShoutingIsMissed | internal/policy/postgres_management.go:210-218 | A concrete history with an upper-case request whose event is missed |
| Revisions.OpMovesRevision | internal/policy/postgres_management.go:198-203 | A successful conditional mutation found the revision it expected and leaves the next; nothing else moves a revision |
| Revisions.RevisionCountsWins | internal/registration/postgres_mutation.go:179-191 | A row's revision is what it was plus its successful mutations since |
| Revisions.OneWinner | internal/policy/postgres_management.go:151-153 | Of two successes on a row the later expected the earlier's revision plus one, plus one per success between |
| Revisions.RunsKeepPolicies | internal/policy/postgres_management.go:26-318 | However transactions interleave and fail, the history invariant holds |
| Revisions.ConcurrentRequestsConflict | internal/registration/postgres_mutation.go:155-157 | Two clients with the same row and expected revision never both succeed |
| Managers.Transaction.CommitAll | internal/policy/postgres_management.go:113-115 | All staged writes reach the tables, or none |
| Managers.Transaction.Go | internal/policy/postgres_management.go:131-150 | One statement fails, or ends the request as the atomic operation would, or leads on as the machine says |
| Managers.Transaction.Seal | internal/policy/postgres_management.go:210-222 | The audit event and the commit end in the atomic operation, or in a failure with nothing changed |
| Managers.Follow | internal/policy/postgres_management.go:131-150 | One statement of a manager is one step of the transaction machine |
| Managers.PolicyManager.Create | internal/policy/postgres_management.go:26-117 | Tables and reply are the atomic operation's, or a statement failed and nothing changed |
| Managers.PolicyManager.AppendVersion | internal/policy/postgres_management.go:119-223 | The same for appending a version |
| Managers.PolicyManager.Activate | internal/policy/postgres_management.go:225-318 | The same for activating one |
| Managers.MutationService.CreateDesired | internal/registration/postgres_mutation.go:25-112 | The same for creating a rule |
| Managers.MutationService.ReplaceDesired | internal/registration/postgres_mutation.go:114-234 | The same for replacing a rule's desired state |
| Managers.AtomicKeepsOrder | internal/policy/postgres_management.go:26-318 | What any of these requests leaves behind keeps the history invariant |
| Managers.AtomicTells | internal/registration/postgres_mutation.go:163-172 | A success of any of these requests tells what the tables then hold |

## Left out

- HTTP routing, JSON decoding, status codes, timeouts, bearer authentication and configuration: plumbing around the modelled calls.
- Actor checks and the correlation ID: the actor is taken as already validated; actor, correlation ID, timestamps and the rest of the audit metadata are opaque to every modelled decision.
- gRPC transport, PostgreSQL and SPIRE themselves: replaced by the abstract stores above.
- Two reconcilers at once, and outside actors who change an entry's hint between two calls of a pass: only the properties of `Transcript` and `Accounts` cover the latter.
- Spiffe.UrlParse: does not model percent-encoding, bracketed hosts, spaces or characters outside ASCII.
- Text.Lower: does not fold letters outside ASCII.
- OperatorSteps.CreateIsStep: takes each workload ID to be canonical, since the unique column compares text.
- Joint.JointRuns: starts from tables without rules; a rule deleted outside the modelled operations is not considered.
- Histories.OrphanBound: outside actors may delete, insert and edit entries, but not give one a rule's hint or take it away.
- The deletion of rules, workloads or organisations, which no modelled operation performs.
- Ambiguous commits, whose error reply does not say whether they took effect.
- Workload listing, migrations, lab scripts and SVID issuance.
