# The invoice pipeline, verified

Invoices arrive as uploads, are extracted by a language model, matched to a
vendor and a purchase order, validated by seven rules, approved by policy or by
a human, and exported. The status of an invoice changes only along a fixed
transition table, every change leaves an audit entry, and five queue tasks hand
an invoice from stage to stage. No row is locked. This project models that
system and proves what holds in every state it can reach.

`dafny verify dfyconfig.toml` checks all of it.

## How it is built

- **Stages as functions of committed rows** (`Records`): what each task does to
  its invoice, as a verdict: nothing, an exception, or a new row and the next
  message.
- **Stages as the code runs them** (`Services`, `Tasks`): classes whose methods
  change an invoice object in place, close the session and enqueue. Each method
  is proved to do what the verdict says, and each task to be one atomic step of
  the transition system.
- **What the stages mean** (`StageMeanings`): the same stages in the words of the
  tables and of character codes, so that no promise rests on the name of a helper.
- **The transition system** (`Pipeline`): rows, growing vendor and order
  tables, the outbox of committed but unsent messages, the queue, the messages
  in workers' hands, and the lost ones. Every task run can be split into a read
  and a later blind write, with any other steps in between; messages can be
  lost, redelivered and reordered; tasks can abort; humans decide at any time.
- **The invariants and their proofs**: `RowInvariants`, `PipelineInvariants`,
  `PipelineFrames`, `PipelineSteps` and `PipelineRuns` for rows and task runs,
  `Exclusion` for duplicates, `Authorship` for who made each move, `WakeUps` and
  `Draining` for messages; and the resulting promises (`Guarantees`). Lemmas about steps take the test on rows, or
  the approval policy, as a parameter, so that they are proved once and without
  its definition.
- **Where the promises end** (`Witnesses`): concrete runs.
- **Racing uploads** (`Ingestion`): look-up, store, insert and enqueue as
  separate steps of any number of requests, and `ingest_upload` itself on shared
  state with arbitrary interference between its steps.
- **The deciders** (`VendorMatching`, `VendorMatchingProofs`, `Rules`,
  `ApprovalPolicy`, `ExtractionRetry`), on string helpers (`Text`) and on a
  model of Python's decimal context (`DecimalContext`).

## What the theorems assume

Nothing is assumed of the broker: messages are repeated, invented, lost and
reordered. What is asked is when a task may start.

- *No assumption*: `Guarantees.HistoryOnlyGrows`, `Guarantees.DrainTerminates`,
  `Guarantees.QuietMeansSettled`, `Guarantees.StaleMessageChangesNothing`,
  `Guarantees.SecondDeliveryChangesNothing` and `WakeUps.NoWakeUpMissing` hold of
  every run.
- *No overtaken start*: no task starts on an invoice whose row has changed under a
  task still in flight. This is all that `Exclusion.NoDoubleAutoApproval` needs,
  and one overtaken start is enough to break it
  (`Witnesses.BothApprovedExactlyWhen`).
- *Undisturbed*: no task starts on an invoice that another task has in flight, as
  a lock on the row would ensure. The theorems on rows, approvals and exports need
  this. At-most-once delivery with split tasks and redelivery with atomic tasks are
  special cases (`PipelineRuns.PermittedIsUndisturbed`).
- *At-most-once delivery*: only the exact count of messages in
  `Guarantees.WakeUpsAreConserved`.

A human decision is one atomic step. Nothing in the code ensures it: two reviewers
could read the same row and write one after the other. All theorems about runs are
proved with it, and the audit replay and the export provenance would fail without:
`Witnesses.RacedReviewsBreakReplay` shows how.

The rules are modelled as written. An order total of zero only warns, a negative
one makes the percentage negative and never objects, a missing currency only
warns, and an empty-string invoice number passes the required-fields rule and
skips the duplicate rule. `Rules.NearOrder`, `Rules.SameCurrency` and
`Rules.Numbered` carry these hypotheses, and
`Witnesses.BothApprovedExactlyWhen` shows that the last one is exact.

The code and its documentation disagree in one place.
`docs/export-contract.md` (lines 65-68) says that a vendor and an order are
always present in an export. The approval policy requires them only of its own
approvals; a human may approve without. The model follows the code
(`Guarantees.ExportProvenance`, `Witnesses.ExportWithoutVendor`).

## Model

| member | source | states |
|---|---|---|
| Exclusion.NoDoubleAutoApproval | src/invoice_ops/services/validation.py:36-69 | Duplicate exclusion, with task runs split and interleaved, and messages repeated, lost and reordered, as they like: after every run in which no task starts on an invoice that has moved on under another task in flight, no two invoices the system approved on its own share the latest matched vendor and a non-empty invoice number compared by strip and lower case |
| Exclusion.NoNumberIsPaidTwice | src/invoice_ops/services/validation.py:47-64 | The same in the words of the tables: logs that show an approval by the system, one matched vendor, latest successful extractions with non-empty numbers; the numbers are then never the same text up to outer blanks and letter case, both given as character codes |
| Guarantees.UndisturbedExcludesDuplicates | src/invoice_ops/workers/tasks.py:47-70 | Corollary for runs in which no task starts on a busy invoice, and for both delivery regimes: at-most-once delivery with split tasks, or redelivery with atomic tasks |
| Exclusion.RunGuarded | src/invoice_ops/services/validation.py:72-126 | What every such run keeps: how each task in flight stands to the row of its invoice, and no clash between any two rows committed or about to be |
| Exclusion.StandingAfter | src/invoice_ops/services/validation.py:113-126 | When one of two tasks that read the same row commits, the other can still leave only what it could before |
| Witnesses.BothApprovedExactlyWhen | src/invoice_ops/domain/validation.py:256-279 | Exact limits of the exclusion, for every two numbers of equal canonical form and every k: a run with at most k overtaken starts can approve both if and only if one is the empty string or k is at least one; with at most k busy starts, if and only if one is the empty string or k is at least two |
| Witnesses.OvertakingApprovesTwice | src/invoice_ops/services/validation.py:72-126 | The run behind it: one redelivery, of a message in the queue, two starts on a busy invoice of which one overtakes the task in flight, nothing invented, and both invoices approved |
| Exclusion.ClearedMeansAlone | src/invoice_ops/services/validation.py:98-118 | A validation that passes found no other live invoice of the vendor with the number among the committed rows it read |
| Exclusion.NewResultIsAlone | src/invoice_ops/services/validation.py:98-102 | Publish, then check: a result computed now clashes neither with a committed invoice nor with what any task in flight would leave |
| PipelineRuns.RunKeepsInv | src/invoice_ops/workers/tasks.py:20-126 | Every undisturbed run, with any redelivery, loss, order and interleaving, keeps rows sound and task runs exclusive |
| PipelineRuns.PermittedIsUndisturbed | src/invoice_ops/workers/tasks.py:20-126 | At-most-once delivery and atomic tasks are each enough: no task starts on a busy invoice |
| PipelineRuns.FewerOvertakenStarts | src/invoice_ops/workers/tasks.py:73-89 | The first busy start of a run overtakes nobody, so overtaken starts are fewer than busy ones |
| Guarantees.AutoApprovalIsSound | src/invoice_ops/services/approval.py:32-64 | End to end, after every undisturbed run: every auto-approved invoice has its required fields and adds up; the order matched is the only one in the table of the time with the number it quotes, belongs to the matched vendor, and is near in amount and of the same currency; the vendor was decided on without a guess among the active ones of the time; and the stored confidence is at least 0.75 on each of the five fields |
| Guarantees.AutoApprovalOnCents | src/invoice_ops/domain/validation.py:155-201 | The same on whole cents: subtotal plus tax misses the total by at most two cents, and fifty times the difference to a positive order does not exceed it |
| Guarantees.ExportProvenance | src/invoice_ops/services/export.py:28-95 | After every undisturbed run, every exported invoice has exactly one approving audit hop; the backward scan finds it, the payload carries its target, actor and reason and the matched vendor and order, and a system approval is exported with both |
| Authorship.ExportNamesItsApprover | src/invoice_ops/services/export.py:75-76 | A human-approved export names the reviewer and the reason of a decision of the run, taken on that invoice while it was in review; a system-approved one names the system |
| Authorship.EveryMoveHasItsAuthor | src/invoice_ops/services/lifecycle.py:16-35 | After every run at all, each approval or rejection by a human in any log is a decision step of the run on that invoice, with its actor and reason; every other entry is by the system |
| Witnesses.ExportWithoutVendor | src/invoice_ops/services/export.py:70-73 | A human-approved export need not name a vendor or an order: a run in which nothing goes wrong ends in an export with neither, against the claim of the export contract document |
| Guarantees.CommittedRows | src/invoice_ops/services/lifecycle.py:16-35 | Audit replay after every undisturbed run: the log is a connected legal path from RECEIVED of at most nine hops ending in the status; transient statuses are never committed; FAILED has one history; at most one extraction, match, validation and export |
| Guarantees.HistoryOnlyGrows | src/invoice_ops/services/lifecycle.py:26-35 | In every run whatever, permitted or not, the audit log and the child rows of an invoice are only ever appended to |
| Guarantees.NoMissingDataBranch | src/invoice_ops/services/approval.py:44-48 | After every undisturbed run no task takes its missing-data branch: only an unreachable model raises, and only extraction fails an invoice |
| Guarantees.WakeUpsAreConserved | src/invoice_ops/workers/tasks.py:35-38 | With at-most-once delivery each invoice has exactly the one message its status calls for, counted over outbox, queue, workers and losses, and no other message exists |
| WakeUps.NoWakeUpMissing | src/invoice_ops/workers/tasks.py:67-70 | In every run at all, redelivered and interleaved, no wake-up disappears and no transient status is committed |
| Guarantees.StaleMessageChangesNothing | src/invoice_ops/services/matching.py:30-31 | In any state a message the invoice does not wait for is consumed without changing a table or enqueueing anything |
| Guarantees.SecondDeliveryChangesNothing | src/invoice_ops/services/extraction.py:130-132 | In any state, delivering a message twice has the effect of delivering it once, up to the consumed copy |
| Guarantees.RedeliveryAddsNothing | src/invoice_ops/services/extraction.py:130-132 | With atomic tasks, whatever rows and tables a run with repeated, invented and lost messages reaches, a run with nothing repeated and nothing lost reaches too |
| Guarantees.DeliverCommits | src/invoice_ops/db.py:51-62 | An undisturbed task run writes exactly its verdict and next message and uses up its own message |
| Guarantees.DrainTerminates | src/invoice_ops/workers/tasks.py:87-89 | After every run at all, however messages are ordered, the number of internal steps is bounded by a budget known from the state |
| Guarantees.QuietMeansSettled | src/invoice_ops/workers/tasks.py:107-110 | After every run at all, when no internal step is left every invoice is in NEEDS_REVIEW, REJECTED, EXPORTED or FAILED, unless its wake-up is among the lost messages |
| Guarantees.QuietAndHarmlessMeansAllSettled | src/invoice_ops/workers/tasks.py:20-126 | After an undisturbed run in which no task raises or is killed and nothing dies between commit and enqueue, nothing is lost, and an empty queue means that every invoice is settled |
| Draining.DrainIsBounded | src/invoice_ops/domain/state.py:32-50 | Every internal step spends part of the budget: a task hands on a message for a later stage only |
| RowInvariants.StageFollowsStatus | src/invoice_ops/workers/tasks.py:41-89 | A stage acts exactly when the status waits for it, lowers the rank, and enqueues exactly what the new status waits for |
| RowInvariants.HumanFollowsStatus | src/invoice_ops/services/approval.py:67-105 | A human decision goes through exactly in NEEDS_REVIEW, and enqueues the export exactly when it approves |
| RowInvariants.StageKeepsSound | src/invoice_ops/services/matching.py:25-83 | Every stage takes a sound row to a sound row: its history, its complete child rows, and where each of them came from |
| RowInvariants.SoundAsTablesGrow | src/invoice_ops/services/matching.py:46-62 | Vendors and orders added later never make a committed decision unjustified |
| StageMeanings.AdvancedMeans | src/invoice_ops/services/lifecycle.py:24-35 | A move is made exactly when the table allows it; it sets the status, appends one entry with the given actor and reason, and changes nothing else |
| StageMeanings.NoCallMeans | src/invoice_ops/services/extraction.py:137-161 | A document of blanks only, and else a client that cannot be had, fail the invoice with that reason, no attempt and no reply |
| StageMeanings.CallsMean | src/invoice_ops/services/extraction.py:163-196 | A full budget of malformed replies fails the invoice with one error each and the last reply; otherwise the first well-formed reply is recorded with the number of calls; an unreachable model writes nothing |
| StageMeanings.NoRetriesMean | src/invoice_ops/services/extraction.py:89-116 | With a negative number of retries the invoice fails with no call, no error and an empty reply |
| StageMeanings.MatchedOrderMeans | src/invoice_ops/services/matching.py:57-61 | The match names the order at position i of the table if and only if it is the only one with the number quoted, compared by letters and digits |
| StageMeanings.MatchedVendorMeans | src/invoice_ops/services/matching.py:45-51 | The match names the vendor at position p of the table if and only if p is active and the only active holder of the tax id, else of the name, else the one that leads all active others: 0.88 and by 0.08 |
| StageMeanings.MatchingMeans | src/invoice_ops/services/matching.py:40-83 | Matching appends that match and two entries by the system, and changes nothing else |
| StageMeanings.DuplicatesMean | src/invoice_ops/services/validation.py:47-69 | The candidates are exactly the other invoices neither failed nor rejected, once matched to the vendor, whose latest successful extraction has a non-empty number that is the same text |
| StageMeanings.OnlyDuplicatesBlock | src/invoice_ops/domain/validation.py:256-279 | The duplicate rule reports an error if and only if there is such an invoice: another vendor or another number never blocks |
| StageMeanings.ValidationMeans | src/invoice_ops/services/validation.py:87-126 | The rules see the invoice, the latest match and the very row of its order; their outcome, passed if and only if none reports an error, is appended with one entry by the system |
| StageMeanings.ApprovalMeans | src/invoice_ops/services/approval.py:40-64 | A validated invoice is approved by the system if and only if its latest validation passed, its latest match has an identified vendor and an order, and its latest successful extraction stores a confidence of at least 0.75 on each of the five fields; otherwise it goes to review |
| StageMeanings.HumanVerdictMeans | src/invoice_ops/services/approval.py:67-85 | A decision in review is logged under the reviewer with the reviewer's reason; in any other status it raises |
| StageMeanings.ExportMeans | src/invoice_ops/services/export.py:50-95 | The export carries the latest extracted invoice, the vendor and order of the latest match, and actor and reason of the last approving entry |
| PipelineInvariants.StageContinues | src/invoice_ops/services/validation.py:113-126 | A stage only appends to the log and to the child rows |
| PipelineFrames.CommitWritesResult | src/invoice_ops/db.py:51-62 | With exclusive use of its invoice, the blind write of a task run produces the result it had computed |
| Services.Invoice.Advance | src/invoice_ops/services/lifecycle.py:16-35 | A legal move appends one audit entry with the given actor and reason and sets the status; a refused one raises and writes neither |
| Services.LatestSuccessfulExtraction | src/invoice_ops/services/extraction.py:199-205 | The reversed scan returns the extraction that succeeded with none after it, and nothing exactly when none succeeded |
| Services.ApprovalAuditEntry | src/invoice_ops/services/export.py:28-32 | The reversed scan returns the last approving entry, and nothing exactly when there is none |
| Services.FindDuplicateCandidates | src/invoice_ops/services/validation.py:36-69 | The loop collects exactly the other invoices neither failed nor rejected, once matched to the vendor, whose latest successful extraction has the same number up to outer blanks and letter case |
| Services.FailExtraction | src/invoice_ops/services/extraction.py:208-231 | Adds the failed attempt, records its error on the invoice and in the log, and moves to FAILED |
| Services.RunExtraction | src/invoice_ops/services/extraction.py:119-196 | In place on the invoice object: exactly what the extraction verdict says, including the roll-back cases |
| Services.RunMatching | src/invoice_ops/services/matching.py:25-83 | In place: both moves and the new match row, which names the order quoted and the vendor decided on, as positions in the tables given |
| Services.RunValidation | src/invoice_ops/services/validation.py:72-126 | In place: snapshot read, duplicate scan, seven rules on what the tables hold, new validation row and move |
| Services.RunApproval | src/invoice_ops/services/approval.py:32-64 | In place: the new status is an approval by the system if and only if the invoice was payable |
| Services.RecordHumanDecision | src/invoice_ops/services/approval.py:67-85 | Approves or rejects an invoice in review, logging the caller's actor and reason, and raises, changing nothing, otherwise |
| Witnesses.RacedReviewsBreakReplay | src/invoice_ops/services/approval.py:67-85 | What atomic human decisions are needed for: if two were read from the same row and written blindly, the log would hold both and be no path; the approvals by the system would not change |
| Services.RunExport | src/invoice_ops/services/export.py:35-95 | In place: both moves and one export row with the payload |
| Tasks.Deployment.ExtractInvoice | src/invoice_ops/workers/tasks.py:20-38 | The task is one atomic step of the transition system: transaction, then the conditional next message |
| Tasks.Deployment.MatchInvoice | src/invoice_ops/workers/tasks.py:41-70 | As above, for matching |
| Tasks.Deployment.ValidateInvoice | src/invoice_ops/workers/tasks.py:73-89 | As above, for validation |
| Tasks.Deployment.ApproveInvoice | src/invoice_ops/workers/tasks.py:92-110 | As above, for approval |
| Tasks.Deployment.ExportInvoice | src/invoice_ops/workers/tasks.py:113-126 | As above, for export |
| Tasks.Deployment.CloseSession | src/invoice_ops/db.py:51-62 | Commit on success and only then enqueue; on an exception nothing is written |
| Tasks.Deployment.ApproveAndExport | src/invoice_ops/services/approval.py:88-105 | The reviewer's approval is one atomic step: commit before the export is enqueued, and no change when it raises |
| Tasks.DeliverSettles | src/invoice_ops/workers/tasks.py:20-126 | With no task in flight a delivery consumes its message and either changes nothing else, loses it, or commits the verdict |
| Ingestion.IngestionIsIdempotent | src/invoice_ops/services/ingestion.py:59-103 | After any interleaving of racing uploads: a returned request has the row of its own bytes, equal digests give the same row, at most one request returned it as created, and its extraction is then enqueued exactly once |
| Ingestion.EveryRowHasItsCreator | src/invoice_ops/services/ingestion.py:96-103 | Every row was inserted by exactly one request, and its extraction is enqueued exactly when that request returned |
| Ingestion.EveryUploadIsServed | src/invoice_ops/services/ingestion.py:82-94 | From a consistent state every upload, whatever the others do, is answered with the row of its own bytes: the constraint violation is never re-raised |
| Ingestion.RacedIsARun | src/invoice_ops/services/ingestion.py:59-103 | One upload with others in between is a run of the ingestion system |
| Ingestion.Backend.IngestUpload | src/invoice_ops/services/ingestion.py:59-103 | In place on tables, store and queue: the raced upload, with the answer recorded for its request, and nothing but a look-up when the digest is known |
| Ingestion.StorageIsHonest | src/invoice_ops/services/ingestion.py:72-84 | In every reachable state an invoice's key holds bytes that hash to its digest, and digests are unique |
| Ingestion.StoredBytesNeverChange | src/invoice_ops/services/ingestion.py:53-56 | No upload or export changes the bytes under an invoice's key, as long as no two uploads of the run collide |
| Ingestion.StoredBytesAreSafeExactly | src/invoice_ops/services/ingestion.py:72-73 | The exact condition: with uploads drawn from a set of byte strings, stored bytes never change if and only if no two of the set have the same digest |
| Ingestion.StorageKeyNamesDigest | src/invoice_ops/services/ingestion.py:53-56 | Keys of different digests differ, and no upload key is an export key |
| Ingestion.StorageKeyIs | src/invoice_ops/services/ingestion.py:53-56 | The key spells out the digest and ends in the file name without any path, or in a default when there is no name |
| Ingestion.LastSegmentIsFlat | src/invoice_ops/services/ingestion.py:54-55 | No path separator sent by a client survives into a key |
| VendorMatchingProofs.VendorMatchNeverGuesses | src/invoice_ops/domain/matching.py:63-113 | A vendor is returned if and only if one is identified: the only tax-id hit, else the only exact-name hit, else the one that leads every other vendor of the table by the gap |
| VendorMatchingProofs.VendorMatchReports | src/invoice_ops/domain/matching.py:63-113 | Method, confidence and candidates by the check that decided: 1.0 and 0.95 without candidates, else exactly the vendors at or above 0.60, best first, with the best score |
| VendorMatchingProofs.ScoreIsBest | src/invoice_ops/domain/matching.py:86-94 | A score is the similarity of the legal name or of some alias, and of none of them is it larger |
| VendorMatchingProofs.SortIsStable | src/invoice_ops/domain/matching.py:97-97 | Candidates of one score stay in the order of the table |
| VendorMatchingProofs.AcceptedIsLeader | src/invoice_ops/domain/matching.py:86-110 | Dropping candidates below the floor is harmless: a fuzzy acceptance leads the whole table |
| VendorMatchingProofs.LeaderIsAccepted | src/invoice_ops/domain/matching.py:97-110 | Conversely the leader of the whole table is accepted, with its score as confidence |
| VendorMatchingProofs.SharedNameIsAmbiguous | src/invoice_ops/domain/matching.py:76-113 | Two vendors with the supplier's exact name are never resolved, given a similarity in [0, 1] that is 1 on equal strings |
| VendorMatchingProofs.VendorMatchOrderIndependent | src/invoice_ops/domain/matching.py:63-113 | Permuting the vendors leaves vendor, method and confidence unchanged and the candidates equal as a multiset |
| VendorMatchingProofs.VendorMatchIgnoresFormatting | src/invoice_ops/domain/matching.py:66-113 | The result depends only on the words of names and aliases and the letters and digits of tax ids, on the invoice and in the vendor table alike |
| VendorMatchingProofs.PoMatchIgnoresFormatting | src/invoice_ops/domain/matching.py:128-138 | The same of purchase-order numbers, on the invoice and in the table |
| VendorMatching.MatchVendor | src/invoice_ops/domain/matching.py:63-113 | The loops over vendors and aliases and the stable sort compute the specified match |
| VendorMatching.SortSorts | src/invoice_ops/domain/matching.py:97-97 | The stable sort is a descending permutation |
| VendorMatchingProofs.PoMatchMeans | src/invoice_ops/domain/matching.py:128-138 | Each of the four outcomes if and only if no number is asked for, exactly one order bears it, several do, or none does |
| VendorMatchingProofs.PoMatchOrderIndependent | src/invoice_ops/domain/matching.py:128-138 | The order of the purchase orders does not matter |
| Text.SplitOfJoin | src/invoice_ops/domain/matching.py:27-30 | Joining words with blanks and splitting again recovers them |
| Text.SplitOfSpread | src/invoice_ops/domain/matching.py:27-30 | Splitting recovers the words from any blanks around and between them |
| Text.SpreadOfSplit | src/invoice_ops/domain/matching.py:27-30 | Every text is the words that splitting returns, spread by blanks |
| Text.NormalizeTextOfSpread | src/invoice_ops/domain/matching.py:27-30 | A normalised name is the words in small letters with one blank between |
| Text.NormalizeTextDecidesWords | src/invoice_ops/domain/matching.py:27-30 | Two texts normalise alike if and only if they have the same lower-case words |
| Text.NormalizeTextIdempotent | src/invoice_ops/domain/matching.py:27-30 | Normalising a name twice is normalising it once |
| Text.CodeIgnoresPunctuation | src/invoice_ops/domain/matching.py:33-37 | Inserting characters that are neither letters nor digits does not change a code |
| Text.CodeIgnoresCase | src/invoice_ops/domain/matching.py:33-37 | Lower-casing does not change a code |
| Text.CodeIdempotent | src/invoice_ops/domain/matching.py:33-37 | Normalising a code twice is normalising it once |
| Text.CodesAgree | src/invoice_ops/domain/matching.py:33-37 | Two codes agree if and only if the letters and digits do up to case, given as character codes |
| Text.CanonicalNumberDecides | src/invoice_ops/services/validation.py:47-47 | Two numbers have the same form if and only if, without outer blanks, they have equal length and agree position by position up to letter case |
| Text.CanonicalNumberIgnores | src/invoice_ops/services/validation.py:47-47 | Blanks around a number and the case of its letters make no difference |
| Rules.CleanExactlyWhen | src/invoice_ops/domain/validation.py:293-298 | No rule blocks if and only if the required fields are there, the amounts add up, the order (if any) is near, in the same currency and of the same vendor, and a usable number has no duplicates |
| Rules.RulesReport | src/invoice_ops/domain/validation.py:74-152 | Severity and outcome of the rules on fields, sums, lines and duplicates, for every input: lines only warn |
| Rules.OrderRulesReport | src/invoice_ops/domain/validation.py:155-253 | The same of the three rules about an order: a missing total, an order of zero, a missing currency and an unknown vendor only warn |
| Rules.LineItemsOnCents | src/invoice_ops/domain/validation.py:129-131 | On whole cents, as long as partial sums fit in 28 digits, the lines may miss the subtotal by two cents and no more |
| Rules.CanonicalCurrencyDecides | src/invoice_ops/domain/validation.py:216-216 | Currencies are the same if and only if they agree up to outer blanks and letter case |
| Rules.ToleranceMeans | src/invoice_ops/domain/validation.py:179-181 | The percentage test for every non-zero order total: a negative one never objects |
| Rules.NearOrderOnCents | src/invoice_ops/domain/validation.py:179-181 | On whole cents with a positive order the rounded test is the exact two per cent |
| Rules.AddsUpOnCents | src/invoice_ops/domain/validation.py:97-99 | On whole cents the arithmetic rule passes if and only if the sum is at most two cents off |
| DecimalContext.RoundExactOnCents | src/invoice_ops/domain/validation.py:97-99 | Sums and differences of twelve-digit cent amounts are not rounded by the 28-digit context |
| DecimalContext.TwoPercentTest | src/invoice_ops/domain/validation.py:180-181 | For every non-negative quotient: rounded half-even to 28 digits it is at most 0.02 if and only if it is at most 0.02 plus half a unit in the last place |
| DecimalContext.TwoPercentTestExactOnCents | src/invoice_ops/domain/validation.py:180-181 | Quotients of cent amounts never fall into that half unit, so the test is exact |
| ApprovalPolicy.DecisionOutcome | src/invoice_ops/domain/approval.py:34-59 | Auto-approval if and only if all four checks hold, and otherwise a review |
| ApprovalPolicy.DecisionNamesFailures | src/invoice_ops/domain/approval.py:43-48 | The reasons name each of the three failed checks and no other |
| ApprovalPolicy.DecisionNamesFields | src/invoice_ops/domain/approval.py:50-56 | They name exactly the critical fields of low confidence |
| ApprovalPolicy.DecideApproval | src/invoice_ops/domain/approval.py:34-59 | The growing list of reasons computes the specified decision |
| ExtractionRetry.ExtractWithRetry | src/invoice_ops/services/extraction.py:81-116 | At most one call more than retries; failure if and only if all of those replies are malformed, with one error per call and the last raw reply; otherwise the first reply that is not malformed decides, and is returned with its number if valid; each further prompt carries the preceding error, and the text is cut to 20,000 characters |
| ExtractionRetry.OutcomeMeans | src/invoice_ops/services/extraction.py:81-116 | The same of the outcome that the stage records |
| Lifecycle.TransitionDescends | src/invoice_ops/domain/state.py:32-46 | Every legal move lowers the rank |
| Lifecycle.EnteredFrom | src/invoice_ops/domain/state.py:32-58 | Where each of the thirteen statuses can be entered from |
| Lifecycle.LegalPathBound | src/invoice_ops/domain/state.py:32-58 | No legal path has more than nine hops |
| Lifecycle.LegalPathBoundIsAttained | src/invoice_ops/domain/state.py:32-58 | Nine hops are reached |
| Lifecycle.LegalPathNeverRepeats | src/invoice_ops/domain/state.py:32-58 | No status is visited twice |
| Lifecycle.TerminalExactlyWhenNoExit | src/invoice_ops/domain/state.py:48-62 | A status is terminal if and only if it has no exit: REJECTED, EXPORTED and FAILED |

## Left out

- The HTTP API, the review pages, health checks, settings, migrations, seed scripts and logging: presentation and wiring.
- Text extraction from documents and the client of the language model: the document text, a client error and the stream of replies are inputs, and a reply may be an exception.
- JSON and schema parsing of a reply: a reply is given as rejected with an error or accepted with a result.
- The similarity ratio: a parameter over reals; where needed it is assumed to lie in [0, 1] and to be 1 on equal strings. Floating point in scores and confidences is not modelled.
- SHA-256: a parameter with values of 64 characters. It is nowhere assumed injective; `Ingestion.StoredBytesNeverChange` asks that the uploads of the run at hand do not collide.
- The export's signature, contract version, time stamp, and the vendor name and order number looked up for it.
- Message texts and detail dictionaries of rule results and reasons: a reason is what it is rendered from. Model name and text method of an extraction.
- Duplicate candidates keep their ids only, not the number and status reported with them.
- The upload's content type and size, and the guard on them before anything is stored.
- The order in which the database returns the invoices matched to a vendor: table order.
- Identifiers are positions in append-only tables, so a fresh id is never a used one. Deleting or editing vendors, orders and invoices: no code does it.
- Isolation anomalies inside one transaction, session caching and lazy loading: a task reads one committed state.
- Two human decisions that interleave: a decision is one atomic step, whether or not tasks are split.
- A joint run of ingestion and pipeline: the two transition systems are separate. The pipeline's `Arrive` stands for the committed insert of an upload, and `CrashBeforeSend` for an upload that stops between commit and enqueue.
- Export artifacts in the object store: `Ingestion` covers their keys, the pipeline keeps the key in the export row.
- Text beyond ASCII, where upper and lower case and blanks are more than tables of letters.
- Decimal exponent limits, NaN and infinities, and contexts other than the default of 28 digits half-even. A decimal is its value, so trailing zeros are not kept.
- A schema in which an accepted extraction lacks an invoice: the result of an accepted reply always has one.
- The field-wise scoring of the evaluation scripts: counts without invariants.
