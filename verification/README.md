# A verified model of the mail pipeline and its operating scripts

This project models, in Dafny, the parts of the repository whose correctness is hardest to see by
reading: the inbound mail pipeline, the scripts that rebuild a mailbox and audit the rebuild, the
recipient routing with the control-plane routes that maintain its tables, the onboarding engine with
its key and DNS steps, and the deploy-time merging of configuration. `dafny verify dfyconfig.toml`
checks all of it.

| module | models |
|---|---|
| `Common`, `Text` | options and results; trimming, case folding, splitting, joining, sorting |
| `Pipeline`, `PipelineSafety` | handler, consumer, Durable Object, D1 tables and reindex as one step system, and what holds in every reachable state |
| `History` | what the ingest log and the index hold, said of the schedule that led to them |
| `Idempotency` | the key by which a mailbox recognises an email it has, and which emails share one |
| `Consumer` | the same code in its own form: methods over mutable tables, each shown to be a run of the step system |
| `Threads`, `Audit` | the rebuild audit and its thread comparison |
| `Reingest` | the replay of a mailbox through the pipeline, joined to the audit |
| `Routing`, `ControlPlane`, `Requests` | recipient resolution, every route that changes the tables it reads, and any sequence of requests to them |
| `StepEngine`, `Manifest` | the dependency-ordered step list, and the manifests that produce it |
| `Converge`, `KeySaga` | the decide, apply, decide steps for domain, mailbox and aliases, and for API keys with their vault items |
| `Overlay`, `SendingConfig` | the generated overlay and its journal, and the planning of the sending variables |
| `SendingPlan`, `Feedback`, `Upserts`, `Dmarc`, `SendingTarget`, `SendingFixpoint` | sending names and the command line that carries them, event subscriptions, TXT and MX upserts, DMARC records, the decision over both and when the two agree |

Effects are kept where the program has them. A method that changes tables, DNS records, keys or
subscriptions says what the whole new state is, and a parameter (`Fate`, `Weather`, `Turn`, a list of
steps) stands for everything the world may do to it: where a call fails, what a poll sees, what other
deliveries do meanwhile. Clocks, random ids and network answers are such parameters too.

## What the code does not promise

Properties one might expect and that the model refutes with an input or settles with an exact condition:

- An acked message need not be indexed, a processed ingest row need not stay, and a reindex that races
  an arrival can lose its row (`PipelineSafety` has an input for each). `History.AckedIndexedIff`,
  `History.ProcessedRowStaysIff` and `History.InterleavedReindexIff` say exactly when.
- `inserted` in the replay's summary does not imply indexed, so a clean replay alone does not make the
  audit pass; `Reingest.ReplayThenAudit` gives the condition.
- The header of `scripts/reingest-mailbox.ts` says keys already processed are skipped; the code skips a
  key with a row of any status (`Reingest.FailedKeyIsSkipped`, on the input of
  `Reingest.FailedKeyArises`). Its `duplicate` outcome is reported only for a processed row without an
  id, which the consumer never writes: the wait does not settle on a row that has the prior id. The
  model follows the code.
- `scripts/lib/onboard-core.ts:534-539` says that `already` means a run would change nothing. It does
  exactly under the three conditions of `SendingFixpoint.AlreadyUntouchedIff`;
  `SendingFixpoint.QuietFaultsExist` has an input failing each.
- A DMARC record spelled `v = DMARC1` is counted by the decision and never touched by the upsert, so
  such a name never becomes `already` (`SendingFixpoint.SpacedSurvives`,
  `SendingFixpoint.SpacedIsNeverWhole`).
- `aliasReason` is null for an alias kept on a domain that has since been disabled
  (`ControlPlane.ReadyNeedNotReceive`); `ControlPlane.ReadyReceivesIff` says when mail arrives.
- The overlay creates an empty `vars` object without journalling it (`Overlay.EmptyVarsUnjournalled`);
  `Overlay.ApplyGeneratedOverlay` says that this is the only way the journal falls short. The re-read
  check of a deploy does not look at `workers_dev` (`Overlay.CheckedNeedNotShip`,
  `Overlay.WorkersDevUnchecked`).
- The command line to setup:sending loses values that begin with `--`, and labels that equal the zone
  or end in it (`SendingPlan.RoundTripIffCarried`).

## Model

| member | source | states |
|---|---|---|
| `Pipeline.RawKeyNamesItsHash` | src/lib/r2-keys.ts:1-12 | the raw key of a stored mail is recognised as one and carries the mail's hash, so two hashes never share a key |
| `Pipeline.RawKeysDiffer` | src/lib/r2-keys.ts:1-12 | two raw keys are one only if mailbox, day, instant and hash all are, for mailbox ids without a slash, so no email's bytes are stored over another's |
| `Pipeline.StepKept` | src/cloudflare/queue-consumer.ts:17-175 | one step of any actor (handler, consumer, redelivery, failure, filing, reindex) keeps the invariant: payloads name stored objects, index rows name DO messages, answers agree with the ledger, effects are logged in order, one inserter per key |
| `Pipeline.ReindexKept` | src/api/mailbox-routes.ts:621-672 | no step of a reindex, however interleaved, makes an index row that names no DO message with its raw key and hash |
| `Pipeline.RunKept` | src/cloudflare/queue-consumer.ts:17-175 | the invariant holds after every finite schedule of steps |
| `PipelineSafety.QueuedIsStored` | src/cloudflare/email-handler.ts:90-144 | in every reachable state each enqueued payload's raw key is in R2, under the payload's hash |
| `PipelineSafety.IndexedIsStored` | src/cloudflare/queue-consumer.ts:75-92 | in every reachable state each index row names a message of its mailbox's DO with the same raw key and hash |
| `PipelineSafety.AckFollowsRecord` | src/cloudflare/queue-consumer.ts:55-72 | every ack comes after the DO's answer and after an ingest row telling it, status, id and error each, and for `inserted` after an index row showing the arrival field by field, in the inbox and without labels |
| `PipelineSafety.SettledStays` | src/cloudflare/queue-consumer.ts:17-45 | a delivery acknowledged or given back is done with: over any further run it stays as it is and has no more effect |
| `PipelineSafety.NotifyFollowsIndex` | src/cloudflare/queue-consumer.ts:100-122 | every notification is of an insert whose index row, showing the arrival field by field, and processed ingest row were written before it |
| `PipelineSafety.NotifiedAtMostOnce` | src/cloudflare/queue-consumer.ts:75-122 | no DO message is notified twice, under any failure and redelivery schedule |
| `PipelineSafety.KeyInsertsOnce` | src/do/mailbox-ingest.ts:305-337 | of all deliveries of one idempotency key one inserts; a `duplicate` names that message and a `conflict` has another hash |
| `PipelineSafety.AckedNeedNotBeIndexed` | src/cloudflare/queue-consumer.ts:139-154 | the input for History.AckedIndexedIff: from any fresh state a schedule that acks a stored message and leaves the index empty |
| `PipelineSafety.ReachUnindexed` | src/cloudflare/queue-consumer.ts:139-147 | the same from any state with the payload queued: the redelivery's `duplicate` writes a processed row and no index row |
| `PipelineSafety.ProcessedRowNeedNotStay` | src/cloudflare/queue-consumer.ts:55-73 | the input for History.ProcessedRowStaysIff: a later conflict on the same key overwrites a processed ingest row with a failed one, the message still stored |
| `PipelineSafety.RacingReindexLosesRow` | src/api/mailbox-routes.ts:621-672 | the input for History.InterleavedReindexIff: a reindex whose export precedes an arrival and whose delete follows it leaves an acked message without an index row |
| `PipelineSafety.QuiescentReindexIsExact` | src/api/mailbox-routes.ts:621-672 | from any state at all, a reindex nothing interleaves with leaves one row for each message of the mailbox's DO, with its thread, receive instant, folder, raw key and hash and no labels, and every other mailbox's rows alone |
| `PipelineSafety.FiledThenReindexed` | src/api/mailbox-routes.ts:621-672 | a message moved to a folder and then reindexed is indexed in that folder, the rest of its row and every other row as the messages have them |
| `History.RowIsLastWrite` | src/db/d1.ts:560-596 | in every reachable state the ingest row of a key is the one last written in the history, and its writer's answer calls for it |
| `History.ProcessedRowStaysIff` | src/cloudflare/queue-consumer.ts:55-73 | a row once written processed is processed still exactly when no later delivery of its key recorded a conflict that is the last word on it |
| `History.ConflictIsAnotherHash` | src/do/mailbox-ingest.ts:305-337 | of two writes of one key in one mailbox, one processed, the other is a conflict exactly when its delivery carried other bytes |
| `History.AckedIndexedIff` | src/cloudflare/queue-consumer.ts:75-154 | in every schedule without reindex steps an acked, unconflicted message is indexed exactly when the delivery told that it inserted it performs its index write; when that delivery is the acked one, always |
| `History.InterleavedReindexIff` | src/api/mailbox-routes.ts:621-672 | a reindex among any other steps leaves a row exactly when its message was there at the export or a delivery wrote the row after the delete; so a written row is lost exactly when the insert came after the export and every write before the delete |
| `History.RunRow` | src/cloudflare/queue-consumer.ts:75-92 | over any schedule without reindex steps a row written meanwhile is as an arriving message leaves it, and every other row is as it was |
| `History.RunProjects` | src/cloudflare/queue-consumer.ts:75-92 | the rows a schedule writes are exactly those whose inserting delivery takes its index step in it |
| `Consumer.Platform.HandleEmail` | src/cloudflare/email-handler.ts:20-144 | the handler is a run of the step system: the recipient resolves as the tables say, reject, forward, oversize, enqueue and every failing call are told apart as in the source, and R2 and the queue grow exactly when the put and the send took effect |
| `Consumer.Platform.StoreAndSend` | src/cloudflare/email-handler.ts:90-144 | the bytes are stored before the size test and the send; a failed put or send may have taken effect, and nothing else is written |
| `Consumer.Platform.ReceiveEmail` | src/cloudflare/email-handler.ts:20-144 | where stored mail ends up: what is enqueued was routed to an active mailbox and carries the email's hash, instant, raw key and idempotency key; a faultless delivery ingests it into that mailbox and no other, shows an insert in the index field by field, and tells the answer in the ingest log |
| `Consumer.Platform.ReceiveTwo` | src/lib/idempotency.ts:3-16 | two emails for one mailbox, neither known there, received without a fault: the mailbox then holds the first, and the second too exactly when it is another email, that is another Message-ID up to case, or, where neither has one, other bytes |
| `Idempotency.SameKeyIff` | src/lib/idempotency.ts:3-16 | two emails of one mailbox share an idempotency key exactly when their Message-IDs are one up to case, or neither has one and the hashes are equal; one with and one without never do |
| `Idempotency.HashKeysDiffer` | src/lib/idempotency.ts:3-16 | without Message-IDs two keys are equal exactly when mailbox and hash are, whatever the mailboxes |
| `Idempotency.MailboxesApart` | src/lib/idempotency.ts:3-16 | keys of two mailboxes never meet when no mailbox id has a colon |
| `Idempotency.StoredForm` | src/lib/email-metadata.ts:16-25 | a Message-ID in angle brackets, blanks around it, is stored as the bare id, which is its own stored form; blanks alone are none |
| `Idempotency.StoredFormSharesKey` | scripts/reingest-mailbox.ts:437-444 | so the replay of a mail, which starts from the stored form, builds the key its first delivery had |
| `Consumer.Platform.CommitNew` | src/do/mailbox-ingest.ts:339-424 | a key the ledger does not know is committed once: the answer and the mailbox are those of the ingest contract, realtime failure after the insert included |
| `Consumer.Platform.Ingest` | src/do/mailbox-ingest.ts:305-337 | the whole DO call: ledger answers first, otherwise one insert; the delivery holds exactly that answer |
| `Consumer.Platform.WriteIndexRow` | src/cloudflare/queue-consumer.ts:75-92 | under the mailbox and local id stands a row showing the arrival: its thread, the instant, the inbox, no labels, the raw key and the hash; nothing else changes |
| `Consumer.Platform.WriteEventRow` | src/cloudflare/queue-consumer.ts:55-63 | under the idempotency key stands a row telling the DO's answer: processed with the message's id, or failed as message_id_conflict without one; nothing else changes |
| `Consumer.Platform.Record` | src/cloudflare/queue-consumer.ts:55-154 | the effects after an answer happen in order up to where the run stops, and the delivery is acked exactly when none was cut off |
| `Consumer.Platform.Attend` | src/cloudflare/queue-consumer.ts:42-154 | a delivery whose raw object was found changes the tables as its answer and its stopping point say |
| `Consumer.Platform.Consume` | src/cloudflare/queue-consumer.ts:37-154 | one delivery attempt is a run of the step system that never touches another delivery; it throws exactly when not acked, and a missing raw object stops it before the DO |
| `Consumer.Platform.Attempt` | src/cloudflare/queue-consumer.ts:155-174 | an attempt that threw is retried or, when the terminal record itself fails, left unsettled; otherwise as one attempt |
| `Consumer.Platform.HandleMessage` | src/cloudflare/queue-consumer.ts:17-35 | a malformed body is retried without touching anything; otherwise one attempt, and only its own local id is minted |
| `Consumer.Platform.HandleInboundQueue` | src/cloudflare/queue-consumer.ts:11-176 | the batch is a run of the step system; every message up to the one that abandoned the batch is settled as its own attempt ended and none after it is reached |
| `Consumer.Settles` | src/cloudflare/queue-consumer.ts:17-175 | settling one more message keeps what earlier messages of the batch were settled as |
| `Consumer.Platform.Reindex` | src/api/mailbox-routes.ts:621-672 | with the export or any D1 statement failing: the index is untouched before the delete, afterwards holds rows showing exactly the messages written so far, field by field and in their folders, beside the other mailboxes' rows, and all of them once all rows went through; `ok` exactly when the ops row did too |
| `Threads.Groupings` | scripts/verify-mailbox-rebuild.ts:527-535 | each thread maps to its raw keys in order, and only threads with entries appear |
| `Threads.CanonicalShapes` | scripts/verify-mailbox-rebuild.ts:546-549 | the set of printed groups is exactly the printed form of each group |
| `Threads.Compare` | scripts/verify-mailbox-rebuild.ts:537-566 | the warnings are the new shapes the old grouping lacks, and whether the number of groups changed |
| `Threads.ShapeInjective` | scripts/verify-mailbox-rebuild.ts:546-547 | for keys without the separator two groups print alike exactly when they hold the same keys with the same multiplicity |
| `Threads.SilentIffSamePartition` | scripts/verify-mailbox-rebuild.ts:551-566 | keys once each and bar-free: the comparison is silent exactly when the two partitions are equal, although shapes are compared one way only |
| `Threads.CountIsImplied` | scripts/verify-mailbox-rebuild.ts:561-566 | when every old key is still there the group count adds nothing: one-way inclusion of shapes already decides equality |
| `Threads.PartitionByPairs` | scripts/verify-mailbox-rebuild.ts:527-566 | the partitions of the same keys are equal exactly when any two keys share a thread on both sides or on neither |
| `Threads.BarHidesRegrouping` | scripts/verify-mailbox-rebuild.ts:546-566 | a concrete pair with the same keys and different partitions on which the comparison is silent, a key containing the separator |
| `Audit.Deduplicate` | scripts/verify-mailbox-rebuild.ts:254-270 | the first row of each raw key is kept in order, and a warning names each later one with the row it repeats |
| `Audit.Classify` | scripts/verify-mailbox-rebuild.ts:275-298 | a kept row is rebuildable or lost by the presence of its object, in order |
| `Audit.Bucket` | scripts/verify-mailbox-rebuild.ts:306-311 | each raw key maps to the DO messages that carry it, in order |
| `Audit.CheckPresence` | scripts/verify-mailbox-rebuild.ts:315-356 | exactly the absent, doubled, wrong-hash and unparsed rows are reported, and the sole holders are remembered |
| `Audit.CheckRestored` | scripts/verify-mailbox-rebuild.ts:368-409 | exactly the unindexed, wrong-folder or wrong-label rows fail, and a DO state that differs only warns |
| `Audit.CheckLost` | scripts/verify-mailbox-rebuild.ts:416-441 | exactly the losses that are in the DO after all, or are not outbound, fail; what outbound means is said by Audit.CorrectIffSound |
| `Audit.CheckPins` | scripts/verify-mailbox-rebuild.ts:447-469 | with a pinned set, exactly the ids in one set and not in the other fail |
| `Audit.CheckAccounted` | scripts/verify-mailbox-rebuild.ts:476-489 | exactly the DO messages whose raw key no row has fail |
| `Audit.CheckCounts` | scripts/verify-mailbox-rebuild.ts:502-519 | exactly the three count disagreements fail |
| `Audit.CheckThreads` | scripts/verify-mailbox-rebuild.ts:537-566 | the thread warnings are those of the comparison of rebuildable rows with DO messages |
| `Audit.CheckRows` | scripts/verify-mailbox-rebuild.ts:315-441 | the per-row findings, presence, restoration and loss together, are exactly the justified ones |
| `Audit.CheckWhole` | scripts/verify-mailbox-rebuild.ts:447-566 | the findings about the mailbox as a whole are exactly the justified ones |
| `Audit.Verify` | scripts/verify-mailbox-rebuild.ts:233-645 | over every input the findings are exactly the justified ones; the exit code is 0 exactly when there were rows, the inputs are sound and the search ran without a miss, and 1 exactly when they are not sound or the search missed; sound is said over the fields read: each first row of a raw key with an object has its one message with equal hash, parsed, in its folder with its labels, every other loss is in the sent folder or under sent/, counts and pins agree |
| `Audit.QuietRow` | scripts/verify-mailbox-rebuild.ts:315-409 | no failure means each rebuildable row has one holder, and that holder restores it |
| `Audit.FaultlessIffCorrect` | scripts/verify-mailbox-rebuild.ts:247-520 | soundness and completeness: no failure is justified exactly when messages and rebuildable rows are in bijection by raw key with equal hash, parsed body and restored index row, losses are outbound and absent, counts and pins agree |
| `Audit.CorrectIffSound` | scripts/verify-mailbox-rebuild.ts:247-520 | that bijection exists exactly when the inputs are sound field by field; a loss is accepted exactly when its state is `sent` or its raw key begins with `sent/` |
| `Audit.PassedIffCorrect` | scripts/verify-mailbox-rebuild.ts:613-645 | the run passes exactly when there were rows, the rebuild is correct and the search probe ran without a miss |
| `Audit.ThreadsSilentIffSame` | scripts/verify-mailbox-rebuild.ts:527-566 | on a sound rebuild with bar-free keys no threading warning is called for exactly when any two rows share a thread as the messages with their raw keys do |
| `Reingest.Classify` | scripts/reingest-mailbox.ts:412-501 | rows are scanned in order up to the limit; each is a candidate with the payload the handler would have built, or is refused for the first test it fails |
| `Reingest.FreshTarget` | scripts/reingest-mailbox.ts:514-529 | an untouched target satisfies the replay invariant for any set of candidates |
| `Reingest.StepReplaying` | src/cloudflare/queue-consumer.ts:17-175 | whatever the platform does keeps it: processed rows say what the ledger says and messages come from candidates; and rows nobody restored stay those deliveries wrote |
| `Reingest.DriveAllReplaying` | scripts/reingest-mailbox.ts:702-715 | the same over all the polls of a wait, in which the mailbox only grows |
| `Reingest.DriveKeepsEvents` | src/db/d1.ts:560-596 | no schedule of the platform removes an ingest row |
| `Reingest.Await` | scripts/reingest-mailbox.ts:699-715 | the wait ends at the first poll whose row is settled and is not the one found before pushing, or after the last poll |
| `Reingest.ReplayOne` | scripts/reingest-mailbox.ts:662-766 | on any target: the skip follows the ingest log as first read and changes nothing; otherwise the outcome is that of the first settling poll; alone on its target the outcome is true of the mailbox and the turn is a schedule of its own publishing and the polled deliveries |
| `Reingest.PushOne` | scripts/reingest-mailbox.ts:676-766 | a publish that failed may have reached the queue; otherwise the first polled state whose row is settled decides, conflict for a failed row and the row's id as inserted, or duplicate, for a processed one, and `timed out` or `unverified` only when no polled state settles |
| `Reingest.ReplayAll` | scripts/reingest-mailbox.ts:660-766 | on any target each candidate's outcome is that of its own turn, started where the turn before it ended; every recorded candidate has a row when the replay ends, and a replay that skips everything changes nothing; alone on its target every outcome is still true at the end, and the whole is one schedule of its own steps |
| `Reingest.RestoreRows` | scripts/reingest-mailbox.ts:774-795 | no index row is created; a row takes its folder and labels from the last restorable candidate that names it, if any, and otherwise stays |
| `Reingest.InsertedLanded` | scripts/reingest-mailbox.ts:754-766 | with distinct keys and every outcome `inserted` the mailbox holds each candidate's message under the reported id, and no other message |
| `Reingest.PlacedIffArrived` | scripts/reingest-mailbox.ts:774-795 | at the audit every candidate is parsed, indexed and in its folder exactly when each message parsed and was indexed before the restore, or only after it with nothing to restore |
| `Reingest.AuditOfReplay` | scripts/verify-mailbox-rebuild.ts:247-520 | with every outcome `inserted`, and deliveries going on after the restore, the audit calls for no failure exactly when the pins agree and every message arrived in that sense |
| `Reingest.InsertedNeedNotBeIndexed` | scripts/reingest-mailbox.ts:702-714 | a schedule on which the wait ends with `inserted` for a message that has no index row |
| `Reingest.Reingest` | scripts/reingest-mailbox.ts:405-796 | the whole script on any target: a dry run changes nothing; without --force a candidate is skipped exactly when its key has a row, of any status, and each other outcome is that of its own turn; only folders and labels change after the replay; and a run alone on its target leaves it fit for the next |
| `Reingest.InsertArises` | scripts/reingest-mailbox.ts:676-766 | on a fresh target with one raw object, for every id: one poll in which the delivery inserts it, indexes it and records it processed |
| `Reingest.InsertIsReported` | scripts/reingest-mailbox.ts:754-766 | and there the whole script reports exactly that candidate inserted, under that id |
| `Reingest.RestoreReplaying` | scripts/reingest-mailbox.ts:774-795 | restoring folders takes nothing from what a later run relies on |
| `Reingest.ReingestTwice` | scripts/reingest-mailbox.ts:586-588 | run, let anything happen, run again over any source: the second run skips exactly the keys in the ingest log, so every key the first saw recorded, and when it skips all of them queue, mailboxes and ingest log are as they were and only folders and labels may change |
| `Reingest.FailedKeyArises` | scripts/reingest-mailbox.ts:514-529 | a reachable target whose row for a candidate's key is failed: two emails of one Message-ID with different bytes |
| `Reingest.FailedKeyIsSkipped` | scripts/reingest-mailbox.ts:665-674 | there the script reports the candidate skipped and changes nothing |
| `Reingest.ReplayThenAudit` | scripts/verify-mailbox-rebuild.ts:247-520 | from a fresh target, replay, restore, later deliveries, audit: with every outcome `inserted` the audit calls for no failure exactly when the pins agree, every message parsed, and the delivery that inserted it wrote its index row in some poll, or after the restore of a message that needed none |
| `Routing.RankRules` | src/db/d1.ts:345-360 | the domain's rules come back by priority, ties in insertion order, none lost and none added |
| `Routing.DomainByName` | src/db/d1.ts:219-221 | the id of the domain of that name, or none has it |
| `Routing.ScanRules` | src/db/d1.ts:469-516 | the priority scan with its early returns gives the outcome of the best-ranked enabled matching rule that is not a store rule without a mailbox |
| `Routing.ResolveRecipient` | src/db/d1.ts:427-516 | mail goes where the specification says: active alias on an active domain first, else the domain's rules, each refusal for its own reason |
| `Routing.MatchesMeans` | src/db/d1.ts:470-478 | a pattern matches as `*`, as the whole address, as the part before its first `@`, or as `*@` and the rest of the address, and in no other way |
| `Routing.DomainPartMeans` | src/db/d1.ts:459-462 | the domain of an address is what stands between its first `@` and the next or the end, if anything does |
| `Routing.ResolutionUnique` | src/db/d1.ts:427-516 | under the schema's keys a recipient has exactly one resolution |
| `Routing.PicksFirstMatching` | src/db/d1.ts:469-516 | under the routes' invariant the scan picks exactly the first enabled matching rule |
| `Routing.StrandedRulePassedOver` | src/db/d1.ts:497-515 | without it a store rule that lost its mailbox is passed over and a lower rule decides |
| `Routing.StoredIsActive` | src/db/d1.ts:427-516 | mail is stored only in an active mailbox and only for an address whose domain is registered and active |
| `Routing.CanReceiveIffStored` | src/db/d1.ts:739-757 | `canReceive` holds exactly when some recipient's mail is stored through an alias |
| `ControlPlane.Directory.CreateDomain` | src/api/hono.ts:508-523 | one row for each canonical name; a repeat finds it; invariants kept |
| `ControlPlane.Directory.SetDomainStatus` | src/api/hono.ts:525-547 | PATCH and DELETE reach the row by name or id, change its status alone, or say it is not there |
| `ControlPlane.Directory.EnsurePrimaryAlias` | src/api/hono.ts:120-169 | the alias is created or reactivated only for its own mailbox and on its own active domain, never taken from another mailbox, and the reported reason is what the tables said |
| `ControlPlane.Directory.CreateMailbox` | src/api/hono.ts:428-460 | one mailbox for each canonical address; a repeat changes only the alias |
| `ControlPlane.Directory.PatchMailbox` | src/api/hono.ts:473-486 | absent fields stay, a null name clears it, and each refusal for its own reason |
| `ControlPlane.Directory.DeleteMailbox` | src/api/hono.ts:493-502 | deleting disables and keeps the row |
| `ControlPlane.Directory.CreateAlias` | src/api/hono.ts:653-675 | the alias is on the registered domain of its own spelling and an existing mailbox, or each refusal for its own reason |
| `ControlPlane.Directory.SetAliasStatus` | src/api/hono.ts:677-689 | only the status of that alias changes |
| `ControlPlane.Directory.DeleteAlias` | src/api/hono.ts:691-698 | exactly that alias goes |
| `ControlPlane.Directory.CreateRule` | src/api/hono.ts:705-740 | a rule is appended exactly when its domain exists, its action has what it needs and its mailbox is known |
| `ControlPlane.Directory.PatchRule` | src/api/hono.ts:742-783 | the row that would result is checked, not the patch, and it takes the old row's place |
| `ControlPlane.Directory.DeleteRule` | src/api/hono.ts:785-792 | exactly one rule goes and the others keep their order |
| `ControlPlane.DomainAdded` | src/db/d1.ts:227-245 | adding a domain under an unused canonical name keeps the schema's and the routes' invariants |
| `ControlPlane.DomainStatusSet` | src/db/d1.ts:247-253 | so does changing a domain's status |
| `ControlPlane.MailboxAdded` | src/db/d1.ts:170-197 | so does adding a mailbox under an unused canonical address |
| `ControlPlane.MailboxChanged` | src/db/d1.ts:206-212 | so does changing a mailbox's name or status |
| `ControlPlane.AliasWritten` | src/db/d1.ts:305-322 | so does writing an alias that references its own address's domain |
| `ControlPlane.AliasRemoved` | src/db/d1.ts:337-343 | so does removing an alias |
| `ControlPlane.RulesReplaced` | src/db/d1.ts:362-413 | so does any rule list whose store rules name mailboxes and whose forward rules have destinations |
| `ControlPlane.DeletedMailboxOnlyBounces` | src/api/hono.ts:493-502 | disabling a mailbox turns exactly the mail it stored into a bounce: none is diverted and no other recipient notices |
| `ControlPlane.ReadyReceivesIff` | src/api/hono.ts:120-169 | a mailbox whose alias is reported ready receives what is sent to it exactly when the alias's domain and the mailbox are active; otherwise the mail is refused, for the one reason or the other |
| `ControlPlane.ReadyNeedNotReceive` | src/api/hono.ts:132-145 | the input: a null `aliasReason` for an alias on a disabled domain, and nothing is received |
| `Requests.Answer` | src/api/hono.ts:428-792 | any one of the eleven requests, through its route, changes the tables exactly as its own declarative answer says, keeps the schema's constraints and the routing invariant, and what is new in any table is what the request asks for |
| `Requests.MadeOn` | src/api/hono.ts:428-792 | so if every row so far was made by a request for it, every row still is |
| `Requests.MintedUnused` | src/api/hono.ts:428-792 | and an id drawn for a request, random ids not repeating, is not in use when the request arrives |
| `Requests.Serve` | src/api/hono.ts:428-792 | from a database just migrated, after any sequence of requests: each took the tables as the one before left them and answered as that account says; constraints and routing invariant hold, every domain, mailbox, alias and rule was made by a request for it, a domain's rules decide by the first that matches, and mail is stored only in active mailboxes |
| `Requests.ServeThenRoute` | src/db/d1.ts:427-516 | after any such sequence mail is stored only in a mailbox one of the requests opened, for an address on a domain one of them registered, and a rule decides only if one of them added it |
| `StepEngine.UnmetDeps` | scripts/lib/onboard-core.ts:427-432 | the dependencies, in order, whose recorded outcome is not already, done or, in a dry run, would-do; an unknown one abandons the run |
| `StepEngine.RunStep` | scripts/lib/onboard-core.ts:427-446 | one turn of the loop extends the results and the index by the step's own outcome or a skip |
| `StepEngine.RunSteps` | scripts/lib/onboard-core.ts:417-449 | one result for each step in order: its own end if all it depends on succeeded, a throw being its failure, and otherwise a skip naming in order the dependencies that did not; the run is abandoned exactly when a dependency names no earlier step |
| `StepEngine.SkippedHasCulprit` | scripts/lib/onboard-core.ts:407-449 | every step that does not run has a chain of dependencies ending at one that ran and ended unmet |
| `StepEngine.CulpritSkips` | scripts/lib/onboard-core.ts:407-449 | and every such chain keeps the step from running |
| `StepEngine.RunsUnlessCulprit` | scripts/lib/onboard-core.ts:407-449 | a step runs exactly when no such chain exists |
| `StepEngine.ExitCode` | scripts/lib/onboard-core.ts:1527-1529 | 0 exactly when every result is already, done or would-do |
| `StepEngine.CleanExitRanEverything` | scripts/lib/onboard-core.ts:468-470 | exit code 0 exactly when every step ran and ended already, done or would-do |
| `Manifest.ResolveTargets` | scripts/lib/onboard-core.ts:199-234 | the sending targets in order, pairwise distinct, and an error exactly for every target that does not resolve or is listed twice |
| `Manifest.CheckAliases` | scripts/lib/onboard-core.ts:242-253 | the aliases kept are distinct, on the zone and not the mailbox; an error exactly for every listed one that is off the zone, the mailbox itself or listed before, in that precedence |
| `Manifest.CheckKeys` | scripts/lib/onboard-core.ts:255-286 | an error exactly for every key entry that repeats a name or a title, sends from elsewhere, has an unparsable policy or needs templates there are none of |
| `Manifest.Validate` | scripts/lib/onboard-core.ts:188-314 | a manifest is accepted exactly when it breaks no cross-field rule, what it resolves to is coherent, and a refusal lists exactly the rules it breaks |
| `Manifest.AcceptableIff` | scripts/lib/onboard-core.ts:188-314 | what an acceptable manifest is, read off it without the checks, is what none of the checks faults |
| `Manifest.StepsInOrder` | scripts/onboard.ts:1120-1132 | the steps of an accepted manifest have distinct ids and depend only on earlier steps |
| `Manifest.StepsAreThose` | scripts/onboard.ts:1120-1132 | every step of the list is one a declarative account names, and waits for what it says: a key for the mailbox, the templates if there are any and the domain it sends from, and so on for the others |
| `Manifest.ThoseAreSteps` | scripts/onboard.ts:1120-1132 | and every step of that account is in the list |
| `Manifest.RunManifest` | scripts/onboard.ts:1120-1132 | every accepted manifest is run to the end: one result for each step it plans and for nothing else, each being that step's own end exactly when what it waits for succeeded |
| `Converge.DomainDecided` | scripts/lib/onboard-core.ts:858-895 | in whatever order rows are listed, the domain decision is `already` exactly when the row is there, active and on the right zone, and `todo` exactly when there is no row and a zone id |
| `Converge.MailboxDecided` | scripts/lib/onboard-core.ts:903-958 | the mailbox decision is `already` exactly when the mailbox, its owner, name and active alias are as wanted |
| `Converge.AliasDecided` | scripts/lib/onboard-core.ts:966-996 | the alias decision is `already` exactly when the alias is the mailbox's and active |
| `Converge.OutstandingDecided` | scripts/lib/onboard-core.ts:903-958 | it is `todo` exactly when there is no holder, or a holder that is only incomplete |
| `Converge.CreatedInPlace` | src/api/hono.ts:428-460 | what the POST leaves of an unheld address is in place exactly when no other mailbox claims it and its domain serves it |
| `Converge.CompletedInPlace` | src/api/hono.ts:428-486 | what the POST and PATCH leave of an incomplete mailbox is in place under the same condition |
| `Converge.DomainStep` | scripts/onboard.ts:626-653 | already exactly when in place; an unregistered zone with a known id is registered, or announced in a dry run, and that row is all that is new; blocked otherwise, and nothing written |
| `Converge.ApplyCreate` | scripts/onboard.ts:655-717 | creating through the route reaches the in-place state exactly when the address was free to take |
| `Converge.ApplyConverge` | scripts/onboard.ts:655-717 | completing through the routes does so exactly under the same condition |
| `Converge.MailboxStep` | scripts/onboard.ts:655-717 | already exactly when in place, blocked exactly when neither in place nor outstanding; what is outstanding is announced in a dry run and otherwise done exactly when provisionable and failed if not, the rows as asked either way; no run touches another mailbox or another alias |
| `Converge.AliasStep` | scripts/onboard.ts:719-745 | already exactly when the alias is the mailbox's own and active, blocked when it is taken otherwise; a free one is announced in a dry run, and otherwise done exactly when the mailbox exists and the domain is registered, and failed if not; one alias is added and no other changes |
| `Converge.AliasPass` | scripts/onboard.ts:1120-1132 | alias steps one after another never undo the mailbox or each other, and each is met exactly when its alias was feasible at the start |
| `Converge.MailboxPass` | scripts/onboard.ts:1120-1132 | the mailbox step and then the aliases, skipped unless it was met: all met exactly when the mailbox and every alias were attainable from the tables found |
| `Converge.MailboxMetIff` | scripts/onboard.ts:655-717 | what the mailbox step can meet, said of the tables: nobody holds the address and it can be given to the owner, or its holder is active, the owner's, and has or can get the alias |
| `Converge.AliasPossibleIff` | scripts/onboard.ts:719-745 | meeting the mailbox step neither opens nor closes the way for any other alias |
| `Converge.ZoneAdded` | scripts/onboard.ts:626-653 | nor does registering the zone |
| `Converge.Onboard` | scripts/onboard.ts:1120-1132 | one pass meets every step exactly from feasible tables; a step is skipped exactly when the one before it was not met, naming it; then every decision is `already`, and when every decision was `already` a pass writes no row |
| `KeySaga.ObserveStore` | scripts/onboard.ts:921-941 | the observation is one the vault can give under the read's fault: absent, one item with or without a key id, several, or unreadable |
| `KeySaga.Deployment.FixKey` | scripts/onboard.ts:987-1014 | the rename and the endpoint edit in order, the second only after the first worked: key and item are exactly as the calls that took effect leave them |
| `KeySaga.Deployment.MintKey` | scripts/onboard.ts:1030-1114 | minted only after a second absent read; the key, the item and the outcome are told exactly for every way each call can end, the revocation of a key whose secret could not be stored included; done exactly when create, plaintext, store and read-back all worked |
| `KeySaga.Deployment.KeyStep` | scripts/onboard.ts:945-1028 | in any weather the outcome and what is left are decided by the first look at the vault: already exactly when key and item are as wanted, blocked exactly when there is nothing to mint and nothing that can be fixed, a dry run announces the rest and changes nothing, an applied one mints or fixes as the calls allow; in fair weather the same of the vault itself, and an applied run ends `already` or `done` exactly when no item has the title or its one item holds an active key with the same fixed fields |
| `KeySaga.Deployment.Run` | scripts/onboard.ts:945-1114 | a run is one key step, a dry one changes nothing; and over any sequence of runs a live key minted here that no item holds belongs to a run reported failed |
| `KeySaga.Deployment.DeleteDeadItem` | scripts/lib/onboard-core.ts:1178-1261 | following a remedy, deleting an item whose key is dead, keeps that account |
| `KeySaga.Deployment.RevokeKey` | scripts/lib/onboard-core.ts:1178-1261 | so does revoking a key |
| `Overlay.OverlayVars` | scripts/lib/deploy-config.ts:153-163 | generated variables win one by one, base-only ones stay, the journal replays to the result and is empty exactly when nothing differed |
| `Overlay.OverlayEntries` | scripts/lib/deploy-config.ts:165-197 | the owned field of the first entry of a wanted key changes and nothing else; journal and undeclared keys are exact |
| `Overlay.OverlaidAgreesIffNoConflict` | scripts/lib/deploy-config.ts:165-197 | the overlaid list carries everything generated exactly when no declared key is wanted at two values |
| `Overlay.OverlayD1` | scripts/lib/deploy-config.ts:165-180 | the same for database ids, an empty id counting as none |
| `Overlay.OverlayEmail` | scripts/lib/deploy-config.ts:182-197 | the same for sender lists |
| `Overlay.OverlayRoutes` | scripts/lib/deploy-config.ts:203-212 | routes come with `workers_dev`, false unless given, and only when declared |
| `Overlay.OverlayRest` | scripts/lib/deploy-config.ts:165-212 | the three list and route parts together, with one journal |
| `Overlay.ApplyGeneratedOverlay` | scripts/lib/deploy-config.ts:143-229 | what the generated file owns is overlaid, the rest is the base's; the journal replayed on the base gives the result exactly unless an empty `vars` is added, is empty exactly when nothing differed; the ignored items are exactly the undeclared and structural ones |
| `Overlay.EmptyVarsUnjournalled` | scripts/lib/deploy-config.ts:153-163 | the input: a file adding only an empty `vars`, an empty journal, and a result that is not the base |
| `Overlay.WorkersDevUnchecked` | scripts/lib/deploy-config.ts:236-266 | a block shipping everything generated passes the re-read check with any other `workers_dev`, and still ships everything exactly when no routes are declared or the value is the same |
| `Overlay.CheckedNeedNotShip` | scripts/lib/deploy-config.ts:236-266 | the input: a block that passes the check and does not ship the generated `workers_dev` |
| `Overlay.FindOverlayMismatches` | scripts/lib/deploy-config.ts:236-266 | exactly the variables, database ids, sender lists and routes the generated file wants otherwise than the final configuration has them, `workers_dev` not being one; empty exactly when it carries every field compared |
| `Overlay.OverlaySettlesIffUnambiguous` | scripts/lib/deploy-config.ts:143-266 | the overlaid configuration passes the re-read check, and a second overlay applies nothing, exactly when no declared binding is given two values |
| `Overlay.UniqueBindingsUnambiguous` | scripts/lib/deploy-config.ts:143-266 | bindings unique by name are never ambiguous |
| `Overlay.CompetingIdsFailTheCheck` | scripts/lib/deploy-config.ts:236-266 | a generated file naming one binding twice fails its own re-read check |
| `SendingConfig.DeployedVars` | scripts/lib/deploy-config.ts:273-282 | each shipped variable is the generated block's, else the tracked one's, inheritance between environments included |
| `SendingConfig.EffectiveMeans` | scripts/lib/deploy-config.ts:83-115 | which fields a named environment takes from its own block, which it inherits where it leaves them out, and which it never inherits |
| `SendingConfig.BindingMeans` | scripts/lib/sending-config.ts:96-101 | the sender list a run edits is that of the binding EMAIL, else of the first one |
| `SendingConfig.PlanUpdate` | scripts/lib/sending-config.ts:61-125 | the update planned is the specified one, and each refusal for its own missing block |
| `SendingConfig.WriteBlock` | scripts/lib/sending-config.ts:93-108 | two variables and at most one sender list are assigned |
| `SendingConfig.SortedUnion` | scripts/lib/sending-config.ts:88-91 | in order and without repeats: every shipped domain, the canonical form of every added one, and nothing else |
| `SendingConfig.UnionUnique` | scripts/lib/sending-config.ts:88-91 | and only one list is so |
| `SendingConfig.WrittenIsShipped` | scripts/lib/sending-config.ts:93-97 | the written variables are what the next deploy ships |
| `SendingConfig.PrintedParsesBack` | scripts/lib/deploy-config.ts:285-295 | a comma list of distinct names parses back to itself exactly when every name survives the parser |
| `SendingConfig.DomainsAreUnion` | scripts/lib/sending-config.ts:88-91 | the domains are sorted, without repeats, the shipped ones and the added ones and nothing else |
| `SendingConfig.DeployReadsUnionIff` | scripts/lib/deploy-config.ts:285-295 | a deploy of the written file parses back to exactly the union, exactly when every added domain is non-empty and comma-free |
| `SendingConfig.NothingShippedIsLost` | scripts/lib/sending-config.ts:88-97 | whatever is added, no domain shipped before is lost |
| `SendingConfig.ReplanUnchangedIff` | scripts/lib/sending-config.ts:110-124 | planning again from the written file reports no change exactly when everything the added names read as was already in the union |
| `SendingConfig.CommaFreeReplansUnchanged` | scripts/lib/sending-config.ts:110-124 | which always holds for names without commas |
| `SendingConfig.OthersUntouched` | scripts/lib/sending-config.ts:61-125 | other environments, other variables, other bindings and every other field are left alone |
| `SendingConfig.SendersOnlyWiden` | scripts/lib/sending-config.ts:99-108 | a bounded list only grows, and an unbounded one is bounded only on request, to exactly the senders asked for |
| `SendingPlan.ParseArgs` | scripts/setup-sending.ts:138-158 | the index loop that may take two arguments at once computes the recursive reading of the command line |
| `SendingPlan.ParseRendered` | scripts/setup-sending.ts:138-158 | parsing rendered options is reading the options one by one, flag-like values included |
| `SendingPlan.TargetReadBack` | scripts/lib/sending-plan.ts:44-73 | a target resolved again from its own label is itself exactly when the label stays a label relative to the zone |
| `SendingPlan.PlanReadBack` | scripts/lib/sending-plan.ts:109-167 | a DMARC plan resolved again from its own fields is itself |
| `SendingPlan.ZoneMeans` | scripts/lib/sending-plan.ts:24-34 | a zone is host characters, a dot and a top-level name of two letters or more, in no other way |
| `SendingPlan.LabelMeans` | scripts/lib/sending-plan.ts:65-73 | a label is one or more words of letters, digits and hyphens with dots between them, in no other way |
| `SendingPlan.TargetMeans` | scripts/lib/sending-plan.ts:44-73 | the apex exactly when it is flagged or named, refused when a flag stands beside a label; otherwise the name asked for, or `send`, without the zone it ends in, if that is a label |
| `SendingPlan.DmarcMeans` | scripts/lib/sending-plan.ts:109-167 | the plan has the policy, alignment and report address asked for, or `none`, `relaxed` and no address; refused for an unknown word, and at the apex without a policy |
| `SendingPlan.FullNameReadBack` | scripts/lib/sending-plan.ts:44-73 | a target's own sending domain, given as the subdomain, resolves to that target |
| `SendingPlan.RoundTripIffCarried` | scripts/lib/onboard-core.ts:485-504 | parsing what onboarding renders gives back the same environment, target, DMARC plan and mode exactly when no value looks like a flag and the label stays under the zone |
| `Feedback.LiveIffEveryEventReaches` | scripts/lib/event-subscriptions.ts:74-107 | `live` exactly when each of the six events reaches the queue through some enabled subscription of the domain |
| `Feedback.VerdictMeans` | scripts/lib/event-subscriptions.ts:74-107 | what each verdict says of the domain's subscriptions, that its ids are those of the subscriptions it is about, and that the events missing are exactly those that do not arrive |
| `Feedback.ZoneIdMeans` | scripts/setup-sending.ts:802-810 | the zone id a create uses is the one known, else that of the first sending subscription of the zone or a name under it that carries one |
| `Feedback.Account.Update` | scripts/setup-sending.ts:847-860 | the subscription with the id is switched on for all six events, the others stay |
| `Feedback.PartialMends` | scripts/setup-sending.ts:847-867 | updating the first usable subscription of a partial channel makes it live |
| `Feedback.DisabledMendsIff` | scripts/setup-sending.ts:847-867 | updating the first subscription of a disabled channel makes it live exactly when it is already on the queue |
| `Feedback.CreateMends` | scripts/setup-sending.ts:868-897 | a created subscription makes the channel live |
| `Feedback.Account.Mend` | scripts/setup-sending.ts:843-897 | create, for that domain, zone id, queue and the six events, exactly from absent with a zone id known, update of the first one listed from disabled or partial, and a failed call may have taken effect; nothing else in the list changes; whether the channel is then live is decided by where the first subscription pointed |
| `Feedback.Account.Ensure` | scripts/setup-sending.ts:742-923 | skipped exactly on request; a call takes effect exactly on an apply over a readable channel that is not live, not on another queue and not without a zone id to create one; `verified` exactly when the channel was read live, or a call that worked was followed by a re-read that finds it so; with no call failing, one apply verifies exactly the mendable channels |
| `Upserts.NormalizeKeeps` | src/lib/dns-gate.ts:131-134 | normalising a TXT text keeps the word it begins with |
| `Upserts.QuotedReads` | src/lib/dns-gate.ts:131-134 | a text in quoted strings, with any blanks between and around them, normalises to the strings joined |
| `Upserts.DmarcTaggedMeans` | scripts/lib/dmarc.ts:21-31 | the test of the tag parser is met exactly by a `v`, an `=` and the word DMARC1, blanks allowed around the `=`, in any case |
| `Upserts.PrefixTagged` | scripts/lib/dmarc.ts:21-31 | the prefix test and the tag parser differ on a text with the prefix exactly when its version runs on into a longer word |
| `Upserts.TxtName.Collapse` | scripts/setup-sending.ts:265-277 | the managed records after the first are deleted in order while the calls go through; the first, those not reached and all others stay |
| `Upserts.TxtName.Upsert` | scripts/setup-sending.ts:240-312 | with calls failing from any point: refused exactly when several records match and may not be collapsed; done leaves exactly one matching record saying what is wanted, under the first one's id; a failed run changes nothing or has deleted some duplicates; foreign records stay, and nothing changes exactly when it was so already |
| `Upserts.MxName.Upsert` | scripts/setup-sending.ts:326-382 | the first record of the exchange is re-prioritised or one is added, and no other record changes; nothing changes exactly when the first already had the priority, or when a call failed |
| `Upserts.UpsertedPriority` | scripts/setup-sending.ts:326-382 | an upsert sets the priority of its own exchange and of no other |
| `Upserts.MxName.UpsertAll` | scripts/setup-sending.ts:684-694 | a pass leaves the first record of every exchange at the priority last wanted of it, those behind it as they were, and every other exchange alone; one cut short by a failing call is such a pass over the first few; it changes nothing exactly when every wanted exchange was first at its priority |
| `Upserts.SweptFirstIff` | scripts/setup-sending.ts:684-694 | the pass leaves every wanted record first of its exchange exactly when no exchange is wanted at two priorities |
| `Upserts.FirstsAgree` | scripts/setup-sending.ts:684-694 | which no list that wants one exchange at two priorities can ever satisfy |
| `Dmarc.ValueReadsBack` | src/lib/dns-gate.ts:104-119 | the DMARC record written for a plan is read back by the program's own parser as exactly its tags: policy, both alignments, pct only where an action is asked for, and the report address if there is one |
| `SendingTarget.DecideSendingTarget` | scripts/lib/onboard-core.ts:540-689 | over the observation itself: `already` exactly when the name is enabled, one SPF and one DMARC text stand and say what is wanted, the first key the provider shows is published, every bounce exchange it asks for is answered at its priority and all six events arrive; blocked exactly for its five reasons; otherwise the gaps listed are exactly those there are |
| `SendingTarget.ApplyDns` | scripts/setup-sending.ts:596-694 | SPF, DMARC, DKIM, MX in order, an API call failing anywhere: enough calls never fail; refused exactly on several SPF or DKIM records; done leaves each text settled and the exchanges swept; however it ends, other records stay and no duplicates appear; a next run changes nothing exactly when no exchange is wanted at two priorities |
| `SendingTarget.SetupSending` | scripts/setup-sending.ts:552-923 | enable, DNS, events, with each able to fail: a failed enable or zone lookup changes no record; without a token only the name and its events change; a run that is done leaves the texts settled and the exchanges swept; `verified` exactly when the channel is live on re-read, and in fair weather exactly when it was mendable |
| `SendingTarget.PlansAreProper` | scripts/lib/sending-plan.ts:109-167 | the texts of every plan are ones the upserts recognise as their own |
| `SendingFixpoint.DmarcUntouchedIff` | scripts/lib/onboard-core.ts:618-639 | given one tagged record with the wanted text, the DMARC upsert is idle exactly when no look-alike stands beside it |
| `SendingFixpoint.AlreadyUntouchedIff` | scripts/lib/onboard-core.ts:534-539 | for a name found whole on the same records, the run writes nothing and is not refused exactly when there is no DMARC look-alike, one DKIM record, and no wanted exchange behind a record of another priority |
| `SendingFixpoint.UntouchedStands` | scripts/lib/onboard-core.ts:618-672 | what a run leaves is decided whole exactly when no DMARC record is spelled with spaces, which no run removes |
| `SendingFixpoint.SpacedSurvives` | scripts/setup-sending.ts:617-620 | no run, however it ends, removes or adds a DMARC record spelled with spaces |
| `SendingFixpoint.SpacedIsNeverWhole` | scripts/lib/onboard-core.ts:618-639 | while one is there the name is never decided whole |
| `SendingFixpoint.SpacedExists` | scripts/lib/dmarc.ts:21-31 | `v = DMARC1` is such a record |
| `SendingFixpoint.MxAnsweredIff` | scripts/lib/onboard-core.ts:598-613 | after a pass public DNS answers every wanted exchange exactly when each is the one last wanted of it or stood behind it already |
| `SendingFixpoint.ConsistentServed` | scripts/setup-sending.ts:684-694 | which holds of all of them when no exchange is wanted at two priorities |
| `SendingFixpoint.RunRepairsIff` | scripts/lib/onboard-core.ts:540-689 | after an unrefused run in which nothing failed the name is seen whole exactly when the provider gives a key and an exchange, every wanted exchange is answered, no DMARC record is spelled with spaces and the channel was mendable |
| `SendingFixpoint.DecideApplyDecide` | scripts/lib/onboard-core.ts:540-689 | decide, run, decide: from a `todo`, when nothing fails and nothing is refused, the second decision is `already` exactly under that condition on what the run found, and such a run is refused exactly on several SPF or DKIM records |
| `SendingFixpoint.ObservationExists` | scripts/lib/onboard-core.ts:540-689 | and there is such an observation of every name: each record as the zone spells it, in the zone's order |
| `SendingFixpoint.LookAlikeIsCollapsed` | scripts/setup-sending.ts:617-620 | beside any whole and untouched name a look-alike record goes unseen by the decision and makes the next run write |
| `SendingFixpoint.SecondKeyIsRefused` | scripts/setup-sending.ts:264-270 | a second DKIM record beside the wanted one goes unseen by the decision and makes the next run refuse |
| `SendingFixpoint.ShadowIsRepatched` | scripts/setup-sending.ts:347-369 | a record of a wanted exchange placed first with another priority goes unseen and is patched by the next run |
| `SendingFixpoint.WholeName` | scripts/lib/onboard-core.ts:540-689 | for every plan of the program a name found whole and left alone: one key, one exchange, one record of each kind |
| `SendingFixpoint.PlanExists` | scripts/lib/sending-plan.ts:109-167 | and there is such a plan |
| `SendingFixpoint.QuietFaultsExist` | scripts/lib/onboard-core.ts:534-539 | beside it each of the three faults in turn: the faulty zone is shown, still found whole, and not left alone |

## Left out

- MIME parsing, hashing, thread resolution and full-text search: parameters of the ingest contract; the audit's search probe is an input to its verdict.
- Reading the vault, subprocesses, files and HTTP: abstract states whose operations may fail; only the outcomes the code tells apart are kept.
- SendingTarget.SetupSending: the DMARC record the provider adds when a name is enabled is taken as there from the start; a DNS call that failed is taken not to have taken effect.
- Upserts.TxtName.Upsert: record comments and TTLs are not modelled, and a listing of more than a hundred records at one name is not.
- SendingFixpoint.AlreadyUntouchedIff: public DNS is taken to give the zone's texts up to TXT normalisation and in any order; an answer whose quoting differs after one normalisation is outside it.
- Reingest.ReplayThenAudit: the target mailbox and the ingest rows of its keys are reached only by deliveries of this replay's candidates; what a replay reports is proved on any target, what the audit then finds only for a mailbox no other mail reaches meanwhile.
- Consumer.Platform.HandleInboundQueue: local ids minted by the Durable Object are fresh and pairwise distinct, as random ids are taken to be.
- SendingPlan.RoundTripIffCarried: the sender options after the DMARC ones are not rendered by onboarding and are not modelled.
- Manifest.Validate: the field formats zod checks (lengths, address shapes) only narrow the inputs and are assumed.
- Consumer.Platform.HandleMessage: ops-event rows are not modelled, only whether writing one fails at the points where that changes the outcome.
- Consumer.Platform.Reindex: a D1 statement that failed is taken not to have taken effect; other deliveries beside it are History.InterleavedReindexIff.
- Pipeline.RunKept: the `queued` ingest status, which no modelled code writes, is not a state.
- Overlay.ApplyGeneratedOverlay: objects compare by their fields in order, as the printed text does; numeric-looking keys, which JavaScript reorders, are not modelled.
- Text: letters and blanks are the ASCII ones, and strings sort by code point, where the scripts sort by UTF-16 unit.
- ControlPlane: session checks, owner filters, the provisioning endpoint and list routes are not modelled; minted ids are non-empty and unused.
- KeySaga: keys are created and changed by these runs and by the operator actions given, one run at a time.
- Template sync, telegram topics, deployment polling and routing-rule setup are steps of the engine with arbitrary outcomes.
- The cross-check of declared against enabled sending domains, the parsers of wrangler tables, report formatting, the outbound send path, sign-in and the user interface are not modelled.
