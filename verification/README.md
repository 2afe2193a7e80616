# clu: the plan store and the state machines around it

This project models the part of clu that many processes write at once, and
proves what the code relies on when they do.

* **The plan store.** A plan is a head row, at most one claim, blockers,
  spawned tasks, a hot event log with ids that are never reused, and an
  archive. `PlanOps` says what each of the eighteen operations does to a plan
  read as a document; `PlanStore` is the store as it runs, statement by
  statement on rows (`PlanRows`, `PlanTables`, `PlanStatements`), proved to do
  exactly that, answers, errors and rollback included.
* **Whole runs of it.** `EventLog` (what the log holds, what the high-water
  mark stands for, what a polling reader sees), `Ticks` (optimistic ticks are
  serialisable), `HotWrites` (heartbeats and activity stamps do not abort
  them), `Grounding` (which undeclared facts a run can slip past a tick),
  `Claims` (token fencing, at-most-once dispatch), `Dispatch` (the
  two-transaction fallbacks), `Blockers` (ids, answers, consumptions),
  `RoundTrip` (what goes in comes out).
* **What each call leaves.** `Observed` and `Dispatched` say it of the stored
  documents key by key, without the functions `PlanOps` computes with: a
  question is stored as it was put, a dispatched claim is good for its lease.
* **The machines beside it.** `Queue` and `QueueRuns` (order held in row ids),
  `Quota` (pause, canary, resume, reset time), `Watchdog` and `WatchdogRaces`
  (CPU samples, idle window, races with tool calls), `WatchdogStore` (those
  races as calls on the store), `Attempts` (floors and forgiveness),
  `Conflict` (the worktree rule), `Replies` and `AskTimes` (routing an
  operator's digit, and when it cannot be routed), `Heartbeat` (the strike
  loop), `PlanTable` (printer and parser of the sessions table),
  `TableReadings` (every table that parser accepts or refuses), `ArchiveGroups`
  (longest-prefix masters). `Values`, `Decimals` and `Text` hold what they share.

## Conventions

An operation takes the clock reading, and a dispatch the minted token, as an
argument. Times are whole seconds. A field name is a value of the datatype
`Key`; the names the store treats specially have constructors of their own. A
JSON value is opaque, but an absent key and a present null are different
things, and an integer and a fraction are never equal. A transaction is atomic
and isolated, and a busy database is a step not taken. The event id counter is
restored on rollback and never lowered by a commit. `Disciplined` (in
`Claims`), `Fair` (in `Blockers`), `OnlyAsksBlock` (in `AskTimes`), `Grounded`
and `SelfReading` (in `Ticks`) and `WellFormed` (in `QueueRuns`) state what the
callers keep to where the store itself would let them do more; each says in its
comment what that is, and `RenamingTheHolderBreaksFencing`,
`GroundingIsNeeded` and `SlipsIff` show what some of them are needed for.

## Where code and documentation disagree

The model follows the code.

* `op_activity` says the clear on a tool start covers a tool call of any
  length. A tick whose snapshot saw the stored empty history, and which samples
  before the start and applies after it, is not stopped: the history is empty
  again, so its precondition holds, and its old sample is written back. A
  report can then fall inside the window of the last tool start, by at most the
  sample gap, however long the tick takes (`WatchdogRaces.NoEarlyAlarm`). An
  earlier start must have stored the empty list; over an absent one the tick
  does conflict (`WatchdogRaces.StraddlingAlarmIsEarly`).
* A tick that could not read `ps` declares nothing about the samples it judged.
  When a quiet span has held a report back until the window was full, such a
  tick can still report after a tool start that cleared them. Together with the
  case above this is the whole condition (`WatchdogRaces.EarlyReportIff`).
* The slug validator's pattern ends in `$`, which also matches before a final
  line break, so one such slug passes. The printer/parser round trip fails for
  exactly those (`PlanTable.ReadsBackIffPlainSlugs`).
* A blocker's `consumed` is described as absent until set; its column has the
  default 0, so it reads back as false (`PlanDoc.NormalBlocker`).
* `require_blocker` declares nothing for a blocker the snapshot did not have,
  so a decision resting on its absence is not protected
  (`Ticks.GroundingIsNeeded`). The same helper for fields of an absent claim
  errs the other way: the tick can then never commit where it was decided
  (`Ticks.AbsentClaimFieldsAbort`).
* The reply router's comment says its fallback for a blocker without a block
  event never fires. Archiving a plan moves its block events out of the hot log
  and leaves the plan registered, so it fires for every question still open
  there, and two of them tie for good (`AskTimes.ArchivalDeadlocks`).
* A prefixed reply, or a digit when one blocker is open, is routed even when
  the blocker has no such option; the digit is then stored as typed
  (`Replies.StoredAnswer`).

## Model

| member | source | states |
|---|---|---|
| PlanStore.PlanStore.Do | end_of_line/plan_store.py:655-686 | whatever the operation, the rows of the five tables move exactly as one step of the document database they stand for: same answer, same error, and on an error not a row changed, the version bump included |
| PlanStore.PlanStore.DoAll | end_of_line/plan_store.py:628-653 | a whole run of calls on the rows is the same run on the documents, so every run theorem below is about the tables |
| PlanStore.PlanStore.Bump | end_of_line/plan_store.py:676-686 | the first statement is both the version bump and the existence check: a missing plan changes nothing |
| PlanStore.PlanStore.InsertEvents | end_of_line/plan_store.py:617-625 | a batch of events is stamped with the next ids of one database-wide counter and lands at the end of the plan's hot log |
| PlanStore.PlanStore.ClaimAssignments | end_of_line/plan_store.py:891-915 | splitting a claim-field write over columns, JSON columns and the flags catch-all reads back as the old claim updated with the fields, null scalars dropped |
| PlanStatements.HeadAssignments | end_of_line/plan_store.py:1361-1407 | a head write is refused exactly when it names a derived key, or removes a derived or scalar one; otherwise the row reads back as the map update followed by the removals |
| PlanStatements.BlockerAssignments | end_of_line/plan_store.py:1743-1763 | a blocker update over columns reads back as the old blocker updated with the fields, in normal form |
| PlanStatements.MaxEventId | end_of_line/plan_store.py:1686-1690 | the maximum the query computes over all plans' rows is the id of this plan's newest hot event, or 0 |
| PlanStore.PlanStore.ReleaseInTxn | end_of_line/plan_store.py:720-741 | token and phase come together or not at all, and both must match; then the claim row is gone and the old claim is the answer |
| PlanStore.PlanStore.OpHeartbeat | end_of_line/plan_store.py:744-767 | one heartbeat is one step: a claim that does not match token and phase raises and rolls the bump back |
| PlanStore.PlanStore.OpActivity | end_of_line/plan_store.py:770-833 | a start stamps the marker and voids the idle window, an end clears the marker; an unknown action or a stale token writes nothing |
| PlanStore.PlanStore.OpStampClaimFields | end_of_line/plan_store.py:836-888 | fields and events land together; a truthy guard column or flag turns the call into a no-op that answers false |
| PlanStore.PlanStore.OpAddBlocker | end_of_line/plan_store.py:1013-1074 | optional release, minted id, row and event are one step |
| PlanStore.PlanStore.OpAnswerBlocker | end_of_line/plan_store.py:1088-1133 | only an unanswered blocker is answered, with the option text its own row holds |
| PlanStore.PlanStore.OpAppendEvents | end_of_line/plan_store.py:918-947 | events land on the log, or a stale token writes nothing |
| PlanStore.PlanStore.OpReleaseClaim | end_of_line/plan_store.py:950-968 | release and its events are one step that answers with the old claim |
| PlanStore.PlanStore.OpStampAttestation | end_of_line/plan_store.py:971-1010 | one attestation is merged into the claim's record; no claim and a stale token are different errors |
| PlanStore.PlanStore.OpRefuseAttestation | end_of_line/plan_store.py:1282-1324 | a refusal is logged unless the stamp landed meanwhile, in which case nothing is |
| PlanStore.PlanStore.OpStampBlockerMetadata | end_of_line/plan_store.py:1136-1163 | one channel's record is merged beside the others; an unknown blocker is a no-op |
| PlanStore.PlanStore.OpSpawnTask | end_of_line/plan_store.py:1166-1213 | minted id, task row and event are one step |
| PlanStore.PlanStore.OpCompleteTask | end_of_line/plan_store.py:1216-1257 | a task is done once, with one event; again is a no-op, never spawned an error |
| PlanStore.PlanStore.OpSetStatus | end_of_line/plan_store.py:1260-1279 | optional release, status and event are one step |
| PlanStore.PlanStore.OpSetWorktree | end_of_line/plan_store.py:1410-1425 | clearing the worktree is a field write, not a removal |
| PlanStore.PlanStore.OpExtendLease | end_of_line/plan_store.py:1428-1487 | the lease moves out from the later of its expiry and now, with its event, if the phase is still the one looked at |
| PlanStore.PlanStore.OpSetFields | end_of_line/plan_store.py:1327-1358 | fields, removals and events are one step, or a refusal that writes nothing |
| PlanStore.PlanStore.OpArchiveEvents | end_of_line/plan_store.py:1490-1507 | this plan's hot rows, and no other plan's, move to the archive with their ids; the answer is how many |
| PlanStore.PlanStore.AssertPreconditions | end_of_line/plan_store.py:1663-1713 | the re-read of claim identity, claim fields, high-water mark, blocker states and status passes exactly when every declared fact still holds |
| PlanStore.PlanStore.WriteDelta | end_of_line/plan_store.py:1645-1660 | the writes of a delta in order, dispatch last, amount to the delta's effect; an error anywhere is that error |
| PlanStore.PlanStore.OpApplyTick | end_of_line/plan_store.py:1624-1660 | a tick's whole decision is one step or leaves the database as it was |
| PlanStore.PlanStore.OpCreate | end_of_line/plan_store.py:502-533 | every row of a new plan or none; the insert is the duplicate check |
| PlanStore.PlanStore.Snapshot | end_of_line/plan_store.py:338-366 | the snapshot across the tables is the document the rows stand for |
| PlanStore.PlanStore.PollEvents | end_of_line/plan_store.py:458-475 | one poll returns this plan's hot events past the cursor, in order |
| PlanRows.HeadRoundTrip | end_of_line/plan_store.py:545-551 | a head document written to its columns and read back is its normal form |
| PlanRows.ClaimRoundTrip | end_of_line/plan_store.py:554-571 | a claim document reads back without its null scalars |
| PlanRows.BlockerRoundTrip | end_of_line/plan_store.py:574-605 | a blocker reads back with nine keys always present and `consumed` always a boolean |
| PlanRows.AssignedClaim | end_of_line/plan_store.py:905-911 | one column assignment on a claim row is one map update of the claim it reads as |
| PlanTables.ArchiveStatement | end_of_line/plan_store.py:1500-1506 | copying one plan's rows to the archive and deleting them leaves every other plan's hot log and archive as they were |
| RoundTrip.CreatedPlanReadsBack | end_of_line/plan_store.py:524-533 | creation succeeds exactly when the slug is acceptable and unused, blocker fields are known and no two blockers or tasks share an id; the plan then reads back as its document in normal form with stamped events |
| RoundTrip.NormalHeadKeeps | end_of_line/plan_store.py:338-366 | the head keeps every key that has no table of its own; an absent worktree and a null one stay apart |
| RoundTrip.SetFieldsIsMapUpdate | end_of_line/plan_store.py:1361-1407 | seen through the snapshot, setting and removing head fields is exactly a map update and a removal, and no other part of the plan moves |
| RoundTrip.StampIsMapUpdate | end_of_line/plan_store.py:836-915 | in every state a run reaches, for every narrowing phase and guard: a mismatch raises and changes nothing, a set guard changes nothing but the version, and otherwise the claim the snapshot reads is the old one with exactly the map update, a null scalar removing its key, and the given events on the log |
| RoundTrip.ClaimsStayNormal | end_of_line/plan_store.py:554-571 | every claim of every reachable state is in normal form: no scalar key holds a null |
| Observed.ErrorsLeaveNothing | end_of_line/plan_store.py:628-653 | a call that raises leaves the database exactly as it was |
| Observed.PlanMustBeThere | end_of_line/plan_store.py:665-686 | a malformed slug, a missing plan and, for a creation, a plan that is there already are each their own error |
| Observed.HeartbeatLeaves | end_of_line/plan_store.py:744-767 | on the stored documents: a heartbeat succeeds exactly for the named holder and phase, then one key of the claim reads the time given, every other key reads as before, the version is one up, nothing is logged and no other plan moves |
| Observed.ActivityLeaves | end_of_line/plan_store.py:770-833 | a start leaves its second, an empty sample list and a cleared idle flag; an end clears the marker alone; any other action is refused |
| Observed.StampLeaves | end_of_line/plan_store.py:836-888 | a field stamp sets exactly the named keys and logs the given events, unless the guard key, a scalar or a flag, is truthy |
| Observed.ReleaseLeaves | end_of_line/plan_store.py:950-968 | token and phase together or neither, and both the holder's; the claim is gone, and the answer is the claim that was there, key by key |
| Observed.AppendLeaves | end_of_line/plan_store.py:918-947 | appending lands the events in order and leaves every document alone, or fails exactly when a token is given and it, or the phase given with it, is not the holder's |
| Observed.AttestationLeaves | end_of_line/plan_store.py:971-1010 | the stamp holds the time and the commit given, beside the gates already stamped |
| Observed.AttestationErrors | end_of_line/plan_store.py:971-1010 | stamping fails exactly for a token that is not the holder's, without a claim, or on a record that is no object |
| Observed.RefusalLeaves | end_of_line/plan_store.py:1282-1324 | the logged refusal names phase, gate, the commit stamped and the head commit, and is missing exactly when those two are equal |
| Observed.LeaseExtends | end_of_line/plan_store.py:1428-1487 | the expiry written is sixty seconds a minute past the later of the old expiry and now, past now when the old one is missing or no number; the event and the answer carry it |
| Observed.LeaseRefused | end_of_line/plan_store.py:1428-1487 | a lease of another phase, or of none, is not extended |
| Observed.QuestionLeaves | end_of_line/plan_store.py:1013-1074 | one row at the end whose phase, type, question, options, context and ask time are the arguments, unanswered and unconsumed, under q- and the next number; the one event names that id, phase and question |
| Observed.QuestionErrors | end_of_line/plan_store.py:1026-1046 | asking fails exactly on half a release, a release of a claim that is not the caller's, or an id already taken |
| Observed.AnswerLeaves | end_of_line/plan_store.py:1088-1133 | the first row under the id reads the stored answer and its time, every other key and row as before; a number below the option count stores the option it counts to from zero, any other text itself |
| Decimals.NumeralsGrow | end_of_line/plan_store.py:1077-1085 | the numerals behind minted ids and numeric answers: one more digit is ten times as much plus that digit, in print and in reading |
| Observed.AnswerErrors | end_of_line/plan_store.py:1088-1133 | answering fails exactly without such a row, on one answered already, or on a number where the options are no list |
| Observed.MetadataLeaves | end_of_line/plan_store.py:1136-1163 | one channel of one row's record reads the value given, the other channels and rows as before |
| Observed.SpawnLeaves | end_of_line/plan_store.py:1166-1213 | one task at the end, as handed in but for its id and status, and one event with its id, source and spawning phase |
| Observed.SpawnErrors | end_of_line/plan_store.py:1166-1213 | spawning fails exactly for a token that is not the holder's or an id already taken |
| Observed.CompleteLeaves | end_of_line/plan_store.py:1216-1257 | the first task under the id reads done with the time given and the caller's events are logged; one done already leaves all but the version |
| Observed.CompleteErrors | end_of_line/plan_store.py:1216-1257 | completing fails exactly for a token that is not the holder's or an id no task has |
| Observed.StatusLeaves | end_of_line/plan_store.py:1260-1279 | the status key of the head reads the value given, every other key as before, and the claim is gone exactly when a release was asked for |
| Observed.FieldsLeave | end_of_line/plan_store.py:1361-1407 | exactly the keys named are set, then exactly those named removed; refused exactly when a derived key is written or removed or one of the four scalars removed |
| Observed.ArchiveLeaves | end_of_line/plan_store.py:1490-1507 | the hot log is behind the archive, ids and all, no hot row is left, and the answer is how many moved |
| Observed.CreateErrors | end_of_line/plan_store.py:502-533 | creation succeeds exactly when the plan is new, every blocker key has a column, and no two blockers and no two tasks share an id that is not null |
| Observed.CreateLeaves | end_of_line/plan_store.py:502-533 | the new plan's rows are the creator's documents key by key, in order, with version 0 |
| Dispatched.PreconditionsRead | end_of_line/plan_store.py:1663-1713 | the declared facts, one by one, on the stored documents: holder and phase, each field, the newest hot id, whether each named question is unanswered and consumed, the status |
| Dispatched.UpdatesLeave | end_of_line/plan_store.py:1743-1763 | after a tick's blocker updates every key of every row reads the last value given for it under the row's id, or as before |
| Dispatched.TickLeaves | end_of_line/plan_store.py:1645-1660 | a committed tick without a dispatch leaves its claim fields, its release, its status, its blocker updates and its events, and nothing else |
| Dispatched.DispatchLeaves | end_of_line/plan_store.py:1771-1787 | after every committed dispatch the stored claim has exactly six keys: phase, minted token, expiry sixty seconds a lease minute from now, start and last heartbeat now, and the attempts given or 1; its start event follows the tick's own events |
| Dispatched.TickErrors | end_of_line/plan_store.py:1640-1660 | a tick commits exactly when its facts hold, the claim it writes is still held by the token it saw, and its blocker updates go through; each failure is named |
| Dispatched.FieldStands | end_of_line/state.py:669-689 | over any run of calls that neither end a claim nor write a field of it, that field reads what it read |
| Dispatched.LeaseStands | end_of_line/state.py:669-689 | after a dispatch the stored expiry is now plus sixty seconds a lease minute for as long as no call ends the claim or writes the expiry |
| Dispatched.HotCallsSpareTheLease | end_of_line/plan_store.py:744-833 | and heartbeats and activity stamps, any number of them, never do |
| EventLog.HistoryIsEverythingAppended | end_of_line/plan_store.py:617-625 | over every run, archive followed by hot log is exactly the list of all events ever appended, in order |
| EventLog.DumpIsEverythingAppended | end_of_line/plan_store.py:317-335 | the operator's dump, sorted by id, is that list, whatever was archived in between |
| EventLog.SameHighWaterInRun | end_of_line/plan_store.py:1604-1607 | two states of a run have the same highest hot id if and only if they have the same hot log, archivals in between included |
| EventLog.StepFollows | end_of_line/plan_store.py:628-653 | every call keeps all logs ordered, never lowers the id counter, and only ever extends a plan's history |
| EventLog.EffectLogs | end_of_line/plan_store.py:617-625 | a transaction that commits either appends exactly the events its arguments name to the hot log, or moves the whole hot log to the archive |
| EventLog.SameHighWaterSameLog | end_of_line/plan_store.py:1604-1607 | for any two states of which one follows the other, equal highest hot ids and equal hot logs are the same thing |
| EventLog.WatcherNeverRepeats | end_of_line/plan_store.py:458-475 | a polling reader never sees an event twice, out of order or rewound, whatever is archived under it |
| EventLog.WatcherMissesNothing | end_of_line/plan_store.py:458-475 | with no archival in between, the polls together deliver exactly the events past the first cursor |
| Ticks.TicksAreSerialisable | end_of_line/plan_store.py:1516-1526 | any interleaving of operations and ticks leaves the database of a serial execution in which each committed tick snapshots, chooses what to read, decides and applies at its commit point and aborted ticks never happened; the choice may depend on what it reads, and a tick that chooses by more is covered with the names it first chose |
| Ticks.CommitIsRederived | end_of_line/plan_store.py:1624-1660 | a committed tick would choose the same facts and compute the same delta again from the state it lands on |
| Ticks.HoldsIffFactsUnchanged | end_of_line/plan_store.py:1556-1585 | preconditions taken from a snapshot hold of a later state exactly when every declared fact, the whole hot log included, is what the snapshot saw |
| Ticks.GroundingIsNeeded | end_of_line/supervisor.py:328-332 | when a decision rests on a blocker the snapshot did not have, or on a null status, some state with the same log passes every declared precondition and still shows it other facts, unless the declarations contradict each other so that nothing passes; which of them a run can reach is the next row |
| Grounding.SlipsIff | end_of_line/supervisor.py:328-336 | some run from a reachable state slips a changed fact past the declared preconditions if and only if the tick rests on a null status, or on a question not yet asked without also resting on a log that holds anything; the claim being there if fields of it are named |
| Grounding.ConsumingChoiceIsNotSelfReading | end_of_line/supervisor.py:1155-1168 | the consuming tick chooses what to declare by scanning more than it declares |
| Ticks.AbsentClaimFieldsAbort | end_of_line/plan_store.py:1675-1685 | fields of an absent claim: no claimless state passes, the snapshot itself included, and a claim passes exactly when the named fields are null in it; declared beside the absence itself, nothing passes |
| HotWrites.HotWritersDoNotAbortTicks | end_of_line/plan_store.py:1516-1526 | any number of heartbeats and activity stamps between snapshot and apply leaves the verdict of every precondition set that names none of the fields they write |
| HotWrites.HotWriteCommutesWithTick | end_of_line/plan_store.py:1716-1740 | a heartbeat or activity stamp commutes with a tick that keeps the claim and names other fields: same database, same answers |
| HotWrites.NoHotWriteIsLost | end_of_line/plan_store.py:1675-1685 | a tick applied after any number of hot writes leaves what it would have left had they all come after it |
| Claims.LiveClaimsAreLogged | end_of_line/state.py:669-689 | in every reachable state each live claim's token and phase are named by a start event, hot or archived |
| Claims.TokenFencing | end_of_line/plan_store.py:692-741 | once a token's claim is released, expired or replaced, every later operation bearing it raises ClaimMismatch and leaves the database exactly as it was, over any run |
| Claims.LosingTheClaimRetires | end_of_line/plan_store.py:720-741 | a token that stops being live on a plan is retired there: named in the log, not in the claim |
| Claims.RenamingTheHolderBreaksFencing | end_of_line/plan_store.py:836-888 | the fencing rests on callers not renaming the holder: the store itself lets a field write do so, and then a replaced token works again |
| Claims.DispatchDisplacesNobody | end_of_line/plan_store.py:565-571 | a dispatch that judged "no claim" never displaces a live one although its write replaces the row, and its start event is in the log |
| Claims.AtMostOneDispatch | end_of_line/plan_store.py:1640-1660 | of dispatches declaring the same event high-water, two commit only if an archival emptied the log between them and the mark was the empty log's |
| Claims.AtMostOneBetweenArchivals | end_of_line/plan_store.py:1640-1660 | of any number of dispatches declaring one event high-water, in any run, at most one commits while nothing is archived |
| Dispatch.ReleaseRecording | end_of_line/dispatch.py:693-714 | release with the events, or after a mismatch the events alone, on rows, with arbitrary calls between the two transactions |
| Dispatch.PauseRecording | end_of_line/dispatch.py:717-734 | the same with the status flip, on rows |
| Dispatch.StampPid | end_of_line/dispatch.py:752-789 | without a token nothing is stamped; with one, the stamp is one step or dropped |
| Dispatch.FailureIsRecordedOnce | end_of_line/dispatch.py:693-714 | a failed dispatch's events land exactly once; a claim still ours is gone, a claim that is not ours survives, whatever ran in between |
| Dispatch.PauseIsRecordedOnce | end_of_line/dispatch.py:717-734 | the pause, its event and the release of a claim still ours are one step; otherwise a foreign claim survives the pause |
| Dispatch.PidStaysHome | end_of_line/dispatch.py:752-789 | a worker's pid never lands on somebody else's claim, and on its own it changes the pid fields and no other |
| Blockers.EachAnswerIsConsumedOnce | end_of_line/plan_store.py:1696-1706 | in every reachable state ids are q-1 to q-n in order, a consumed blocker was answered, and the log holds exactly one consumption per consumed blocker and none for any other, however many ticks race |
| Blockers.BlockerStep | end_of_line/plan_store.py:1013-1133 | what one committed call does to one blocker: ids stay, a given answer stays, and it is consumed only by a tick that saw it answered and unconsumed |
| Blockers.AnswersNeverChange | end_of_line/plan_store.py:1088-1133 | over any run a question keeps its id, phase, type, text, options, context and ask time, an answer once written never changes and a consumed blocker stays consumed |
| AskTimes.QuestionStands | end_of_line/plan_store.py:1013-1074 | after any committed ask and any run in which only asking logs block events the stored row still reads the phase, type, question, options, context and time it was put with |
| Blockers.BlockerIdNeverCollides | end_of_line/plan_store.py:1026-1046 | the id minted from the row count is always free |
| Blockers.BlockReleasesWithItsQuestion | end_of_line/plan_store.py:1013-1074 | blocking releases the claim and records the question and its event in one step, or changes nothing |
| Blockers.ProcessAnsweredBlockers | end_of_line/state_blocker.py:53-69 | the scan returns the answered, unconsumed blockers in order and resumes the plan exactly when there is one |
| Blockers.ConsumingTickTakesWhatItSaw | end_of_line/supervisor.py:1155-1168 | the delta built from that scan commits on a later state exactly when the status is still the one judged and no blocker it saw ready was consumed meanwhile; then the answered, unconsumed blockers left are exactly those answered since the snapshot |
| Blockers.ConsumingTickInRun | end_of_line/supervisor.py:1155-1168 | the same for a snapshot and an apply any run apart |
| Queue.QueueTable.InsertInTxn | end_of_line/queue.py:119-148 | min-1 front ids and autoincrement tail ids act on the id-ordered table as prepending and appending; the position is right, and a refused insert changes nothing |
| Queue.QueueTable.AddMany | end_of_line/queue.py:240-258 | a batch goes in exactly when all its slugs are acceptable, new to the queue and distinct; a front batch leaves batch followed by the old queue; every returned position holds its entry; otherwise nothing changed |
| Queue.QueueTable.PopHeadInTxn | end_of_line/queue.py:151-178 | the head moves to history exactly when it is still the slug asked for |
| Queue.QueueTable.RemoveInTxn | end_of_line/queue.py:181-197 | the first entry with the slug, and only it, moves to history |
| Queue.QueueTable.AddByWorker | end_of_line/cli.py:3653-3678 | cap, pending, running and history checks decide in that order inside the inserting transaction; the entry goes in exactly if its source phase is below its cap, its slug is acceptable, not running, and neither waiting nor in history |
| Queue.WorkerAddsIff | end_of_line/cli.py:3653-3678 | said with quantifiers over the waiting and the finished entries: when a worker's add is accepted, and for each refusal exactly when it is the one given |
| Queue.QueueTable.PopAndCreate | end_of_line/cross_plan_rules.py:233-246 | the pop and the plan's creation are one transaction; after it the plan exists, newly made or already there |
| Queue.PendingDelete | end_of_line/queue.py:98-102 | deleting a row takes exactly one place out of the id-ordered sequence |
| QueueRuns.DoAll | end_of_line/queue.py:119-258 | a run of calls on the queue tables is the same run of the abstract queue, so the run theorems below are about the tables |
| QueueRuns.PendingStaysDistinct | end_of_line/queue.py:119-148 | over any run no slug is pending twice |
| QueueRuns.EntriesAreConserved | end_of_line/queue.py:119-197 | over any run every entry ever added is in exactly one of pending and history, as often as it was added |
| QueueRuns.CapHolds | end_of_line/cli.py:3653-3678 | over any run no source phase gets more entries in than its cap, whatever leaves the queue in between |
| QueueRuns.WorkersNeverRequeue | end_of_line/cli.py:3673-3675 | in any run whose adds are all workers', no slug enters the queue twice, nor one that waited or had run before, however entries leave it in between |
| QueueRuns.WaitingAreAcceptable | end_of_line/queue.py:119-148 | over any run every waiting entry has an acceptable slug |
| QueueRuns.EveryPopHasItsPlan | end_of_line/cross_plan_rules.py:233-246 | at every point of every run a history entry marked popped has its plan |
| Quota.ReadsSpellings | end_of_line/quota.py:130-133 | a token is read as a minute of the day if and only if it spells that minute: 24-hour with minutes, or 12-hour with minutes or bare, 12am being midnight and 12pm noon |
| Quota.SaysNothing | end_of_line/quota.py:111-155 | a token is refused exactly for an hour outside 1-12 with a meridiem or 0-23 without, a minute of 60 or more, or a bare hour without a meridiem |
| Quota.ResetIsNext | end_of_line/quota.py:145-151 | for every minute of the day, however spelled, the parsed reset is the least instant strictly after now at which a clock at the fixed offset shows that minute |
| Quota.StuckIff | end_of_line/quota.py:111-155 | no reset is found exactly without a token, without an offset, or for a token that spells no minute |
| Quota.PauseEndsPastReset | end_of_line/quota.py:182-213 | the pause of a spelled reset ends 120 seconds after the next time the clock shows it, within a day of now |
| Quota.QuotaTable.RecordPause | end_of_line/quota.py:182-213 | a quota death writes the pause, 120 seconds past the reset or stuck, and wipes the canary; the pause lies more than 120 seconds and at most a day and 120 seconds ahead |
| Quota.QuotaTable.Play | end_of_line/quota.py:182-371 | a run of deaths, clears and gate calls on the stored row is a run of the decision machine, answers included, so the run theorems below are about the table |
| Quota.ClearEndsAStuckPause | end_of_line/quota.py:239-256 | a stuck pause lets nobody through however long and often they ask; a clear ends it for everybody at once: no canary is held over, and every ask after it dispatches until the next death |
| Quota.QuotaTable.GateDecision | end_of_line/quota.py:330-371 | the gate answers and moves the row as the decision table says |
| Quota.RowsStaySound | end_of_line/quota.py:277-371 | over any run canary and deadline are set together, nothing is garbled, and a deadline is a whole window past the pause |
| Quota.NoDispatchWhilePaused | end_of_line/quota.py:348-351 | no plan is dispatched while the pause is stuck or before its end |
| Quota.OneCanary | end_of_line/quota.py:353-371 | until a pause ends, all its dispatches go to one plan |
| Quota.ResumeIsLate | end_of_line/quota.py:361-371 | a resume comes no earlier than reset plus 120 plus 180 seconds, and never from a stuck pause |
| Quota.OneResumePerPause | end_of_line/quota.py:364-368 | after a resume or a clear everybody dispatches until somebody dies of quota again, so one pause resumes at most once |
| Quota.GateByHistory | end_of_line/quota.py:330-371 | the answer to every ask, from the moves before it alone: idle while stuck or within 120 seconds past the reset, then dispatch to the first that asks, to that plan again for 180 seconds and to no other, then resume |
| Quota.UnreadableStopsNobody | end_of_line/quota.py:330-346 | a row that cannot be read lets everybody through and stays as it is |
| Quota.CanaryEndsThePause | end_of_line/quota.py:353-368 | once the window has passed since every earlier ask, the next ask ends the pause if a canary ran and becomes the canary if none did |
| Watchdog.AppendCpuSample | end_of_line/state.py:959-993 | the history after one more sample is its parseable samples no older than the retention, cut to the newest 200 |
| Watchdog.SteadyHistory | end_of_line/state.py:302-311 | sampled every d seconds the history is the last min(n, retention div d + 1, cap) samples |
| Watchdog.FlatWorkerIsReportedIff | end_of_line/state.py:996-1051 | the settled history spans exactly d * min(retention div d, cap - 1) seconds, and a flat worker is reported if and only if that covers the window and the count the minimum |
| Watchdog.ReportedIffNothingObjects | end_of_line/state.py:996-1051 | any history is reported if and only if nothing objects: too few samples, one without a time, too short a span, a hole over the gap, a newest sample too old, CPU risen by more than the threshold, CPU fallen |
| Watchdog.BusyWorkerIsNotReported | end_of_line/state.py:1048-1051 | a worker whose running CPU total rose by more than the threshold between any two samples of the history is not reported, whatever the other settings |
| Watchdog.ShippedRetentionCoversWindow | end_of_line/supervisor.py:736-743 | retention of window plus gap covers the window at every cadence the cap allows |
| Watchdog.OldCapWasDeaf | end_of_line/state.py:302-311 | with the former cap of 20 a ten-minute window at a 30 second cadence could never be reported |
| Watchdog.MarkerExpires | end_of_line/state.py:1054-1101 | a tool marker suppresses the watchdog if and only if it is younger than the bound, 300 seconds with the stuck-tool detector off |
| WatchdogRaces.NoEarlyAlarm | end_of_line/plan_store.py:770-833 | however ticks, tool calls and quiet spans interleave and however long a tick takes, a report judged after the last tool start comes at least window minus gap after it; the one exception is a tick that took no sample and already wanted to report at the start |
| WatchdogRaces.AlarmMeansIdle | end_of_line/supervisor.py:736-803 | in every run of the protocol the samples an alarm was judged on span the window without a hole over the gap, rose by at most the threshold and did not fall; no fresh tool marker, quiet span or earlier notice stood against it |
| WatchdogRaces.EarlyReportIff | end_of_line/plan_store.py:770-833 | in every reachable state a tool start can be followed by a report less than the window later, with no other start between, if and only if at that moment a tick is in flight that either saw the stored empty history and sampled within the gap, with room left for a window of samples, or took no sample and already wants to report |
| WatchdogRaces.StraddlingAlarmIsEarly | end_of_line/plan_store.py:770-833 | with the shipped settings such a start exists, an earlier start having stored the empty history; on a claim no tool has run under, the same tick is voided |
| WatchdogRaces.SharedSecondBreaksTheBound | end_of_line/supervisor.py:746-752 | the bound rests on no two ticks sampling in one second: with two that do, a report comes one second after a start |
| WatchdogStore.PassesIffCommits | end_of_line/supervisor.py:744-803 | the preconditions an idle tick declares pass on the stored claim exactly when the protocol says the tick commits |
| WatchdogStore.RacesRunOnTheStore | end_of_line/supervisor.py:663-826 | a run of the protocol is a run of store calls: afterwards the claim shows the state the protocol reached, and the idle reports in the log are its alarms, in order, each once |
| WatchdogStore.DispatchShowsNewClaim | end_of_line/state.py:669-689 | the claim a dispatch mints shows the protocol's first state |
| Attempts.AttemptsForPhase | end_of_line/state.py:1332-1365 | the three scans compute the count of unforgiven starts after the last retry or reset |
| Attempts.AttemptsAreCharged | end_of_line/state.py:1332-1365 | for every log, fresh tokens or not, the count is the number of places holding a start of the phase with no retry or reset of the phase behind it, whose token no systemic failure or quota death since the last of those names |
| Attempts.AttemptsIsStanding | end_of_line/state.py:1332-1365 | with fresh start tokens that count is the size of the set kept by a machine that reads the log once |
| Attempts.ForgivenStartNeverHappened | end_of_line/quota.py:390-397 | a start that a later death forgives leaves the count as if it had never happened, whatever lies between, a moved floor included |
| Conflict.WorktreeConflictRule | end_of_line/cross_plan_rules.py:253-302 | the rule changes exactly the plans whose list is not its target, to the sorted target, and warns of the newly listed larger slugs |
| Conflict.RuleListsSharers | end_of_line/cross_plan_rules.py:264-302 | after the rule one plan lists another if and only if they are different plans, both claimed or running, both without a worktree |
| Conflict.RuleWritesAndWarns | end_of_line/cross_plan_rules.py:253-302 | a plan is written exactly when its list changes, with that list in order, and warns of exactly the larger slugs it did not list before |
| Conflict.BeforeIs | end_of_line/cross_plan_rules.py:277-279 | the order is that of the first difference, a prefix coming first |
| Conflict.SortedOf | end_of_line/cross_plan_rules.py:277-279 | the stored list is the set in string order |
| Conflict.RuleReachesClique | end_of_line/cross_plan_rules.py:112-132 | from any stored lists, applying the decision leaves exactly the clique on active plans without a worktree |
| Conflict.CliqueIsSymmetric | end_of_line/cross_plan_rules.py:264-302 | the relation left is symmetric and irreflexive |
| Conflict.RerunDoesNothing | end_of_line/cross_plan_rules.py:294-295 | an immediate rerun has nothing to do |
| Conflict.EachPairWarnedOnce | end_of_line/cross_plan_rules.py:112-132 | each pair entering conflict is warned about exactly once, by the smaller slug, over any number of rounds cut short by a crash and one that finishes |
| Conflict.RoundsReachClique | end_of_line/cross_plan_rules.py:112-132 | after any number of rounds cut short the first one that finishes leaves exactly the clique |
| Replies.HydrateOpenBlockers | end_of_line/state_locator.py:122-155 | one backward pass stamps each open blocker with the time of the last block event naming it |
| Replies.OpensRepresentRows | end_of_line/state_locator.py:122-155 | the open blockers read for a plan are exactly its rows still to be answered, each with its plan, id, number of options and stamp |
| Replies.PickByLastPinged | end_of_line/notify_base.py:127-144 | the pick is the one blocker offering the digit that is strictly newer than every other one offering it, if there is one |
| Replies.FindBlockerForReply | end_of_line/state_locator.py:36-84 | a bare digit with several open blockers is found exactly with a unique newest blocker offering it, ambiguous on a tie, not found when none offers it; a prefix or a lone open blocker takes any digit |
| Text.BlankMeans | end_of_line/notify_base.py:18 | the blanks the parsers skip: the ten ASCII characters Python counts as white space |
| Replies.ReadsAsWritten | end_of_line/notify_base.py:18 | for every text: it is read as a digit, or as a slug and a digit, if and only if it is written so, blanks around and between |
| Replies.DigitRoutes | end_of_line/notify_base.py:127-144 | place by place: a bare digit goes to a lone open blocker, or to the one offering it whose stamp is later than that of every other one offering it, no stamp being earliest; to none exactly when none offers it; otherwise the candidates are all that do |
| Replies.PrefixRoutes | end_of_line/notify_base.py:66-74 | a prefixed reply goes to the first open blocker of its plan, with the digit as given, and is not found exactly when that plan has none open |
| Replies.RegistryOrderDoesNotMatter | end_of_line/state_locator.py:52-60 | the order of the registry never changes what a bare digit finds, or why it finds nothing |
| Replies.AmbiguousIffTied | end_of_line/notify_base.py:127-144 | over any list of open blockers a bare digit is ambiguous exactly when the newest stamp among those offering it is shared by two places |
| AskTimes.StampIsAskTime | end_of_line/state_locator.py:139-152 | over every run in which only asking logs a block event, the stamp read for a question is the second it was asked, or none once the plan has been archived since |
| AskTimes.StampUntilArchived | end_of_line/state_locator.py:139-152 | a question asked at a given second is stamped so for exactly as long as no archival of its plan follows, and has no stamp ever after |
| AskTimes.AmbiguousIffSharedAsk | end_of_line/state_locator.py:36-84 | over every run of every registered project, a bare digit is ambiguous if and only if two questions offer it that share the newest ask time: asked in the same second, or every question offering it archived since |
| AskTimes.DistinctTimesNeverDeadlock | end_of_line/state_locator.py:127-139 | questions whose rows show different ask times never leave a bare digit ambiguous while none of them has been archived |
| AskTimes.ArchivalDeadlocks | end_of_line/cli.py:6373-6390 | archiving a plan that stays registered makes a digit two of its open questions offer ambiguous, however far apart they were asked |
| AskTimes.ArchivedTwoQuestions | end_of_line/cli.py:6339-6345 | and such plans exist: any plan made and asked about twice is ambiguous before its archival only if both were asked in one second, and always after it |
| Replies.FoundDigitIsAnOption | end_of_line/plan_store.py:1077-1133 | with several blockers open when the digit was located, an answer given any run later stores the text of that option, and is refused only if the blocker has been answered meanwhile |
| Replies.LastBlockedIsLast | end_of_line/state_locator.py:139-144 | a blocker's stamp is the time of the last block event that names it, and it has none exactly when no event does |
| Replies.StoredAnswer | end_of_line/plan_store.py:1077-1085 | a digit is stored as the option it names, and as typed when it is out of range |
| Replies.PrefixedReads | end_of_line/notify_base.py:18 | every slug followed by a space and a digit reads back as that slug and digit |
| Heartbeat.RunLoop | end_of_line/heartbeat_daemon.py:123-207 | for every sequence of liveness answers and pings, and whichever callbacks raise, the loop reports the same list and returns 0 |
| Heartbeat.ReportedWhen | end_of_line/heartbeat_daemon.py:123-207 | said of the probes: a failure notice goes out at a tick exactly when its ping and the two before it failed, the one before those did not, and the loop got that far; a death report exactly at the first tick that finds the worker dead, no claim found gone before it |
| Heartbeat.NoticePerLongRun | end_of_line/heartbeat_daemon.py:195-205 | before the loop ends, every maximal run of three or more failed pings, a raising ping being one, is announced exactly once |
| Heartbeat.ReportsAre | end_of_line/heartbeat_daemon.py:178-207 | a failure notice goes out exactly at the third strike of a run before the first exit; a death report at most once, last, and never when the claim is gone |
| Heartbeat.OneNoticePerRun | end_of_line/heartbeat_daemon.py:195-205 | a maximal run of three or more strikes is announced once, at its third; a shorter one never |
| PlanTable.ParseSessionsIndex | end_of_line/plan_parser.py:36-91 | the flag-driven loop over lines computes the phases of the first table after the header, or refuses the first bad phase id |
| TableReadings.HeaderIs | end_of_line/plan_parser.py:22 | a line is the sessions header if and only if it is two hashes, blanks, session or sessions, blanks and index, in any case, with blanks behind |
| TableReadings.LinkReadsAsText | end_of_line/plan_parser.py:24-27 | a cell that is a markdown link reads as the shortest text whose target runs to the closing parenthesis |
| TableReadings.NoLinkReadsAsItself | end_of_line/plan_parser.py:24-27 | a cell that is no such link is left as it is |
| TableReadings.StemIs | end_of_line/plan_parser.py:73-77 | a plan file's stem is its last component without the last suffix |
| TableReadings.TableReadsBack | end_of_line/plan_parser.py:36-91 | every text laid out as header, lines that open nothing, rows, rule, rows and an end reads as the entries below the first rule, in order: ids with and without the master's name, files bare, ticked or linked, in any folder, with any padding; short rows and further rules say nothing, and nothing before the header, above the rule or after the end is read |
| TableReadings.BadIdRefuses | end_of_line/plan_parser.py:78 | the first entry whose id is not 1 to 64 small letters, digits, dashes and underscores, a letter or digit first, refuses the plan, whatever follows |
| TableReadings.UnruledListsNothing | end_of_line/plan_parser.py:59-63 | a table without a rule, or no table before the next section, lists no phases |
| TableReadings.NoTableNoPhases | end_of_line/plan_parser.py:38-40 | a text without the header lists no phases |
| PlanTable.PrintedPlanReadsBack | end_of_line/demo.py:68-83 | parsing the printed master plan returns the phase ids in order with their plan files |
| PlanTable.ReadsBackIffPlainSlugs | end_of_line/demo.py:68-83 | among slugs the validator accepts, the round trip holds exactly when none carries its final line break |
| PlanTable.TableRowSplits | end_of_line/plan_parser.py:107-109 | splitting any printed row of plain cells gives the cells back |
| ArchiveGroups.GroupByMaster | end_of_line/cli.py:6425-6440 | one bucket per master, each holding the files of the stems under it in order; the choice of longest candidate never fails |
| ArchiveGroups.BucketsBySpelling | end_of_line/cli.py:6425-6440 | a stem is a master exactly when it continues no other stem after a dash, and a bucket holds exactly the files of its master and of the stems that continue it after a dash |
| ArchiveGroups.MasterExists | end_of_line/cli.py:6425-6440 | every stem has a master it equals or extends by a dash |
| ArchiveGroups.MasterIsUnique | end_of_line/cli.py:6425-6440 | and only one |
| ArchiveGroups.EachStemFiledOnce | end_of_line/cli.py:6434-6440 | so no file is lost or filed twice |

## Left out

- Attestations, spawned tasks and lease extension: what each operation on them leaves is in `Observed`, but no run theorem is about them alone.
- The `archived_at` stamp of an archived row and the clock stamp of a finished queue entry: constant columns nothing reads back into a decision.
- Blocker options that are not a list, and digits outside ASCII: the store writes options as a list.
- The two clock readings of one block call, one for the row and one for the event: they are taken as one.
- The payload of an idle report, and the writes other detectors put into the same tick.
- SQLite type affinity, and non-string ids or tokens that Python would refuse to hash.
- SQLite itself: locking, busy timeouts, schema creation and migration, unreadable stores. A read or a gate that degrades on one is not modelled.
- The body of `supervisor.tick`: a decision is any function of the facts it declared; what its deltas may contain is a hypothesis of the theorem that needs it.
- The spawn-task cap: it is checked on a snapshot outside the write, so it does not bind concurrent callers.
- Host-side effects: the registry, notifications, process reaping, git, `ps`. What an operation takes from them is an argument.
- Fractions of a second in the watchdog, whose window and gap settings may be fractional; two quiet spans that differ only in their reason or start count as equal.
- The watchdog's run theorems take it that no two ticks sample one claim in one second, and `SharedSecondBreaksTheBound` shows that they need it.
- `claim_phase` outside a tick, `release_if_expired` and the stalled-heartbeat detectors: inside a tick their writes are delta fields.
- Finding the reset fragment in a log line, and time zones with folds: the parser is modelled from the matched digits on, under a fixed offset.
- Quota classification and the two events of a quota death: pattern matching and two appended events.
- The queue's other columns, carried opaquely in `rest`; the absorb, abandon and freeze decisions before a pop, which read other plans' states.
- The dry-merge, ready-to-ship and auto-archive rules: they rest on git.
- The notifications of the conflict rule: only the warnings it logs are counted, since a crash loses notifications not yet sent.
- Sessions headers spread over several lines, line breaks other than the newline, and non-ASCII white space.
- Effort parsing, rendering, status views and everything else that only prints.
