# Vendor-onboarding demo: a verified model of its stateful core

The demo shows four vendor-onboarding cases (VND_001 to VND_004) being worked through by scripted
"agents". Several parts cooperate:

- **The coordination server** (`interaction-server.cjs`) owns a handful of JSON documents:
  - the case list;
  - a per-case activity log;
  - the signal-flag file;
  - the feedback queue;
  - the knowledge-base version index and its snapshots.

  It also holds an in-memory "email sent" flag. Every HTTP handler is a read-modify-write on one of
  these.
- **Four runner scripts** (`simulation_scripts/vendor_story_*.cjs`). Each walks its case through a
  fixed list of steps and upserts a log entry per step. It pushes the case status to the server
  and falls back to patching the file directly when the server does not answer. Two of the runners
  stop at a checkpoint until a person acts: VND_002 waits for a file signal, VND_003 for the email
  flag.
- **Four pieces of the React front end**:
  - the knowledge-base diff view (`DiffViewModal.jsx`);
  - the feedback chat that turns a remark into a queued change request (`FeedbackModal.jsx`);
  - the feedback queue panel (`FeedbackQueuePanel.jsx`);
  - the helper logic of the case view (`ProcessDetails.jsx`).

Each handler and each file write is modelled as one atomic state step.

- **Server:** the server is one class (`CoordinationServer.Server`) whose fields are the documents.
  Its methods are the handlers.
- **Runners:** a runner is a method working on that object. Its step loop is proved against
  specification functions that give the events a run emits (`Runner.Trace`) and the log it leaves
  (`Runner.Log`).
- **Waits:** the source's endless polling loops run over a finite, environment-supplied sequence
  of observations. A result of `None` means the runner is still waiting when the observations end.
- **Front end:** the diff is a loop over line indices and two array passes, proved equal to a
  recursive specification. That specification is then proved to reconstruct both texts, number
  both sides and keep each change in view. The chat and the queue panel are classes over their
  state variables. The case-view helpers are functions, apart from two loops that keep their
  imperative form.
- **Inputs from outside:** language-model answers, clock readings and dialog answers are
  parameters.

JavaScript built-ins that matter for behaviour are written out in module `JsText`:

- `trim`;
- ASCII `toLowerCase`;
- `includes`;
- `parseInt`, with its prefix parsing, sign, `0x` prefix and NaN.

Dafny modules and files:

| module | file | models |
|---|---|---|
| `CaseList` | caselist.dfy | the case list and its by-id status update |
| `CaseLog` | caselog.dfy | the per-case log document and `updateProcessLog`'s upsert |
| `Signals` | signals.dfy | the signal-flag file |
| `Knowledge` | knowledge.dfy | the feedback queue, version index and snapshots |
| `JsText` | jstext.dfy | the string built-ins listed above |
| `CoordinationServer` | server.dfy | the server handlers |
| `Runner` | runner.dfy | what the four runners share |
| `SignalWait`, `EmailWait` | signal_wait.dfy, email_wait.dfy | the two checkpoint waits |
| `Story1HappyPath` … `Story4NeedsReview` | story1.dfy … story4.dfy | the four scripts |
| `LineDiff`, `ContextCollapse` | diff.dfy, context.dfy | the diff view |
| `FeedbackWorkflow` | feedback_modal.dfy | the feedback chat |
| `FeedbackQueue` | feedback_queue.dfy | the queue panel |
| `CaseView` | process_details.dfy | the case-view helpers |
| `Wrappers` | wrappers.dfy | `Option` |

## Model

| member | source | states |
|---|---|---|
| CaseList.FindCase | interaction-server.cjs:185 | `findIndex` by id: the first matching position, or -1 exactly when no record has the id |
| CaseList.FindCaseIsFirst | interaction-server.cjs:185 | a record with the id, preceded by none with it, is the one `findIndex` finds |
| CaseList.SetCaseStatus | interaction-server.cjs:184-190 | only `status` and `currentStatus` of the first record with the id change; every other record is unchanged; with no match the list is unchanged |
| CaseList.SetCaseStatusLastWins | simulation_scripts/vendor_story_1_happy_path.cjs:126-129 | of two status pushes to one case only the later one shows, so a runner's last push decides the case's status |
| CaseLog.IndexOfId | simulation_scripts/vendor_story_1_happy_path.cjs:19 | `findIndex` over the log: the first entry with the id, or -1 exactly when the id is absent |
| CaseLog.IndexOfIdIsFirst | simulation_scripts/vendor_story_1_happy_path.cjs:19 | an entry with the id, preceded by none with it, is the one `findIndex` finds |
| CaseLog.Merge | simulation_scripts/vendor_story_1_happy_path.cjs:20 | `{...old, ...update}`: every field present in the update wins, and every absent one keeps the old value |
| CaseLog.Upsert | simulation_scripts/vendor_story_1_happy_path.cjs:18-22 | an entry whose id is already logged is merged in place and nothing else moves; an entry with no id or a new id is appended at the end |
| CaseLog.MergeKeyDetails | simulation_scripts/vendor_story_1_happy_path.cjs:23-25 | update keys win, other existing keys are kept, and the key set is the union |
| CaseLog.WriteLog | simulation_scripts/vendor_story_1_happy_path.cjs:14-27 | one `updateProcessLog` call: the log is upserted when an entry is given, and the key details are merged |
| CaseLog.UpsertKeepsUnique | simulation_scripts/vendor_story_1_happy_path.cjs:19-21 | upserting an entry with an id never duplicates an id; the id list grows only by a new id, at the end |
| CaseLog.UpsertLast | simulation_scripts/vendor_story_1_happy_path.cjs:125-128 | a step's result write merges into the processing entry the step's first write appended |
| Signals.Readable | interaction-server.cjs:170-175 | GET /signal-status: the flags on file, or the empty map when the file cannot be read |
| Signals.AssertSignal | interaction-server.cjs:157-162 | POST /signal sets the named flag to true and keeps every other readable flag; an unreadable file loses all prior flags |
| Signals.ConsumeFlag | simulation_scripts/vendor_story_2_needs_attention.cjs:64-69 | the runner writes the map back with only the taken key removed and every other flag kept |
| Signals.AssertKeepsOtherFlags | interaction-server.cjs:157-159 | asserting one signal leaves another flag set exactly when it was set in a readable file |
| Knowledge.Queued | interaction-server.cjs:287 | the stored item is the client's item with status forced to "pending" and the server's timestamp; every other field is kept |
| Knowledge.FindItem | interaction-server.cjs:317 | `queue.find` by id: the first item with the id, or -1 exactly when none has it |
| Knowledge.WithoutId | interaction-server.cjs:302 | the queue filter: no survivor has the id, every item with another id survives, and nothing new appears |
| Knowledge.WithoutIdAppend | interaction-server.cjs:302 | the filter keeps the survivors in order, because it distributes over concatenation |
| Knowledge.WithoutIdIdempotent | interaction-server.cjs:298-303 | deleting by the same id twice leaves the queue as deleting once does |
| Knowledge.RemoveApplied | interaction-server.cjs:345 | removing the applied item alone: the queue is one shorter, and the items before and after it keep their order |
| Knowledge.RemoveAppliedIsFilter | interaction-server.cjs:345 | when no other item shares the applied item's id, removing that item and filtering out its id give the same queue |
| Knowledge.WithoutIdKeepsAll | interaction-server.cjs:302 | a filter that matches no item returns the queue unchanged |
| Knowledge.ApplyFilterDropsIdlessNeighbour | interaction-server.cjs:345 | with two id-less items queued, applying the first makes the filter drop both, while removing the applied item keeps the second |
| Knowledge.FindVersion | interaction-server.cjs:365 | `versions.find` by numeric id: the first version with the id, or -1 exactly when none has it |
| Knowledge.Content | interaction-server.cjs:359-375 | GET /api/kb/content gives the live text when no version is asked for; otherwise the requested version's after-snapshot; "" for NaN, an unknown version or a missing snapshot |
| Knowledge.QueryOf | interaction-server.cjs:360-365 | a missing or empty `versionId` asks for the live text; any other is read with `parseInt` |
| Knowledge.QueryOfDecimal | interaction-server.cjs:365 | a version number written in decimal selects exactly that version |
| Knowledge.NewVersion | interaction-server.cjs:335-341 | the appended version has id length + 1, `changes` holding the item's summary, and the two snapshot names |
| Knowledge.NumberedFind | interaction-server.cjs:336 | in an index numbered 1..n, version k sits at position k - 1 and no other number is found |
| Knowledge.ContentOfNewVersion | interaction-server.cjs:325-368 | after an apply the index stays numbered, and asking for the new version's id, as a number or as decimal text, returns the text the apply wrote; the new version's before snapshot holds the text the apply replaced |
| Knowledge.DeleteNeverMatchesIdless | interaction-server.cjs:299-302 | a DELETE takes its id from the URL, so it never removes an item without an id |
| FeedbackWorkflow.Trim | src/components/FeedbackModal.jsx:56-57 | `trim()` is empty exactly when the text is all white space; otherwise it is the text minus its leading and trailing white space and neither end is white space |
| JsText.Lower | src/components/ProcessDetails.jsx:60 | `toLowerCase` keeps the length and maps each character: ASCII capitals become lower case and nothing else changes |
| JsText.Includes | src/components/ProcessDetails.jsx:61-65 | `includes` holds exactly when the word occurs at some position of the text |
| JsText.ParseInt | src/components/ProcessDetails.jsx:110 | `parseInt` gives a number only when the text holds some decimal or hexadecimal digit; a text without one is NaN |
| JsText.ParseNeedsDigit | src/components/ProcessDetails.jsx:110-111 | a text without any decimal digit parses to NaN |
| JsText.Decimal | src/components/ProcessDetails.jsx:110 | the decimal text of a number is non-empty, all digits and has no leading zero |
| JsText.DecimalValue | src/components/ProcessDetails.jsx:110 | the digits of the decimal text evaluate back to the number |
| JsText.ParseDecimal | src/components/ProcessDetails.jsx:110 | `parseInt` of a decimal number, followed by nothing or a non-digit, gives that number back |
| JsText.ParseUnsigned | src/components/ProcessDetails.jsx:110 | a text starting with a decimal digit other than a `0x` prefix is read in base 10 from its first character |
| CoordinationServer.FixtureCasesShape | interaction-server.cjs:92-98 | the reset writes exactly four cases, VND_001 to VND_004, each "In Progress" / "Initializing..." and dated today |
| CoordinationServer.Schedule | interaction-server.cjs:114-125 | each script is launched on its case at the running offset, which grows by two seconds per script |
| CoordinationServer.FixtureSchedule | interaction-server.cjs:108-125 | the four runners start at 0, 2, 4 and 6 seconds, each on its own case |
| CoordinationServer.ResetDocs | interaction-server.cjs:103-106 | the four fixture logs become `{logs: [], keyDetails: {}}`, and every other case's document is kept |
| CoordinationServer.FileStamp | interaction-server.cjs:325 | the timestamp with every `:` and `.` replaced by `-`, and no other change |
| CoordinationServer.EmailAfterPost | interaction-server.cjs:142 | a parsed body's `sent` replaces the flag, a missing value reading as false; an unparsable body leaves the flag unchanged |
| CoordinationServer.Server.constructor | interaction-server.cjs:18-34 | start-up: signal file `{APPROVE_REVERIFICATION: false}`, empty queue and version index, the flag false |
| CoordinationServer.Server.Reset | interaction-server.cjs:82-126 | `sent` false, the initial signals, the four fixture cases, an empty queue and version index, emptied fixture logs, and the four runners scheduled; the knowledge base is untouched |
| CoordinationServer.Server.LaunchRunners | interaction-server.cjs:108-125 | the reset's launches are the four scripts' schedule |
| CoordinationServer.Server.SetFixtureCases | interaction-server.cjs:92-98 | the case list becomes the four fixture cases |
| CoordinationServer.Server.ClearFixtureDocs | interaction-server.cjs:103-106 | the fixture cases' logs are emptied, and other documents are kept |
| CoordinationServer.Server.EmailStatusGet | interaction-server.cjs:134-137 | GET /email-status returns the current flag |
| CoordinationServer.Server.EmailStatusPost | interaction-server.cjs:138-147 | POST /email-status sets the flag as `EmailAfterPost` says |
| CoordinationServer.Server.Signal | interaction-server.cjs:151-168 | POST /signal: an unparsable body changes nothing; otherwise the named flag is asserted (the key "undefined" when the body has no name) |
| CoordinationServer.Server.SignalStatus | interaction-server.cjs:170-175 | returns the readable flags |
| CoordinationServer.Server.UpdateStatus | interaction-server.cjs:178-196 | the loop finds the first case with the id, and the list becomes `SetCaseStatus`; an unparsable body changes nothing |
| CoordinationServer.Server.QueueGet | interaction-server.cjs:273-278 | returns the queue |
| CoordinationServer.Server.QueuePost | interaction-server.cjs:279-294 | exactly one item is appended at the end, stamped pending; existing items are unchanged; an unparsable body changes nothing |
| CoordinationServer.Server.QueueDelete | interaction-server.cjs:298-307 | every item with the URL's id goes, and the rest keep their order |
| CoordinationServer.Server.ApplyFeedback | interaction-server.cjs:310-355 | an unknown id or a failed model call is an error before any write. On success: both snapshots are written; the live text becomes the reply; a version numbered length + 1 is appended; every item with the applied id leaves the queue, which is the applied item alone when no other item shares its id; the new version's content is the reply |
| CoordinationServer.Server.KbContent | interaction-server.cjs:359-375 | returns `Content` for the `versionId` parameter; a missing or empty parameter gives the live text and NaN gives "" |
| CoordinationServer.Server.KbVersions | interaction-server.cjs:378-383 | returns the version index |
| CoordinationServer.ScheduleRunners | interaction-server.cjs:114-125 | the launch loop yields `Schedule(scripts, 0)` |
| Runner.WithNarrative | simulation_scripts/vendor_story_1_happy_path.cjs:61-120 | a step keeps its text's id and titles and carries the narrative's reasoning and artifacts |
| Runner.Attach | simulation_scripts/vendor_story_1_happy_path.cjs:61-120 | the script's steps are its texts paired with the narratives, position by position |
| Runner.AttachDistinct | simulation_scripts/vendor_story_1_happy_path.cjs:61-120 | distinct non-empty step ids stay distinct whatever the narrative |
| Runner.CheckpointUnique | simulation_scripts/vendor_story_2_needs_attention.cjs:150 | a script has at most one checkpoint step |
| Runner.StepIds | simulation_scripts/vendor_story_1_happy_path.cjs:122-123 | the step ids, in step order |
| Runner.StepEvents | simulation_scripts/vendor_story_2_needs_attention.cjs:143-158 | the writes and pushes of one step, with and without its checkpoint |
| Runner.StepEventsShape | simulation_scripts/vendor_story_1_happy_path.cjs:125-129 | each step first logs "processing" and pushes "In Progress"; later writes are results for the same step; a checkpoint's result is a warning with "Needs Attention"; only the last step's last push may carry another status |
| Runner.StepEntry | simulation_scripts/vendor_story_3_needs_attention.cjs:115-129 | the entry a step leaves after its writes are merged has that step's id |
| Runner.Log | simulation_scripts/vendor_story_1_happy_path.cjs:122-131 | after k steps the log holds k entries |
| Runner.DocOf | simulation_scripts/vendor_story_1_happy_path.cjs:16-17 | a missing case document reads as an empty log with no key details |
| Runner.LogShape | simulation_scripts/vendor_story_1_happy_path.cjs:122-131 | after k steps the log holds exactly one entry per step, in step order |
| Runner.LogIds | simulation_scripts/vendor_story_1_happy_path.cjs:122-131 | the log's ids are the step ids in step order |
| Runner.LogUnique | simulation_scripts/vendor_story_1_happy_path.cjs:19-21 | with distinct step ids the log never holds two entries for one step |
| Runner.FirstWriteAppends | simulation_scripts/vendor_story_1_happy_path.cjs:125 | a step's processing entry is new to the log and is appended |
| Runner.TraceHasStep | simulation_scripts/vendor_story_1_happy_path.cjs:122-131 | the events of step j sit in the run's events right after those of the earlier steps |
| Runner.TracePushes | simulation_scripts/vendor_story_1_happy_path.cjs:126-129 | every push of a run is "In Progress" or "Needs Attention", except the very last push of a completed run |
| Runner.LastEvent | simulation_scripts/vendor_story_1_happy_path.cjs:129 | a completed run ends by pushing the final status with the last step's result title |
| Runner.StatusAfterLastPush | simulation_scripts/vendor_story_1_happy_path.cjs:126-129 | the case list after a run's pushes is decided by the last push alone |
| Runner.StatusAfterAnyPush | simulation_scripts/vendor_story_1_happy_path.cjs:126-129 | a push overrides every earlier push to the same case |
| Runner.StatusAfterNoPush | simulation_scripts/vendor_story_1_happy_path.cjs:29-44 | status pushes never add, drop or reorder a case: every record keeps all fields but `status` and `currentStatus`, and records of other cases are unchanged |
| Runner.FinishedRunStatus | simulation_scripts/vendor_story_1_happy_path.cjs:129 | after a completed run the case shows the script's final status and the last step's title |
| Runner.LogStatuses | simulation_scripts/vendor_story_1_happy_path.cjs:124-128 | every ordinary step ends "success" under its result title and start time, the last ends "completed"; a signal checkpoint stays "warning"; an email checkpoint ends "success" under its sent title |
| Runner.BlockedRunStatus | simulation_scripts/vendor_story_2_needs_attention.cjs:150-153 | a run blocked at its checkpoint leaves the case "Needs Attention" with the signal step's title or "Draft Review: Email Pending" |
| Runner.UpdateProcessLog | simulation_scripts/vendor_story_1_happy_path.cjs:14-27 | the case's document becomes `WriteLog` of the stored (or empty) document; other cases' documents are untouched |
| Runner.FindLogIndex | simulation_scripts/vendor_story_1_happy_path.cjs:19 | the search loop returns `IndexOfId` |
| Runner.PushStatus | simulation_scripts/vendor_story_1_happy_path.cjs:29-44 | the HTTP push and the file fallback both leave `SetCaseStatus` of the list |
| Runner.WriteInitialDoc | simulation_scripts/vendor_story_1_happy_path.cjs:49-59 | the first write replaces the case's document by an empty log and the script's key details |
| Runner.Write | simulation_scripts/vendor_story_1_happy_path.cjs:125-128 | a log write upserts the entry into the case's document, records the write, and leaves the case list as the pushes so far made it |
| Runner.Push | simulation_scripts/vendor_story_1_happy_path.cjs:126-129 | a push records the event, and the case list is that of all pushes so far |
| Runner.PlainStep | simulation_scripts/vendor_story_1_happy_path.cjs:123-130 | one pass of the loop extends the events by the step's four events, the log by the step's entry, and the case list by those pushes |
| Runner.PlainStepWrites | simulation_scripts/vendor_story_1_happy_path.cjs:125-128 | the processing write and the result write together add exactly the step's entry to the log |
| Runner.PlainStepTrace | simulation_scripts/vendor_story_1_happy_path.cjs:123-130 | a plain step's four events follow the earlier steps' events in the run's trace |
| Runner.RunPlain | simulation_scripts/vendor_story_1_happy_path.cjs:122-131 | the step loop emits `Trace`, leaves `Log` with the key details, and ends the case in the final status |
| Story1HappyPath.TextsDistinct | simulation_scripts/vendor_story_1_happy_path.cjs:61-120 | ten steps, ids non-empty and distinct |
| Story1HappyPath.StoryWellFormed | simulation_scripts/vendor_story_1_happy_path.cjs:61-120 | the script is well formed and has no checkpoint |
| Story1HappyPath.Run | simulation_scripts/vendor_story_1_happy_path.cjs:46-133 | VND_001: its document holds the key details and one entry per step (ten), and the case ends "Done" with step-10's title |
| SignalWait.Observe | simulation_scripts/vendor_story_2_needs_attention.cjs:60-61 | what the runner reads: the file after another party's action (nothing, a POST /signal, a rewrite) |
| SignalWait.Cleared | simulation_scripts/vendor_story_2_needs_attention.cjs:48-54 | the first pass deletes a set flag and leaves an unset one alone |
| SignalWait.TakenFlagDeleted | simulation_scripts/vendor_story_2_needs_attention.cjs:64-70 | when the wait takes the flag, it does so at a read within the observations, and the file it leaves no longer holds the flag |
| SignalWait.OnlyFreshSignalsTaken | simulation_scripts/vendor_story_2_needs_attention.cjs:42-57 | a stale flag does not unblock the runner: the wait returns only after some party set the flag during the wait |
| SignalWait.RaisedSignalTaken | simulation_scripts/vendor_story_2_needs_attention.cjs:58-76 | a flag set after the first pass has ended, or after its fifteen reads, is taken at that read at the latest |
| SignalWait.ReadableStartRaiseTaken | simulation_scripts/vendor_story_2_needs_attention.cjs:58-76 | when the file is readable at the first read, a flag set at any later read is taken at that read at the latest |
| SignalWait.EarlyApprovalLost | simulation_scripts/vendor_story_2_needs_attention.cjs:42-57 | an approval posted just before the wait, and never repeated, is deleted by the first pass, and the runner stays blocked |
| SignalWait.NoRaiseNoTake | simulation_scripts/vendor_story_2_needs_attention.cjs:59-75 | an absent, empty, unreadable or false flag never unblocks the runner: without a party setting the flag the wait does not return |
| SignalWait.Deliver | interaction-server.cjs:151-168 | another party's action applied to the server's signal file |
| SignalWait.WaitForSignal | simulation_scripts/vendor_story_2_needs_attention.cjs:39-77 | the first pass and the polling loop leave the file and the result `WaitFrom` gives |
| Story2NeedsAttention.TextsDistinct | simulation_scripts/vendor_story_2_needs_attention.cjs:93-141 | eight steps, ids non-empty and distinct |
| Story2NeedsAttention.StoryWellFormed | simulation_scripts/vendor_story_2_needs_attention.cjs:93-141 | the script is well formed, and its checkpoint is step-5 |
| Story2NeedsAttention.SignalStepTrace | simulation_scripts/vendor_story_2_needs_attention.cjs:146-153 | at step-5: processing, "In Progress", the warning, "Needs Attention", and once resumed "In Progress" / "Approved: Proceeding with manual re-verification" |
| Story2NeedsAttention.SignalStepWrites | simulation_scripts/vendor_story_2_needs_attention.cjs:146-151 | step-5's entry stays the warning, whether or not the run resumes |
| Story2NeedsAttention.SignalStep | simulation_scripts/vendor_story_2_needs_attention.cjs:146-153 | one pass at step-5 writes, pushes, waits and resumes as `StepEvents` says |
| Story2NeedsAttention.RunWithSignal | simulation_scripts/vendor_story_2_needs_attention.cjs:143-160 | either the signal was taken and the run completed with the final status, or the run is blocked at step-5 with the warning last in the log and the case "Needs Attention" |
| Story2NeedsAttention.Run | simulation_scripts/vendor_story_2_needs_attention.cjs:79-162 | VND_002 ends "Done" with eight entries once the approval comes; otherwise it is blocked at step-5 |
| EmailWait.StartFlag | simulation_scripts/vendor_story_3_needs_attention.cjs:40 | the runner's reset to false, when it reaches the server, clears the flag; otherwise the flag is unchanged |
| EmailWait.ReturnsOnlyWhenSent | simulation_scripts/vendor_story_3_needs_attention.cjs:41-47 | the wait returns only on an answered poll that read the flag true |
| EmailWait.OnlyFreshSendTaken | simulation_scripts/vendor_story_3_needs_attention.cjs:40-46 | from a cleared flag, the wait returns only after the interface posted that the email was sent |
| EmailWait.SendTaken | simulation_scripts/vendor_story_3_needs_attention.cjs:41-47 | a send posted and answered ends the wait at that poll at the latest |
| EmailWait.StaleSendTakenWithoutReset | simulation_scripts/vendor_story_3_needs_attention.cjs:40 | when the reset does not reach the server, an earlier true ends the wait at the first poll |
| EmailWait.DeliverEmail | interaction-server.cjs:138-147 | an action before a poll, applied to the server's flag |
| EmailWait.WaitForEmail | simulation_scripts/vendor_story_3_needs_attention.cjs:37-48 | the reset and the polling loop leave the flag and the result `EmailWaitFrom` gives |
| Story3NeedsAttention.TextsDistinct | simulation_scripts/vendor_story_3_needs_attention.cjs:65-110 | eight steps, ids non-empty and distinct |
| Story3NeedsAttention.StoryWellFormed | simulation_scripts/vendor_story_3_needs_attention.cjs:65-110 | the script is well formed, and its checkpoint is step-7 |
| Story3NeedsAttention.EmailStepTrace | simulation_scripts/vendor_story_3_needs_attention.cjs:115-124 | at step-7: processing, "In Progress", the warning, "Needs Attention" / "Draft Review: Email Pending", and once resumed the success write and "In Progress" / "Email sent to vendor" |
| Story3NeedsAttention.EmailStepWrites | simulation_scripts/vendor_story_3_needs_attention.cjs:119-123 | once resumed, the same step-7 entry is updated in place to "success" under the sent title |
| Story3NeedsAttention.EmailStepHead | simulation_scripts/vendor_story_3_needs_attention.cjs:115-121 | the writes and pushes of step-7 before the wait |
| Story3NeedsAttention.EmailStepTail | simulation_scripts/vendor_story_3_needs_attention.cjs:123-124 | the writes and pushes of step-7 after the wait |
| Story3NeedsAttention.EmailStep | simulation_scripts/vendor_story_3_needs_attention.cjs:115-125 | one pass at step-7 writes, pushes, waits and resumes as `StepEvents` says |
| Story3NeedsAttention.RunWithEmail | simulation_scripts/vendor_story_3_needs_attention.cjs:112-131 | either the send was seen and the run completed with the final status, or the run is blocked at step-7 with the warning last in the log and the case "Needs Attention" |
| Story3NeedsAttention.Run | simulation_scripts/vendor_story_3_needs_attention.cjs:50-133 | VND_003 ends "Done" with eight entries once the email is sent; otherwise it is blocked at step-7 |
| Story4NeedsReview.TextsDistinct | simulation_scripts/vendor_story_4_needs_review.cjs:52-109 | ten steps, ids non-empty and distinct |
| Story4NeedsReview.StoryWellFormed | simulation_scripts/vendor_story_4_needs_review.cjs:52-109 | the script is well formed and has no checkpoint |
| Story4NeedsReview.Run | simulation_scripts/vendor_story_4_needs_review.cjs:37-122 | VND_004: its document holds the key details and one entry per step (ten), and the case ends "Needs Review", not "Done" |
| LineDiff.CleanText | src/components/DiffViewModal.jsx:14 | replacing the escape text never lengthens a line and leaves a line without a backslash unchanged |
| LineDiff.SplitLines | src/components/DiffViewModal.jsx:16-17 | `split('\n')` yields at least one line and no line holds a newline |
| LineDiff.JoinSplit | src/components/DiffViewModal.jsx:16-17 | joining the split lines with newlines gives the text back |
| LineDiff.SplitJoin | src/components/DiffViewModal.jsx:16-17 | splitting lines joined by newlines gives the lines back |
| LineDiff.FirstMatch | src/components/DiffViewModal.jsx:41-42 | the lookahead finds the first position within five lines where the line reappears, or reports none |
| LineDiff.NextMove | src/components/DiffViewModal.jsx:28-90 | a step is "same" only on equal lines, "added ahead" only when the old line reappears within the new text, "deleted ahead" only when the new line reappears within the old text |
| LineDiff.Apply | src/components/DiffViewModal.jsx:28-90 | a step's entries and its index advance |
| LineDiff.DiffStep | src/components/DiffViewModal.jsx:24-92 | every step stays within the two texts and strictly increases `oldIndex + newIndex`, so the loop terminates |
| LineDiff.SideNumbered | src/components/DiffViewModal.jsx:32-33 | the side of a text from line k numbers its lines k+1, k+2, … in order, with cleaned contents |
| LineDiff.DiffReconstructs | src/components/DiffViewModal.jsx:28-90 | the unchanged and deleted entries give back the old lines, cleaned and numbered 1..n in order; the unchanged and added entries do the same for the new lines |
| LineDiff.DiffHasNoEllipsis | src/components/DiffViewModal.jsx:24-92 | the raw diff holds no ellipsis |
| LineDiff.IdenticalUnchanged | src/components/DiffViewModal.jsx:28-36 | identical texts yield only unchanged entries |
| LineDiff.AddedFirst | src/components/DiffViewModal.jsx:41-54 | when the old line reappears within the next five new lines, the step emits only added entries, up to its first reappearance |
| LineDiff.DeletedSecond | src/components/DiffViewModal.jsx:56-71 | the deleted lookahead runs only when the added one failed, and then emits only deleted entries |
| LineDiff.FindAhead | src/components/DiffViewModal.jsx:41-54 | the lookahead loop returns `FirstMatch` |
| LineDiff.PushAdded | src/components/DiffViewModal.jsx:43-49 | the inner loop appends the run of added entries |
| LineDiff.PushDeleted | src/components/DiffViewModal.jsx:59-65 | the inner loop appends the run of deleted entries |
| LineDiff.Pass | src/components/DiffViewModal.jsx:25-90 | one iteration appends `DiffStep`'s entries and moves the indices as it says |
| LineDiff.RawDiff | src/components/DiffViewModal.jsx:18-92 | the while loop produces `DiffFrom(old, new, 0, 0)` |
| ContextCollapse.CollapseNoAdjacentEllipses | src/components/DiffViewModal.jsx:108-118 | the output never holds two ellipses in a row, and it ends in one exactly when the last entry is hidden |
| ContextCollapse.CollapseCounts | src/components/DiffViewModal.jsx:108-118 | the output is the shown entries in order plus exactly one ellipsis per maximal hidden run |
| ContextCollapse.KeptRunsBound | src/components/DiffViewModal.jsx:108-118 | shown entries plus hidden runs never exceed the entries covered |
| ContextCollapse.KeptMembers | src/components/DiffViewModal.jsx:110-113 | the shown entries are exactly the masked raw entries |
| ContextCollapse.ContextViewShows | src/components/DiffViewModal.jsx:95-118 | every added and deleted entry is shown; an entry is shown only within three positions of a change; no two ellipses are adjacent; the view is no longer than the raw diff |
| ContextCollapse.DiffView | src/components/DiffViewModal.jsx:10 | the result is empty without diff data or while loading |
| ContextCollapse.DiffViewShows | src/components/DiffViewModal.jsx:9-121 | the displayed diff of two texts has all the properties of `ContextViewShows` |
| ContextCollapse.ContextMask | src/components/DiffViewModal.jsx:97-106 | the marking loop sets an entry exactly when a change lies within three positions of it |
| ContextCollapse.Assemble | src/components/DiffViewModal.jsx:109-118 | the assembly loop, with its `isLastHidden` flag, produces `Collapse` |
| ContextCollapse.ComputeDiff | src/components/DiffViewModal.jsx:9-121 | the whole `useMemo` body returns `DiffView` |
| FeedbackWorkflow.WithoutPlaceholders | src/components/FeedbackModal.jsx:71 | removing the loading placeholders keeps every other message and adds none |
| FeedbackWorkflow.WithoutPlaceholdersAppend | src/components/FeedbackModal.jsx:71 | the filter distributes over concatenation, so the kept messages stay in order and equal messages are all kept |
| FeedbackWorkflow.NoPlaceholderKept | src/components/FeedbackModal.jsx:71 | without placeholders the filter returns the messages unchanged |
| FeedbackWorkflow.TitleFor | src/components/FeedbackModal.jsx:81 | the analysis title when it is non-empty, otherwise "Update: " + the first 50 characters of the feedback + "..." |
| FeedbackWorkflow.QueueBody | src/components/FeedbackModal.jsx:124-132 | the queued item carries the collected title, feedback, questions, answers and summary, status "pending", and no id |
| FeedbackWorkflow.FeedbackChat.constructor | src/components/FeedbackModal.jsx:7-16 | a fresh modal is idle, with no messages, no input and nothing collected |
| FeedbackWorkflow.FeedbackChat.Type | src/components/FeedbackModal.jsx:277 | typing sets the input |
| FeedbackWorkflow.FeedbackChat.SendMessage | src/components/FeedbackModal.jsx:55-99 | blank input or a running request changes nothing. Otherwise the trimmed message is appended and the input cleared. From idle: analysing, the feedback recorded, an analysis requested. From questions: summarising, one answer appended, a summary requested. In any other state only the message is appended |
| FeedbackWorkflow.FeedbackChat.CompleteAnalysis | src/components/FeedbackModal.jsx:68-93 | the placeholder goes and loading ends; on success the questions and the title are stored and the state is questions; on failure an error message is shown and the state is back to idle |
| FeedbackWorkflow.FeedbackChat.CompleteSummary | src/components/FeedbackModal.jsx:101-117 | the placeholder goes and loading ends; on success the summary and the answers are stored and the state is confirmed; on failure the state is back to questions |
| FeedbackWorkflow.FeedbackChat.ConfirmYes | src/components/FeedbackModal.jsx:121-143 | posts `QueueBody`; on acceptance appends "Yes" and the confirmation and moves to queued; on failure only an error message is added and the state is unchanged |
| FeedbackWorkflow.FeedbackChat.Close | src/components/FeedbackModal.jsx:41-53 | back to idle with no messages, no input and nothing collected |
| FeedbackQueue.Filtered | src/components/FeedbackQueuePanel.jsx:95-103 | a tab lists exactly the items with its status, in list order ("open" also takes items without one, "queued" takes "pending"); an unknown tab lists nothing |
| FeedbackQueue.FilteredAppend | src/components/FeedbackQueuePanel.jsx:95-103 | the tab filter distributes over concatenation, so a tab's items keep their list order and equal items are all listed |
| FeedbackQueue.CountsBounded | src/components/FeedbackQueuePanel.jsx:106-111 | no item is in two tabs, so the four counts add up to at most the number of items |
| FeedbackQueue.PendingIds | src/components/FeedbackQueuePanel.jsx:84-87 | the ids of the queued tab's items, in list order |
| FeedbackQueue.ApplyIds | src/components/FeedbackQueuePanel.jsx:84-87 | "apply all" uses the selection when it is not empty, otherwise the pending items' ids in list order |
| FeedbackQueue.AddId | src/components/FeedbackQueuePanel.jsx:193-194 | checking adds the id (once) and keeps every other id in order |
| FeedbackQueue.RemoveId | src/components/FeedbackQueuePanel.jsx:195 | unchecking removes the id and keeps every other id |
| FeedbackQueue.FailedAppliesChangeNothing | src/components/FeedbackQueuePanel.jsx:33-53 | when every apply fails, the list and the tab stay as they were |
| FeedbackQueue.AcceptedApplyShowsApplied | src/components/FeedbackQueuePanel.jsx:43-46 | once an apply is accepted the panel shows the applied tab |
| FeedbackQueue.QueuePanel.constructor | src/components/FeedbackQueuePanel.jsx:5-9 | the panel starts on the open tab with nothing loaded or selected |
| FeedbackQueue.QueuePanel.Fetch | src/components/FeedbackQueuePanel.jsx:11-25 | a successful fetch replaces the list, and a failed one leaves it |
| FeedbackQueue.QueuePanel.Check | src/components/FeedbackQueuePanel.jsx:190-197 | the selection becomes `AddId` or `RemoveId` |
| FeedbackQueue.QueuePanel.DeleteStart | src/components/FeedbackQueuePanel.jsx:56-62 | unless cancelled, every item with the id leaves the list at once; the snapshot is returned |
| FeedbackQueue.QueuePanel.DeleteEnd | src/components/FeedbackQueuePanel.jsx:64-78 | a refusal or an exception restores the snapshot |
| FeedbackQueue.QueuePanel.Delete | src/components/FeedbackQueuePanel.jsx:56-79 | the list loses exactly the items with the id when the server accepts, and is as before otherwise |
| FeedbackQueue.QueuePanel.ApplyOne | src/components/FeedbackQueuePanel.jsx:33-53 | the list and tab become those `AfterApplies` gives for the one outcome: an accepted apply refetches the queue and shows the applied tab, and a failed one changes neither |
| FeedbackQueue.QueuePanel.ApplyAll | src/components/FeedbackQueuePanel.jsx:82-92 | applies `ApplyIds` in order, one request each, then clears the selection |
| CaseView.MockTotalPages | src/components/ProcessDetails.jsx:59-67 | one of 45, 12, 2, 3, 8 or the default 6 |
| CaseView.MockPagesPriority | src/components/ProcessDetails.jsx:59-67 | the count is that of the first keyword of protocol, sow, invoice, quotation, report found in the lower-cased label, and 6 exactly when none occurs |
| CaseView.TotalPages | src/components/ProcessDetails.jsx:69 | a non-zero page count wins; otherwise the label decides; the result is at least 1 |
| CaseView.ZoomOut | src/components/ProcessDetails.jsx:118 | within [25, 300] the zoom falls by at most 10 and never below 25 |
| CaseView.ZoomIn | src/components/ProcessDetails.jsx:127 | within [25, 300] the zoom rises by at most 10 and never above 300 |
| CaseView.PreviousPage | src/components/ProcessDetails.jsx:180 | the page falls by one, but never below 1 |
| CaseView.NextPage | src/components/ProcessDetails.jsx:182 | the page rises by one, but never above the page count |
| CaseView.TypedPage | src/components/ProcessDetails.jsx:110-111 | a typed page is accepted exactly when it parses to a number in [1, totalPages] |
| CaseView.TypedPageRoundTrip | src/components/ProcessDetails.jsx:110-111 | typing the decimal text of a page within range selects that page |
| CaseView.ZoomStepsUndo | src/components/ProcessDetails.jsx:186-187 | away from the bounds, zooming in and then out returns to the same zoom |
| CaseView.DocumentViewer.constructor | src/components/ProcessDetails.jsx:56-57 | the viewer starts at 100 % on page 1 |
| CaseView.DocumentViewer.ZoomOutClick | src/components/ProcessDetails.jsx:118 | the zoom becomes `ZoomOut` and stays within [25, 300] |
| CaseView.DocumentViewer.ZoomInClick | src/components/ProcessDetails.jsx:127 | the zoom becomes `ZoomIn` and stays within [25, 300] |
| CaseView.DocumentViewer.PreviousPageClick | src/components/ProcessDetails.jsx:180 | the page becomes `PreviousPage` and stays within [1, totalPages] |
| CaseView.DocumentViewer.NextPageClick | src/components/ProcessDetails.jsx:182 | the page becomes `NextPage` and stays within [1, totalPages] |
| CaseView.DocumentViewer.TypePage | src/components/ProcessDetails.jsx:109-112 | the page changes only to an accepted typed page and stays within [1, totalPages] |
| CaseView.IndexOf | src/components/ProcessDetails.jsx:1041 | the first position of the id, or -1 exactly when it is absent |
| CaseView.NavigateUp | src/components/ProcessDetails.jsx:1045-1047 | offers a target exactly when `canGoUp` holds (index > 0), and the target is another listed case |
| CaseView.NavigateDown | src/components/ProcessDetails.jsx:1049-1051 | offers a target exactly when `canGoDown` holds (index < length - 1), and the target is a listed case |
| CaseView.NavigationUndoes | src/components/ProcessDetails.jsx:1041-1051 | with distinct ids: up then down comes back, and so does down then up; the first case cannot go up and the last cannot go down |
| CaseView.IndexOfDistinct | src/components/ProcessDetails.jsx:1041 | with distinct ids, the position of the case at k is k |
| CaseView.UnknownCaseGoesToFirst | src/components/ProcessDetails.jsx:1041-1043 | a case not in the list cannot go up, and "down" opens the first case |
| CaseView.HasPendingDecision | src/components/ProcessDetails.jsx:941-945 | a log holds an unsent outgoing email draft or a decision exactly when one of its artifacts is such |
| CaseView.DecisionIndex | src/components/ProcessDetails.jsx:941-946 | the first log with a pending decision, or -1 exactly when there is none |
| CaseView.EffectiveStatus | src/components/ProcessDetails.jsx:933-935 | the first non-empty of the locally stored status (ignored for DIR_ cases), the listed status and, failing both, the key-details status |
| CaseView.DisplayedLogs | src/components/ProcessDetails.jsx:932-954 | always a prefix of the incoming logs. Under the demo-case, "Needs Attention", not simulating, inactive and not-all-shown condition: the logs through the first pending decision, or all when there is none. Otherwise all logs |
| CaseView.ServedCasesShowWholeLog | src/components/ProcessDetails.jsx:932 | the cut never fires for the server's cases VND_001 to VND_004: they always show their whole log |
| CaseView.TableIndex | src/components/ProcessDetails.jsx:1080-1082 | the first table artifact with data and another id, or the length when there is none |
| CaseView.SupplierIndex | src/components/ProcessDetails.jsx:1076-1084 | the first log from position i that holds the artifact and a table to take data from |
| CaseView.Associated | src/components/ProcessDetails.jsx:1074-1087 | the artifact's own data if present; otherwise the table data of the first log holding the artifact's id that has such a table; otherwise none |
| CaseView.FindAssociatedData | src/components/ProcessDetails.jsx:1074-1087 | the loop with its early return yields `Associated` |
| CaseView.IdIndex | src/components/ProcessDetails.jsx:1119 | `acc.some` by id: the first position with the id, or the length exactly when it is absent |
| CaseView.AddAllPrefix | src/components/ProcessDetails.jsx:1118-1124 | adding artifacts only ever appends |
| CaseView.AddAllIds | src/components/ProcessDetails.jsx:1118-1124 | the ids afterwards are the ids before plus those added |
| CaseView.AddAllUnique | src/components/ProcessDetails.jsx:1119 | adding artifacts keeps ids unique |
| CaseView.AddAllFirstOccurrences | src/components/ProcessDetails.jsx:1119-1123 | each appended artifact is the first one carrying its id |
| CaseView.AddAllInOrder | src/components/ProcessDetails.jsx:1116-1127 | appended artifacts keep the order of their first occurrences |
| CaseView.SidebarIds | src/components/ProcessDetails.jsx:1116-1135 | the side bar has unique ids, starts with the log artifacts, and its ids are those of the log and the manual artifacts |
| CaseView.SidebarOrigins | src/components/ProcessDetails.jsx:1116-1135 | each log id shows its first occurrence in log order; a manual artifact is added only when its id is absent from the logs |
| CaseView.Offer | src/components/ProcessDetails.jsx:1118-1124 | the `forEach` with `acc.some` guard yields `AddAll` |
| CaseView.AllArtifacts | src/components/ProcessDetails.jsx:1116-1135 | the reduce over the logs and the manual `forEach` yield `SidebarArtifacts` |

## Left out

- Language-model calls are left out: `callGemini`, `/api/chat`, `/api/feedback/questions`, `/api/feedback/summarize` and `src/services/geminiService.js`. Their answers are `Option` parameters (`None` for a failure).
- `/api/kb/snapshot`, `/api/kb/update`, `/debug-paths` and static file serving are left out. They are plain file reads and writes, or I/O with MIME lookup and byte ranges.
- Process supervision is not modelled: `exec`, `pkill`, `process.kill` and the `runningProcesses` map. A reset records the runners it schedules, with their offsets.
- Timing is not modelled: the one-second delay before the reset's writes, `setTimeout`, `delay` and the poll intervals. Concurrency between runners and the server is not modelled either: each handler and each file write is one atomic step.
- Clock readings are opaque string parameters: `toLocaleTimeString`, ISO timestamps and the date of a reset. The random temporary file names and the rename are left out; a write replaces the whole file at once.
- Unreadable server files are not modelled. The queue file and the version index are always readable here. The server reads them inside `try … catch {}` and falls back to `[]` (interaction-server.cjs:275, 286, 334), so a POST on an unreadable queue starts a fresh one-item queue.
- `Server.ApplyFeedback` takes one clock reading, `now`, for both the snapshot file stamp and the version timestamp. The server reads the clock twice (interaction-server.cjs:325 and 337).
- `Server.Reset` does not model the in-memory `confirmed` and `signals` fields of `state`, which nothing reads.
- Waits have no time. Another party's actions are a finite sequence, one action before each read, and a wait that outlasts it ends in `None`: the runner is still blocked. A runner that blocks forever is therefore modelled only up to the end of the observations.
- Step narratives are parameters. The runners' reasoning lines and artifact payloads are free text, so each step's narrative comes in as a `Narrative`. Step ids, titles, statuses, key details and final statuses are the scripts' own.
- `EmailAfterPost`: a `sent` value that is neither a boolean nor absent (a string, say) is not modelled; a missing value reads as false, as it does for every reader of the flag.
- `JsText.Lower`: case mapping covers ASCII only, so non-ASCII labels are compared as written.
- `JsText.ParseInt`: the result is an unbounded integer. Precision lost beyond 2^53 in a double is not modelled, and a leading `0x` with no hex digit after it reads as NaN.
- `CaseView.TotalPages`: `artifact.totalPages` is taken to be absent or a non-negative whole number.
- The case list's and the artifacts' ids are strings; `String(id)` conversions are identities.
- `CaseView.DisplayedLogs`: the `sessionStorage` readings and the status from the process list are parameters. The `startSimulation` replay and all rendering are left out.
- A log without an `artifacts` list counts as a log with an empty list.
- Dialogs are parameters (`confirmed`, `accepted`, the delete and apply outcomes): `window.confirm`, `alert` and the HTTP answers seen by the front end.
- `FeedbackWorkflow.FeedbackChat.SendMessage` ends at its request. The awaited completion is `CompleteAnalysis` or `CompleteSummary`, so nothing else happens between the two halves.
- Only the first 50 characters of a default title are modelled: `slice` counts UTF-16 code units, and here a `char` is one unit.
- The front end's other files are not part of this model: the login check, static lists, the knowledge-base page and the version history.

## Findings

| source | as written | input that shows it | evidently intended | confidence | as-written member | corrected member |
|---|---|---|---|---|---|---|
| interaction-server.cjs:345 | after applying an item, the queue is filtered by the item's id, so every item with the same id goes. Items queued by the feedback modal carry no id at all | two items queued from the feedback modal (both without an id), then the first applied: the queue ends empty, although the second item's change never reached the knowledge base | remove only the applied item | not executed | Knowledge.ApplyFilterDropsIdlessNeighbour | Knowledge.RemoveAppliedIsFilter |
