/**
 * What the four case runners (simulation_scripts/vendor_story_*.cjs) have in common: the upsert of a
 * log entry into the case's document, the case-status push with its file fallback, and the
 * specification of the step loop — the events a run emits and the log it leaves behind.
 */
module Runner {
  import opened Wrappers
  import opened CaseList
  import opened CaseLog
  import opened CoordinationServer

  /** One scripted step: its id, the title shown while it runs, the title of its result, and the
      result's reasoning lines and artifacts. */
  datatype Step = Step(id: string, titleP: string, titleS: string, reasoning: seq<string>, artifacts: seq<Artifact>)

  /** The fixed text of a step: its id and its two titles. */
  datatype StepText = StepText(id: string, titleP: string, titleS: string)

  /** The reasoning lines and artifacts a step's result carries. */
  datatype Narrative = Narrative(reasoning: seq<string>, artifacts: seq<Artifact>)

  /** A step put together from its text and its narrative. */
  function WithNarrative(t: StepText, n: Narrative): (s: Step)
    ensures s.id == t.id && s.titleP == t.titleP && s.titleS == t.titleS
    ensures s.reasoning == n.reasoning && s.artifacts == n.artifacts
  {
    Step(t.id, t.titleP, t.titleS, n.reasoning, n.artifacts)
  }

  /** A script's steps: each text with the narrative given for it. */
  function Attach(texts: seq<StepText>, n: seq<Narrative>): (r: seq<Step>)
    requires |texts| == |n|
    ensures |r| == |texts| && forall j :: 0 <= j < |r| ==> r[j] == WithNarrative(texts[j], n[j])
  {
    if texts == [] then [] else [WithNarrative(texts[0], n[0])] + Attach(texts[1..], n[1..])
  }

  /** Distinct non-empty ids in the texts make distinct ids in the steps, whatever the narrative. */
  lemma AttachDistinct(texts: seq<StepText>, n: seq<Narrative>)
    requires |texts| == |n|
    requires forall j :: 0 <= j < |texts| ==> texts[j].id != ""
    requires forall i, j :: 0 <= i < j < |texts| ==> texts[i].id != texts[j].id
    ensures DistinctIds(Attach(texts, n))
  {
  }

  /** Where a runner stops for a person: at the step with `stepId`, until the named file signal is
      set, or until the email flag reports sent. The email checkpoint's warning entry carries its own
      clock reading `warnTime`, and the entry is retitled `sentTitle` once the email went out. */
  datatype Checkpoint =
    | NoCheckpoint
    | SignalCheckpoint(stepId: string, signal: string)
    | EmailCheckpoint(stepId: string, sentTitle: string, warnTime: string)

  /** A runner script: the case it drives, its steps, the key details of its first write, the case
      status of its last push, and its checkpoint. */
  datatype Script = Script(caseId: string, steps: seq<Step>, keyDetails: map<string, string>, final: string, checkpoint: Checkpoint)

  /** What a run does that others see: a log write, or a case-status push. */
  datatype Event = Logged(entry: LogEntry) | Pushed(status: string, text: string)

  const InProgress := "In Progress"
  const NeedsAttention := "Needs Attention"
  const ApprovedText := "Approved: Proceeding with manual re-verification"
  const EmailPendingText := "Draft Review: Email Pending"
  const EmailSentText := "Email sent to vendor"

  /** Every step has an id and no two share one. */
  ghost predicate DistinctIds(steps: seq<Step>) {
    (forall j :: 0 <= j < |steps| ==> steps[j].id != "") &&
    (forall i, j :: 0 <= i < j < |steps| ==> steps[i].id != steps[j].id)
  }

  /** Step `i` is where the script stops for a person. */
  predicate CheckpointAt(sc: Script, i: nat)
    requires i < |sc.steps|
  {
    !sc.checkpoint.NoCheckpoint? && sc.checkpoint.stepId == sc.steps[i].id
  }

  /** With distinct step ids, the checkpoint is at one step only. */
  lemma CheckpointUnique(sc: Script, i: nat, c: nat)
    requires DistinctIds(sc.steps) && i < |sc.steps| && c < |sc.steps| && CheckpointAt(sc, c)
    ensures CheckpointAt(sc, i) <==> i == c
  {
  }

  /** The scripts as written: distinct step ids, at least one step, and no checkpoint on the last. */
  ghost predicate WellFormed(sc: Script) {
    DistinctIds(sc.steps) && |sc.steps| > 0 && !CheckpointAt(sc, |sc.steps| - 1)
  }

  function StepIds(steps: seq<Step>): (r: seq<string>)
    ensures |r| == |steps| && forall j :: 0 <= j < |steps| ==> r[j] == steps[j].id
  {
    if steps == [] then [] else [steps[0].id] + StepIds(steps[1..])
  }

  /** The write made when a step starts. */
  function ProcessingEntry(s: Step, time: string): LogEntry {
    LogEntry(s.id, Some(time), Some(s.titleP), Some(Processing), None, None)
  }

  /** The write made when a step ends: no time, so the start time is kept. */
  function ResultEntry(s: Step, title: string, status: LogStatus): LogEntry {
    LogEntry(s.id, None, Some(title), Some(status), Some(s.reasoning), Some(s.artifacts))
  }

  /** `isFinal ? "completed" : "success"` */
  function ResultStatus(sc: Script, i: nat): LogStatus {
    if i == |sc.steps| - 1 then Completed else Success
  }

  /** The status pushed with a step's result. */
  function PushedStatus(sc: Script, i: nat): string {
    if i == |sc.steps| - 1 then sc.final else InProgress
  }

  /** The events of step `i`, in order; `resumed` is false when the run is still blocked at the
      step's checkpoint. */
  function StepEvents(sc: Script, times: seq<string>, i: nat, resumed: bool): (r: seq<Event>)
    requires i < |sc.steps| && i < |times|
    ensures 4 <= |r|
  {
    var s := sc.steps[i];
    var head := [Logged(ProcessingEntry(s, times[i])), Pushed(InProgress, s.titleP)];
    if CheckpointAt(sc, i) && sc.checkpoint.SignalCheckpoint? then
      head + [Logged(ResultEntry(s, s.titleS, Warning)), Pushed(NeedsAttention, s.titleS)]
        + (if resumed then [Pushed(InProgress, ApprovedText)] else [])
    else if CheckpointAt(sc, i) then
      head + [Logged(ResultEntry(s, s.titleS, Warning).(time := Some(sc.checkpoint.warnTime))), Pushed(NeedsAttention, EmailPendingText)]
        + (if resumed then [Logged(ResultEntry(s, sc.checkpoint.sentTitle, Success)), Pushed(InProgress, EmailSentText)] else [])
    else
      head + [Logged(ResultEntry(s, s.titleS, ResultStatus(sc, i))), Pushed(PushedStatus(sc, i), s.titleS)]
  }

  /** Each step first logs its processing entry and pushes "In Progress"; every later write is a
      result for the same step; a checkpoint's result is a warning and its push "Needs Attention";
      only the last push of the last step may carry a status other than those two. */
  lemma StepEventsShape(sc: Script, times: seq<string>, i: nat, resumed: bool)
    requires i < |sc.steps| && i < |times|
    ensures var r := StepEvents(sc, times, i, resumed);
      && r[0] == Logged(ProcessingEntry(sc.steps[i], times[i]))
      && r[1] == Pushed(InProgress, sc.steps[i].titleP)
      && (forall j :: 1 <= j < |r| && r[j].Logged? ==>
            r[j].entry.id == sc.steps[i].id && r[j].entry.status != Some(Processing))
      && (!CheckpointAt(sc, i) ==>
            |r| == 4 && r[2] == Logged(ResultEntry(sc.steps[i], sc.steps[i].titleS, ResultStatus(sc, i)))
            && r[3] == Pushed(PushedStatus(sc, i), sc.steps[i].titleS))
      && (CheckpointAt(sc, i) ==>
            r[2].Logged? && r[2].entry.status == Some(Warning) && r[3].Pushed? && r[3].status == NeedsAttention
            && (|r| == 4 <==> !resumed))
      && (forall j :: 0 <= j < |r| && r[j].Pushed? ==>
            r[j].status == InProgress || r[j].status == NeedsAttention ||
            (j == |r| - 1 && i == |sc.steps| - 1 && !CheckpointAt(sc, i) && r[j].status == sc.final))
  {
  }

  /** The log entry step `i` leaves behind once all its writes are merged: the start time (the
      warning's time at the email checkpoint), the result title and status, reasoning and artifacts.
      A signal checkpoint stays a warning; an email checkpoint becomes a success under its sent title
      once resumed. */
  function StepEntry(sc: Script, times: seq<string>, i: nat, resumed: bool): (e: LogEntry)
    requires i < |sc.steps| && i < |times|
    ensures e.id == sc.steps[i].id
  {
    var s := sc.steps[i];
    if CheckpointAt(sc, i) && sc.checkpoint.SignalCheckpoint? then
      LogEntry(s.id, Some(times[i]), Some(s.titleS), Some(Warning), Some(s.reasoning), Some(s.artifacts))
    else if CheckpointAt(sc, i) then
      LogEntry(s.id, Some(sc.checkpoint.warnTime), Some(if resumed then sc.checkpoint.sentTitle else s.titleS),
               Some(if resumed then Success else Warning), Some(s.reasoning), Some(s.artifacts))
    else
      LogEntry(s.id, Some(times[i]), Some(s.titleS), Some(ResultStatus(sc, i)), Some(s.reasoning), Some(s.artifacts))
  }

  /** The events of the first `k` steps of a run that is never left blocked. */
  function Trace(sc: Script, times: seq<string>, k: nat): seq<Event>
    requires k <= |sc.steps| && k <= |times|
  {
    if k == 0 then [] else Trace(sc, times, k - 1) + StepEvents(sc, times, k - 1, true)
  }

  /** The log after the first `k` steps, starting from the emptied log of the first write. */
  function Log(sc: Script, times: seq<string>, k: nat): (r: seq<LogEntry>)
    requires k <= |sc.steps| && k <= |times|
    ensures |r| == k
  {
    if k == 0 then [] else Log(sc, times, k - 1) + [StepEntry(sc, times, k - 1, true)]
  }

  /** The case list after the pushes among `events`, each applied as the server applies it. */
  function StatusAfter(cases: seq<Case>, id: string, events: seq<Event>): seq<Case> {
    if events == [] then cases
    else
      var before := StatusAfter(cases, id, events[..|events| - 1]);
      var e := events[|events| - 1];
      if e.Pushed? then SetCaseStatus(before, id, e.status, e.text) else before
  }

  /** The document a runner reads: the stored one, or an empty one when none exists. */
  function DocOf(docs: map<string, CaseDoc>, id: string): (d: CaseDoc)
    ensures id in docs ==> d == docs[id]
    ensures id !in docs ==> d == EmptyDoc
  {
    if id in docs then docs[id] else EmptyDoc
  }

  /** After `k` steps the log holds exactly one entry per step, in step order. */
  lemma {:induction false} LogShape(sc: Script, times: seq<string>, k: nat)
    requires k <= |sc.steps| && k <= |times|
    ensures forall j :: 0 <= j < k ==> Log(sc, times, k)[j] == StepEntry(sc, times, j, true)
  {
    if k > 0 {
      LogShape(sc, times, k - 1);
      assert Log(sc, times, k) == Log(sc, times, k - 1) + [StepEntry(sc, times, k - 1, true)];
    }
  }

  /** The log's ids are the step ids, in step order. */
  lemma LogIds(sc: Script, times: seq<string>, k: nat)
    requires k <= |sc.steps| && k <= |times|
    ensures Ids(Log(sc, times, k)) == StepIds(sc.steps)[..k]
  {
    LogShape(sc, times, k);
    var ids := Ids(Log(sc, times, k));
    assert forall j :: 0 <= j < k ==> ids[j] == StepIds(sc.steps)[..k][j];
  }

  /** With distinct step ids, the log never holds two entries for one step. */
  lemma LogUnique(sc: Script, times: seq<string>, k: nat)
    requires DistinctIds(sc.steps) && k <= |sc.steps| && k <= |times|
    ensures UniqueIds(Log(sc, times, k))
  {
    LogShape(sc, times, k);
    LogIds(sc, times, k);
  }

  /** The first write of step `k` is new to the log, so it is appended. */
  lemma FirstWriteAppends(sc: Script, times: seq<string>, k: nat, e: LogEntry)
    requires DistinctIds(sc.steps) && k < |sc.steps| && k < |times| && e.id == sc.steps[k].id
    ensures e.id !in Ids(Log(sc, times, k))
    ensures Upsert(Log(sc, times, k), e) == Log(sc, times, k) + [e]
  {
    LogIds(sc, times, k);
  }

  /** Step `j`'s events sit in the trace right after those of the steps before it. */
  lemma {:induction false} TraceHasStep(sc: Script, times: seq<string>, k: nat, j: nat)
    requires j < k <= |sc.steps| && k <= |times|
    ensures |Trace(sc, times, j + 1)| <= |Trace(sc, times, k)|
    ensures Trace(sc, times, k)[|Trace(sc, times, j)|..|Trace(sc, times, j + 1)|] == StepEvents(sc, times, j, true)
  {
    var a := |Trace(sc, times, j)|;
    var b := |Trace(sc, times, j + 1)|;
    if k == j + 1 {
      var t: seq<Event> := Trace(sc, times, j);
      var r: seq<Event> := StepEvents(sc, times, j, true);
      assert Trace(sc, times, k) == t + r;
      assert (t + r)[|t|..] == r;
    } else {
      TraceHasStep(sc, times, k - 1, j);
      var t: seq<Event> := Trace(sc, times, k - 1);
      var r: seq<Event> := StepEvents(sc, times, k - 1, true);
      assert Trace(sc, times, k) == t + r;
      assert (t + r)[a..b] == t[a..b];
    }
  }

  /** Every push of a run is "In Progress" or "Needs Attention", except the very last push of a
      completed run, which carries the script's final status. */
  lemma {:induction false} TracePushes(sc: Script, times: seq<string>, k: nat)
    requires k <= |sc.steps| && k <= |times|
    ensures forall j :: 0 <= j < |Trace(sc, times, k)| && Trace(sc, times, k)[j].Pushed? ==>
      Trace(sc, times, k)[j].status == InProgress || Trace(sc, times, k)[j].status == NeedsAttention ||
      (k == |sc.steps| && j == |Trace(sc, times, k)| - 1 && Trace(sc, times, k)[j].status == sc.final)
  {
    if k > 0 {
      TracePushes(sc, times, k - 1);
      var t: seq<Event> := Trace(sc, times, k - 1);
      var r: seq<Event> := StepEvents(sc, times, k - 1, true);
      assert Trace(sc, times, k) == t + r;
      forall j: int | 0 <= j < |t + r| && (t + r)[j].Pushed?
        ensures (t + r)[j].status == InProgress || (t + r)[j].status == NeedsAttention ||
          (k == |sc.steps| && j == |t + r| - 1 && (t + r)[j].status == sc.final)
      {
        if j >= |t| {
          assert (t + r)[j] == r[j - |t|];
        } else {
          assert (t + r)[j] == t[j];
        }
      }
    }
  }

  /** A completed run ends with the push of the final status and the last step's result title. */
  lemma LastEvent(sc: Script, times: seq<string>)
    requires WellFormed(sc) && |sc.steps| <= |times|
    ensures var t := Trace(sc, times, |sc.steps|);
      |t| > 0 && t[|t| - 1] == Pushed(sc.final, sc.steps[|sc.steps| - 1].titleS)
  {
    var n := |sc.steps|;
    var r := StepEvents(sc, times, n - 1, true);
    assert Trace(sc, times, n) == Trace(sc, times, n - 1) + r;
  }

  /** The case list after a sequence of pushes is decided by the last push alone; with no push it is
      unchanged. */
  lemma {:induction false} StatusAfterLastPush(cases: seq<Case>, id: string, events: seq<Event>, j: nat)
    requires j < |events| && events[j].Pushed?
    requires forall l :: j < l < |events| ==> !events[l].Pushed?
    ensures StatusAfter(cases, id, events) == SetCaseStatus(cases, id, events[j].status, events[j].text)
  {
    var init := events[..|events| - 1];
    if j == |events| - 1 {
      StatusAfterNoPush(cases, id, events[..j]);
      SetCaseStatusLastWins(StatusAfter(cases, id, init), id, "", "", "", "");
      var before := StatusAfter(cases, id, init);
      StatusAfterAnyPush(cases, id, init, events[j].status, events[j].text);
    } else {
      assert init[j] == events[j];
      StatusAfterLastPush(cases, id, init, j);
    }
  }

  /** Pushes neither add nor drop a case: the list is the one the run started from, up to the two
      status fields of records with the id `id`. */
  lemma {:induction false} StatusAfterNoPush(cases: seq<Case>, id: string, events: seq<Event>)
    ensures |StatusAfter(cases, id, events)| == |cases|
    ensures forall j :: 0 <= j < |cases| ==>
      StatusAfter(cases, id, events)[j].(status := cases[j].status, currentStatus := cases[j].currentStatus) == cases[j]
    ensures forall j :: 0 <= j < |cases| && cases[j].id != id ==> StatusAfter(cases, id, events)[j] == cases[j]
  {
    if events != [] {
      StatusAfterNoPush(cases, id, events[..|events| - 1]);
    }
  }

  /** A push overrides every earlier push to the same case. */
  lemma {:induction false} StatusAfterAnyPush(cases: seq<Case>, id: string, events: seq<Event>, s: string, t: string)
    ensures SetCaseStatus(StatusAfter(cases, id, events), id, s, t) == SetCaseStatus(cases, id, s, t)
  {
    if events != [] {
      var init := events[..|events| - 1];
      var e := events[|events| - 1];
      StatusAfterAnyPush(cases, id, init, s, t);
      if e.Pushed? {
        SetCaseStatusLastWins(StatusAfter(cases, id, init), id, e.status, e.text, s, t);
      }
    }
  }

  /** After a completed run the case shows the script's final status and the last step's title,
      whatever the case list held before. */
  lemma FinishedRunStatus(sc: Script, times: seq<string>, cases: seq<Case>)
    requires WellFormed(sc) && |sc.steps| <= |times|
    ensures StatusAfter(cases, sc.caseId, Trace(sc, times, |sc.steps|))
         == SetCaseStatus(cases, sc.caseId, sc.final, sc.steps[|sc.steps| - 1].titleS)
  {
    var t := Trace(sc, times, |sc.steps|);
    LastEvent(sc, times);
    StatusAfterLastPush(cases, sc.caseId, t, |t| - 1);
  }

  /** Entry by entry, the log after `k` steps: every ordinary step ends "success" except the last,
      which ends "completed", each under its result title and start time; a signal checkpoint
      stays "warning"; an email checkpoint ends "success" under its sent title. */
  lemma LogStatuses(sc: Script, times: seq<string>, k: nat)
    requires k <= |sc.steps| && k <= |times|
    ensures forall j :: 0 <= j < k && !CheckpointAt(sc, j) ==>
      Log(sc, times, k)[j].status == Some(if j == |sc.steps| - 1 then Completed else Success) &&
      Log(sc, times, k)[j].title == Some(sc.steps[j].titleS) && Log(sc, times, k)[j].time == Some(times[j])
    ensures forall j :: 0 <= j < k && CheckpointAt(sc, j) && sc.checkpoint.SignalCheckpoint? ==>
      Log(sc, times, k)[j].status == Some(Warning)
    ensures forall j :: 0 <= j < k && CheckpointAt(sc, j) && sc.checkpoint.EmailCheckpoint? ==>
      Log(sc, times, k)[j].status == Some(Success) && Log(sc, times, k)[j].title == Some(sc.checkpoint.sentTitle)
  {
    LogShape(sc, times, k);
  }

  /** A run blocked at its checkpoint leaves the case "Needs Attention", with the signal step's
      result title or the email step's pending text. */
  lemma BlockedRunStatus(sc: Script, times: seq<string>, c: nat, cases: seq<Case>)
    requires c < |sc.steps| && c < |times| && CheckpointAt(sc, c)
    ensures var t := Trace(sc, times, c) + StepEvents(sc, times, c, false);
      var text := if sc.checkpoint.SignalCheckpoint? then sc.steps[c].titleS else EmailPendingText;
      && t[|t| - 1] == Pushed(NeedsAttention, text)
      && StatusAfter(cases, sc.caseId, t) == SetCaseStatus(cases, sc.caseId, NeedsAttention, text)
  {
    var t := Trace(sc, times, c) + StepEvents(sc, times, c, false);
    assert t[|t| - 1] == StepEvents(sc, times, c, false)[3];
    StatusAfterLastPush(cases, sc.caseId, t, |t| - 1);
  }

  /** `updateProcessLog`: read the case's document (or start from an empty one), upsert the entry by
      id, merge a non-empty key-details update, write the document back. */
  method UpdateProcessLog(srv: Server, caseId: string, entry: Option<LogEntry>, update: map<string, string>)
    modifies srv`caseDocs
    ensures srv.caseDocs == old(srv.caseDocs)[caseId := WriteLog(DocOf(old(srv.caseDocs), caseId), entry, update)]
  {
    var data := DocOf(srv.caseDocs, caseId);
    var logs := data.logs;
    if entry.Some? {
      var e := entry.value;
      var existingIdx := -1;
      if e.id != "" {
        existingIdx := FindLogIndex(logs, e.id);
      }
      if existingIdx != -1 {
        logs := logs[existingIdx := Merge(logs[existingIdx], e)];
      } else {
        logs := logs + [e];
      }
    }
    var keyDetails := data.keyDetails;
    if |update| > 0 {
      keyDetails := keyDetails + update;
    }
    srv.caseDocs := srv.caseDocs[caseId := CaseDoc(logs, keyDetails)];
  }

  /** The `findIndex` over the log by step id. */
  method FindLogIndex(logs: seq<LogEntry>, id: string) returns (k: int)
    ensures k == IndexOfId(logs, id)
  {
    var i := 0;
    while i < |logs| && logs[i].id != id
      invariant 0 <= i <= |logs|
      invariant forall j :: 0 <= j < i ==> logs[j].id != id
    {
      i := i + 1;
    }
    if i < |logs| {
      IndexOfIdIsFirst(logs, id, i);
      k := i;
    } else {
      k := -1;
    }
  }

  /** `updateProcessListStatus`: POST the update to the server when it answers (`online`), otherwise
      patch the case list file directly. Both paths leave the same list. */
  method PushStatus(srv: Server, caseId: string, status: string, text: string, online: bool)
    modifies srv`cases
    ensures srv.cases == SetCaseStatus(old(srv.cases), caseId, status, text)
  {
    if online {
      srv.UpdateStatus(StatusBody(caseId, status, text));
    } else {
      var processes := srv.cases;
      var idx := 0;
      while idx < |processes| && processes[idx].id != caseId
        invariant 0 <= idx <= |processes|
        invariant forall j :: 0 <= j < idx ==> processes[j].id != caseId
      {
        idx := idx + 1;
      }
      if idx < |processes| {
        FindCaseIsFirst(processes, caseId, idx);
        processes := processes[idx := processes[idx].(status := status, currentStatus := text)];
        srv.cases := processes;
      }
    }
  }

  /** A log write to a case whose document is `before` with key details `kd`, recorded. */
  method Write(srv: Server, caseId: string, entry: LogEntry, events: seq<Event>, ghost cases0: seq<Case>,
               ghost docs0: map<string, CaseDoc>, ghost before: seq<LogEntry>, ghost kd: map<string, string>)
    returns (events': seq<Event>)
    requires srv.caseDocs == docs0[caseId := CaseDoc(before, kd)]
    modifies srv`caseDocs
    ensures srv.caseDocs == docs0[caseId := CaseDoc(Upsert(before, entry), kd)]
    ensures events' == events + [Logged(entry)]
    ensures StatusAfter(cases0, caseId, events') == StatusAfter(cases0, caseId, events)
  {
    UpdateProcessLog(srv, caseId, Some(entry), map[]);
    events' := events + [Logged(entry)];
    assert events'[..|events'| - 1] == events;
  }

  /** A status push, recorded. */
  method Push(srv: Server, caseId: string, status: string, text: string, online: bool, events: seq<Event>,
              ghost cases0: seq<Case>)
    returns (events': seq<Event>)
    requires srv.cases == StatusAfter(cases0, caseId, events)
    modifies srv`cases
    ensures events' == events + [Pushed(status, text)]
    ensures srv.cases == StatusAfter(cases0, caseId, events')
  {
    PushStatus(srv, caseId, status, text, online);
    events' := events + [Pushed(status, text)];
    assert events'[..|events'| - 1] == events;
  }

  /** The first write of a run: the case's document replaced by an empty log and the script's key
      details. */
  method WriteInitialDoc(srv: Server, sc: Script)
    modifies srv`caseDocs
    ensures srv.caseDocs == old(srv.caseDocs)[sc.caseId := CaseDoc([], sc.keyDetails)]
  {
    srv.caseDocs := srv.caseDocs[sc.caseId := CaseDoc([], sc.keyDetails)];
  }

  /** One pass of a step loop for a step without a checkpoint: processing entry, "In Progress",
      result entry, result status. */
  method PlainStep(srv: Server, sc: Script, times: seq<string>, i: nat, online: bool, events: seq<Event>,
                   ghost cases0: seq<Case>, ghost docs0: map<string, CaseDoc>)
    returns (events': seq<Event>)
    requires DistinctIds(sc.steps) && i < |sc.steps| && i < |times| && !CheckpointAt(sc, i)
    requires events == Trace(sc, times, i)
    requires srv.caseDocs == docs0[sc.caseId := CaseDoc(Log(sc, times, i), sc.keyDetails)]
    requires srv.cases == StatusAfter(cases0, sc.caseId, events)
    modifies srv`caseDocs, srv`cases
    ensures events' == Trace(sc, times, i + 1)
    ensures srv.caseDocs == docs0[sc.caseId := CaseDoc(Log(sc, times, i + 1), sc.keyDetails)]
    ensures srv.cases == StatusAfter(cases0, sc.caseId, events')
  {
    var step := sc.steps[i];
    var p := ProcessingEntry(step, times[i]);
    var r := ResultEntry(step, step.titleS, ResultStatus(sc, i));
    PlainStepWrites(sc, times, i);
    ghost var log := Log(sc, times, i);
    events' := Write(srv, sc.caseId, p, events, cases0, docs0, log, sc.keyDetails);
    events' := Push(srv, sc.caseId, InProgress, step.titleP, online, events', cases0);
    events' := Write(srv, sc.caseId, r, events', cases0, docs0, Upsert(log, p), sc.keyDetails);
    events' := Push(srv, sc.caseId, PushedStatus(sc, i), step.titleS, online, events', cases0);
  }

  /** The writes of an ordinary step turn the log of the steps before it into the log of one more
      step, and its events extend the trace by that step's events. */
  lemma PlainStepWrites(sc: Script, times: seq<string>, i: nat)
    requires DistinctIds(sc.steps) && i < |sc.steps| && i < |times| && !CheckpointAt(sc, i)
    ensures var step := sc.steps[i];
      var p := ProcessingEntry(step, times[i]);
      var r := ResultEntry(step, step.titleS, ResultStatus(sc, i));
      && Upsert(Upsert(Log(sc, times, i), p), r) == Log(sc, times, i + 1)
      && Trace(sc, times, i + 1) == Trace(sc, times, i) + [Logged(p)] + [Pushed(InProgress, step.titleP)] + [Logged(r)]
                                    + [Pushed(PushedStatus(sc, i), step.titleS)]
  {
    var step := sc.steps[i];
    var p := ProcessingEntry(step, times[i]);
    var r := ResultEntry(step, step.titleS, ResultStatus(sc, i));
    FirstWriteAppends(sc, times, i, p);
    UpsertLast(Log(sc, times, i), p, r);
    PlainStepTrace(sc, times, i, Logged(p), Pushed(InProgress, step.titleP), Logged(r), Pushed(PushedStatus(sc, i), step.titleS));
  }

  /** An ordinary step adds exactly its four events to the trace. */
  lemma PlainStepTrace(sc: Script, times: seq<string>, i: nat, a: Event, b: Event, c: Event, d: Event)
    requires i < |sc.steps| && i < |times| && !CheckpointAt(sc, i)
    requires StepEvents(sc, times, i, true) == [a, b, c, d]
    ensures Trace(sc, times, i + 1) == Trace(sc, times, i) + [a] + [b] + [c] + [d]
  {
    var t := Trace(sc, times, i);
    assert Trace(sc, times, i + 1) == t + [a, b, c, d];
    assert t + [a, b, c, d] == t + [a] + [b] + [c] + [d];
  }

  /** The step loop of the runners without a checkpoint (VND_001, VND_004): each step writes its
      processing entry and pushes "In Progress", then writes its result and pushes its status. */
  method RunPlain(srv: Server, sc: Script, times: seq<string>, online: bool) returns (events: seq<Event>)
    requires WellFormed(sc) && sc.checkpoint.NoCheckpoint? && |sc.steps| <= |times|
    modifies srv`caseDocs, srv`cases
    ensures events == Trace(sc, times, |sc.steps|)
    ensures srv.caseDocs == old(srv.caseDocs)[sc.caseId := CaseDoc(Log(sc, times, |sc.steps|), sc.keyDetails)]
    ensures srv.cases == StatusAfter(old(srv.cases), sc.caseId, events)
    ensures srv.cases == SetCaseStatus(old(srv.cases), sc.caseId, sc.final, sc.steps[|sc.steps| - 1].titleS)
  {
    ghost var cases0 := srv.cases;
    ghost var docs0 := srv.caseDocs;
    WriteInitialDoc(srv, sc);
    events := [];
    for i := 0 to |sc.steps|
      invariant events == Trace(sc, times, i)
      invariant srv.caseDocs == docs0[sc.caseId := CaseDoc(Log(sc, times, i), sc.keyDetails)]
      invariant srv.cases == StatusAfter(cases0, sc.caseId, events)
    {
      events := PlainStep(srv, sc, times, i, online, events, cases0, docs0);
    }
    FinishedRunStatus(sc, times, cases0);
  }
}
