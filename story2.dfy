/**
 * vendor_story_2_needs_attention.cjs: the runner of case VND_002 (Jindal Steel). At step-5 it
 * reports the discrepancies as a warning, leaves the case "Needs Attention" and waits for the
 * APPROVE_REVERIFICATION signal; once approved it pushes "In Progress" again and runs the remaining
 * steps to "Done".
 */
module Story2NeedsAttention {
  import opened Wrappers
  import opened CaseList
  import opened CaseLog
  import opened Signals
  import opened CoordinationServer
  import opened Runner
  import opened SignalWait

  const CaseId := "VND_002"

  /** The key details of the first write. */
  const KeyDetails := map[
    "vendorName" := "Jindal Steel & Power Ltd",
    "gstin" := "04AABCJ1234R1ZP",
    "pan" := "AABCJ1234R",
    "materialCategory" := "Steel & TMT Bars",
    "project" := "Heritage Max, Sector 102, Gurgaon",
    "applicationRef" := "VRF-2025-0203",
    "contactPerson" := "Vikram Singh Rathore"]

  /** The eight steps' ids and titles. */
  const Texts := [
    StepText("step-1", "Receiving vendor registration package...",
             "Vendor registration package received - Jindal Steel & Power"),
    StepText("step-2", "Extracting vendor details from application...",
             "Vendor details extracted - GSTIN, PAN, banking details captured"),
    StepText("step-3", "Validating GSTIN on GST portal...",
             "CRITICAL: GSTIN STATUS SUSPENDED - Address mismatch detected"),
    StepText("step-4", "Running background check on vendor...",
             "Background check: Tax compliance notice found from Nov 2024"),
    StepText("step-5", "Flagging discrepancies for procurement review...",
             "ACTION REQUIRED: GSTIN suspended, address mismatch - Approve manual re-verification or reject?"),
    StepText("step-6", "Initiating manual re-verification with corrected documents...",
             "Re-verification initiated - Vendor providing updated Haryana GSTIN"),
    StepText("step-7", "Re-validating corrected GSTIN...",
             "Corrected GSTIN verified - 06AAHCJ5678R1ZN is ACTIVE in Haryana"),
    StepText("step-8", "Generating conditional approval with review terms...",
             "Conditional approval granted - 90-day probationary period with quarterly review")]

  /** The script, with the narrative given for each step: it stops at step-5 for the signal. */
  function Story(n: seq<Narrative>): Script
    requires |n| == |Texts|
  {
    Script(CaseId, Attach(Texts, n), KeyDetails, "Done", SignalCheckpoint("step-5", ApproveReverification))
  }

  /** The step ids are distinct and none is empty. */
  lemma TextsDistinct()
    ensures |Texts| == 8
    ensures forall j :: 0 <= j < |Texts| ==> Texts[j].id != ""
    ensures forall i, j :: 0 <= i < j < |Texts| ==> Texts[i].id != Texts[j].id
  {
  }

  /** The script is well formed, and its checkpoint is the fifth step. */
  lemma StoryWellFormed(n: seq<Narrative>)
    requires |n| == |Texts|
    ensures WellFormed(Story(n)) && |Story(n).steps| == |n|
    ensures CheckpointAt(Story(n), 4)
  {
    TextsDistinct();
    AttachDistinct(Texts, n);
  }

  /** The events of a signal checkpoint: processing entry, "In Progress", the warning, "Needs
      Attention", and once resumed "In Progress" with the approval text. */
  lemma SignalStepTrace(sc: Script, times: seq<string>, i: nat, t: seq<Event>)
    requires i < |sc.steps| && i < |times| && CheckpointAt(sc, i) && sc.checkpoint.SignalCheckpoint?
    ensures var s := sc.steps[i];
      var a := Logged(ProcessingEntry(s, times[i]));
      var b := Pushed(InProgress, s.titleP);
      var c := Logged(ResultEntry(s, s.titleS, Warning));
      var d := Pushed(NeedsAttention, s.titleS);
      && t + StepEvents(sc, times, i, false) == t + [a] + [b] + [c] + [d]
      && t + StepEvents(sc, times, i, true) == t + [a] + [b] + [c] + [d] + [Pushed(InProgress, ApprovedText)]
  {
  }

  /** The two writes of a signal checkpoint add its entry to the log, the same whether or not the
      run is resumed later. */
  lemma SignalStepWrites(sc: Script, times: seq<string>, i: nat)
    requires DistinctIds(sc.steps) && i < |sc.steps| && i < |times| && CheckpointAt(sc, i)
    requires sc.checkpoint.SignalCheckpoint?
    ensures var s := sc.steps[i];
      var log := Log(sc, times, i);
      var p := ProcessingEntry(s, times[i]);
      var w := ResultEntry(s, s.titleS, Warning);
      && Upsert(Upsert(log, p), w) == log + [StepEntry(sc, times, i, false)]
      && StepEntry(sc, times, i, false) == StepEntry(sc, times, i, true)
  {
    var s := sc.steps[i];
    var p := ProcessingEntry(s, times[i]);
    FirstWriteAppends(sc, times, i, p);
    UpsertLast(Log(sc, times, i), p, ResultEntry(s, s.titleS, Warning));
  }

  /** One pass of the step loop at the signal checkpoint. */
  method SignalStep(srv: Server, sc: Script, times: seq<string>, i: nat, online: bool, env: seq<SignalEnv>,
                    events: seq<Event>, ghost cases0: seq<Case>, ghost docs0: map<string, CaseDoc>)
    returns (events': seq<Event>, resumed: bool)
    requires DistinctIds(sc.steps) && i < |sc.steps| && i < |times| && CheckpointAt(sc, i)
    requires sc.checkpoint.SignalCheckpoint?
    requires events == Trace(sc, times, i)
    requires srv.caseDocs == docs0[sc.caseId := CaseDoc(Log(sc, times, i), sc.keyDetails)]
    requires srv.cases == StatusAfter(cases0, sc.caseId, events)
    modifies srv`caseDocs, srv`cases, srv`signalFile
    ensures var w := WaitFrom(old(srv.signalFile), sc.checkpoint.signal, env, 0, true);
      srv.signalFile == w.0 && resumed == w.1.Some?
    ensures events' == Trace(sc, times, i) + StepEvents(sc, times, i, resumed)
    ensures srv.caseDocs == docs0[sc.caseId := CaseDoc(Log(sc, times, i) + [StepEntry(sc, times, i, resumed)], sc.keyDetails)]
    ensures srv.cases == StatusAfter(cases0, sc.caseId, events')
  {
    var step := sc.steps[i];
    var p := ProcessingEntry(step, times[i]);
    var w := ResultEntry(step, step.titleS, Warning);
    SignalStepWrites(sc, times, i);
    SignalStepTrace(sc, times, i, events);
    ghost var log := Log(sc, times, i);
    events' := Write(srv, sc.caseId, p, events, cases0, docs0, log, sc.keyDetails);
    events' := Push(srv, sc.caseId, InProgress, step.titleP, online, events', cases0);
    events' := Write(srv, sc.caseId, w, events', cases0, docs0, Upsert(log, p), sc.keyDetails);
    events' := Push(srv, sc.caseId, NeedsAttention, step.titleS, online, events', cases0);
    var taken := WaitForSignal(srv, sc.checkpoint.signal, env);
    resumed := taken.Some?;
    if resumed {
      events' := Push(srv, sc.caseId, InProgress, ApprovedText, online, events', cases0);
    }
  }

  /** The step loop of a script with a signal checkpoint at step `c`. Either the wait took the
      signal and the run completed, or the run is still blocked at the checkpoint, with the
      checkpoint's warning as the last entry of the log and the case "Needs Attention". */
  method RunWithSignal(srv: Server, sc: Script, times: seq<string>, online: bool, env: seq<SignalEnv>, ghost c: nat)
    returns (events: seq<Event>, blocked: bool)
    requires WellFormed(sc) && |sc.steps| <= |times| && sc.checkpoint.SignalCheckpoint?
    requires c < |sc.steps| && CheckpointAt(sc, c)
    modifies srv`caseDocs, srv`cases, srv`signalFile
    ensures var w := WaitFrom(old(srv.signalFile), sc.checkpoint.signal, env, 0, true);
      srv.signalFile == w.0 && (blocked <==> w.1.None?)
    ensures srv.cases == StatusAfter(old(srv.cases), sc.caseId, events)
    ensures !blocked ==>
      && events == Trace(sc, times, |sc.steps|)
      && srv.caseDocs == old(srv.caseDocs)[sc.caseId := CaseDoc(Log(sc, times, |sc.steps|), sc.keyDetails)]
      && srv.cases == SetCaseStatus(old(srv.cases), sc.caseId, sc.final, sc.steps[|sc.steps| - 1].titleS)
    ensures blocked ==>
      && events == Trace(sc, times, c) + StepEvents(sc, times, c, false)
      && srv.caseDocs == old(srv.caseDocs)[sc.caseId := CaseDoc(Log(sc, times, c) + [StepEntry(sc, times, c, false)], sc.keyDetails)]
      && srv.cases == SetCaseStatus(old(srv.cases), sc.caseId, NeedsAttention, sc.steps[c].titleS)
  {
    ghost var cases0 := srv.cases;
    ghost var docs0 := srv.caseDocs;
    ghost var file0 := srv.signalFile;
    ghost var w := WaitFrom(file0, sc.checkpoint.signal, env, 0, true);
    WriteInitialDoc(srv, sc);
    events := [];
    blocked := false;
    for i := 0 to |sc.steps|
      invariant events == Trace(sc, times, i)
      invariant srv.caseDocs == docs0[sc.caseId := CaseDoc(Log(sc, times, i), sc.keyDetails)]
      invariant srv.cases == StatusAfter(cases0, sc.caseId, events)
      invariant i <= c ==> srv.signalFile == file0
      invariant i > c ==> srv.signalFile == w.0 && w.1.Some?
    {
      CheckpointUnique(sc, i, c);
      if CheckpointAt(sc, i) {
        var resumed;
        events, resumed := SignalStep(srv, sc, times, i, online, env, events, cases0, docs0);
        if !resumed {
          blocked := true;
          assert srv.cases == SetCaseStatus(cases0, sc.caseId, NeedsAttention, sc.steps[c].titleS) by {
            BlockedRunStatus(sc, times, c, cases0);
          }
          return;
        }
      } else {
        events := PlainStep(srv, sc, times, i, online, events, cases0, docs0);
      }
    }
    assert srv.cases == SetCaseStatus(cases0, sc.caseId, sc.final, sc.steps[|sc.steps| - 1].titleS) by {
      FinishedRunStatus(sc, times, cases0);
    }
  }

  /** The runner's main loop for VND_002: `env` is what other parties do to the signal file while
      the runner waits at step-5. */
  method Run(srv: Server, n: seq<Narrative>, times: seq<string>, online: bool, env: seq<SignalEnv>)
    returns (events: seq<Event>, blocked: bool)
    requires |n| == |Texts| <= |times|
    modifies srv`caseDocs, srv`cases, srv`signalFile
    ensures var w := WaitFrom(old(srv.signalFile), ApproveReverification, env, 0, true);
      srv.signalFile == w.0 && (blocked <==> w.1.None?)
    ensures !blocked ==>
      && events == Trace(Story(n), times, |n|)
      && srv.caseDocs == old(srv.caseDocs)[CaseId := CaseDoc(Log(Story(n), times, |n|), KeyDetails)]
      && srv.cases == SetCaseStatus(old(srv.cases), CaseId, "Done", Texts[7].titleS)
    ensures blocked ==>
      && events == Trace(Story(n), times, 4) + StepEvents(Story(n), times, 4, false)
      && srv.caseDocs == old(srv.caseDocs)[CaseId := CaseDoc(Log(Story(n), times, 4) + [StepEntry(Story(n), times, 4, false)], KeyDetails)]
      && srv.cases == SetCaseStatus(old(srv.cases), CaseId, NeedsAttention, Texts[4].titleS)
  {
    StoryWellFormed(n);
    events, blocked := RunWithSignal(srv, Story(n), times, online, env, 4);
  }
}
