/**
 * vendor_story_3_needs_attention.cjs: the runner of case VND_003 (Daikin India). At step-7 it logs
 * the drafted email as a warning, leaves the case "Needs Attention" with "Draft Review: Email
 * Pending" and waits until the email is reported sent; then the step becomes a success under the
 * sent title and the run goes on to "Done".
 */
module Story3NeedsAttention {
  import opened Wrappers
  import opened CaseList
  import opened CaseLog
  import opened CoordinationServer
  import opened Runner
  import opened EmailWait

  const CaseId := "VND_003"

  /** The key details of the first write. */
  const KeyDetails := map[
    "vendorName" := "Daikin Airconditioning India Pvt Ltd",
    "gstin" := "06AABCD4567R1ZK",
    "pan" := "AABCD4567R",
    "materialCategory" := "HVAC Systems",
    "project" := "PARQ, Sector 80, Gurgaon",
    "applicationRef" := "CRF-2025-0089",
    "contactPerson" := "Amit Deshmukh",
    "contractValue" := "Rs. 15 Crore"]

  /** The eight steps' ids and titles. */
  const Texts := [
    StepText("step-1", "Receiving contractor registration package...",
             "Contractor registration received - Daikin Airconditioning India"),
    StepText("step-2", "Extracting contractor details from application...",
             "Contractor details extracted - License, insurance, capacity captured"),
    StepText("step-3", "Validating GSTIN on GST portal...",
             "GSTIN verified - Status: ACTIVE, Haryana registration confirmed"),
    StepText("step-4", "Verifying contractor license...",
             "License verified - Class A HVAC Contractor, valid Haryana PWD license"),
    StepText("step-5", "Checking Certificate of Insurance...",
             "CRITICAL: Insurance EXPIRED - COI lapsed 3 months ago (Sep 30, 2024)"),
    StepText("step-6", "Assessing risk exposure from insurance gap...",
             "Risk assessment: High liability exposure on Rs. 15 Cr contract without insurance"),
    StepText("step-7", "Drafting email to vendor requesting updated insurance...",
             "Email drafted - Review and send request for updated Certificate of Insurance"),
    StepText("step-8", "Logging follow-up task with 7-day SLA...",
             "Follow-up task created - SLA: January 24, 2025, vendor status: Pending Documents")]

  /** The title step-7 takes once the email went out. */
  const SentTitle := "Email sent to Daikin requesting updated insurance"

  /** The script, with the narrative given for each step; `warnTime` is the clock reading of the
      warning write at step-7. */
  function Story(n: seq<Narrative>, warnTime: string): Script
    requires |n| == |Texts|
  {
    Script(CaseId, Attach(Texts, n), KeyDetails, "Done", EmailCheckpoint("step-7", SentTitle, warnTime))
  }

  /** The step ids are distinct and none is empty. */
  lemma TextsDistinct()
    ensures |Texts| == 8
    ensures forall j :: 0 <= j < |Texts| ==> Texts[j].id != ""
    ensures forall i, j :: 0 <= i < j < |Texts| ==> Texts[i].id != Texts[j].id
  {
  }

  /** The script is well formed, and its checkpoint is the seventh step. */
  lemma StoryWellFormed(n: seq<Narrative>, warnTime: string)
    requires |n| == |Texts|
    ensures WellFormed(Story(n, warnTime)) && |Story(n, warnTime).steps| == |n|
    ensures CheckpointAt(Story(n, warnTime), 6)
  {
    TextsDistinct();
    AttachDistinct(Texts, n);
  }

  /** The events of an email checkpoint: processing entry, "In Progress", the warning with its own
      time, "Needs Attention" with the pending text, and once resumed the success under the sent
      title and "In Progress" with the sent text. */
  lemma EmailStepTrace(sc: Script, times: seq<string>, i: nat, t: seq<Event>)
    requires i < |sc.steps| && i < |times| && CheckpointAt(sc, i) && sc.checkpoint.EmailCheckpoint?
    ensures var s := sc.steps[i];
      var a := Logged(ProcessingEntry(s, times[i]));
      var b := Pushed(InProgress, s.titleP);
      var c := Logged(ResultEntry(s, s.titleS, Warning).(time := Some(sc.checkpoint.warnTime)));
      var d := Pushed(NeedsAttention, EmailPendingText);
      var e := Logged(ResultEntry(s, sc.checkpoint.sentTitle, Success));
      && t + StepEvents(sc, times, i, false) == t + [a] + [b] + [c] + [d]
      && t + StepEvents(sc, times, i, true) == t + [a] + [b] + [c] + [d] + [e] + [Pushed(InProgress, EmailSentText)]
      && t + StepEvents(sc, times, i, true) == t + StepEvents(sc, times, i, false) + [e] + [Pushed(InProgress, EmailSentText)]
  {
  }

  /** The writes of an email checkpoint add one entry to the log: the warning while blocked, the
      success under the sent title once resumed. */
  lemma EmailStepWrites(sc: Script, times: seq<string>, i: nat)
    requires DistinctIds(sc.steps) && i < |sc.steps| && i < |times| && CheckpointAt(sc, i)
    requires sc.checkpoint.EmailCheckpoint?
    ensures var s := sc.steps[i];
      var log := Log(sc, times, i);
      var p := ProcessingEntry(s, times[i]);
      var w := ResultEntry(s, s.titleS, Warning).(time := Some(sc.checkpoint.warnTime));
      var r := ResultEntry(s, sc.checkpoint.sentTitle, Success);
      && Upsert(Upsert(log, p), w) == log + [StepEntry(sc, times, i, false)]
      && Upsert(log + [StepEntry(sc, times, i, false)], r) == log + [StepEntry(sc, times, i, true)]
  {
    var s := sc.steps[i];
    var log := Log(sc, times, i);
    var p := ProcessingEntry(s, times[i]);
    var w := ResultEntry(s, s.titleS, Warning).(time := Some(sc.checkpoint.warnTime));
    FirstWriteAppends(sc, times, i, p);
    UpsertLast(log, p, w);
    UpsertLast(log, Merge(p, w), ResultEntry(s, sc.checkpoint.sentTitle, Success));
  }

  /** The writes and pushes of the email checkpoint before the wait. */
  method EmailStepHead(srv: Server, sc: Script, times: seq<string>, i: nat, online: bool,
                       events: seq<Event>, ghost cases0: seq<Case>, ghost docs0: map<string, CaseDoc>)
    returns (events': seq<Event>)
    requires DistinctIds(sc.steps) && i < |sc.steps| && i < |times| && CheckpointAt(sc, i)
    requires sc.checkpoint.EmailCheckpoint?
    requires events == Trace(sc, times, i)
    requires srv.caseDocs == docs0[sc.caseId := CaseDoc(Log(sc, times, i), sc.keyDetails)]
    requires srv.cases == StatusAfter(cases0, sc.caseId, events)
    modifies srv`caseDocs, srv`cases
    ensures events' == Trace(sc, times, i) + StepEvents(sc, times, i, false)
    ensures srv.caseDocs == docs0[sc.caseId := CaseDoc(Log(sc, times, i) + [StepEntry(sc, times, i, false)], sc.keyDetails)]
    ensures srv.cases == StatusAfter(cases0, sc.caseId, events')
  {
    var step := sc.steps[i];
    var p := ProcessingEntry(step, times[i]);
    var w := ResultEntry(step, step.titleS, Warning).(time := Some(sc.checkpoint.warnTime));
    EmailStepWrites(sc, times, i);
    EmailStepTrace(sc, times, i, events);
    ghost var log := Log(sc, times, i);
    events' := Write(srv, sc.caseId, p, events, cases0, docs0, log, sc.keyDetails);
    events' := Push(srv, sc.caseId, InProgress, step.titleP, online, events', cases0);
    events' := Write(srv, sc.caseId, w, events', cases0, docs0, Upsert(log, p), sc.keyDetails);
    events' := Push(srv, sc.caseId, NeedsAttention, EmailPendingText, online, events', cases0);
  }

  /** The write and push of the email checkpoint once the email went out. */
  method EmailStepTail(srv: Server, sc: Script, times: seq<string>, i: nat, online: bool,
                       events: seq<Event>, ghost cases0: seq<Case>, ghost docs0: map<string, CaseDoc>)
    returns (events': seq<Event>)
    requires DistinctIds(sc.steps) && i < |sc.steps| && i < |times| && CheckpointAt(sc, i)
    requires sc.checkpoint.EmailCheckpoint?
    requires events == Trace(sc, times, i) + StepEvents(sc, times, i, false)
    requires srv.caseDocs == docs0[sc.caseId := CaseDoc(Log(sc, times, i) + [StepEntry(sc, times, i, false)], sc.keyDetails)]
    requires srv.cases == StatusAfter(cases0, sc.caseId, events)
    modifies srv`caseDocs, srv`cases
    ensures events' == Trace(sc, times, i) + StepEvents(sc, times, i, true)
    ensures srv.caseDocs == docs0[sc.caseId := CaseDoc(Log(sc, times, i) + [StepEntry(sc, times, i, true)], sc.keyDetails)]
    ensures srv.cases == StatusAfter(cases0, sc.caseId, events')
  {
    var r := ResultEntry(sc.steps[i], sc.checkpoint.sentTitle, Success);
    ghost var log := Log(sc, times, i);
    ghost var t := Trace(sc, times, i);
    assert Upsert(log + [StepEntry(sc, times, i, false)], r) == log + [StepEntry(sc, times, i, true)] by {
      EmailStepWrites(sc, times, i);
    }
    assert t + StepEvents(sc, times, i, true) == t + StepEvents(sc, times, i, false) + [Logged(r)] + [Pushed(InProgress, EmailSentText)] by {
      EmailStepTrace(sc, times, i, t);
    }
    events' := Write(srv, sc.caseId, r, events, cases0, docs0, Log(sc, times, i) + [StepEntry(sc, times, i, false)], sc.keyDetails);
    events' := Push(srv, sc.caseId, InProgress, EmailSentText, online, events', cases0);
  }

  /** One pass of the step loop at the email checkpoint. */
  method EmailStep(srv: Server, sc: Script, times: seq<string>, i: nat, online: bool, resetDelivered: bool,
                   env: seq<EmailEnv>, events: seq<Event>, ghost cases0: seq<Case>, ghost docs0: map<string, CaseDoc>)
    returns (events': seq<Event>, resumed: bool)
    requires DistinctIds(sc.steps) && i < |sc.steps| && i < |times| && CheckpointAt(sc, i)
    requires sc.checkpoint.EmailCheckpoint?
    requires events == Trace(sc, times, i)
    requires srv.caseDocs == docs0[sc.caseId := CaseDoc(Log(sc, times, i), sc.keyDetails)]
    requires srv.cases == StatusAfter(cases0, sc.caseId, events)
    modifies srv`caseDocs, srv`cases, srv`sent
    ensures var w := EmailWaitFrom(StartFlag(old(srv.sent), resetDelivered), env, 0);
      srv.sent == w.0 && resumed == w.1.Some?
    ensures events' == Trace(sc, times, i) + StepEvents(sc, times, i, resumed)
    ensures srv.caseDocs == docs0[sc.caseId := CaseDoc(Log(sc, times, i) + [StepEntry(sc, times, i, resumed)], sc.keyDetails)]
    ensures srv.cases == StatusAfter(cases0, sc.caseId, events')
  {
    events' := EmailStepHead(srv, sc, times, i, online, events, cases0, docs0);
    var taken := WaitForEmail(srv, resetDelivered, env);
    resumed := taken.Some?;
    if resumed {
      events' := EmailStepTail(srv, sc, times, i, online, events', cases0, docs0);
    }
  }

  /** The step loop of a script with an email checkpoint at step `c`. Either the email was reported
      sent and the run completed, or the run is still blocked at the checkpoint, with the warning as
      the last log entry and the case "Needs Attention" with the pending text. */
  method RunWithEmail(srv: Server, sc: Script, times: seq<string>, online: bool, resetDelivered: bool,
                      env: seq<EmailEnv>, ghost c: nat)
    returns (events: seq<Event>, blocked: bool)
    requires WellFormed(sc) && |sc.steps| <= |times| && sc.checkpoint.EmailCheckpoint?
    requires c < |sc.steps| && CheckpointAt(sc, c)
    modifies srv`caseDocs, srv`cases, srv`sent
    ensures var w := EmailWaitFrom(StartFlag(old(srv.sent), resetDelivered), env, 0);
      srv.sent == w.0 && (blocked <==> w.1.None?)
    ensures srv.cases == StatusAfter(old(srv.cases), sc.caseId, events)
    ensures !blocked ==>
      && events == Trace(sc, times, |sc.steps|)
      && srv.caseDocs == old(srv.caseDocs)[sc.caseId := CaseDoc(Log(sc, times, |sc.steps|), sc.keyDetails)]
      && srv.cases == SetCaseStatus(old(srv.cases), sc.caseId, sc.final, sc.steps[|sc.steps| - 1].titleS)
    ensures blocked ==>
      && events == Trace(sc, times, c) + StepEvents(sc, times, c, false)
      && srv.caseDocs == old(srv.caseDocs)[sc.caseId := CaseDoc(Log(sc, times, c) + [StepEntry(sc, times, c, false)], sc.keyDetails)]
      && srv.cases == SetCaseStatus(old(srv.cases), sc.caseId, NeedsAttention, EmailPendingText)
  {
    ghost var cases0 := srv.cases;
    ghost var docs0 := srv.caseDocs;
    ghost var sent0 := srv.sent;
    ghost var w := EmailWaitFrom(StartFlag(sent0, resetDelivered), env, 0);
    WriteInitialDoc(srv, sc);
    events := [];
    blocked := false;
    for i := 0 to |sc.steps|
      invariant events == Trace(sc, times, i)
      invariant srv.caseDocs == docs0[sc.caseId := CaseDoc(Log(sc, times, i), sc.keyDetails)]
      invariant srv.cases == StatusAfter(cases0, sc.caseId, events)
      invariant i <= c ==> srv.sent == sent0
      invariant i > c ==> srv.sent == w.0 && w.1.Some?
    {
      if CheckpointAt(sc, i) {
        assert i == c by { CheckpointUnique(sc, i, c); }
        var resumed;
        events, resumed := EmailStep(srv, sc, times, i, online, resetDelivered, env, events, cases0, docs0);
        if !resumed {
          blocked := true;
          assert srv.cases == SetCaseStatus(cases0, sc.caseId, NeedsAttention, EmailPendingText) by {
            BlockedRunStatus(sc, times, c, cases0);
          }
          return;
        }
      } else {
        events := PlainStep(srv, sc, times, i, online, events, cases0, docs0);
      }
    }
    assert srv.cases == SetCaseStatus(cases0, sc.caseId, sc.final, sc.steps[|sc.steps| - 1].titleS) by {
      FinishedRunStatus(sc, times, cases0);
    }
  }

  /** The runner's main loop for VND_003: `resetDelivered` says whether the runner's reset of the
      email flag reached the server, and `env` is what happens before each poll. */
  method Run(srv: Server, n: seq<Narrative>, times: seq<string>, warnTime: string, online: bool,
             resetDelivered: bool, env: seq<EmailEnv>)
    returns (events: seq<Event>, blocked: bool)
    requires |n| == |Texts| <= |times|
    modifies srv`caseDocs, srv`cases, srv`sent
    ensures var w := EmailWaitFrom(StartFlag(old(srv.sent), resetDelivered), env, 0);
      srv.sent == w.0 && (blocked <==> w.1.None?)
    ensures !blocked ==>
      && events == Trace(Story(n, warnTime), times, |n|)
      && srv.caseDocs == old(srv.caseDocs)[CaseId := CaseDoc(Log(Story(n, warnTime), times, |n|), KeyDetails)]
      && srv.cases == SetCaseStatus(old(srv.cases), CaseId, "Done", Texts[7].titleS)
    ensures blocked ==>
      && events == Trace(Story(n, warnTime), times, 6) + StepEvents(Story(n, warnTime), times, 6, false)
      && srv.caseDocs == old(srv.caseDocs)[CaseId := CaseDoc(Log(Story(n, warnTime), times, 6)
                                                               + [StepEntry(Story(n, warnTime), times, 6, false)], KeyDetails)]
      && srv.cases == SetCaseStatus(old(srv.cases), CaseId, NeedsAttention, EmailPendingText)
  {
    StoryWellFormed(n, warnTime);
    events, blocked := RunWithEmail(srv, Story(n, warnTime), times, online, resetDelivered, env, 6);
  }
}
