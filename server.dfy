/**
 * The coordination server (interaction-server.cjs): the shared documents it owns and the HTTP
 * handlers that read, change and rewrite them. Each handler is one atomic state step.
 */
module CoordinationServer {
  import opened Wrappers
  import opened CaseList
  import opened CaseLog
  import opened Signals
  import opened Knowledge
  import opened JsText

  /** A runner the reset schedules: its script, the case it drives and its start offset. */
  datatype Launch = Launch(script: string, caseId: string, delaySeconds: nat)

  /** The body of POST /email-status: unparsable, or an object whose `sent` may be missing. */
  datatype EmailBody = EmailMalformed | EmailBody(sent: Option<bool>)

  /** The body of POST /signal: unparsable, or an object whose `signal` may be missing. */
  datatype SignalBody = SignalMalformed | SignalBody(signal: Option<string>)

  /** The body of POST /api/update-status. */
  datatype StatusBody = StatusMalformed | StatusBody(id: string, status: string, currentStatus: string)

  /** The answer of POST /api/feedback/apply: HTTP 500 with an error, or success with the new text. */
  datatype ApplyResult = ApplyFailed(error: string) | ApplyOk(content: string)

  const FixtureIds := ["VND_001", "VND_002", "VND_003", "VND_004"]

  /** What the fixture fixes about one case; the date and both statuses are set by the reset. */
  datatype Fixture = Fixture(id: string, name: string, stockId: string, vendorName: string,
                             materialCategory: string, project: string)

  const UltraTech := Fixture("VND_001", "UltraTech Cement - Cement Supplier Registration", "VRF-2025-0187",
                             "UltraTech Cement Ltd", "Cement & Concrete", "Elaira Residences, Sector 80")
  const Jindal := Fixture("VND_002", "Jindal Steel - TMT Bar Supplier Registration", "VRF-2025-0203",
                          "Jindal Steel & Power Ltd", "Steel & TMT Bars", "Heritage Max, Sector 102")
  const Daikin := Fixture("VND_003", "Daikin India - HVAC Contractor Registration", "CRF-2025-0089",
                          "Daikin Airconditioning India", "HVAC Systems", "PARQ, Sector 80")
  const DesignCraft := Fixture("VND_004", "DesignCraft Interiors - Interior Fit-out Registration", "VRF-2025-0215",
                               "DesignCraft Interiors Pvt Ltd", "Interior Design & Fit-out", "Goa Luxury Villas, Candolim")

  /** One fixture case as the reset writes it. */
  function FixtureCase(f: Fixture, today: string): Case
  {
    Case(f.id, f.name, "Vendor Onboarding", f.stockId, today, "In Progress", "Initializing...",
         f.vendorName, f.materialCategory, f.project)
  }

  /** The four cases a reset writes, stamped with the reset's date. */
  function FixtureCases(today: string): seq<Case>
  {
    [FixtureCase(UltraTech, today), FixtureCase(Jindal, today), FixtureCase(Daikin, today),
     FixtureCase(DesignCraft, today)]
  }

  /** The fixture holds one case per fixture id, each freshly in progress and stamped with the date. */
  lemma FixtureCasesShape(today: string)
    ensures var r := FixtureCases(today);
      && |r| == 4
      && (forall j :: 0 <= j < 4 ==> r[j].id == FixtureIds[j])
      && (forall j :: 0 <= j < 4 ==>
            r[j].status == "In Progress" && r[j].currentStatus == "Initializing..." && r[j].year == today)
  {
  }

  const RunnerScripts := [
    ("vendor_story_1_happy_path.cjs", "VND_001"),
    ("vendor_story_2_needs_attention.cjs", "VND_002"),
    ("vendor_story_3_needs_attention.cjs", "VND_003"),
    ("vendor_story_4_needs_review.cjs", "VND_004")]

  /** Scheduling with a running offset that grows by two seconds per script. */
  function Schedule(scripts: seq<(string, string)>, offset: nat): (r: seq<Launch>)
    ensures |r| == |scripts|
    ensures forall j :: 0 <= j < |r| ==>
      r[j] == Launch(scripts[j].0, scripts[j].1, offset + 2 * j)
  {
    if scripts == [] then []
    else [Launch(scripts[0].0, scripts[0].1, offset)] + Schedule(scripts[1..], offset + 2)
  }

  /** The runners start at 0, 2, 4 and 6 seconds, each on its own case. */
  lemma FixtureSchedule()
    ensures var l := Schedule(RunnerScripts, 0);
      |l| == 4 && l[0].delaySeconds == 0 && l[1].delaySeconds == 2 && l[2].delaySeconds == 4
      && l[3].delaySeconds == 6
      && forall j :: 0 <= j < 4 ==> l[j].caseId == FixtureIds[j]
  {
  }

  /** Every fixture case's document emptied; documents of other cases kept. */
  function ResetDocs(docs: map<string, CaseDoc>): (r: map<string, CaseDoc>)
    ensures forall id :: id in r <==> id in docs || id in FixtureIds
    ensures forall id :: id in FixtureIds ==> id in r && r[id] == EmptyDoc
    ensures forall id :: id in docs && id !in FixtureIds ==> r[id] == docs[id]
  {
    docs["VND_001" := EmptyDoc]["VND_002" := EmptyDoc]["VND_003" := EmptyDoc]["VND_004" := EmptyDoc]
  }

  /** The sanitised ISO timestamp used in snapshot names: `:` and `.` become `-`. */
  function FileStamp(now: string): (r: string)
    ensures |r| == |now|
    ensures forall j :: 0 <= j < |r| ==> r[j] == (if now[j] == ':' || now[j] == '.' then '-' else now[j])
    ensures forall j :: 0 <= j < |r| ==> r[j] != ':' && r[j] != '.'
  {
    if now == [] then []
    else [if now[0] == ':' || now[0] == '.' then '-' else now[0]] + FileStamp(now[1..])
  }

  /** The email flag after a POST /email-status: the body's value replaces it (a missing value reads
      as false); an unparsable body leaves it alone. */
  function EmailAfterPost(sent: bool, body: EmailBody): (r: bool)
    ensures body.EmailMalformed? ==> r == sent
    ensures body.EmailBody? ==> (r <==> body.sent == Some(true))
  {
    if body.EmailBody? then body.sent == Some(true) else sent
  }

  class Server {
    /** The in-memory email flag. */
    var sent: bool
    /** interaction-signals.json */
    var signalFile: SignalFile
    /** processes.json */
    var cases: seq<Case>
    /** process_<id>.json, keyed by case id. */
    var caseDocs: map<string, CaseDoc>
    /** feedbackQueue.json */
    var queue: seq<FeedbackItem>
    /** kbVersions.json */
    var versions: seq<Version>
    /** The snapshot directory: file name to content. */
    var snapshots: map<string, string>
    /** The live knowledge-base text. */
    var kb: string
    /** The runners the last reset scheduled. */
    var launches: seq<Launch>

    /** The version index is numbered 1..n. */
    ghost predicate Valid()
      reads this`versions
    {
      Numbered(versions)
    }

    /** Start-up on a fresh data directory: the signal file and the two empty lists are created. */
    constructor(initialCases: seq<Case>, initialKb: string)
      ensures Valid()
      ensures !sent && signalFile == InitialSignals && cases == initialCases && caseDocs == map[]
      ensures queue == [] && versions == [] && snapshots == map[] && kb == initialKb && launches == []
    {
      sent := false;
      signalFile := InitialSignals;
      cases := initialCases;
      caseDocs := map[];
      queue := [];
      versions := [];
      snapshots := map[];
      kb := initialKb;
      launches := [];
    }

    /** /reset: every document back to its fixture and the four runners scheduled; the knowledge base
        and its snapshots are not touched. */
    method Reset(today: string)
      modifies this`sent, this`signalFile, this`cases, this`caseDocs, this`queue, this`versions, this`launches
      ensures Valid()
      ensures !sent && signalFile == InitialSignals
      ensures cases == FixtureCases(today)
      ensures queue == [] && versions == []
      ensures caseDocs == ResetDocs(old(caseDocs))
      ensures launches == Schedule(RunnerScripts, 0)
    {
      sent := false;
      signalFile := InitialSignals;
      SetFixtureCases(today);
      queue := [];
      versions := [];
      LaunchRunners();
      ClearFixtureDocs();
    }

    /** The launch half of the reset. */
    method LaunchRunners()
      modifies this`launches
      ensures launches == Schedule(RunnerScripts, 0)
    {
      launches := ScheduleRunners(RunnerScripts);
    }

    /** The case-list half of the reset. */
    method SetFixtureCases(today: string)
      modifies this`cases
      ensures cases == FixtureCases(today)
    {
      cases := FixtureCases(today);
    }

    /** The log-document half of the reset. */
    method ClearFixtureDocs()
      modifies this`caseDocs
      ensures caseDocs == ResetDocs(old(caseDocs))
    {
      caseDocs := ResetDocs(caseDocs);
    }

    /** GET /email-status. */
    method EmailStatusGet() returns (s: bool)
      ensures s == sent
    {
      s := sent;
    }

    /** POST /email-status. */
    method EmailStatusPost(body: EmailBody)
      modifies this`sent
      ensures sent == EmailAfterPost(old(sent), body)
    {
      if body.EmailBody? {
        sent := body.sent == Some(true);
      }
    }

    /** POST /signal: assert the named flag; a body without a name asserts the key "undefined". */
    method Signal(body: SignalBody)
      modifies this`signalFile
      ensures body.SignalMalformed? ==> signalFile == old(signalFile)
      ensures body.SignalBody? ==>
        signalFile == AssertSignal(old(signalFile), if body.signal.Some? then body.signal.value else "undefined")
    {
      if body.SignalBody? {
        var name := if body.signal.Some? then body.signal.value else "undefined";
        signalFile := AssertSignal(signalFile, name);
      }
    }

    /** GET /signal-status: the flags on file, or none when the file cannot be read. */
    method SignalStatus() returns (m: map<string, bool>)
      ensures m == Readable(signalFile)
    {
      m := Readable(signalFile);
    }

    /** POST /api/update-status: the first case with the id takes the two status fields. */
    method UpdateStatus(body: StatusBody)
      modifies this`cases
      ensures body.StatusMalformed? ==> cases == old(cases)
      ensures body.StatusBody? ==> cases == SetCaseStatus(old(cases), body.id, body.status, body.currentStatus)
    {
      if body.StatusBody? {
        var idx := 0;
        while idx < |cases| && cases[idx].id != body.id
          invariant 0 <= idx <= |cases|
          invariant forall j :: 0 <= j < idx ==> cases[j].id != body.id
        {
          idx := idx + 1;
        }
        if idx < |cases| {
          FindCaseIsFirst(cases, body.id, idx);
          cases := cases[idx := cases[idx].(status := body.status, currentStatus := body.currentStatus)];
        }
      }
    }

    /** GET /api/feedback/queue. */
    method QueueGet() returns (q: seq<FeedbackItem>)
      ensures q == queue
    {
      q := queue;
    }

    /** POST /api/feedback/queue: one item appended, stamped pending; unparsable bodies are dropped. */
    method QueuePost(item: Option<FeedbackItem>, now: string)
      modifies this`queue
      ensures item.None? ==> queue == old(queue)
      ensures item.Some? ==> queue == old(queue) + [Queued(item.value, now)]
    {
      if item.Some? {
        queue := queue + [Queued(item.value, now)];
      }
    }

    /** DELETE /api/feedback/queue/<segment>: every item whose id is the last path segment goes. */
    method QueueDelete(segment: string)
      modifies this`queue
      ensures queue == WithoutId(old(queue), Some(segment))
    {
      queue := WithoutId(queue, Some(segment));
    }

    /** POST /api/feedback/apply. An unknown id or a failed model call is an error before any write;
        otherwise both snapshots are written, the live text replaced, a version appended and every
        item with the applied id removed from the queue, which is the applied item alone exactly
        when no other item shares its id. `reply` is the language model's answer. */
    method ApplyFeedback(feedbackId: Option<string>, reply: Option<string>, now: string) returns (r: ApplyResult)
      requires Valid()
      modifies this`snapshots, this`kb, this`versions, this`queue
      ensures Valid()
      ensures var k := FindItem(old(queue), feedbackId);
        k == -1 ==> r == ApplyFailed("Feedback item not found")
      ensures r.ApplyFailed? ==>
        snapshots == old(snapshots) && kb == old(kb) && versions == old(versions) && queue == old(queue)
      ensures FindItem(old(queue), feedbackId) >= 0 && reply.None? ==> r.ApplyFailed?
      ensures var k := FindItem(old(queue), feedbackId);
        k >= 0 && reply.Some? ==>
          && r == ApplyOk(reply.value)
          && kb == reply.value
          && snapshots == old(snapshots)[BeforeFile(FileStamp(now)) := old(kb)][AfterFile(FileStamp(now)) := reply.value]
          && versions == old(versions) + [NewVersion(old(versions), FileStamp(now), now, old(queue)[k].summary)]
          && queue == WithoutId(old(queue), feedbackId)
      ensures var k := FindItem(old(queue), feedbackId);
        k >= 0 && reply.Some? && IdUnique(old(queue), k) ==>
          queue == RemoveApplied(old(queue), k)
      ensures r.ApplyOk? ==> Content(versions, snapshots, kb, AtVersion(Some(|versions|))) == r.content
    {
      var k := FindItem(queue, feedbackId);
      if k == -1 {
        return ApplyFailed("Feedback item not found");
      }
      if reply.None? {
        return ApplyFailed("Gemini API error");
      }
      var updated := reply.value;
      var stamp := FileStamp(now);
      NewVersionContent(versions, snapshots, kb, updated, stamp, now, queue[k].summary);
      var snapshots' := snapshots[BeforeFile(stamp) := kb][AfterFile(stamp) := updated];
      var versions' := versions + [NewVersion(versions, stamp, now, queue[k].summary)];
      var queue' := WithoutId(queue, feedbackId);
      if IdUnique(queue, k) {
        RemoveAppliedIsFilter(queue, k);
      }
      snapshots, kb, versions, queue := snapshots', updated, versions', queue';
      r := ApplyOk(updated);
    }

    /** GET /api/kb/content with its `versionId` search parameter. */
    method KbContent(versionId: Option<string>) returns (content: string)
      ensures content == Content(versions, snapshots, kb, QueryOf(versionId))
      ensures versionId.None? || versionId.value == "" ==> content == kb
      ensures versionId.Some? && versionId.value != "" && ParseInt(versionId.value).None? ==> content == ""
    {
      content := Content(versions, snapshots, kb, QueryOf(versionId));
    }

    /** GET /api/kb/versions. */
    method KbVersions() returns (vs: seq<Version>)
      ensures vs == versions
    {
      vs := versions;
    }
  }

  /** The launch loop of the reset: each script starts two seconds after the previous one. */
  method ScheduleRunners(scripts: seq<(string, string)>) returns (scheduled: seq<Launch>)
    ensures scheduled == Schedule(scripts, 0)
  {
    scheduled := [];
    var totalDelay: nat := 0;
    for i := 0 to |scripts|
      invariant totalDelay == 2 * i && |scheduled| == i
      invariant forall j :: 0 <= j < i ==> scheduled[j] == Launch(scripts[j].0, scripts[j].1, 2 * j)
    {
      scheduled := scheduled + [Launch(scripts[i].0, scripts[i].1, totalDelay)];
      totalDelay := totalDelay + 2;
    }
  }
}
